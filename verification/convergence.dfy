// Convergence: what reconciles without faults establish, from any state of the
// children, and what reconciles cut off anywhere leave behind.
module Convergence {
  import opened Api
  import opened Cluster
  import opened Enumeration
  import opened Machine
  import opened Observations
  import opened Provenance
  import opened System
  import Reporting
  import Services

  /** The cluster and the one worker of a server. */
  datatype Local = Local(w: World, p: Worker)

  ghost predicate CleanStep(k: Key, a: Local, b: Local) {
    exists order :: WorkEnabled(a.p, order) && b == Moved(k, a, order)
  }

  function Moved(k: Key, a: Local, order: seq<string>): Local
    requires !a.p.Finished? && (a.p.ClaimCreate? ==> ClaimBuilderFor(a.p.server, a.p.def).Desired().Some?)
  {
    Local(Exec(a.w, NextOp(k, a.p)).0, Advance(a.p, Exec(a.w, NextOp(k, a.p)).1, order))
  }

  /** Others may do anything that does not touch this server, its definition and its children. */
  ghost predicate CalmStep(k: Key, a: Local, b: Local) {
    && a.p == b.p
    && Find(a.w.servers, k) == Find(b.w.servers, k)
    && (k in a.w.servers ==>
          var n := a.w.servers[k].spec.gameDefinition; Find(a.w.defs, n) == Find(b.w.defs, n))
    && Find(a.w.configMaps, ConfigMapKey(k)) == Find(b.w.configMaps, ConfigMapKey(k))
    && Find(a.w.claims, ClaimKey(k)) == Find(b.w.claims, ClaimKey(k))
    && Find(a.w.statefulSets, k) == Find(b.w.statefulSets, k)
    && Find(a.w.services, k) == Find(b.w.services, k)
  }

  ghost predicate CleanRun(k: Key, run: seq<Local>) {
    && |run| > 0 && run[0].p == Idle
    && (forall i, j :: 0 <= i < j <= i + 1 && j < |run| ==> CleanStep(k, run[i], run[j]) || CalmStep(k, run[i], run[j]))
  }

  /** A live server under the finalizer that passes the gates, and no ConfigMap of another owner in its way. */
  ghost predicate Setting(k: Key, x: Server, d: Option<GameDef>, w: World) {
    && x.key == k && Find(w.servers, k) == Some(x)
    && !x.deleting && FINALIZER in x.finalizers
    && (d.None? <==> x.spec.gameDefinition == "")
    && (d.Some? ==> Find(w.defs, x.spec.gameDefinition) == d)
    && GateOpen(x, d)
    && (x.spec.configFiles != [] && ConfigMapKey(k) in w.configMaps ==>
          !OwnedByAnother(w.configMaps[ConfigMapKey(k)].owner, x))
  }

  // What a finished reconcile has established of each child.

  ghost predicate ConfigMapMatches(k: Key, x: Server, w: World) {
    x.spec.configFiles == []
    || (ConfigMapKey(k) in w.configMaps
        && BuiltConfigMap(w.configMaps[ConfigMapKey(k)], x) && w.configMaps[ConfigMapKey(k)].owner == Some(OwnerOf(x)))
  }

  ghost predicate ClaimMatches(k: Key, x: Server, d: Option<GameDef>, w: World) {
    ClaimBuilderFor(x, d).Desired().None?
    || (ClaimKey(k) in w.claims && HasLabels(w.claims[ClaimKey(k)].labels, ClaimBuilderFor(x, d).Labels()))
  }

  ghost predicate StatefulSetMatches(k: Key, x: Server, d: Option<GameDef>, w: World) {
    k in w.statefulSets
    && exists order :: Enumerates(order, x.spec.config.Keys) && BuiltStatefulSet(w.statefulSets[k], x, d, order)
  }

  ghost predicate ServiceMatches(k: Key, x: Server, d: Option<GameDef>, w: World) {
    k in w.services && BuiltService(w.services[k], x, d)
  }

  ghost predicate Behind(k: Key, x: Server, d: Option<GameDef>, w: World, stage: nat) {
    && (stage > 1 ==> ConfigMapMatches(k, x, w))
    && (stage > 2 ==> ClaimMatches(k, x, d, w))
    && (stage > 3 ==> StatefulSetMatches(k, x, d, w))
    && (stage > 4 ==> ServiceMatches(k, x, d, w))
  }

  ghost predicate AllMatch(k: Key, x: Server, d: Option<GameDef>, w: World) {
    Behind(k, x, d, w, 5)
  }

  /** Copies are current: nobody else writes. */
  ghost predicate Current(k: Key, w: World, p: Worker) {
    && (p.ConfigMapCreate? ==> ConfigMapKey(k) !in w.configMaps)
    && (p.ConfigMapUpdate? ==> Find(w.configMaps, ConfigMapKey(k)) == Some(p.configMap))
    && (p.ClaimCreate? ==> ClaimKey(k) !in w.claims)
    && (p.ClaimUpdate? ==> Find(w.claims, ClaimKey(k)) == Some(p.claim))
    && (p.StatefulSetCreate? ==> k !in w.statefulSets)
    && (p.StatefulSetUpdate? ==> Find(w.statefulSets, k) == Some(p.sts))
    && (p.ServiceCreate? ==> k !in w.services)
    && (p.ServiceUpdate? ==> Find(w.services, k) == Some(p.svc))
  }

  function SeenIn<T>(m: map<Key, T>, k: Key): Seen<T> {
    if k in m then Found(m[k]) else Absent
  }

  /** What was seen for the status is still so: only the pod may have moved since. */
  ghost predicate SeenCurrent(k: Key, w: World, p: Worker) {
    && (p.ObserveService? || p.ObservePod? ==> p.seenSts == SeenIn(w.statefulSets, k))
    && (p.ObservePod? ==> p.seenSvc == Find(w.services, k))
    && (p.StatusWrite? ==> Shows(p.server.status, p.server.status.state, Find(w.services, k)))
  }

  ghost predicate OnTrack(k: Key, x: Server, d: Option<GameDef>, a: Local) {
    && Setting(k, x, d, a.w)
    && Shape(a.p)
    && Current(k, a.w, a.p) && SeenCurrent(k, a.w, a.p)
    && Behind(k, x, d, a.w, Reporting.Stage(a.p))
    && (a.p.FetchingDef? ==> a.p.server == x && d.Some?)
    && (HasPlan(a.p) ==> a.p.server == x && a.p.def == d)
    && (a.p.ObserveStatefulSet? || a.p.ObserveService? || a.p.ObservePod? ==> a.p.server == x)
    && (a.p.StatusWrite? ==> a.p.server.(status := x.status) == x)
    && !a.p.RemovingFinalizer? && !a.p.AddingFinalizer? && !a.p.ErrorWrite? && !a.p.Finished?
  }

  /** Finished in order: everything matches, only the status of the server may have moved,
      and the stored status shows the stored service and the state that the outcome is about. */
  ghost predicate Arrived(k: Key, x: Server, d: Option<GameDef>, a: Local) {
    && AllMatch(k, x, d, a.w)
    && k in a.w.servers && a.w.servers[k].(rv := x.rv, status := x.status) == x
    && Shows(a.w.servers[k].status, a.w.servers[k].status.state, Find(a.w.services, k))
    && a.p == Settled(a.w.servers[k].status.state)
  }

  ghost predicate CleanInv(k: Key, x: Server, d: Option<GameDef>, a: Local) {
    OnTrack(k, x, d, a) || Arrived(k, x, d, a)
  }

  // One clean step.

  lemma CleanGate(k: Key, x: Server, d: Option<GameDef>, w: World)
    requires Setting(k, x, d, w)
    ensures OnTrack(k, x, d, Local(w, Gate(x, d)))
  {
  }

  lemma CleanStart(k: Key, x: Server, d: Option<GameDef>, a: Local, order: seq<string>)
    requires OnTrack(k, x, d, a) && (a.p.Idle? || a.p.FetchingDef?) && WorkEnabled(a.p, order)
    ensures OnTrack(k, x, d, Moved(k, a, order))
  {
    if a.p.FetchingDef? || d.None? {
      CleanGate(k, x, d, a.w);
    }
  }

  lemma CleanEnterClaim(k: Key, x: Server, d: Option<GameDef>, w: World)
    requires Setting(k, x, d, w) && ConfigMapMatches(k, x, w)
    ensures OnTrack(k, x, d, Local(w, EnterClaim(x, d)))
  {
  }

  lemma CleanConfigMapRead(k: Key, x: Server, d: Option<GameDef>, a: Local, order: seq<string>)
    requires OnTrack(k, x, d, a) && a.p.ConfigMapGet?
    ensures OnTrack(k, x, d, Moved(k, a, order))
  {
    if ConfigMapMatches(k, x, a.w) {
      CleanEnterClaim(k, x, d, a.w);
    }
  }

  lemma CleanConfigMapWrite(k: Key, x: Server, d: Option<GameDef>, a: Local, order: seq<string>)
    requires OnTrack(k, x, d, a) && (a.p.ConfigMapCreate? || a.p.ConfigMapUpdate?)
    ensures OnTrack(k, x, d, Moved(k, a, order))
  {
    var b := Moved(k, a, order);
    assert Exec(a.w, NextOp(k, a.p)).1.Done?;
    assert Setting(k, x, d, b.w) && ConfigMapMatches(k, x, b.w);
    CleanEnterClaim(k, x, d, b.w);
  }

  lemma CleanClaimRead(k: Key, x: Server, d: Option<GameDef>, a: Local, order: seq<string>)
    requires OnTrack(k, x, d, a) && a.p.ClaimGet?
    ensures OnTrack(k, x, d, Moved(k, a, order))
  {
    assert Exec(a.w, NextOp(k, a.p)).0 == a.w;
  }

  lemma CleanClaimWrite(k: Key, x: Server, d: Option<GameDef>, a: Local, order: seq<string>)
    requires OnTrack(k, x, d, a) && (a.p.ClaimCreate? || a.p.ClaimUpdate?)
    ensures OnTrack(k, x, d, Moved(k, a, order))
  {
    var b := Moved(k, a, order);
    assert Setting(k, x, d, b.w) && ConfigMapMatches(k, x, b.w);
    assert Exec(a.w, NextOp(k, a.p)).1.Done?;
    assert ClaimMatches(k, x, d, b.w);
  }

  lemma CleanStatefulSetRead(k: Key, x: Server, d: Option<GameDef>, a: Local, order: seq<string>)
    requires OnTrack(k, x, d, a) && a.p.StatefulSetGet? && WorkEnabled(a.p, order)
    ensures OnTrack(k, x, d, Moved(k, a, order))
  {
  }

  lemma CleanStatefulSetWrite(k: Key, x: Server, d: Option<GameDef>, a: Local, order: seq<string>)
    requires OnTrack(k, x, d, a) && (a.p.StatefulSetCreate? || a.p.StatefulSetUpdate?)
    ensures OnTrack(k, x, d, Moved(k, a, order))
  {
    var op := NextOp(k, a.p);
    var w' := Exec(a.w, op).0;
    StatefulSetWriteSucceeds(a.w, op);
    assert BuiltStatefulSet(op.sts, x, d, a.p.order);
    assert BuiltStatefulSet(w'.statefulSets[k], x, d, a.p.order);
    EnterServiceOnTrack(k, x, d, w');
  }

  lemma EnterServiceOnTrack(k: Key, x: Server, d: Option<GameDef>, w: World)
    requires Setting(k, x, d, w) && Behind(k, x, d, w, 4)
    ensures OnTrack(k, x, d, Local(w, ServiceGet(x, d)))
  {
  }

  lemma CleanServiceRead(k: Key, x: Server, d: Option<GameDef>, w: World, order: seq<string>)
    requires Setting(k, x, d, w) && Behind(k, x, d, w, 4)
    ensures OnTrack(k, x, d, Moved(k, Local(w, ServiceGet(x, d)), order))
  {
    EnterServiceWriteOnTrack(k, x, d, w);
    ServiceReadMoves(k, x, d, w, order);
  }

  lemma ServiceReadMoves(k: Key, x: Server, d: Option<GameDef>, w: World, order: seq<string>)
    ensures Moved(k, Local(w, ServiceGet(x, d)), order)
         == Local(w, if k in w.services then ServiceUpdate(x, d, w.services[k]) else ServiceCreate(x, d))
  {
  }

  lemma EnterServiceWriteOnTrack(k: Key, x: Server, d: Option<GameDef>, w: World)
    requires Setting(k, x, d, w) && Behind(k, x, d, w, 4)
    ensures OnTrack(k, x, d,
        Local(w, if k in w.services then ServiceUpdate(x, d, w.services[k]) else ServiceCreate(x, d)))
  {
  }

  lemma CleanServiceWrite(k: Key, x: Server, d: Option<GameDef>, a: Local, order: seq<string>)
    requires OnTrack(k, x, d, a) && (a.p.ServiceCreate? || a.p.ServiceUpdate?)
    ensures OnTrack(k, x, d, Moved(k, a, order))
  {
    var op := NextOp(k, a.p);
    var w' := Exec(a.w, op).0;
    ServiceWriteSucceeds(a.w, op);
    NoNodePorts(ServiceBuilderFor(x, d).GetPorts());
    assert BuiltService(op.svc, x, d);
    assert BuiltService(w'.services[k], x, d);
    ObserveOnTrack(k, x, d, w', ObserveStatefulSet(x));
  }

  lemma ObserveOnTrack(k: Key, x: Server, d: Option<GameDef>, w: World, p: Worker)
    requires Setting(k, x, d, w) && Behind(k, x, d, w, 5) && SeenCurrent(k, w, p)
    requires (p.ObserveStatefulSet? || p.ObserveService? || p.ObservePod?) && p.server == x
    ensures OnTrack(k, x, d, Local(w, p))
  {
  }

  lemma CleanReport(k: Key, x: Server, d: Option<GameDef>, w: World, state: ServerState)
    requires Setting(k, x, d, w) && AllMatch(k, x, d, w)
    ensures CleanInv(k, x, d, Local(w, Report(x, state, Find(w.services, k))))
  {
    var p := Report(x, state, Find(w.services, k));
    if p.StatusWrite? {
      assert OnTrack(k, x, d, Local(w, p));
    } else {
      assert Arrived(k, x, d, Local(w, p));
    }
  }

  /** Where an observation leads, and from what was seen. */
  lemma ObserveAdvances(k: Key, w: World, p: Worker, order: seq<string>)
    requires p.ObserveStatefulSet? || p.ObserveService? || p.ObservePod?
    requires SeenCurrent(k, w, p)
    ensures var p' := Advance(p, Exec(w, NextOp(k, p)).1, order);
            if p'.ObserveService? || p'.ObservePod? then p'.server == p.server && SeenCurrent(k, w, p')
            else p' == Report(p.server, StateSeen(k, w), Find(w.services, k))
  {
    if p.ObserveStatefulSet? {
      assert SeenStatefulSet(Exec(w, GetStatefulSet(k)).1) == SeenIn(w.statefulSets, k);
    } else if p.ObserveService? {
      ServiceObserved(k, w, p, order);
    } else {
      PodObserved(k, w, p, order);
    }
  }

  lemma ServiceObserved(k: Key, w: World, p: Worker, order: seq<string>)
    requires p.ObserveService? && SeenCurrent(k, w, p)
    ensures Advance(p, Exec(w, GetService(k)).1, order)
         == if NeedsPod(p.seenSts) then ObservePod(p.server, p.seenSts, Find(w.services, k))
            else Report(p.server, StateSeen(k, w), Find(w.services, k))
  {
    NoPodNeeded(k, w);
  }

  lemma NoPodNeeded(k: Key, w: World)
    ensures !NeedsPod(SeenIn(w.statefulSets, k)) ==>
              DetermineState(SeenIn(w.statefulSets, k), Absent) == StateSeen(k, w)
  {
  }

  lemma PodObserved(k: Key, w: World, p: Worker, order: seq<string>)
    requires p.ObservePod? && SeenCurrent(k, w, p)
    ensures Advance(p, Exec(w, GetPod(PodKey(k))).1, order) == Report(p.server, StateSeen(k, w), Find(w.services, k))
  {
    assert SeenPod(Exec(w, GetPod(PodKey(k))).1) == SeenIn(w.pods, PodKey(k));
  }

  /** The state that shows in the cluster as it is. */
  function StateSeen(k: Key, w: World): ServerState {
    DetermineState(SeenIn(w.statefulSets, k), SeenIn(w.pods, PodKey(k)))
  }

  lemma CleanObserve(k: Key, x: Server, d: Option<GameDef>, a: Local, order: seq<string>)
    requires OnTrack(k, x, d, a) && (a.p.ObserveStatefulSet? || a.p.ObserveService? || a.p.ObservePod?)
    ensures CleanInv(k, x, d, Moved(k, a, order))
  {
    ReadsChangeNothing(a.w, NextOp(k, a.p), NoFault);
    ObserveAdvances(k, a.w, a.p, order);
    var p' := Moved(k, a, order).p;
    if p'.ObserveService? || p'.ObservePod? {
      ObserveOnTrack(k, x, d, a.w, p');
    } else {
      CleanReport(k, x, d, a.w, StateSeen(k, a.w));
    }
  }

  lemma CleanStatusWrite(k: Key, x: Server, d: Option<GameDef>, a: Local, order: seq<string>)
    requires OnTrack(k, x, d, a) && a.p.StatusWrite?
    ensures Arrived(k, x, d, Moved(k, a, order))
  {
    assert ExecUpdateServerStatus(a.w, a.p.server).1.Done?;
  }

  lemma CleanRead(k: Key, x: Server, d: Option<GameDef>, a: Local, order: seq<string>)
    requires OnTrack(k, x, d, a) && WorkEnabled(a.p, order)
    requires a.p.ConfigMapGet? || a.p.ClaimGet? || a.p.StatefulSetGet? || a.p.ServiceGet?
    ensures OnTrack(k, x, d, Moved(k, a, order))
  {
    if a.p.ConfigMapGet? {
      CleanConfigMapRead(k, x, d, a, order);
    } else if a.p.ClaimGet? {
      CleanClaimRead(k, x, d, a, order);
    } else if a.p.StatefulSetGet? {
      CleanStatefulSetRead(k, x, d, a, order);
    } else {
      CleanServiceRead(k, x, d, a.w, order);
    }
  }

  lemma CleanWrite(k: Key, x: Server, d: Option<GameDef>, a: Local, order: seq<string>)
    requires OnTrack(k, x, d, a) && WorkEnabled(a.p, order) && HasPlan(a.p)
    requires !a.p.ConfigMapGet? && !a.p.ClaimGet? && !a.p.StatefulSetGet? && !a.p.ServiceGet?
    ensures OnTrack(k, x, d, Moved(k, a, order))
  {
    if a.p.ConfigMapCreate? || a.p.ConfigMapUpdate? {
      CleanConfigMapWrite(k, x, d, a, order);
    } else if a.p.ClaimCreate? || a.p.ClaimUpdate? {
      CleanClaimWrite(k, x, d, a, order);
    } else if a.p.StatefulSetCreate? || a.p.StatefulSetUpdate? {
      CleanStatefulSetWrite(k, x, d, a, order);
    } else {
      CleanServiceWrite(k, x, d, a, order);
    }
  }

  lemma CalmStays(k: Key, x: Server, d: Option<GameDef>, a: Local, b: Local)
    requires CleanInv(k, x, d, a) && CalmStep(k, a, b)
    ensures CleanInv(k, x, d, b)
  {
    assert OnTrack(k, x, d, a) ==> OnTrack(k, x, d, b);
  }

  lemma CleanStepStays(k: Key, x: Server, d: Option<GameDef>, a: Local, b: Local)
    requires CleanInv(k, x, d, a) && (CleanStep(k, a, b) || CalmStep(k, a, b))
    ensures CleanInv(k, x, d, b)
  {
    if CalmStep(k, a, b) {
      CalmStays(k, x, d, a, b);
    } else {
      var order :| WorkEnabled(a.p, order) && b == Moved(k, a, order);
      if a.p.Idle? || a.p.FetchingDef? {
        CleanStart(k, x, d, a, order);
      } else if a.p.ConfigMapGet? || a.p.ClaimGet? || a.p.StatefulSetGet? || a.p.ServiceGet? {
        CleanRead(k, x, d, a, order);
      } else if HasPlan(a.p) {
        CleanWrite(k, x, d, a, order);
      } else if a.p.StatusWrite? {
        CleanStatusWrite(k, x, d, a, order);
      } else {
        CleanObserve(k, x, d, a, order);
      }
    }
  }

  // Convergence from any state of the children.

  lemma {:induction false} CleanRunOnTrack(k: Key, x: Server, d: Option<GameDef>, run: seq<Local>, i: int)
    requires CleanRun(k, run) && Setting(k, x, d, run[0].w) && 0 <= i < |run|
    ensures CleanInv(k, x, d, run[i])
  {
    if i == 0 {
    } else {
      CleanRunOnTrack(k, x, d, run, i - 1);
      assert CleanStep(k, run[i - 1], run[(i - 1) + 1]) || CalmStep(k, run[i - 1], run[(i - 1) + 1]);
      CleanStepStays(k, x, d, run[i - 1], run[i]);
    }
  }

  // The state that is reported was seen.

  /** The state that is about to be written, or that a finished reconcile left stored. */
  function ReportedState(k: Key, a: Local): Option<ServerState> {
    if a.p.StatusWrite? then Some(a.p.server.status.state)
    else if a.p.Finished? && k in a.w.servers then Some(a.w.servers[k].status.state)
    else None
  }

  ghost predicate ReportsFrom(k: Key, a: Local, b: Local) {
    var state := ReportedState(k, b);
    state.None? || state == ReportedState(k, a) || state == Some(StateSeen(k, a.w))
  }

  lemma NothingReportedYet(p: Worker, reply: Reply, order: seq<string>)
    requires p.Idle? || p.FetchingDef? || HasPlan(p)
    ensures !Advance(p, reply, order).StatusWrite?
  {
  }

  lemma EarlyStepStays(k: Key, x: Server, d: Option<GameDef>, a: Local, order: seq<string>)
    requires OnTrack(k, x, d, a) && WorkEnabled(a.p, order) && (a.p.Idle? || a.p.FetchingDef? || HasPlan(a.p))
    ensures OnTrack(k, x, d, Moved(k, a, order))
  {
    if a.p.Idle? || a.p.FetchingDef? {
      CleanStart(k, x, d, a, order);
    } else if a.p.ConfigMapGet? || a.p.ClaimGet? || a.p.StatefulSetGet? || a.p.ServiceGet? {
      CleanRead(k, x, d, a, order);
    } else {
      CleanWrite(k, x, d, a, order);
    }
  }

  lemma EarlyStepReports(k: Key, x: Server, d: Option<GameDef>, a: Local, order: seq<string>)
    requires OnTrack(k, x, d, a) && WorkEnabled(a.p, order) && (a.p.Idle? || a.p.FetchingDef? || HasPlan(a.p))
    ensures ReportedState(k, Moved(k, a, order)).None?
  {
    EarlyStepStays(k, x, d, a, order);
    NothingReportedYet(a.p, Exec(a.w, NextOp(k, a.p)).1, order);
  }

  lemma ObservationReports(k: Key, x: Server, d: Option<GameDef>, a: Local, order: seq<string>)
    requires OnTrack(k, x, d, a) && (a.p.ObserveStatefulSet? || a.p.ObserveService? || a.p.ObservePod?)
    ensures ReportsFrom(k, a, Moved(k, a, order))
  {
    ObserveAdvances(k, a.w, a.p, order);
    ReadsChangeNothing(a.w, NextOp(k, a.p), NoFault);
  }

  lemma StepReports(k: Key, x: Server, d: Option<GameDef>, a: Local, order: seq<string>)
    requires OnTrack(k, x, d, a) && WorkEnabled(a.p, order)
    ensures ReportsFrom(k, a, Moved(k, a, order))
  {
    if a.p.Idle? || a.p.FetchingDef? || HasPlan(a.p) {
      EarlyStepReports(k, x, d, a, order);
    } else if a.p.StatusWrite? {
      StatusWriteReports(k, x, d, a, order);
    } else {
      ObservationReports(k, x, d, a, order);
    }
  }

  lemma StatusWriteReports(k: Key, x: Server, d: Option<GameDef>, a: Local, order: seq<string>)
    requires OnTrack(k, x, d, a) && a.p.StatusWrite?
    ensures ReportedState(k, Moved(k, a, order)) == ReportedState(k, a)
  {
    CleanStatusWrite(k, x, d, a, order);
    assert ExecUpdateServerStatus(a.w, a.p.server).0.servers[k].status == a.p.server.status;
  }

  lemma {:induction false} ReportedStateWasSeen(k: Key, x: Server, d: Option<GameDef>, run: seq<Local>, i: int)
    requires CleanRun(k, run) && Setting(k, x, d, run[0].w) && 0 <= i < |run|
    ensures WasSeen(k, run, i, ReportedState(k, run[i]))
  {
    if i == 0 {
    } else {
      ReportedStateWasSeen(k, x, d, run, i - 1);
      CleanRunReports(k, x, d, run, i);
      SeenLater(k, run, i, ReportedState(k, run[i - 1]));
    }
  }

  lemma CleanRunReports(k: Key, x: Server, d: Option<GameDef>, run: seq<Local>, i: int)
    requires CleanRun(k, run) && Setting(k, x, d, run[0].w) && 0 < i < |run|
    ensures ReportsFrom(k, run[i - 1], run[i])
  {
    CleanRunOnTrack(k, x, d, run, i - 1);
    assert CleanStep(k, run[i - 1], run[(i - 1) + 1]) || CalmStep(k, run[i - 1], run[(i - 1) + 1]);
    AnyStepReports(k, x, d, run[i - 1], run[i]);
  }

  ghost predicate WasSeen(k: Key, run: seq<Local>, i: int, state: Option<ServerState>) {
    0 <= i <= |run| && (state.None? || exists j :: 0 <= j < i && state == Some(StateSeen(k, run[j].w)))
  }

  lemma SeenLater(k: Key, run: seq<Local>, i: int, state: Option<ServerState>)
    requires 0 < i <= |run| && WasSeen(k, run, i - 1, state)
    ensures WasSeen(k, run, i, state) && WasSeen(k, run, i, None)
    ensures WasSeen(k, run, i, Some(StateSeen(k, run[i - 1].w)))
  {
  }

  lemma AnyStepReports(k: Key, x: Server, d: Option<GameDef>, a: Local, b: Local)
    requires CleanInv(k, x, d, a) && (CleanStep(k, a, b) || CalmStep(k, a, b))
    ensures ReportsFrom(k, a, b)
  {
    if CleanStep(k, a, b) {
      var order :| WorkEnabled(a.p, order) && b == Moved(k, a, order);
      StepReports(k, x, d, a, order);
    }
  }

  /** Whatever the children were, a reconcile without faults never fails; when it is
      finished every child matches what the server and its definition ask for, and the stored
      status shows the service as stored and a state that was seen on the way. */
  lemma CleanReconcileConverges(k: Key, x: Server, d: Option<GameDef>, run: seq<Local>)
    requires CleanRun(k, run) && Setting(k, x, d, run[0].w)
    ensures run[|run| - 1].p.Finished? ==>
              && Arrived(k, x, d, run[|run| - 1])
              && exists j :: 0 <= j < |run| && StoreShows(k, run[j].w, run[|run| - 1].w.servers[k].status.state)
    ensures !run[|run| - 1].p.ErrorWrite? && !run[|run| - 1].p.RemovingFinalizer? && !run[|run| - 1].p.AddingFinalizer?
  {
    CleanRunOnTrack(k, x, d, run, |run| - 1);
    ReportedStateWasSeen(k, x, d, run, |run| - 1);
    if run[|run| - 1].p.Finished? {
      var j :| 0 <= j < |run| && run[|run| - 1].w.servers[k].status.state == StateSeen(k, run[j].w);
      StateSeenShows(k, run[j].w);
    }
  }

  lemma StateSeenShows(k: Key, w: World)
    ensures StoreShows(k, w, StateSeen(k, w))
  {
    ReadsShowIff(SeenIn(w.statefulSets, k), SeenIn(w.pods, PodKey(k)), StateSeen(k, w));
  }

  /** After a finished clean reconcile the stored status tells the address and the ports of the
      stored service, as its fields show them, and the outcome is the one for the stored state. */
  lemma StatusTellsService(k: Key, x: Server, d: Option<GameDef>, run: seq<Local>)
    requires CleanRun(k, run) && Setting(k, x, d, run[0].w) && run[|run| - 1].p.Finished?
    ensures var w := run[|run| - 1].w;
            && k in w.servers && k in w.services
            && AddressShows(Some(w.services[k]), w.servers[k].status.address)
            && PortsShow(Some(w.services[k]), w.servers[k].status.ports)
            && run[|run| - 1].p
               == Finished(if w.servers[k].status.state == Running then Success else RequeueAfter(10))
  {
    CleanReconcileConverges(k, x, d, run);
    var w := run[|run| - 1].w;
    assert Arrived(k, x, d, run[|run| - 1]);
    TellsIff(w.servers[k].status, w.servers[k].status.state, Some(w.services[k]));
  }

  /** How many calls a reconcile can still make. */
  function CallsLeft(p: Worker): nat {
    match p
    case Idle => 14
    case FetchingDef(_) => 13
    case ConfigMapGet(_, _) => 12
    case ConfigMapCreate(_, _) => 11
    case ConfigMapUpdate(_, _, _) => 11
    case ClaimGet(_, _) => 10
    case ClaimCreate(_, _) => 9
    case ClaimUpdate(_, _, _) => 9
    case StatefulSetGet(_, _) => 8
    case StatefulSetCreate(_, _, _) => 7
    case StatefulSetUpdate(_, _, _, _) => 7
    case ServiceGet(_, _) => 6
    case ServiceCreate(_, _) => 5
    case ServiceUpdate(_, _, _) => 5
    case ObserveStatefulSet(_) => 4
    case ObserveService(_, _) => 3
    case ObservePod(_, _, _) => 2
    case Finished(_) => 0
    case _ => 1
  }

  lemma CallsRunOut(p: Worker, reply: Reply, order: seq<string>)
    requires !p.Finished?
    ensures CallsLeft(Advance(p, reply, order)) < CallsLeft(p)
  {
  }

  /** Whatever the replies, a reconcile makes at most fourteen calls. */
  lemma ReconcileIsBounded(h: seq<Reporting.Exchange>)
    requires Reporting.IsReconcile(h)
    ensures |h| + CallsLeft(h[|h| - 1].After()) <= 14
    decreases |h|
  {
    var e := h[|h| - 1];
    CallsRunOut(e.point, e.reply, e.order);
    if |h| == 1 {
    } else {
      Reporting.ReconcilePrefix(h);
      ReconcileIsBounded(h[..|h| - 1]);
    }
  }

  /** A reconcile's own calls without faults, and nothing else. */
  ghost predicate CallsOnly(k: Key, run: seq<Local>) {
    && |run| > 0 && run[0].p == Idle
    && (forall i, j :: 0 <= i < j <= i + 1 && j < |run| ==> CleanStep(k, run[i], run[j]))
  }

  /** From every such setting there is a fault-free reconcile, and it arrives. */
  lemma CleanReconcileExists(k: Key, x: Server, d: Option<GameDef>, w: World) returns (run: seq<Local>)
    requires Setting(k, x, d, w)
    ensures CallsOnly(k, run) && CleanRun(k, run)
    ensures run[0] == Local(w, Idle) && Arrived(k, x, d, run[|run| - 1])
  {
    run := Finish(k, x, d, [Local(w, Idle)]);
    CallsOnlyIsClean(k, x, d, run);
  }

  lemma CallsOnlyIsClean(k: Key, x: Server, d: Option<GameDef>, run: seq<Local>)
    requires CallsOnly(k, run) && Setting(k, x, d, run[0].w)
    ensures CleanRun(k, run) && CleanInv(k, x, d, run[|run| - 1])
  {
    CleanRunOnTrack(k, x, d, run, |run| - 1);
  }

  lemma {:induction false} Finish(k: Key, x: Server, d: Option<GameDef>, begun: seq<Local>) returns (run: seq<Local>)
    requires CallsOnly(k, begun) && Setting(k, x, d, begun[0].w)
    ensures CallsOnly(k, run) && run[0] == begun[0] && Arrived(k, x, d, run[|run| - 1])
    decreases CallsLeft(begun[|begun| - 1].p)
  {
    CallsOnlyIsClean(k, x, d, begun);
    if Arrived(k, x, d, begun[|begun| - 1]) {
      run := begun;
    } else {
      var longer := Extended(k, x, d, begun);
      run := Finish(k, x, d, longer);
    }
  }

  lemma CanMove(k: Key, x: Server, d: Option<GameDef>, a: Local) returns (order: seq<string>)
    requires OnTrack(k, x, d, a)
    ensures WorkEnabled(a.p, order)
  {
    order := SomeEnumeration(if a.p.StatefulSetGet? then a.p.server.spec.config.Keys else {});
  }

  lemma Extended(k: Key, x: Server, d: Option<GameDef>, begun: seq<Local>) returns (longer: seq<Local>)
    requires CallsOnly(k, begun) && OnTrack(k, x, d, begun[|begun| - 1])
    ensures CallsOnly(k, longer) && longer[0] == begun[0]
    ensures CallsLeft(longer[|longer| - 1].p) < CallsLeft(begun[|begun| - 1].p)
  {
    var a := begun[|begun| - 1];
    var order := CanMove(k, x, d, a);
    CallsRunOut(a.p, Exec(a.w, NextOp(k, a.p)).1, order);
    longer := begun + [Moved(k, a, order)];
    assert CleanStep(k, a, Moved(k, a, order));
    OneMore(k, begun, Moved(k, a, order));
  }

  lemma OneMore(k: Key, begun: seq<Local>, next: Local)
    requires CallsOnly(k, begun) && CleanStep(k, begun[|begun| - 1], next)
    ensures CallsOnly(k, begun + [next])
  {
    var longer := begun + [next];
    forall i | 0 <= i < |longer| - 1 ensures CleanStep(k, longer[i], longer[i + 1]) {
      if i < |begun| - 1 {
        assert longer[i] == begun[i] && longer[i + 1] == begun[i + 1];
      }
    }
  }

  /** The first fault-free reconcile of a new server only puts the finalizer on. */
  lemma FirstReconcileAddsFinalizer(k: Key, w: World, order: seq<string>)
    requires k in w.servers && w.servers[k].key == k && !w.servers[k].deleting && FINALIZER !in w.servers[k].finalizers
    ensures var a := Moved(k, Local(w, Idle), order);
            && !a.p.Finished? && !a.p.ClaimCreate?
            && var b := Moved(k, a, order);
               && b.p == Finished(Requeue)
               && k in b.w.servers
               && b.w.servers[k].finalizers == w.servers[k].finalizers + ["boilerr.dev/steamserver-finalizer"]
               && b.w.servers[k].(rv := w.servers[k].rv, finalizers := w.servers[k].finalizers) == w.servers[k]
               && b.w == w.(clock := b.w.clock, servers := b.w.servers)
  {
    var x := w.servers[k];
    assert x.finalizers + [FINALIZER] != x.finalizers;
  }

  /** After a reconcile that arrived, the Service selects the pods of the StatefulSet. */
  lemma ServiceSelectsOwnPods(k: Key, x: Server, d: Option<GameDef>, a: Local)
    requires Arrived(k, x, d, a)
    ensures Services.Selects(a.w.services[k].selector, a.w.statefulSets[k].spec.podLabels)
  {
    Services.SelectsOwnPodsOnly(x.key.name, x.key.name, x.spec.gameDefinition, x.spec.gameDefinition,
                                StatefulSetBuilderFor(x, d).GetAppId());
  }
}
