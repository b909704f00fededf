// What a reconcile reports: its outcome, the status of the server, and whether a
// definition is ready.
module Reporting {
  import opened Api
  import opened Cluster
  import opened Enumeration
  import opened GameDefinitions
  import opened Machine
  import opened Observations
  import opened System
  import Provenance

  // One reconcile, seen from the worker: points and replies, whatever the replies are.

  datatype Exchange = Exchange(point: Worker, reply: Reply, order: seq<string>) {
    function After(): Worker
      requires !point.Finished?
    {
      Advance(point, reply, order)
    }
  }

  ghost predicate IsReconcile(h: seq<Exchange>) {
    && |h| > 0
    && h[0].point == Idle
    && (forall i :: 0 <= i < |h| ==> !h[i].point.Finished?)
    && (forall i :: 0 < i < |h| ==> h[i].point == h[i - 1].After())
  }

  function Stage(p: Worker): nat {
    match p
    case ConfigMapGet(_, _) => 1
    case ConfigMapCreate(_, _) => 1
    case ConfigMapUpdate(_, _, _) => 1
    case ClaimGet(_, _) => 2
    case ClaimCreate(_, _) => 2
    case ClaimUpdate(_, _, _) => 2
    case StatefulSetGet(_, _) => 3
    case StatefulSetCreate(_, _, _) => 3
    case StatefulSetUpdate(_, _, _, _) => 3
    case ServiceGet(_, _) => 4
    case ServiceCreate(_, _) => 4
    case ServiceUpdate(_, _, _) => 4
    case ObserveStatefulSet(_) => 5
    case ObserveService(_, _) => 5
    case ObservePod(_, _, _) => 5
    case StatusWrite(_) => 5
    case _ => 0
  }

  /** The exchange that settled a child: it was found in order, or its write was answered. */
  predicate SettlesConfigMap(e: Exchange, x: Server) {
    || (e.point.ConfigMapGet? && e.reply.GotConfigMap? && !OwnedByAnother(e.reply.configMap.owner, x)
        && MutatedConfigMap(x, e.reply.configMap) == e.reply.configMap)
    || ((e.point.ConfigMapCreate? || e.point.ConfigMapUpdate?) && e.point.server == x && e.reply.Done?)
  }

  predicate SettlesClaim(e: Exchange, x: Server, d: Option<GameDef>) {
    || (e.point.ClaimGet? && e.reply.GotClaim? && HasLabels(e.reply.claim.labels, ClaimBuilderFor(x, d).Labels()))
    || ((e.point.ClaimCreate? || e.point.ClaimUpdate?) && e.point.server == x && e.point.def == d && e.reply.Done?)
  }

  predicate SettlesStatefulSet(e: Exchange, x: Server, d: Option<GameDef>) {
    (e.point.StatefulSetCreate? || e.point.StatefulSetUpdate?) && e.point.server == x && e.point.def == d
        && e.reply.Done?
  }

  predicate SettlesService(e: Exchange, x: Server, d: Option<GameDef>) {
    (e.point.ServiceCreate? || e.point.ServiceUpdate?) && e.point.server == x && e.point.def == d && e.reply.Done?
  }

  ghost predicate ChildrenSettled(h: seq<Exchange>, x: Server, d: Option<GameDef>, stage: nat) {
    && (stage > 1 ==> x.spec.configFiles == [] || exists i :: 0 <= i < |h| && SettlesConfigMap(h[i], x))
    && (stage > 2 ==> ClaimBuilderFor(x, d).Desired().None? || exists i :: 0 <= i < |h| && SettlesClaim(h[i], x, d))
    && (stage > 3 ==> exists i :: 0 <= i < |h| && SettlesStatefulSet(h[i], x, d))
    && (stage > 4 ==> exists i :: 0 <= i < |h| && SettlesService(h[i], x, d))
  }

  lemma SettledLater(h: seq<Exchange>, e: Exchange, x: Server, d: Option<GameDef>, stage: nat)
    requires ChildrenSettled(h, x, d, stage)
    ensures ChildrenSettled(h + [e], x, d, stage)
  {
    var h' := h + [e];
    assert forall i :: 0 <= i < |h| ==> h'[i] == h[i];
    if i :| 0 <= i < |h| && SettlesConfigMap(h[i], x) { assert SettlesConfigMap(h'[i], x); }
    if i :| 0 <= i < |h| && SettlesClaim(h[i], x, d) { assert SettlesClaim(h'[i], x, d); }
    if i :| 0 <= i < |h| && SettlesStatefulSet(h[i], x, d) { assert SettlesStatefulSet(h'[i], x, d); }
    if i :| 0 <= i < |h| && SettlesService(h[i], x, d) { assert SettlesService(h'[i], x, d); }
  }

  /** The definition a reconcile works with: the answer to its second call, or none. */
  function DefRead(h: seq<Exchange>, x: Server): Option<GameDef> {
    if x.spec.gameDefinition != "" && |h| > 1 && h[1].reply.GotDef? then Some(h[1].reply.def) else None
  }

  /** The next stage is only entered by settling the current one. */
  lemma StageAdvances(e: Exchange, x: Server, d: Option<GameDef>)
    requires HasPlan(e.point) && e.point.server == x && e.point.def == d
    ensures var p := e.After();
            && (Stage(p) == 0 || Stage(p) == Stage(e.point) || Stage(p) == Stage(e.point) + 1
                || (Stage(e.point) == 1 && Stage(p) == 3 && ClaimBuilderFor(x, d).Desired().None?))
            && (Stage(e.point) == 1 && Stage(p) > 1 ==> SettlesConfigMap(e, x))
            && (Stage(e.point) == 2 && Stage(p) > 2 ==> SettlesClaim(e, x, d))
            && (Stage(e.point) == 3 && Stage(p) > 3 ==> SettlesStatefulSet(e, x, d))
            && (Stage(e.point) == 4 && Stage(p) > 4 ==> SettlesService(e, x, d))
            && (HasPlan(p) ==> p.server == x && p.def == d)
            && (Stage(p) == 5 ==> p == ObserveStatefulSet(x))
  {
  }

  lemma ReconcilePrefix(h: seq<Exchange>)
    requires IsReconcile(h) && |h| > 1
    ensures IsReconcile(h[..|h| - 1]) && h[|h| - 1].point == h[|h| - 2].After()
    ensures h == h[..|h| - 1] + [h[|h| - 1]]
  {
    var front := h[..|h| - 1];
    assert forall i :: 0 <= i < |front| ==> front[i] == h[i];
  }

  lemma GateStage(h: seq<Exchange>, x: Server, d: Option<GameDef>)
    ensures var p := Gate(x, d);
            && ChildrenSettled(h, x, d, Stage(p))
            && (Stage(p) > 0 ==> HasPlan(p) && p.server == x && p.def == d)
            && !p.FetchingDef?
  {
  }

  /** Where a reconcile of a live server stands: what is behind it is settled. */
  ghost predicate Standing(h: seq<Exchange>, x: Server, p: Worker) {
    && ChildrenSettled(h, x, DefRead(h, x), Stage(p))
    && (HasPlan(p) ==> p.server == x && p.def == DefRead(h, x))
    && (p.ObserveStatefulSet? || p.ObserveService? || p.ObservePod? ==> p.server == x)
    && (p.FetchingDef? ==> |h| == 1 && p.server == x && x.spec.gameDefinition != "")
    && (p.AddingFinalizer? ==> |h| == 1)
    && !p.Idle? && !p.RemovingFinalizer?
  }

  lemma {:induction false} ReconcileStands(h: seq<Exchange>, x: Server)
    requires IsReconcile(h) && h[0].reply == GotServer(x) && !x.deleting
    ensures Standing(h, x, h[|h| - 1].After())
    decreases |h|
  {
    var e := h[|h| - 1];
    if |h| == 1 {
      if FINALIZER in x.finalizers && x.spec.gameDefinition == "" {
        GateStage(h, x, None);
      }
    } else {
      ReconcilePrefix(h);
      var front := h[..|h| - 1];
      ReconcileStands(front, x);
      assert Standing(front, x, e.point);
      if e.point.FetchingDef? {
        if e.reply.GotDef? {
          GateStage(h, x, Some(e.reply.def));
          assert DefRead(h, x) == Some(e.reply.def);
        }
      } else {
        assert |h| > 2 || x.spec.gameDefinition == "" || e.point.AddingFinalizer? || e.point.ErrorWrite?;
        assert DefRead(h, x) == DefRead(front, x) || Stage(e.point) == 0;
        SettledLater(front, e, x, DefRead(front, x), Stage(e.point));
        LaterStands(h, x, e);
      }
    }
  }

  lemma LaterStands(h: seq<Exchange>, x: Server, e: Exchange)
    requires |h| > 1 && h[|h| - 1] == e && !e.point.Finished? && !e.point.Idle? && !e.point.RemovingFinalizer?
    requires !e.point.FetchingDef?
    requires ChildrenSettled(h, x, DefRead(h, x), Stage(e.point))
    requires HasPlan(e.point) ==> e.point.server == x && e.point.def == DefRead(h, x)
    requires e.point.ObserveStatefulSet? || e.point.ObserveService? || e.point.ObservePod? ==> e.point.server == x
    ensures Standing(h, x, e.After())
  {
    if HasPlan(e.point) {
      StageAdvances(e, x, DefRead(h, x));
      PlanAdvances(e);
    } else {
      RestAdvances(e);
    }
  }

  lemma PlanAdvances(e: Exchange)
    requires HasPlan(e.point)
    ensures var p := e.After(); !p.Idle? && !p.RemovingFinalizer? && !p.AddingFinalizer? && !p.FetchingDef?
    ensures var p := e.After(); p.ObserveStatefulSet? || p.ObserveService? || p.ObservePod? ==>
        p.server == e.point.server
  {
  }

  lemma RestAdvances(e: Exchange)
    requires !HasPlan(e.point) && !e.point.Finished? && !e.point.Idle? && !e.point.FetchingDef?
    ensures var p := e.After();
            && !p.Idle? && !p.RemovingFinalizer? && !p.AddingFinalizer? && !p.FetchingDef? && !HasPlan(p)
            && (Stage(p) == 0 || Stage(p) == Stage(e.point))
            && (p.ObserveStatefulSet? || p.ObserveService? || p.ObservePod? ==>
                  && p.server == e.point.server
                  && (e.point.ObserveStatefulSet? || e.point.ObserveService? || e.point.ObservePod?))
  {
  }

  // No silent stall.

  /** A pod that can be played on was seen, of a StatefulSet with replicas. */
  ghost predicate SeenPlayable(e: Exchange) {
    && e.point.ObservePod? && e.point.seenSts.Found? && HasReplicas(e.point.seenSts.item)
    && e.reply.GotPod? && PodIsPlayable(e.reply.pod)
  }

  lemma SeenPlayableIff(e: Exchange)
    requires e.point.ObservePod?
    ensures SeenPlayable(e) <==> DetermineState(e.point.seenSts, SeenPod(e.reply)) == Running
  {
    RunningMeans(e.point.seenSts, SeenPod(e.reply));
  }

  /** Such a pod was seen, and that is in the status: the server as read already said so, or
      the status write that put it there was answered. */
  ghost predicate RunningReported(h: seq<Exchange>, x: Server) {
    exists i :: RunningReportedAt(h, x, i)
  }

  ghost predicate RunningReportedAt(h: seq<Exchange>, x: Server, i: int) {
    && 0 <= i < |h| && SeenPlayable(h[i]) && h[i].point.server == x
    && if Shows(x.status, Running, h[i].point.seenSvc) then i == |h| - 1
       else
         && i == |h| - 2
         && h[i + 1].point == StatusWrite(x.(status := NewStatus(Running, h[i].point.seenSvc)))
         && h[i + 1].reply.Done?
  }

  lemma SuccessCameFrom(e: Exchange)
    requires !e.point.Finished? && e.After() == Finished(Success)
    ensures || (e.point.Idle?
                && (|| e.reply == Failed(NotFound)
                    || (e.reply.GotServer? && e.reply.server.deleting && FINALIZER !in e.reply.server.finalizers)))
            || (e.point.RemovingFinalizer? && e.reply.Done?)
            || (e.point.ObservePod? && DetermineState(e.point.seenSts, SeenPod(e.reply)) == Running
                && Shows(e.point.server.status, Running, e.point.seenSvc))
            || (e.point.StatusWrite? && e.reply.Done? && e.point.server.status.state == Running)
  {
  }

  lemma StatusWriteCameFrom(e: Exchange)
    requires !e.point.Finished? && e.After().StatusWrite? && e.After().server.status.state == Running
    ensures e.point.ObservePod? && DetermineState(e.point.seenSts, SeenPod(e.reply)) == Running
    ensures e.After() == StatusWrite(e.point.server.(status := NewStatus(Running, e.point.seenSvc)))
    ensures !Shows(e.point.server.status, Running, e.point.seenSvc)
  {
  }

  /** There was no server, or a deleted one that is rid of the finalizer, or every child
      was settled, the server was seen running and its status says so. */
  ghost predicate NothingLeftToDo(h: seq<Exchange>)
    requires |h| > 0
  {
    || h[0].reply == Failed(NotFound)
    || (h[0].reply.GotServer?
        && var x := h[0].reply.server;
           if x.deleting then
               FINALIZER !in x.finalizers || (|h| == 2 && h[1].point == RemovingFinalizer(x) && h[1].reply.Done?)
           else ChildrenSettled(h, x, DefRead(h, x), 5) && RunningReported(h, x))
  }

  /** Whatever the replies, a reconcile that ends without an error and without asking to be
      run again has nothing left to do. */
  lemma NoSilentStall(h: seq<Exchange>)
    requires IsReconcile(h) && h[|h| - 1].After() == Finished(Success)
    ensures NothingLeftToDo(h)
  {
    SuccessCameFrom(h[|h| - 1]);
    if |h| > 1 {
      assert h[1].point == h[0].After();
      if h[0].reply.server.deleting {
        assert |h| > 2 ==> h[2].point == h[1].After();
      } else {
        SuccessReported(h, h[0].reply.server);
      }
    }
  }

  lemma PointStands(h: seq<Exchange>, x: Server, i: int)
    requires IsReconcile(h) && h[0].reply == GotServer(x) && !x.deleting && 0 < i < |h|
    ensures Standing(h[..i], x, h[i].point)
  {
    var front := h[..i];
    assert forall j :: 0 <= j < i ==> front[j] == h[j];
    ReconcileStands(front, x);
  }

  lemma SuccessReported(h: seq<Exchange>, x: Server)
    requires IsReconcile(h) && |h| > 1 && h[0].reply == GotServer(x) && !x.deleting
    requires h[|h| - 1].After() == Finished(Success)
    ensures ChildrenSettled(h, x, DefRead(h, x), 5) && RunningReported(h, x)
  {
    var e := h[|h| - 1];
    LastBeforeSuccess(h, x);
    SuccessSettled(h, x);
    if e.point.StatusWrite? {
      WriteReported(h, x);
    } else {
      SeenPlayableIff(e);
      assert RunningReportedAt(h, x, |h| - 1);
    }
  }

  lemma LastBeforeSuccess(h: seq<Exchange>, x: Server)
    requires IsReconcile(h) && |h| > 1 && h[0].reply == GotServer(x) && !x.deleting
    requires h[|h| - 1].After() == Finished(Success)
    ensures var e := h[|h| - 1];
            || (e.point.StatusWrite? && e.point.server.status.state == Running && e.reply.Done?)
            || (e.point.ObservePod? && e.point.server == x
                  && DetermineState(e.point.seenSts, SeenPod(e.reply)) == Running
                && Shows(x.status, Running, e.point.seenSvc))
  {
    SuccessCameFrom(h[|h| - 1]);
    PointStands(h, x, |h| - 1);
  }

  lemma WriteReported(h: seq<Exchange>, x: Server)
    requires IsReconcile(h) && |h| > 1 && h[0].reply == GotServer(x) && !x.deleting
    requires h[|h| - 1].point.StatusWrite? && h[|h| - 1].point.server.status.state == Running && h[|h| - 1].reply.Done?
    ensures RunningReported(h, x)
  {
    var i := |h| - 2;
    assert h[i + 1].point == h[i].After();
    StatusWriteCameFrom(h[i]);
    SeenPlayableIff(h[i]);
    if i > 0 {
      PointStands(h, x, i);
    }
    assert RunningReportedAt(h, x, i);
  }

  lemma SuccessSettled(h: seq<Exchange>, x: Server)
    requires IsReconcile(h) && |h| > 1 && h[0].reply == GotServer(x) && !x.deleting
    requires h[|h| - 1].point.ObservePod? || h[|h| - 1].point.StatusWrite?
    ensures ChildrenSettled(h, x, DefRead(h, x), 5)
  {
    ReconcilePrefix(h);
    var front := h[..|h| - 1];
    ReconcileStands(front, x);
    assert |front| > 1;
    assert DefRead(front, x) == DefRead(h, x);
    SettledLater(front, h[|h| - 1], x, DefRead(h, x), 5);
  }

  /** A reconcile that gives up at a child says at which, and changes nothing else of the server. */
  lemma FailureNamesTheChild(e: Exchange)
    requires HasPlan(e.point) && e.After().ErrorWrite?
    ensures var x, y := e.point.server, e.After().server;
            && y == x.(status := x.status.(state := Error, message := y.status.message))
            && y.status.message == "Failed to reconcile " + (match Stage(e.point)
                                                             case 1 => "ConfigMap"
                                                             case 2 => "PVC"
                                                             case 3 => "StatefulSet"
                                                             case _ => "Service") + ": "
    ensures forall written: Reply, order :: Advance(e.After(), written, order) == Finished(Failure)
  {
  }

  // The status of a server.

  /** In every reachable state a status other than Error has exactly its fixed message. */
  lemma MessagesMatchStates(run: seq<State>, i: int, k: Key)
    requires IsRun(run) && 0 <= i < |run| && k in run[i].world.servers
    ensures match run[i].world.servers[k].status.state
            case NoState => run[i].world.servers[k].status.message == ""
            case Pending => run[i].world.servers[k].status.message == "Waiting for resources to be scheduled"
            case Installing => run[i].world.servers[k].status.message == "SteamCMD is downloading game files"
            case Starting => run[i].world.servers[k].status.message == "Game server is starting up"
            case Running => run[i].world.servers[k].status.message == "Game server is running"
            case Error => true
  {
    RunInv(run, i);
    assert ServerOK(run[i].world, k);
  }

  /** The status that a report leaves behind. */
  function StatusAfter(x: Server, state: ServerState, svc: Option<Service>): ServerStatus {
    var p := Report(x, state, svc);
    if p.StatusWrite? then p.server.status else x.status
  }

  /** A report leaves state, address and ports as observed, and repeating it writes nothing.
      The message is the fixed one except in one case: an Error that is observed again with
      the same address and ports keeps whatever message it had. */
  lemma ReportIsFaithful(x: Server, state: ServerState, svc: Option<Service>)
    requires StatusHonest(x.status)
    ensures Tells(StatusAfter(x, state, svc), state, svc)
    ensures Report(x.(status := StatusAfter(x, state, svc)), state, svc)
        == Finished(if state == Running then Success else RequeueAfter(10))
    ensures StatusAfter(x, state, svc).message == StateMessage(state)
       <==> !(state == Error && Tells(x.status, Error, svc) && x.status.message != "An error occurred")
  {
    TellsIff(StatusAfter(x, state, svc), state, svc);
    TellsIff(x.status, Error, svc);
  }

  /** An answered status write has put exactly the reported status into the store. */
  lemma StatusWritePersists(s: State, k: Key, fault: Fault, order: seq<string>, s': State)
    requires Inv(s) && WorkStep(s, k, fault, order, s')
    requires WorkerAt(s, k).StatusWrite? && WorkerAt(s', k) != Finished(Failure)
    ensures k in s'.world.servers && s'.world.servers[k].status == WorkerAt(s, k).server.status
    ensures WorkerAt(s', k) == Settled(s'.world.servers[k].status.state)
    ensures s'.world.servers[k].spec == WorkerAt(s, k).server.spec
    ensures s'.world.servers[k].uid == WorkerAt(s, k).server.uid
  {
    assert WorkerOK(s.world, k, WorkerAt(s, k));
  }

  // Definitions.

  lemma VerdictExists(spec: GameDefinitionSpec) returns (error: Option<DefError>)
    ensures Verdict(spec, error)
  {
    if ValidDefinition(spec) {
      error := None;
    } else if spec.appId <= 0 {
      error := Some(BadAppId);
    } else if spec.command == "" {
      error := Some(NoCommand);
    } else if spec.ports == [] {
      error := Some(NoPorts);
    } else if i: nat :| i < |spec.ports| && !PortAllowed(spec.ports[i]) {
      error := Some(if spec.ports[i].name == "" then NoPortName(i) else BadContainerPort(i));
    } else {
      var k :| k in SchemaOf(spec) && !MapToAllowed(SchemaOf(spec)[k]);
      error := Some(BadMapTo(k));
    }
  }

  /** In every run, a write that changes whether a definition is ready, or why not, leaves it
      ready exactly when the spec stored at that moment is valid. */
  lemma ReadyTellsTheTruth(run: seq<State>, i: int, a: Action, n: string)
    requires IsRun(run) && 0 <= i < |run| - 1 && Step(run[i], a, run[i + 1]) && !a.Environment?
    requires n in run[i + 1].world.defs && Find(run[i].world.defs, n) != Some(run[i + 1].world.defs[n])
    ensures a.DefWork? && a.name == n
    ensures n in run[i].world.defs && run[i + 1].world.defs[n].spec == run[i].world.defs[n].spec
    ensures run[i + 1].world.defs[n].ready <==> ValidDefinition(run[i + 1].world.defs[n].spec)
  {
    var w := run[i].world;
    RunInv(run, i);
    if a.Work? {
      assert WorkerOK(w, a.key, WorkerAt(run[i], a.key));
      CallEffect(w, NextOp(a.key, WorkerAt(run[i], a.key)), a.fault);
    } else if a.DefWork? {
      assert DefWorkerOK(w, a.name, DefWorkerAt(run[i], a.name));
      CallEffect(w, DefNextOp(a.name, DefWorkerAt(run[i], a.name)), a.fault);
    }
  }

  /** A reconcile of a definition without faults and without other changes: two calls at
      most, after which ready says whether the spec is valid; on an approved valid
      definition it makes no write at all. */
  lemma DefinitionReconciled(s: State, n: string, error: Option<DefError>, s1: State, s2: State)
    requires Inv(s) && n in s.world.defs && DefWorkerAt(s, n) == DefIdle
    requires DefWorkStep(s, n, NoFault, error, s1)
    requires if DefWorkerAt(s1, n).DefFinished? then s2 == s1 else DefWorkStep(s1, n, NoFault, error, s2)
    ensures DefWorkerAt(s2, n) == DefFinished(false)
    ensures n in s2.world.defs && s2.world.defs[n].spec == s.world.defs[n].spec
    ensures s2.world.defs[n].ready <==> ValidDefinition(s2.world.defs[n].spec)
    ensures ValidDefinition(s.world.defs[n].spec) ==>
              s2.world.defs[n].message == "GameDefinition validated successfully"
    ensures ValidDefinition(s.world.defs[n].spec) && s.world.defs[n].ready && s.world.defs[n].message == VALIDATED ==>
        s2.world == s.world
  {
    assert DefOK(s.world, n);
    var d := s.world.defs[n];
    assert s1.world == s.world && DefWorkerAt(s1, n) == OnDefinition(d, error);
    if OnDefinition(d, error).DefStatusWrite? {
      VerdictWritten(s.world, OnDefinition(d, error).def);
    }
  }

  lemma VerdictWritten(w: World, d: GameDef)
    requires d.name in w.defs && w.defs[d.name].rv == d.rv
    ensures var (w', reply) := ExecUpdateDefStatus(w, d);
            && reply.Done? && d.name in w'.defs && w'.defs[d.name]
                  == w.defs[d.name].(ready := d.ready, message := d.message, rv := w'.defs[d.name].rv)
  {
  }

  /** The j-th state was reached by a write that left the definition ready, with a valid spec. */
  ghost predicate Approves(run: seq<State>, j: int, n: string) {
    && 0 < j < |run| && n in run[j].world.defs
    && run[j].world.defs[n].ready && ValidDefinition(run[j].world.defs[n].spec)
    && Find(run[j - 1].world.defs, n) != Some(run[j].world.defs[n])
    && exists a: Action :: a.DefWork? && a.name == n && Step(run[j - 1], a, run[j])
  }

  ghost predicate ReadyFromTo(run: seq<State>, j: int, i: int, n: string) {
    0 <= j <= i < |run| && forall m :: j <= m <= i ==> n in run[m].world.defs && run[m].world.defs[n].ready
  }

  /** In every reachable state a definition that is ready has been so, without a break, since
      a write of its own controller at which its spec was valid. */
  lemma {:induction false} ReadyWasApproved(run: seq<State>, i: int, n: string)
    requires IsRun(run) && 0 <= i < |run| && n in run[i].world.defs && run[i].world.defs[n].ready
    ensures exists j :: Approves(run, j, n) && ReadyFromTo(run, j, i, n)
  {
    if i == 0 {
    } else {
      assert Next(run[i - 1], run[(i - 1) + 1]);
      var a :| Step(run[i - 1], a, run[i]);
      if !a.Environment? && Find(run[i - 1].world.defs, n) != Some(run[i].world.defs[n]) {
        ReadyTellsTheTruth(run, i - 1, a, n);
        assert Approves(run, i, n) && ReadyFromTo(run, i, i, n);
      } else {
        ReadyCameFrom(run[i - 1], a, run[i], n);
        ReadyWasApproved(run, i - 1, n);
        var j :| Approves(run, j, n) && ReadyFromTo(run, j, i - 1, n);
        assert ReadyFromTo(run, j, i, n);
      }
    }
  }

  lemma ReadyCameFrom(s: State, a: Action, s': State, n: string)
    requires Step(s, a, s') && n in s'.world.defs && s'.world.defs[n].ready
    requires a.Environment? || Find(s.world.defs, n) == Some(s'.world.defs[n])
    ensures n in s.world.defs && s.world.defs[n].ready
  {
    if a.Environment? {
      assert DefEdited(s.world, s'.world, n);
    }
  }

  ghost predicate Truthful(w: World, n: string) {
    n in w.defs && w.defs[n].ready ==> ValidDefinition(w.defs[n].spec)
  }

  /** From a definition that is not ready unless valid, a step of a run leads to one that is
      ready and invalid exactly when it is an edit of others that makes the spec of a ready
      definition invalid. */
  lemma ReadyGoesStaleIff(run: seq<State>, i: int, a: Action, n: string)
    requires IsRun(run) && 0 <= i < |run| - 1 && Step(run[i], a, run[i + 1]) && Truthful(run[i].world, n)
    ensures !Truthful(run[i + 1].world, n)
       <==> (&& a.Environment?
             && n in run[i].world.defs && run[i].world.defs[n].ready
             && n in run[i + 1].world.defs && !ValidDefinition(run[i + 1].world.defs[n].spec))
  {
    if a.Environment? {
      assert DefEdited(run[i].world, run[i + 1].world, n);
    } else if n in run[i + 1].world.defs && Find(run[i].world.defs, n) != Some(run[i + 1].world.defs[n]) {
      ReadyTellsTheTruth(run, i, a, n);
    }
  }

  /** Such an edit is possible for every spec: it leaves a ready definition ready until
      its own controller looks again. */
  lemma ReadyOutlivesEdits(w: World, n: string, spec: GameDefinitionSpec) returns (w': World)
    requires n in w.defs && w.defs[n].ready
    ensures EnvStep(w, w')
    ensures n in w'.defs && w'.defs[n].ready && w'.defs[n].spec == spec
  {
    w' := w.(defs := w.defs[n := w.defs[n].(spec := spec, rv := w.clock + 1)], clock := w.clock + 1);
  }

  // No worker is ever stuck.

  /** In every reachable state a worker that is not finished can make its next call, whatever
      becomes of that call. */
  lemma WorkCanMove(s: State, k: Key, fault: Fault) returns (order: seq<string>, s': State)
    requires Inv(s) && !WorkerAt(s, k).Finished?
    ensures WorkStep(s, k, fault, order, s')
  {
    var p := WorkerAt(s, k);
    assert WorkerOK(s.world, k, p);
    order := SomeEnumeration(if p.StatefulSetGet? then p.server.spec.config.Keys else {});
    var result := Call(s.world, NextOp(k, p), fault);
    s' := State(result.0, s.workers[k := Advance(p, result.1, order)], s.defWorkers);
  }

  lemma DefWorkCanMove(s: State, n: string, fault: Fault) returns (error: Option<DefError>, s': State)
    requires !DefWorkerAt(s, n).DefFinished?
    ensures DefWorkStep(s, n, fault, error, s')
  {
    var p := DefWorkerAt(s, n);
    var result := Call(s.world, DefNextOp(n, p), fault);
    error := None;
    if result.1.GotDef? {
      error := VerdictExists(result.1.def.spec);
    }
    s' := State(result.0, s.workers, s.defWorkers[n := DefAdvance(p, result.1, error)]);
  }
}
