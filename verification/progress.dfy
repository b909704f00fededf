// Progress of the whole system: from every reachable state a reconcile that meets no
// faults can be run to its end.
module Progress {
  import opened Api
  import opened Cluster
  import opened Convergence
  import opened Executions
  import opened Machine
  import opened Observations
  import opened System
  import Reporting
  import Services
  import StatefulSets

  function LocalOf(s: State, k: Key): Local {
    Local(s.world, WorkerAt(s, k))
  }

  lemma CallExtendsRun(run: seq<State>, k: Key, b: Local) returns (s: State)
    requires IsRun(run) && CleanStep(k, LocalOf(Last(run), k), b)
    ensures IsRun(run + [s]) && LocalOf(s, k) == b
  {
    var from := Last(run);
    var order :| WorkEnabled(WorkerAt(from, k), order) && b == Moved(k, LocalOf(from, k), order);
    s := State(b.w, from.workers[k := b.p], from.defWorkers);
    assert WorkStep(from, k, NoFault, order, s);
    assert Step(from, Work(k, NoFault, order), s);
    RunExtended(run, s);
  }

  lemma {:induction false} CallsExtendRun(run: seq<State>, k: Key, calls: seq<Local>, n: nat)
    returns (longer: seq<State>)
    requires IsRun(run) && CallsOnly(k, calls) && n < |calls| && LocalOf(Last(run), k) == calls[0]
    ensures IsRun(longer) && run <= longer && LocalOf(Last(longer), k) == calls[n]
  {
    if n == 0 {
      longer := run;
    } else {
      var before := CallsExtendRun(run, k, calls, n - 1);
      assert CleanStep(k, calls[n - 1], calls[(n - 1) + 1]);
      var s := CallExtendsRun(before, k, calls[n]);
      longer := before + [s];
    }
  }

  lemma RestartExtendsRun(run: seq<State>, k: Key) returns (longer: seq<State>)
    requires IsRun(run)
    ensures IsRun(longer) && run <= longer && LocalOf(Last(longer), k) == Local(Last(run).world, Idle)
  {
    var from := Last(run);
    var s := from.(workers := from.workers[k := Idle]);
    assert Step(from, Restart(k), s);
    RunExtended(run, s);
    longer := run + [s];
  }

  /** Every run that has come to a live server under the finalizer that passes the gates can
      go on to where all its children match and its stored status shows them. */
  lemma RunCanArrive(run: seq<State>, k: Key, x: Server, d: Option<GameDef>) returns (longer: seq<State>)
    requires IsRun(run) && Setting(k, x, d, Last(run).world)
    ensures IsRun(longer) && run <= longer && Arrived(k, x, d, LocalOf(Last(longer), k))
  {
    var restarted := RestartExtendsRun(run, k);
    var calls := CleanReconcileExists(k, x, d, Last(run).world);
    longer := CallsExtendRun(restarted, k, calls, |calls| - 1);
  }

  // A run in which an error message outlives the error.

  const PLAIN_SPEC := SteamServerSpec("", map[], None, "", [], [], [], [], [], Some(StorageSpec(Quantity(0), None)),
                                      None, "ClusterIP", "", None, None, "")

  const FOREIGN_CONTAINER := Container("", "", [], [], [], [], StatefulSets.NO_RESOURCES, [])
  const FOREIGN_SPEC := StatefulSetSpec(0, "", map[], map[], FOREIGN_CONTAINER, FOREIGN_CONTAINER, [])

  function PlainServer(k: Key): Server {
    Server(k, 0, 0, false, [FINALIZER], PLAIN_SPEC, EMPTY_STATUS)
  }

  /** A StatefulSet whose pod failed, and a Service without an address, made by others. */
  function FailedPodWorld(k: Key): World {
    var sts := StatefulSet(0, Other, None, map[], FOREIGN_SPEC, 1, 0);
    var svc := Service(0, Other, None, map[], "ClusterIP", map[], [], "", []);
    World(0, map[k := PlainServer(k)], map[], map[], map[], map[k := sts], map[k := svc],
        map[PodKey(k) := Pod("Failed", [], [])])
  }

  /** What stays so while the children are reconciled: the pod failed, and the status that is
      stored shows what there is to see. */
  ghost predicate StaysFailed(k: Key, x: Server, a: Local) {
    && Find(a.w.servers, k) == Some(x)
    && Find(a.w.pods, PodKey(k)) == Some(Pod("Failed", [], []))
    && k in a.w.statefulSets && a.w.statefulSets[k].replicas == 1
    && k in a.w.services && a.w.services[k].clusterIP == ""
    && !WritesStatus(a.p)
  }

  /** A server that shows an error, no address and no ports, as it is shown without a Service. */
  ghost predicate ShowsError(x: Server) {
    && x.spec.serviceType == "ClusterIP" && x.spec.ports == [] && x.spec.gameDefinition == ""
    && Shows(x.status, Error, None)
  }

  lemma SeenFailed(k: Key, x: Server, a: Local)
    requires OnTrack(k, x, None, a) && StaysFailed(k, x, a) && ShowsError(x) && Reporting.Stage(a.p) == 5
    ensures StateSeen(k, a.w) == Error && Shows(x.status, Error, Find(a.w.services, k))
  {
    var svc := a.w.services[k];
    assert ServiceMatches(k, x, None, a.w);
    assert |WithoutNodePorts(svc.ports)| == |Services.ServicePorts(ServiceBuilderFor(x, None).GetPorts())|;
    assert DeterminePorts(Some(svc)) == [];
  }

  lemma ReplicasKept(w: World, op: Op)
    requires WritesStatefulSet(op) && op.key in w.statefulSets
    ensures var w' := Exec(w, op).0;
            && w' == w.(statefulSets := w'.statefulSets, clock := w'.clock)
            && op.key in w'.statefulSets && w'.statefulSets[op.key].replicas == w.statefulSets[op.key].replicas
  {
  }

  lemma AddressKept(w: World, op: Op)
    requires op.UpdateService? && op.key in w.services && op.svc.clusterIP == w.services[op.key].clusterIP
    ensures var w' := Exec(w, op).0;
            && w' == w.(services := w'.services, clock := w'.clock)
            && op.key in w'.services && w'.services[op.key].clusterIP == w.services[op.key].clusterIP
  {
  }

  lemma ConfigCallKeeps(w: World, op: Op)
    requires IsRead(op) || WritesConfigMap(op) || WritesClaim(op)
    ensures var w' := Exec(w, op).0;
            w'.servers == w.servers && w'.pods == w.pods && w'.statefulSets == w.statefulSets
                && w'.services == w.services
  {
  }

  lemma ChildCallStaysFailed(k: Key, x: Server, a: Local)
    requires OnTrack(k, x, None, a) && StaysFailed(k, x, a) && !a.p.RemovingFinalizer? && !a.p.AddingFinalizer?
    ensures StaysFailed(k, x, a.(w := Exec(a.w, NextOp(k, a.p)).0))
  {
    var op := NextOp(k, a.p);
    if WritesStatefulSet(op) {
      ReplicasKept(a.w, op);
    } else if WritesService(op) {
      AddressKept(a.w, op);
    } else {
      ConfigCallKeeps(a.w, op);
    }
  }

  lemma FailedStepStays(k: Key, x: Server, a: Local, b: Local)
    requires OnTrack(k, x, None, a) && StaysFailed(k, x, a) && ShowsError(x) && CleanStep(k, a, b)
    ensures StaysFailed(k, x, b)
  {
    var order :| WorkEnabled(a.p, order) && b == Moved(k, a, order);
    ChildCallStaysFailed(k, x, a);
    if Reporting.Stage(a.p) == 5 {
      SeenFailed(k, x, a);
      ObserveAdvances(k, a.w, a.p, order);
    } else {
      NothingReportedYet(a.p, Exec(a.w, NextOp(k, a.p)).1, order);
      CleanStepStays(k, x, None, a, b);
    }
  }

  lemma {:induction false} CallsStayFailed(k: Key, x: Server, calls: seq<Local>, n: nat)
    requires CallsOnly(k, calls) && n < |calls| && Setting(k, x, None, calls[0].w)
    requires StaysFailed(k, x, calls[0]) && ShowsError(x)
    ensures StaysFailed(k, x, calls[n])
  {
    if n == 0 {
    } else {
      CallsStayFailed(k, x, calls, n - 1);
      CallsOnlyIsClean(k, x, None, calls);
      CleanRunOnTrack(k, x, None, calls, n - 1);
      assert CleanStep(k, calls[n - 1], calls[(n - 1) + 1]);
      FailedStepStays(k, x, calls[n - 1], calls[n]);
    }
  }

  // How the error got there: a refused read in the first reconcile.

  function Before(k: Key): State { State(FailedPodWorld(k), map[], map[]) }

  function AtRead(k: Key): State {
    State(FailedPodWorld(k), map[k := StatefulSetGet(PlainServer(k), None)], map[])
  }

  function AtError(k: Key): State {
    State(FailedPodWorld(k), map[k := FailedAt(PlainServer(k), "StatefulSet")], map[])
  }

  function FailedServer(k: Key): Server { Errored(PlainServer(k), "StatefulSet").(rv := 1) }

  function AfterError(k: Key): State {
    State(FailedPodWorld(k).(servers := map[k := FailedServer(k)], clock := 1), map[k := Finished(Failure)], map[])
  }

  lemma StartIsRun(k: Key)
    ensures IsRun([Before(k)])
  {
  }

  lemma FirstStep(k: Key)
    ensures Step(Before(k), Work(k, NoFault, []), AtRead(k))
  {
    PlainStart(k);
    assert AtRead(k).workers == Before(k).workers[k := StatefulSetGet(PlainServer(k), None)];
  }

  lemma SecondStep(k: Key)
    ensures Step(AtRead(k), Work(k, Refused, []), AtError(k))
  {
    assert AtError(k).workers == AtRead(k).workers[k := FailedAt(PlainServer(k), "StatefulSet")];
  }

  lemma StepIs(s: State, k: Key, p: Worker, fault: Fault, w': World, reply: Reply)
    requires WorkerAt(s, k) == p && WorkEnabled(p, []) && Call(s.world, NextOp(k, p), fault) == (w', reply)
    ensures Step(s, Work(k, fault, []), State(w', s.workers[k := Advance(p, reply, [])], s.defWorkers))
  {
  }

  lemma ThirdStep(k: Key)
    ensures Step(AtError(k), Work(k, NoFault, []), AfterError(k))
  {
    var p := FailedAt(PlainServer(k), "StatefulSet");
    ErrorStored(k);
    assert NextOp(k, p) == UpdateServerStatus(Errored(PlainServer(k), "StatefulSet"));
    StepIs(AtError(k), k, p, NoFault, AfterError(k).world, Done);
    assert AfterError(k).workers == AtError(k).workers[k := Finished(Failure)];
  }

  lemma ErrorStored(k: Key)
    ensures ExecUpdateServerStatus(FailedPodWorld(k), Errored(PlainServer(k), "StatefulSet"))
         == (FailedPodWorld(k).(servers := map[k := FailedServer(k)], clock := 1), Done)
  {
    var w := FailedPodWorld(k);
    assert w.servers[k := FailedServer(k)] == map[k := FailedServer(k)];
  }

  lemma StepExtendsRun(run: seq<State>, a: Action, s: State) returns (longer: seq<State>)
    requires IsRun(run) && Step(Last(run), a, s)
    ensures IsRun(longer) && Last(longer) == s
  {
    RunExtended(run, s);
    longer := run + [s];
  }

  lemma ReadIsReached(k: Key) returns (run: seq<State>)
    ensures IsRun(run) && Last(run) == AtRead(k)
  {
    StartIsRun(k);
    FirstStep(k);
    run := StepExtendsRun([Before(k)], Work(k, NoFault, []), AtRead(k));
  }

  lemma ErrorIsReached(k: Key) returns (run: seq<State>)
    ensures IsRun(run) && Last(run) == AtError(k)
  {
    run := ReadIsReached(k);
    SecondStep(k);
    run := StepExtendsRun(run, Work(k, Refused, []), AtError(k));
  }

  lemma FirstError(k: Key) returns (run: seq<State>)
    ensures IsRun(run) && Last(run) == AfterError(k)
  {
    run := ErrorIsReached(k);
    ThirdStep(k);
    run := StepExtendsRun(run, Work(k, NoFault, []), AfterError(k));
  }

  lemma FailedSetting(k: Key)
    ensures Setting(k, FailedServer(k), None, AfterError(k).world)
    ensures StaysFailed(k, FailedServer(k), Local(AfterError(k).world, Idle)) && ShowsError(FailedServer(k))
  {
  }

  lemma FailedCalls(k: Key) returns (calls: seq<Local>)
    ensures CallsOnly(k, calls) && calls[0] == Local(AfterError(k).world, Idle)
    ensures Arrived(k, FailedServer(k), None, calls[|calls| - 1])
    ensures StaysFailed(k, FailedServer(k), calls[|calls| - 1])
  {
    FailedSetting(k);
    calls := CleanReconcileExists(k, FailedServer(k), None, AfterError(k).world);
    CallsStayFailed(k, FailedServer(k), calls, |calls| - 1);
  }

  /** A run of the system from its start in which a read is refused once and a later reconcile
      meets no fault, settles the children and observes an Error: the message that is stored at
      its end is still the one about the refused read. */
  lemma ErrorMessageOutlives(k: Key) returns (run: seq<State>)
    ensures IsRun(run) && WorkerAt(Last(run), k) == Finished(RequeueAfter(10))
    ensures AllMatch(k, FailedServer(k), None, Last(run).world) && StoreShows(k, Last(run).world, Error)
    ensures k in Last(run).world.servers
    ensures Last(run).world.servers[k].status == ServerStatus(Error, "", [], "Failed to reconcile StatefulSet: ")
  {
    run := FirstError(k);
    run := RestartExtendsRun(run, k);
    var calls := FailedCalls(k);
    run := CallsExtendRun(run, k, calls, |calls| - 1);
    ArrivedFailed(k, calls[|calls| - 1]);
    MessageSpelled();
  }

  lemma MessageSpelled()
    ensures FailureMessage("StatefulSet") == "Failed to reconcile StatefulSet: "
  {
    assert "Failed to reconcile " + "StatefulSet" + ": " == "Failed to reconcile StatefulSet: ";
  }

  lemma ArrivedFailed(k: Key, a: Local)
    requires Arrived(k, FailedServer(k), None, a) && StaysFailed(k, FailedServer(k), a)
    ensures AllMatch(k, FailedServer(k), None, a.w) && StoreShows(k, a.w, Error) && a.p == Finished(RequeueAfter(10))
    ensures k in a.w.servers && a.w.servers[k].status == ServerStatus(Error, "", [], FailureMessage("StatefulSet"))
  {
    StateSeenShows(k, a.w);
  }

  lemma PlainStart(k: Key)
    ensures Advance(Idle, GotServer(PlainServer(k)), []) == StatefulSetGet(PlainServer(k), None)
  {
    var x := PlainServer(k);
    assert FINALIZER in x.finalizers;
    assert ClaimBuilderFor(x, None).Desired() == None;
  }
}
