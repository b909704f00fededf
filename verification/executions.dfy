// Executions of one worker among all others: what lies between two of its calls is
// any number of steps of everybody else, and its calls make up a run of the system.
module Executions {
  import opened Api
  import opened Cluster
  import opened GameDefinitions
  import opened Machine
  import opened Observations
  import opened Reporting
  import opened System

  datatype Who = OfServer(key: Key) | OfDefinition(name: string)

  predicate ActionOf(a: Action, who: Who) {
    match a
    case Environment => false
    case Work(k, _, _) => who == OfServer(k)
    case Restart(k) => who == OfServer(k)
    case DefWork(n, _, _) => who == OfDefinition(n)
    case DefRestart(n) => who == OfDefinition(n)
  }

  /** A step of the environment or of another worker. */
  ghost predicate OthersStep(who: Who, s: State, s': State) {
    exists a :: !ActionOf(a, who) && Step(s, a, s')
  }

  ghost predicate OthersPath(who: Who, path: seq<State>) {
    |path| > 0 && forall i, j :: 0 <= i < j <= i + 1 && j < |path| ==> OthersStep(who, path[i], path[j])
  }

  function Last(path: seq<State>): State
    requires |path| > 0
  {
    path[|path| - 1]
  }

  function Rest(path: seq<State>): seq<State> {
    if path == [] then [] else path[1..]
  }

  // What others do does not depend on where a worker is, and leaves it there.

  function With(s: State, k: Key, p: Worker): State {
    s.(workers := s.workers[k := p])
  }

  function AllWith(path: seq<State>, k: Key, p: Worker): (r: seq<State>)
    ensures |r| == |path|
  {
    seq(|path|, i requires 0 <= i < |path| => With(path[i], k, p))
  }

  lemma WorkStepWith(k: Key, s: State, j: Key, fault: Fault, order: seq<string>, s': State, p: Worker)
    requires j != k && WorkStep(s, j, fault, order, s')
    ensures WorkStep(With(s, k, p), j, fault, order, With(s', k, p))
  {
    var q := WorkerAt(s', j);
    assert With(s', k, p).workers == With(s, k, p).workers[j := q];
    assert WorkerAt(With(s, k, p), j) == WorkerAt(s, j);
  }

  lemma DefWorkStepWith(k: Key, s: State, n: string, fault: Fault, error: Option<DefError>, s': State, p: Worker)
    requires DefWorkStep(s, n, fault, error, s')
    ensures DefWorkStep(With(s, k, p), n, fault, error, With(s', k, p))
  {
    assert DefWorkerAt(With(s, k, p), n) == DefWorkerAt(s, n);
  }

  lemma OthersStepWith(k: Key, s: State, s': State, p: Worker)
    requires OthersStep(OfServer(k), s, s')
    ensures OthersStep(OfServer(k), With(s, k, p), With(s', k, p))
  {
    var a :| !ActionOf(a, OfServer(k)) && Step(s, a, s');
    StepWith(k, s, a, s', p);
  }

  lemma StepWith(k: Key, s: State, a: Action, s': State, p: Worker)
    requires !ActionOf(a, OfServer(k)) && Step(s, a, s')
    ensures Step(With(s, k, p), a, With(s', k, p))
  {
    match a
    case Work(j, fault, order) => WorkStepWith(k, s, j, fault, order, s', p);
    case DefWork(n, fault, error) => DefWorkStepWith(k, s, n, fault, error, s', p);
    case Restart(j) => assert With(s', k, p).workers == With(s, k, p).workers[j := Idle];
    case _ =>
  }

  lemma OthersPathWith(k: Key, path: seq<State>, p: Worker)
    requires OthersPath(OfServer(k), path)
    ensures OthersPath(OfServer(k), AllWith(path, k, p))
  {
    forall i | 0 <= i < |path| - 1 ensures OthersStep(OfServer(k), AllWith(path, k, p)[i], AllWith(path, k, p)[i + 1]) {
      OthersStepWithAt(k, path, p, i);
    }
  }

  lemma OthersStepWithAt(k: Key, path: seq<State>, p: Worker, i: int)
    requires OthersPath(OfServer(k), path) && 0 <= i < |path| - 1
    ensures OthersStep(OfServer(k), AllWith(path, k, p)[i], AllWith(path, k, p)[i + 1])
  {
    var s, s' := path[i], path[i + 1];
    OthersStepWith(k, s, s', p);
    assert AllWith(path, k, p)[i] == With(s, k, p) && AllWith(path, k, p)[i + 1] == With(s', k, p);
  }

  // The same for the worker of a definition.

  function WithDef(s: State, n: string, p: DefWorker): State {
    s.(defWorkers := s.defWorkers[n := p])
  }

  function AllWithDef(path: seq<State>, n: string, p: DefWorker): (r: seq<State>)
    ensures |r| == |path|
  {
    seq(|path|, i requires 0 <= i < |path| => WithDef(path[i], n, p))
  }

  lemma StepWithDef(n: string, s: State, a: Action, s': State, p: DefWorker)
    requires !ActionOf(a, OfDefinition(n)) && Step(s, a, s')
    ensures Step(WithDef(s, n, p), a, WithDef(s', n, p))
  {
    match a
    case Work(k, fault, order) => WorkStepWithDef(n, s, k, fault, order, s', p);
    case DefWork(m, fault, error) => DefWorkStepWithDef(n, s, m, fault, error, s', p);
    case DefRestart(m) => assert WithDef(s', n, p).defWorkers == WithDef(s, n, p).defWorkers[m := DefIdle];
    case _ =>
  }

  lemma WorkStepWithDef(n: string, s: State, k: Key, fault: Fault, order: seq<string>, s': State, p: DefWorker)
    requires WorkStep(s, k, fault, order, s')
    ensures WorkStep(WithDef(s, n, p), k, fault, order, WithDef(s', n, p))
  {
    assert WorkerAt(WithDef(s, n, p), k) == WorkerAt(s, k);
  }

  lemma DefWorkStepWithDef(n: string, s: State, m: string, fault: Fault, error: Option<DefError>, s': State,
                           p: DefWorker)
    requires m != n && DefWorkStep(s, m, fault, error, s')
    ensures DefWorkStep(WithDef(s, n, p), m, fault, error, WithDef(s', n, p))
  {
    var q := DefWorkerAt(s', m);
    assert WithDef(s', n, p).defWorkers == WithDef(s, n, p).defWorkers[m := q];
    assert DefWorkerAt(WithDef(s, n, p), m) == DefWorkerAt(s, m);
  }

  lemma OthersStepWithDefAt(n: string, path: seq<State>, p: DefWorker, i: int)
    requires OthersPath(OfDefinition(n), path) && 0 <= i < |path| - 1
    ensures OthersStep(OfDefinition(n), AllWithDef(path, n, p)[i], AllWithDef(path, n, p)[i + 1])
  {
    var s, s' := path[i], path[i + 1];
    var a :| !ActionOf(a, OfDefinition(n)) && Step(s, a, s');
    StepWithDef(n, s, a, s', p);
    assert AllWithDef(path, n, p)[i] == WithDef(s, n, p) && AllWithDef(path, n, p)[i + 1] == WithDef(s', n, p);
  }

  lemma OthersPathWithDef(n: string, path: seq<State>, p: DefWorker)
    requires OthersPath(OfDefinition(n), path)
    ensures OthersPath(OfDefinition(n), AllWithDef(path, n, p))
  {
    forall i | 0 <= i < |path| - 1
      ensures OthersStep(OfDefinition(n), AllWithDef(path, n, p)[i], AllWithDef(path, n, p)[i + 1])
    {
      OthersStepWithDefAt(n, path, p, i);
    }
  }

  lemma {:induction false} OthersLeaveWorker(k: Key, path: seq<State>, i: int)
    requires OthersPath(OfServer(k), path) && 0 <= i < |path|
    ensures WorkerAt(path[i], k) == WorkerAt(path[0], k)
  {
    if i == 0 {
    } else {
      OthersLeaveWorker(k, path, i - 1);
      assert OthersStep(OfServer(k), path[i - 1], path[(i - 1) + 1]);
    }
  }

  // An execution from its start to now.

  /** One call: the states that others led through before it, its fault, its reply, and
      the walk picked at it. */
  datatype Event = Event(path: seq<State>, fault: Fault, reply: Reply, order: seq<string>)

  ghost predicate Happened(k: Key, s: State, e: Event, s': State) {
    && OthersPath(OfServer(k), e.path) && e.path[0] == s
    && WorkStep(Last(e.path), k, e.fault, e.order, s')
    && e.reply == Call(Last(e.path).world, NextOp(k, WorkerAt(Last(e.path), k)), e.fault).1
  }

  datatype Record = Record(points: seq<State>, events: seq<Event>) {
    ghost predicate Explains(k: Key, start: State, now: State) {
      && |points| == |events| + 1
      && points[0] == start && points[|events|] == now
      && WorkerAt(start, k) == Idle
      && forall i: nat :: i < |events| ==> HappenedAt(k, i)
    }

    ghost predicate HappenedAt(k: Key, i: nat)
      requires i < |events| && |points| == |events| + 1
    {
      Happened(k, points[i], events[i], points[i + 1])
    }

    function Plus(e: Event, now: State): Record {
      Record(points + [now], events + [e])
    }

    function Replies(): seq<Reply> {
      seq(|events|, i requires 0 <= i < |events| => events[i].reply)
    }

    /** The points the worker was at, with the replies. */
    function History(k: Key): (h: seq<Exchange>)
      requires |points| == |events| + 1
      ensures |h| == |events|
    {
      seq(|events|, i requires 0 <= i < |events| => Exchange(WorkerAt(points[i], k), events[i].reply, events[i].order))
    }

    /** Every state that was passed in the first n calls, after the start. */
    ghost function Steps(n: nat): seq<State>
      requires |points| == |events| + 1 && n <= |events|
    {
      if n == 0 then []
      else Steps(n - 1) + (Rest(events[n - 1].path) + [points[n]])
    }
  }

  lemma RecordExtended(r: Record, k: Key, start: State, now: State, e: Event, next: State)
    requires r.Explains(k, start, now) && Happened(k, now, e, next)
    ensures r.Plus(e, next).Explains(k, start, next)
    ensures r.Plus(e, next).Replies() == r.Replies() + [e.reply]
  {
    var longer := r.Plus(e, next);
    forall i: nat | i < |longer.events| ensures longer.HappenedAt(k, i) {
      if i < |r.events| {
        assert longer.points[i] == r.points[i] && longer.events[i] == r.events[i]
            && longer.points[i + 1] == r.points[i + 1];
        assert r.HappenedAt(k, i);
      }
    }
  }

  // Executions are runs of the system.

  lemma RunExtended(run: seq<State>, s: State)
    requires IsRun(run) && Next(Last(run), s)
    ensures IsRun(run + [s])
  {
    var longer := run + [s];
    forall i | 0 <= i < |longer| - 1 ensures Next(longer[i], longer[i + 1]) {
      if i < |run| - 1 {
        assert longer[i] == run[i] && longer[i + 1] == run[i + 1];
      }
    }
  }

  lemma {:induction false} PathExtendsRun(run: seq<State>, who: Who, path: seq<State>)
    requires IsRun(run) && OthersPath(who, path) && path[0] == Last(run)
    ensures IsRun(run + path[1..]) && Last(run + path[1..]) == Last(path)
    decreases |path|
  {
    if |path| == 1 {
      assert run + path[1..] == run;
    } else {
      var front := path[..|path| - 1];
      assert OthersPath(who, front) by {
        forall i | 0 <= i < |front| - 1 ensures OthersStep(who, front[i], front[i + 1]) {
          assert front[i] == path[i] && front[i + 1] == path[i + 1];
        }
      }
      PathExtendsRun(run, who, front);
      assert OthersStep(who, path[|path| - 2], path[(|path| - 2) + 1]);
      RunExtended(run + front[1..], Last(path));
      assert run + path[1..] == run + front[1..] + [Last(path)];
    }
  }

  lemma HappenedExtendsRun(run: seq<State>, k: Key, e: Event, s: State)
    requires IsRun(run) && Happened(k, Last(run), e, s)
    ensures IsRun(run + Rest(e.path)) && e.path != [] && Last(run + Rest(e.path)) == Last(e.path)
    ensures IsRun(run + (Rest(e.path) + [s])) && Last(run + (Rest(e.path) + [s])) == s
  {
    PathExtendsRun(run, OfServer(k), e.path);
    assert Step(Last(e.path), Work(k, e.fault, e.order), s);
    RunExtended(run + e.path[1..], s);
    assert run + (e.path[1..] + [s]) == run + e.path[1..] + [s];
  }

  lemma EventExtendsRun(run: seq<State>, r: Record, k: Key, start: State, now: State, i: nat)
    requires IsRun(run) && r.Explains(k, start, now) && i < |r.events| && Last(run) == r.points[i]
    ensures var steps := Rest(r.events[i].path) + [r.points[i + 1]];
            IsRun(run + steps) && Last(run + steps) == r.points[i + 1]
  {
    assert r.HappenedAt(k, i);
    HappenedExtendsRun(run, k, r.events[i], r.points[i + 1]);
  }

  /** A run followed by an execution is a run: what holds of all runs holds of the methods. */
  lemma ExecutionExtendsRun(run: seq<State>, r: Record, k: Key, now: State, n: nat)
    requires |run| > 0 && IsRun(run) && r.Explains(k, Last(run), now) && n <= |r.events|
    ensures IsRun(run + r.Steps(n)) && Last(run + r.Steps(n)) == r.points[n]
  {
    var start := Last(run);
    assert Continues(run, r, 0) by {
      assert run + r.Steps(0) == run;
    }
    CallsContinue(run, r, k, start, now, n);
  }

  ghost predicate Continues(run: seq<State>, r: Record, n: nat) {
    && |run| > 0 && |r.points| == |r.events| + 1 && n <= |r.events|
    && IsRun(run + r.Steps(n)) && Last(run + r.Steps(n)) == r.points[n]
  }

  lemma {:induction false} CallsContinue(run: seq<State>, r: Record, k: Key, start: State, now: State, n: nat)
    requires Continues(run, r, 0) && r.Explains(k, start, now) && n <= |r.events|
    ensures Continues(run, r, n)
  {
    if n == 0 {
    } else {
      CallsContinue(run, r, k, start, now, n - 1);
      CallContinues(run, r, k, start, now, n);
    }
  }

  lemma CallContinues(run: seq<State>, r: Record, k: Key, start: State, now: State, n: nat)
    requires 0 < n <= |r.events| && r.Explains(k, start, now) && Continues(run, r, n - 1)
    ensures Continues(run, r, n)
  {
    EventExtendsRun(run + r.Steps(n - 1), r, k, start, now, n - 1);
    StepsAppended(run, r, n);
  }

  lemma StepsAppended(run: seq<State>, r: Record, n: nat)
    requires |r.points| == |r.events| + 1 && 0 < n <= |r.events|
    ensures run + r.Steps(n) == run + r.Steps(n - 1) + (Rest(r.events[n - 1].path) + [r.points[n]])
  {
  }

  /** The state in which the i-th call was made is reachable. */
  lemma CallIsReachable(run: seq<State>, r: Record, k: Key, now: State, i: nat)
    requires |run| > 0 && IsRun(run) && r.Explains(k, Last(run), now) && i < |r.events|
    ensures r.events[i].path != [] && Inv(Last(r.events[i].path))
  {
    ExecutionExtendsRun(run, r, k, now, i);
    EventIsReachable(run + r.Steps(i), r, k, Last(run), now, i);
  }

  lemma EventIsReachable(run: seq<State>, r: Record, k: Key, start: State, now: State, i: nat)
    requires IsRun(run) && r.Explains(k, start, now) && i < |r.events| && Last(run) == r.points[i]
    ensures r.events[i].path != [] && Inv(Last(r.events[i].path))
  {
    assert r.HappenedAt(k, i);
    HappenedExtendsRun(run, k, r.events[i], r.points[i + 1]);
    ReachableInv(run + Rest(r.events[i].path));
  }

  lemma ReachableInv(run: seq<State>)
    requires IsRun(run)
    ensures Inv(Last(run))
  {
    RunInv(run, |run| - 1);
  }

  /** What an event says about its call. */
  lemma CallFacts(k: Key, s: State, e: Event, s': State)
    requires Happened(k, s, e, s')
    ensures var p, from := WorkerAt(s, k), Last(e.path);
            && WorkerAt(from, k) == p && WorkStep(from, k, e.fault, e.order, s')
            && WorkerAt(s', k) == Advance(p, e.reply, e.order)
            && (e.reply.Failed?
                  || (e.reply == Exec(from.world, NextOp(k, p)).1 && s'.world == Exec(from.world, NextOp(k, p)).0))
  {
    OthersLeaveWorker(k, e.path, |e.path| - 1);
    CallOrNothing(Last(e.path).world, NextOp(k, WorkerAt(Last(e.path), k)), e.fault);
  }

  /** The calls and replies of an execution are a reconcile of the machine, as far as it got. */
  lemma ExecutionIsReconcile(r: Record, k: Key, start: State, now: State)
    requires r.Explains(k, start, now)
    ensures var h := r.History(k);
            if h == [] then WorkerAt(now, k) == Idle else IsReconcile(h) && h[|h| - 1].After() == WorkerAt(now, k)
  {
    forall i | 0 <= i < |r.events|
      ensures !WorkerAt(r.points[i], k).Finished?
      ensures Advance(WorkerAt(r.points[i], k), r.events[i].reply, r.events[i].order) == WorkerAt(r.points[i + 1], k)
    {
      assert r.HappenedAt(k, i);
      OthersLeaveWorker(k, r.events[i].path, |r.events[i].path| - 1);
    }
  }

  // What a reconcile that asks for nothing more leaves in the store.

  /** The cluster as the i-th call found it. */
  function At(r: Record, i: nat): World
    requires i < |r.events| && r.events[i].path != []
  {
    Last(r.events[i].path).world
  }

  ghost predicate Calls(r: Record, k: Key, i: int) {
    && 0 <= i < |r.events| && |r.points| == |r.events| + 1 && r.events[i].path != []
    && Inv(Last(r.events[i].path))
    && var e, p := r.events[i], WorkerAt(r.points[i], k);
       && WorkerAt(Last(e.path), k) == p && WorkStep(Last(e.path), k, e.fault, e.order, r.points[i + 1])
       && (e.reply.Failed?
             || (e.reply == Exec(At(r, i), NextOp(k, p)).1 && r.points[i + 1].world == Exec(At(r, i), NextOp(k, p)).0))
  }

  lemma ExecutionCalls(run: seq<State>, r: Record, k: Key, now: State, i: nat)
    requires |run| > 0 && IsRun(run) && r.Explains(k, Last(run), now) && i < |r.events|
    ensures Calls(r, k, i)
  {
    CallIsReachable(run, r, k, now, i);
    EventFacts(r, k, Last(run), now, i);
  }

  lemma EventFacts(r: Record, k: Key, start: State, now: State, i: nat)
    requires r.Explains(k, start, now) && i < |r.events| && r.events[i].path != [] && Inv(Last(r.events[i].path))
    ensures Calls(r, k, i)
  {
    assert r.HappenedAt(k, i);
    CallFacts(k, r.points[i], r.events[i], r.points[i + 1]);
  }

  /** The i-th call found the pod with its first executing game container ready, two calls before
      the StatefulSet had replicas, and the status says that the server is running, at the address
      and ports of the service that was stored at the call between, or of none if that call failed. */
  ghost predicate ShowsObserved(r: Record, k: Key, i: int, status: ServerStatus) {
    && 2 <= i < |r.events| && (forall j :: i - 2 <= j <= i ==> r.events[j].path != [])
    && k in At(r, i - 2).statefulSets && HasReplicas(At(r, i - 2).statefulSets[k])
    && Key(k.ns, k.name + "-0") in At(r, i).pods && PodIsPlayable(At(r, i).pods[Key(k.ns, k.name + "-0")])
    && (Tells(status, Running, Find(At(r, i - 1).services, k)) || Tells(status, Running, None))
  }

  lemma ObservedInOrder(h: seq<Exchange>, i: int)
    requires IsReconcile(h) && 0 <= i < |h| && h[i].point.ObservePod? && NeedsPod(h[i].point.seenSts)
    ensures i >= 2 && h[i - 1].point.ObserveService? && h[i - 2].point.ObserveStatefulSet?
    ensures h[i - 2].reply.GotStatefulSet? && h[i].point.seenSts == Found(h[i - 2].reply.sts)
    ensures h[i].point.seenSvc == if h[i - 1].reply.GotService? then Some(h[i - 1].reply.svc) else None
  {
    ObservePodCameFrom(h[i - 1]);
    ObserveServiceCameFrom(h[i - 2]);
  }

  lemma ObservePodCameFrom(e: Exchange)
    requires !e.point.Finished? && e.After().ObservePod?
    ensures e.point.ObserveService? && e.After().seenSts == e.point.seenSts
    ensures e.After().seenSvc == if e.reply.GotService? then Some(e.reply.svc) else None
  {
  }

  lemma ObserveServiceCameFrom(e: Exchange)
    requires !e.point.Finished? && e.After().ObserveService?
    ensures e.point.ObserveStatefulSet? && e.After().seenSts == SeenStatefulSet(e.reply)
  {
  }

  /** What an observation was answered is what was stored. */
  ghost predicate SawStored(k: Key, p: Worker, reply: Reply, w: World) {
    && (p.ObserveStatefulSet? && reply.GotStatefulSet? ==> Find(w.statefulSets, k) == Some(reply.sts))
    && (p.ObserveService? && reply.GotService? ==> Find(w.services, k) == Some(reply.svc))
    && (p.ObservePod? && reply.GotPod? ==> Find(w.pods, PodKey(k)) == Some(reply.pod))
  }

  lemma AnswersAreStored(k: Key, p: Worker, reply: Reply, w: World, order: seq<string>)
    requires WorkEnabled(p, order) && (reply.Failed? || reply == Exec(w, NextOp(k, p)).1)
    ensures SawStored(k, p, reply, w)
  {
  }

  ghost predicate AllSawStored(r: Record, k: Key) {
    |r.points| == |r.events| + 1
    && forall j :: 0 <= j < |r.events| ==>
         r.events[j].path != []
             && SawStored(k, WorkerAt(r.points[j], k), r.events[j].reply, Last(r.events[j].path).world)
  }

  lemma RunningWasObserved(r: Record, k: Key, h: seq<Exchange>, i: int, status: ServerStatus)
    requires AllSawStored(r, k) && h == r.History(k) && IsReconcile(h)
    requires 0 <= i < |h| && SeenPlayable(h[i])
    requires Shows(status, Running, h[i].point.seenSvc)
    ensures ShowsObserved(r, k, i, status)
  {
    ReadsShowIff(h[i].point.seenSts, Absent, Running);
    TellsIff(status, Running, h[i].point.seenSvc);
    ObservedInOrder(h, i);
    assert h[i - 2] == Exchange(WorkerAt(r.points[i - 2], k), r.events[i - 2].reply, r.events[i - 2].order);
    assert h[i - 1] == Exchange(WorkerAt(r.points[i - 1], k), r.events[i - 1].reply, r.events[i - 1].order);
  }

  /** The last call of a reconcile that saw the server running left that in the store. */
  lemma LastCallPersists(r: Record, k: Key, x: Server, i: int)
    requires |r.points| == |r.events| + 1 && IsReconcile(r.History(k)) && Calls(r, k, |r.events| - 1)
    requires WorkerAt(r.points[|r.events|], k) == Finished(Success) && RunningReportedAt(r.History(k), x, i)
    ensures var w := r.points[|r.events|].world;
            && k in w.servers && w.servers[k].uid == x.uid
            && Shows(w.servers[k].status, Running, r.History(k)[i].point.seenSvc)
  {
    var h, n := r.History(k), |r.events| - 1;
    var m, e := Last(r.events[n].path), r.events[n];
    assert h[n] == Exchange(WorkerAt(m, k), e.reply, e.order);
    if Shows(x.status, Running, h[i].point.seenSvc) {
      StatusInHandIsStored(m, k, e.fault, e.order, r.points[n + 1]);
    } else {
      StatusWritePersists(m, k, e.fault, e.order, r.points[n + 1]);
    }
  }

  lemma StatusInHandIsStored(s: State, k: Key, fault: Fault, order: seq<string>, s': State)
    requires Inv(s) && WorkStep(s, k, fault, order, s') && WorkerAt(s, k).ObservePod?
    ensures var x := WorkerAt(s, k).server;
            k in s'.world.servers && s'.world.servers[k].uid == x.uid && s'.world.servers[k].status == x.status
  {
    assert WorkerOK(s.world, k, WorkerAt(s, k));
    ReadsChangeNothing(s.world, NextOp(k, WorkerAt(s, k)), fault);
  }

  lemma ExecutionSawStored(run: seq<State>, r: Record, k: Key, now: State)
    requires |run| > 0 && IsRun(run) && r.Explains(k, Last(run), now)
    ensures AllSawStored(r, k)
  {
    forall j | 0 <= j < |r.events|
      ensures r.events[j].path != []
      ensures SawStored(k, WorkerAt(r.points[j], k), r.events[j].reply, Last(r.events[j].path).world)
    {
      ExecutionCalls(run, r, k, now, j);
      AnswersAreStored(k, WorkerAt(r.points[j], k), r.events[j].reply, At(r, j), r.events[j].order);
    }
  }

  /** In every run that an execution continues: when a reconcile of a server that is not
      being deleted ends without error and without asking to be run again, that very server
      is stored; a container of the game was found executing and ready in its stored pod, and the
      stored status says so, with the address and the ports of the service. */
  lemma SuccessIsPersisted(run: seq<State>, r: Record, k: Key, now: State)
    requires |run| > 0 && IsRun(run) && r.Explains(k, Last(run), now) && WorkerAt(now, k) == Finished(Success)
    requires |r.events| > 0 ==> r.events[0].reply.GotServer? && !r.events[0].reply.server.deleting
    ensures |r.events| > 0 && k in now.world.servers && now.world.servers[k].uid == r.events[0].reply.server.uid
    ensures exists i :: ShowsObserved(r, k, i, now.world.servers[k].status)
  {
    ExecutionIsReconcile(r, k, Last(run), now);
    var h, x := r.History(k), r.events[0].reply.server;
    NoSilentStall(h);
    var i :| RunningReportedAt(h, x, i);
    ExecutionCalls(run, r, k, now, |r.events| - 1);
    LastCallPersists(r, k, x, i);
    ExecutionSawStored(run, r, k, now);
    RunningWasObserved(r, k, h, i, now.world.servers[k].status);
  }
}
