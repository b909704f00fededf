// The whole system: one worker per server, one worker per definition, and
// everybody else, interleaved at the grain of single API calls.
module System {
  import opened Api
  import opened Cluster
  import opened Enumeration
  import opened GameDefinitions
  import opened Machine

  datatype State = State(world: World, workers: map<Key, Worker>, defWorkers: map<string, DefWorker>)

  function WorkerAt(s: State, k: Key): Worker {
    if k in s.workers then s.workers[k] else Idle
  }

  function DefWorkerAt(s: State, n: string): DefWorker {
    if n in s.defWorkers then s.defWorkers[n] else DefIdle
  }

  /** Restart is a new reconcile: after a finished one, or after a crash at any point. */
  datatype Action =
    | Environment
    | Work(key: Key, fault: Fault, order: seq<string>)
    | Restart(key: Key)
    | DefWork(name: string, fault: Fault, error: Option<DefError>)
    | DefRestart(name: string)

  ghost predicate WorkEnabled(p: Worker, order: seq<string>) {
    && !p.Finished?
    && (p.ClaimCreate? ==> ClaimBuilderFor(p.server, p.def).Desired().Some?)
    && (p.StatefulSetGet? ==> Enumerates(order, p.server.spec.config.Keys))
  }

  ghost predicate WorkStep(s: State, k: Key, fault: Fault, order: seq<string>, s': State) {
    && WorkEnabled(WorkerAt(s, k), order)
    && var p := WorkerAt(s, k);
       var (w', reply) := Call(s.world, NextOp(k, p), fault);
       s' == State(w', s.workers[k := Advance(p, reply, order)], s.defWorkers)
  }

  ghost predicate DefWorkStep(s: State, n: string, fault: Fault, error: Option<DefError>, s': State) {
    && !DefWorkerAt(s, n).DefFinished?
    && var p := DefWorkerAt(s, n);
       var (w', reply) := Call(s.world, DefNextOp(n, p), fault);
       && (reply.GotDef? ==> Verdict(reply.def.spec, error))
       && s' == State(w', s.workers, s.defWorkers[n := DefAdvance(p, reply, error)])
  }

  ghost predicate Step(s: State, a: Action, s': State) {
    match a
    case Environment => EnvStep(s.world, s'.world) && s' == s.(world := s'.world)
    case Work(k, fault, order) => WorkStep(s, k, fault, order, s')
    case Restart(k) => s' == s.(workers := s.workers[k := Idle])
    case DefWork(n, fault, error) => DefWorkStep(s, n, fault, error, s')
    case DefRestart(n) => s' == s.(defWorkers := s.defWorkers[n := DefIdle])
  }

  ghost predicate Next(s: State, s': State) {
    exists a :: Step(s, a, s')
  }

  /** At the start no reconcile is under way, nothing has a status yet, and no child
      was written by the operator. */
  ghost predicate Init(s: State) {
    && s.workers == map[] && s.defWorkers == map[]
    && (forall k :: k in s.world.servers ==>
          var x := s.world.servers[k];
          x.key == k && x.rv <= s.world.clock && x.uid <= s.world.clock && x.status == EMPTY_STATUS)
    && (forall n :: n in s.world.defs ==>
          var d := s.world.defs[n]; d.name == n && d.rv <= s.world.clock && !d.ready && d.message == "")
    && (forall k :: k in s.world.configMaps ==>
          s.world.configMaps[k].writer.Other? && s.world.configMaps[k].rv <= s.world.clock)
    && (forall k :: k in s.world.claims ==> s.world.claims[k].writer.Other? && s.world.claims[k].rv <= s.world.clock)
    && (forall k :: k in s.world.statefulSets ==>
          s.world.statefulSets[k].writer.Other? && s.world.statefulSets[k].rv <= s.world.clock)
    && (forall k :: k in s.world.services ==>
          s.world.services[k].writer.Other? && s.world.services[k].rv <= s.world.clock)
  }

  ghost predicate IsRun(run: seq<State>) {
    && |run| > 0
    && Init(run[0])
    && (forall i, j :: 0 <= i < j <= i + 1 && j < |run| ==> Next(run[i], run[j]))
  }

  lemma RunPrefix(run: seq<State>)
    requires IsRun(run) && |run| > 1
    ensures IsRun(run[..|run| - 1]) && Next(run[|run| - 2], run[|run| - 1])
  {
    var front := run[..|run| - 1];
    forall i | 0 <= i < |front| - 1 ensures Next(front[i], front[i + 1]) {
      assert front[i] == run[i] && front[i + 1] == run[i + 1];
    }
  }

  // The invariant.

  predicate StatusHonest(status: ServerStatus) {
    status.state != Error ==> status.message == StateMessage(status.state)
  }

  ghost predicate ServerOK(w: World, k: Key) {
    k in w.servers ==>
      var x := w.servers[k];
      x.key == k && x.rv <= w.clock && x.uid <= w.clock && StatusHonest(x.status)
  }

  ghost predicate DefOK(w: World, n: string) {
    n in w.defs ==> w.defs[n].name == n && w.defs[n].rv <= w.clock
  }

  predicate HasServer(p: Worker) { !p.Idle? && !p.Finished? }

  /** Past the points where the finalizer is put on or taken off. */
  predicate Guarded(p: Worker) { HasServer(p) && !p.RemovingFinalizer? && !p.AddingFinalizer? }

  predicate HasPlan(p: Worker) {
    p.ConfigMapGet? || p.ConfigMapCreate? || p.ConfigMapUpdate? || p.ClaimGet? || p.ClaimCreate? || p.ClaimUpdate?
    || p.StatefulSetGet? || p.StatefulSetCreate? || p.StatefulSetUpdate? || p.ServiceGet? || p.ServiceCreate?
          || p.ServiceUpdate?
  }

  /** A copy whose version is still the stored one has the stored content. */
  ghost predicate Copy(w: World, k: Key, x: Server) {
    && x.key == k && x.rv <= w.clock && x.uid <= w.clock && StatusHonest(x.status)
    && (k in w.servers && w.servers[k].rv == x.rv ==> w.servers[k] == x.(status := w.servers[k].status))
  }

  /** The server itself, not a later one of its name, still there and under the finalizer. */
  ghost predicate Protected(w: World, k: Key, x: Server) {
    k in w.servers && w.servers[k].uid == x.uid && FINALIZER in w.servers[k].finalizers
  }

  /** What a point says about the values it carries. */
  ghost predicate Shape(p: Worker) {
    && (p.RemovingFinalizer? ==> p.server.deleting && FINALIZER in p.server.finalizers)
    && (p.AddingFinalizer? ==> !p.server.deleting && FINALIZER !in p.server.finalizers)
    && (Guarded(p) ==> !p.server.deleting && FINALIZER in p.server.finalizers)
    && (p.FetchingDef? ==> p.server.spec.gameDefinition != "")
    && (HasPlan(p) ==> GateOpen(p.server, p.def) && (p.def.None? <==> p.server.spec.gameDefinition == ""))
    && (p.ConfigMapGet? || p.ConfigMapCreate? || p.ConfigMapUpdate? ==> p.server.spec.configFiles != [])
    && (p.ConfigMapUpdate? ==> !OwnedByAnother(p.configMap.owner, p.server))
    && (p.ClaimGet? || p.ClaimCreate? || p.ClaimUpdate? ==> ClaimBuilderFor(p.server, p.def).Desired().Some?)
    && (p.StatefulSetCreate? || p.StatefulSetUpdate? ==> Enumerates(p.order, p.server.spec.config.Keys))
    && (p.ErrorWrite? ==> p.server.status.state == Error)
  }

  ghost predicate WorkerOK(w: World, k: Key, p: Worker) {
    && Shape(p)
    && (HasServer(p) ==> Copy(w, k, p.server))
    && (Guarded(p) ==> Protected(w, k, p.server))
    && (Guarded(p) && !WritesStatus(p) ==> w.servers[k].status == p.server.status)
  }

  ghost predicate DefWorkerOK(w: World, n: string, p: DefWorker) {
    p.DefStatusWrite? ==>
      && p.def.name == n && p.def.rv <= w.clock
      && (n in w.defs && w.defs[n].rv == p.def.rv ==> w.defs[n].spec == p.def.spec)
      && (p.def.ready <==> ValidDefinition(p.def.spec))
      && (p.def.ready ==> p.def.message == VALIDATED)
  }

  ghost predicate Inv(s: State) {
    && (forall k :: ServerOK(s.world, k))
    && (forall n :: DefOK(s.world, n))
    && (forall k :: WorkerOK(s.world, k, WorkerAt(s, k)))
    && (forall n :: DefWorkerOK(s.world, n, DefWorkerAt(s, n)))
  }

  // What a step of a worker may do to the store.

  /** The version of a stored server never comes back. */
  ghost predicate ServerMoves(w: World, w': World, k: Key) {
    && w.clock <= w'.clock
    && (k in w'.servers ==> (k in w.servers && w'.servers[k] == w.servers[k]) || Fresh(w'.servers[k].rv, w, w'))
  }

  ghost predicate DefMoves(w: World, w': World, n: string) {
    && w.clock <= w'.clock
    && (n in w'.defs ==> (n in w.defs && w'.defs[n] == w.defs[n]) || Fresh(w'.defs[n].rv, w, w'))
  }

  ghost predicate ServerKept(w: World, w': World, k: Key) {
    k in w.servers && FINALIZER in w.servers[k].finalizers ==>
      && k in w'.servers && w'.servers[k].uid == w.servers[k].uid && FINALIZER in w'.servers[k].finalizers
      && w'.servers[k].status == w.servers[k].status
  }

  lemma WorkerOKPersists(w: World, w': World, k: Key, p: Worker)
    requires WorkerOK(w, k, p) && ServerMoves(w, w', k) && ServerKept(w, w', k)
    ensures WorkerOK(w', k, p)
  {
  }

  lemma DefWorkerOKPersists(w: World, w': World, n: string, p: DefWorker)
    requires DefWorkerOK(w, n, p) && DefMoves(w, w', n)
    ensures DefWorkerOK(w', n, p)
  {
  }

  lemma EnvMoves(w: World, w': World)
    requires EnvStep(w, w')
    ensures forall k :: ServerMoves(w, w', k) && ServerKept(w, w', k)
    ensures forall n :: DefMoves(w, w', n)
    ensures (forall k :: ServerOK(w, k)) ==> forall k :: ServerOK(w', k)
    ensures (forall n :: DefOK(w, n)) ==> forall n :: DefOK(w', n)
  {
    forall k ensures ServerMoves(w, w', k) && ServerKept(w, w', k) {
      assert ServerEdited(w, w', k);
    }
    forall n ensures DefMoves(w, w', n) {
      assert DefEdited(w, w', n);
    }
    if forall k :: ServerOK(w, k) {
      forall k ensures ServerOK(w', k) {
        assert ServerOK(w, k) && ServerEdited(w, w', k);
      }
    }
    if forall n :: DefOK(w, n) {
      forall n ensures DefOK(w', n) {
        assert DefOK(w, n) && DefEdited(w, w', n);
      }
    }
  }

  /** Calls other than writes to servers and definitions leave both alone. */
  lemma OtherCallsKeep(w: World, op: Op, fault: Fault)
    requires IsRead(op) || IsChildWrite(op)
    ensures var w' := Call(w, op, fault).0; w.clock <= w'.clock && w'.servers == w.servers && w'.defs == w.defs
  {
    CallEffect(w, op, fault);
  }

  ghost predicate OnlyServer(w: World, w': World, k: Key) {
    forall j :: j != k ==> Find(w.servers, j) == Find(w'.servers, j)
  }

  lemma PutServerMoves(w: World, k: Key, x: Server)
    requires StatusHonest(x.status) && x.uid <= w.clock && x.key == k
    ensures var w' := PutServer(w, k, x);
            w.clock <= w'.clock && w'.defs == w.defs && OnlyServer(w, w', k) && ServerMoves(w, w', k) && ServerOK(w', k)
  {
  }

  lemma ServerWriteMoves(w: World, op: Op, fault: Fault, k: Key)
    requires op.UpdateServer? || op.UpdateServerStatus?
    requires op.server.key == k && ServerOK(w, k) && (op.UpdateServerStatus? ==> StatusHonest(op.server.status))
    ensures var w' := Call(w, op, fault).0;
            && w.clock <= w'.clock && w'.defs == w.defs && OnlyServer(w, w', k)
            && ServerMoves(w, w', k) && ServerOK(w', k)
  {
    if k in w.servers {
      if op.UpdateServer? {
        PutServerMoves(w, k, w.servers[k].(spec := op.server.spec, finalizers := op.server.finalizers));
      } else {
        PutServerMoves(w, k, w.servers[k].(status := op.server.status));
      }
    }
  }

  /** A worker that still holds a server after its call did not write servers. */
  lemma HoldersDoNotWriteServers(k: Key, p: Worker, reply: Reply, order: seq<string>)
    requires WorkEnabled(p, order) && Shape(p)
    ensures var op := NextOp(k, p);
            if p.RemovingFinalizer? || p.AddingFinalizer? then op.UpdateServer? && Advance(p, reply, order).Finished?
            else if p.StatusWrite? || p.ErrorWrite? then op.UpdateServerStatus? && Advance(p, reply, order).Finished?
            else IsRead(op) || IsChildWrite(op)
  {
  }

  /** Every point of a worker carries the server it read, changed at most in its status,
      and an error status or a reported one is honest. */
  lemma AdvanceKeepsServer(p: Worker, reply: Reply, order: seq<string>)
    requires !p.Finished?
    ensures KeepsServer(p, reply, Advance(p, reply, order))
  {
    if p.Idle? {
      ReadKeepsServer(reply, order);
    } else if HasPlan(p) {
      PlanKeepsServer(p, reply, order);
    } else {
      RestKeepsServer(p, reply, order);
    }
  }

  ghost predicate KeepsServer(p: Worker, reply: Reply, p': Worker) {
    && (HasServer(p') && HasServer(p) ==> SameServer(p.server, p'))
    && (HasServer(p') && !HasServer(p) ==> reply.GotServer? && SameServer(reply.server, p'))
    && (Guarded(p') && !Guarded(p) ==> !HasServer(p))
  }

  predicate WritesStatus(p: Worker) { p.StatusWrite? || p.ErrorWrite? }

  /** The point carries this server, with another status only where it is about to be written. */
  ghost predicate SameServer(x: Server, p: Worker)
    requires HasServer(p)
  {
    && p.server.(status := x.status) == x
    && (!WritesStatus(p) ==> p.server == x)
    && (StatusHonest(x.status) ==> StatusHonest(p.server.status))
  }

  lemma ReadKeepsServer(reply: Reply, order: seq<string>)
    ensures KeepsServer(Idle, reply, Advance(Idle, reply, order))
  {
  }

  lemma PlanKeepsServer(p: Worker, reply: Reply, order: seq<string>)
    requires HasPlan(p)
    ensures KeepsServer(p, reply, Advance(p, reply, order))
  {
    PlanCarries(p, reply, order);
  }

  ghost predicate Carries(x: Server, p: Worker) {
    HasServer(p) ==> SameServer(x, p)
  }

  lemma PlanCarries(p: Worker, reply: Reply, order: seq<string>)
    requires HasPlan(p)
    ensures Carries(p.server, Advance(p, reply, order))
  {
    var x, d := p.server, p.def;
    EnterClaimCarries(x, d);
    OnReadCarries(x, d, order, reply);
    if p.ConfigMapGet? {
      OnConfigMapCarries(x, d, reply);
    }
  }

  lemma EnterClaimCarries(x: Server, d: Option<GameDef>)
    ensures Carries(x, EnterClaim(x, d))
    ensures forall resource :: Carries(x, FailedAt(x, resource))
  {
  }

  lemma OnConfigMapCarries(x: Server, d: Option<GameDef>, reply: Reply)
    ensures Carries(x, OnConfigMap(x, d, reply))
  {
    EnterClaimCarries(x, d);
  }

  lemma OnReadCarries(x: Server, d: Option<GameDef>, order: seq<string>, reply: Reply)
    ensures Carries(x, OnClaim(x, d, reply))
    ensures Carries(x, OnStatefulSet(x, d, order, reply))
    ensures Carries(x, OnService(x, d, reply))
  {
  }

  lemma RestKeepsServer(p: Worker, reply: Reply, order: seq<string>)
    requires HasServer(p) && !HasPlan(p)
    ensures KeepsServer(p, reply, Advance(p, reply, order))
  {
  }

  // The invariant holds in every reachable state.

  lemma WorkKeepsServers(s: State, k: Key, fault: Fault, order: seq<string>, s': State)
    requires Inv(s) && WorkStep(s, k, fault, order, s')
    ensures forall j :: ServerMoves(s.world, s'.world, j) && ServerOK(s'.world, j)
    ensures forall j :: j != k || Guarded(WorkerAt(s', k)) ==> ServerKept(s.world, s'.world, j)
    ensures s'.world.defs == s.world.defs && s.world.clock <= s'.world.clock
  {
    var p, w, w' := WorkerAt(s, k), s.world, s'.world;
    assert WorkerOK(w, k, p) && ServerOK(w, k);
    var op := NextOp(k, p);
    HoldersDoNotWriteServers(k, p, Call(w, op, fault).1, order);
    if IsRead(op) || IsChildWrite(op) {
      OtherCallsKeep(w, op, fault);
      forall j ensures ServerOK(w', j) {
        assert ServerOK(w, j);
      }
    } else {
      ServerWriteMoves(w, op, fault, k);
      forall j ensures ServerMoves(w, w', j) && ServerOK(w', j) && (j != k ==> ServerKept(w, w', j)) {
        assert ServerOK(w, j);
        if j != k {
          assert Find(w.servers, j) == Find(w'.servers, j);
        }
      }
    }
  }

  lemma WorkKeepsWorker(s: State, k: Key, fault: Fault, order: seq<string>, s': State)
    requires Inv(s) && WorkStep(s, k, fault, order, s')
    ensures WorkerOK(s'.world, k, WorkerAt(s', k))
  {
    var p, w := WorkerAt(s, k), s.world;
    var op := NextOp(k, p);
    var reply := Call(w, op, fault).1;
    var p' := Advance(p, reply, order);
    assert WorkerOK(w, k, p) && ServerOK(w, k);
    HoldersDoNotWriteServers(k, p, reply, order);
    AdvanceKeepsServer(p, reply, order);
    AdvanceKeepsShape(k, p, reply, order);
    if HasServer(p') {
      OtherCallsKeep(w, op, fault);
    }
  }

  lemma GateShape(x: Server, def: Option<GameDef>)
    requires !x.deleting && FINALIZER in x.finalizers && (def.None? <==> x.spec.gameDefinition == "")
    ensures Shape(Gate(x, def))
    ensures GateOpen(x, def) ==> Shape(EnterClaim(x, def))
  {
  }

  lemma ReportShape(x: Server, state: ServerState, svc: Option<Service>)
    requires !x.deleting && FINALIZER in x.finalizers
    ensures Shape(Report(x, state, svc))
  {
  }

  lemma AdvanceKeepsShape(k: Key, p: Worker, reply: Reply, order: seq<string>)
    requires WorkEnabled(p, order) && Shape(p)
    ensures Shape(Advance(p, reply, order))
  {
    if p.Idle? {
      if reply.GotServer? && Guarded(OnRead(reply.server)) && reply.server.spec.gameDefinition == "" {
        GateShape(reply.server, None);
      }
    } else if p.FetchingDef? {
      if reply.GotDef? {
        GateShape(p.server, Some(reply.def));
      }
    } else if HasPlan(p) {
      GateShape(p.server, p.def);
      PlanShape(p, reply, order);
    } else {
      StatusShape(p, reply, order);
    }
  }

  lemma OnReadsShape(p: Worker, reply: Reply, order: seq<string>)
    requires WorkEnabled(p, order) && Shape(p)
    requires HasPlan(p) ==> Shape(EnterClaim(p.server, p.def))
    ensures p.ConfigMapGet? ==> Shape(OnConfigMap(p.server, p.def, reply))
    ensures p.ClaimGet? ==> Shape(OnClaim(p.server, p.def, reply))
  {
  }

  lemma OnMoreReadsShape(p: Worker, reply: Reply, order: seq<string>)
    requires WorkEnabled(p, order) && Shape(p)
    ensures p.StatefulSetGet? ==> Shape(OnStatefulSet(p.server, p.def, order, reply))
    ensures p.ServiceGet? ==> Shape(OnService(p.server, p.def, reply))
  {
  }

  lemma PlanShape(p: Worker, reply: Reply, order: seq<string>)
    requires WorkEnabled(p, order) && Shape(p) && HasPlan(p)
    requires Shape(EnterClaim(p.server, p.def))
    ensures Shape(Advance(p, reply, order))
  {
    if p.ConfigMapGet? || p.ClaimGet? {
      OnReadsShape(p, reply, order);
    } else if p.StatefulSetGet? || p.ServiceGet? {
      OnMoreReadsShape(p, reply, order);
    } else {
      WriteShape(p, reply, order);
    }
  }

  lemma WriteShape(p: Worker, reply: Reply, order: seq<string>)
    requires WorkEnabled(p, order) && Shape(p) && HasPlan(p)
    requires !p.ConfigMapGet? && !p.ClaimGet? && !p.StatefulSetGet? && !p.ServiceGet?
    requires Shape(EnterClaim(p.server, p.def))
    ensures Shape(Advance(p, reply, order))
  {
  }

  lemma StatusShape(p: Worker, reply: Reply, order: seq<string>)
    requires WorkEnabled(p, order) && Shape(p) && !HasPlan(p) && !p.Idle? && !p.FetchingDef?
    ensures Shape(Advance(p, reply, order))
  {
    if p.ObserveService? {
      ReportShape(p.server, DetermineState(p.seenSts, Absent), if reply.GotService? then Some(reply.svc) else None);
    } else if p.ObservePod? {
      ReportShape(p.server, DetermineState(p.seenSts, SeenPod(reply)), p.seenSvc);
    }
  }

  lemma StepKeepsInv(s: State, a: Action, s': State)
    requires Inv(s) && Step(s, a, s')
    ensures Inv(s')
  {
    match a
    case Environment =>
      EnvMoves(s.world, s'.world);
      forall k ensures WorkerOK(s'.world, k, WorkerAt(s', k)) {
        WorkerOKPersists(s.world, s'.world, k, WorkerAt(s, k));
      }
      forall n ensures DefWorkerOK(s'.world, n, DefWorkerAt(s', n)) {
        DefWorkerOKPersists(s.world, s'.world, n, DefWorkerAt(s, n));
      }
    case Work(k, fault, order) => WorkKeepsInv(s, k, fault, order, s');
    case Restart(k) =>
      forall j ensures WorkerOK(s'.world, j, WorkerAt(s', j)) {
        assert WorkerOK(s.world, j, WorkerAt(s, j));
      }
      assert forall n :: DefWorkerAt(s', n) == DefWorkerAt(s, n);
    case DefWork(n, fault, error) => DefWorkKeepsInv(s, n, fault, error, s');
    case DefRestart(n) =>
      forall m ensures DefWorkerOK(s'.world, m, DefWorkerAt(s', m)) {
        assert DefWorkerOK(s.world, m, DefWorkerAt(s, m));
      }
      assert forall k :: WorkerAt(s', k) == WorkerAt(s, k);
  }

  lemma WorkKeepsInv(s: State, k: Key, fault: Fault, order: seq<string>, s': State)
    requires Inv(s) && WorkStep(s, k, fault, order, s')
    ensures Inv(s')
  {
    WorkKeepsServers(s, k, fault, order, s');
    WorkKeepsWorker(s, k, fault, order, s');
    forall j ensures WorkerOK(s'.world, j, WorkerAt(s', j)) {
      if j != k {
        WorkerOKPersists(s.world, s'.world, j, WorkerAt(s, j));
      }
    }
    forall n ensures DefOK(s'.world, n) && DefWorkerOK(s'.world, n, DefWorkerAt(s', n)) {
      assert DefOK(s.world, n) && DefWorkerOK(s.world, n, DefWorkerAt(s, n));
    }
  }

  lemma DefWorkMoves(w: World, n: string, p: DefWorker, fault: Fault, error: Option<DefError>)
    requires !p.DefFinished? && DefWorkerOK(w, n, p) && DefOK(w, n)
    ensures var w' := Call(w, DefNextOp(n, p), fault).0;
            && w.clock <= w'.clock && w'.servers == w.servers && DefMoves(w, w', n) && DefOK(w', n)
            && (forall m :: m != n ==> Find(w.defs, m) == Find(w'.defs, m))
  {
  }

  lemma DefWorkKeepsInv(s: State, n: string, fault: Fault, error: Option<DefError>, s': State)
    requires Inv(s) && DefWorkStep(s, n, fault, error, s')
    ensures Inv(s')
  {
    var p, w, w' := DefWorkerAt(s, n), s.world, s'.world;
    assert DefWorkerOK(w, n, p) && DefOK(w, n);
    DefWorkMoves(w, n, p, fault, error);
    forall k ensures ServerOK(w', k) && WorkerOK(w', k, WorkerAt(s', k)) {
      assert ServerOK(w, k);
      WorkerOKPersists(w, w', k, WorkerAt(s, k));
    }
    forall m ensures DefOK(w', m) && DefWorkerOK(w', m, DefWorkerAt(s', m)) {
      assert DefOK(w, m);
      if m != n {
        assert Find(w.defs, m) == Find(w'.defs, m);
        DefWorkerOKPersists(w, w', m, DefWorkerAt(s, m));
      }
    }
  }

  lemma {:induction false} RunInv(run: seq<State>, i: int)
    requires IsRun(run) && 0 <= i < |run|
    ensures Inv(run[i])
  {
    if i == 0 {
    } else {
      RunInv(run, i - 1);
      assert Next(run[i - 1], run[(i - 1) + 1]);
      var a :| Step(run[i - 1], a, run[i]);
      StepKeepsInv(run[i - 1], a, run[i]);
    }
  }
}
