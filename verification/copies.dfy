// Updates of children that were read earlier: under optimistic concurrency they change what
// they are meant to change of the stored object, and nothing else of it.
module Copies {
  import opened Api
  import opened Cluster
  import opened GameDefinitions
  import opened Machine
  import opened System

  /** A copy in hand is what is stored, or the stored object has another version. */
  ghost predicate CopyOK(w: World, k: Key, p: Worker) {
    && (p.ConfigMapUpdate? ==>
          && p.configMap.rv <= w.clock
          && (ConfigMapKey(k) in w.configMaps && w.configMaps[ConfigMapKey(k)].rv == p.configMap.rv ==>
                w.configMaps[ConfigMapKey(k)] == p.configMap))
    && (p.StatefulSetUpdate? ==>
          && p.sts.rv <= w.clock
          && (k in w.statefulSets && w.statefulSets[k].rv == p.sts.rv ==> w.statefulSets[k] == p.sts))
    && (p.ServiceUpdate? ==>
          && p.svc.rv <= w.clock
          && (k in w.services && w.services[k].rv == p.svc.rv ==> w.services[k] == p.svc))
  }

  ghost predicate VersionsPast(w: World) {
    && (forall c :: c in w.configMaps ==> w.configMaps[c].rv <= w.clock)
    && (forall c :: c in w.statefulSets ==> w.statefulSets[c].rv <= w.clock)
    && (forall c :: c in w.services ==> w.services[c].rv <= w.clock)
  }

  ghost predicate CopyInv(s: State) {
    VersionsPast(s.world) && forall k :: CopyOK(s.world, k, WorkerAt(s, k))
  }

  /** Whatever is stored afterwards was stored before or has a new version. */
  ghost predicate Moves(w: World, w': World) {
    && w.clock <= w'.clock
    && (forall c :: c in w'.configMaps ==>
          Find(w.configMaps, c) == Find(w'.configMaps, c) || Fresh(w'.configMaps[c].rv, w, w'))
    && (forall c :: c in w'.statefulSets ==>
          Find(w.statefulSets, c) == Find(w'.statefulSets, c) || Fresh(w'.statefulSets[c].rv, w, w'))
    && (forall c :: c in w'.services ==>
          Find(w.services, c) == Find(w'.services, c) || Fresh(w'.services[c].rv, w, w'))
  }

  lemma EffectMoves(w: World, op: Op, w': World)
    requires Effect(w, op, w')
    ensures Moves(w, w')
  {
  }

  lemma EnvironmentMoves(w: World, w': World)
    requires EnvStep(w, w')
    ensures Moves(w, w')
  {
    forall c | c in w'.configMaps
      ensures Find(w.configMaps, c) == Find(w'.configMaps, c) || Fresh(w'.configMaps[c].rv, w, w')
    {
      assert ConfigMapEdited(w, w', c);
    }
    forall c | c in w'.statefulSets
      ensures Find(w.statefulSets, c) == Find(w'.statefulSets, c) || Fresh(w'.statefulSets[c].rv, w, w')
    {
      assert StatefulSetEdited(w, w', c);
    }
    forall c | c in w'.services
      ensures Find(w.services, c) == Find(w'.services, c) || Fresh(w'.services[c].rv, w, w')
    {
      assert ServiceEdited(w, w', c);
    }
  }

  lemma StepMoves(s: State, a: Action, s': State)
    requires Step(s, a, s')
    ensures Moves(s.world, s'.world)
  {
    match a
    case Environment => EnvironmentMoves(s.world, s'.world);
    case Work(k, fault, order) =>
      CallEffect(s.world, NextOp(k, WorkerAt(s, k)), fault);
      EffectMoves(s.world, NextOp(k, WorkerAt(s, k)), s'.world);
    case DefWork(n, fault, error) =>
      DefWorkMovesNothing(s, n, fault, error, s');
    case _ =>
  }

  lemma DefWorkMovesNothing(s: State, n: string, fault: Fault, error: Option<DefError>, s': State)
    requires DefWorkStep(s, n, fault, error, s')
    ensures Moves(s.world, s'.world)
  {
    CallEffect(s.world, DefNextOp(n, DefWorkerAt(s, n)), fault);
    EffectMoves(s.world, DefNextOp(n, DefWorkerAt(s, n)), s'.world);
  }

  lemma CopyStaysOK(w: World, w': World, k: Key, p: Worker)
    requires CopyOK(w, k, p) && Moves(w, w')
    ensures CopyOK(w', k, p)
  {
  }

  /** A copy is what the reply just showed. */
  lemma CopyIsRead(k: Key, p: Worker, w: World, fault: Fault, order: seq<string>)
    requires WorkEnabled(p, order) && VersionsPast(w)
    ensures CopyOK(w, k, Advance(p, Call(w, NextOp(k, p), fault).1, order))
    ensures var p' := Advance(p, Call(w, NextOp(k, p), fault).1, order);
            p'.ConfigMapUpdate? || p'.StatefulSetUpdate? || p'.ServiceUpdate? ==> Call(w, NextOp(k, p), fault).0 == w
  {
    var reply := Call(w, NextOp(k, p), fault).1;
    UpdateCameFrom(p, reply, order);
    if p.ConfigMapGet? || p.StatefulSetGet? || p.ServiceGet? {
      ReadsChangeNothing(w, NextOp(k, p), fault);
    }
  }

  lemma UpdateCameFrom(p: Worker, reply: Reply, order: seq<string>)
    requires !p.Finished?
    ensures var p' := Advance(p, reply, order);
            && (p'.ConfigMapUpdate? ==> p.ConfigMapGet? && reply == GotConfigMap(p'.configMap))
            && (p'.StatefulSetUpdate? ==> p.StatefulSetGet? && reply == GotStatefulSet(p'.sts))
            && (p'.ServiceUpdate? ==> p.ServiceGet? && reply == GotService(p'.svc))
  {
  }

  lemma StepKeepsCopyInv(s: State, a: Action, s': State)
    requires CopyInv(s) && Step(s, a, s')
    ensures CopyInv(s')
  {
    StepMoves(s, a, s');
    forall k ensures CopyOK(s'.world, k, WorkerAt(s', k)) {
      if a.Work? && a.key == k {
        WorkKeepsCopy(s, k, a.fault, a.order, s');
      } else {
        assert WorkerAt(s', k) == WorkerAt(s, k) || WorkerAt(s', k) == Idle;
        CopyStaysOK(s.world, s'.world, k, WorkerAt(s, k));
      }
    }
  }

  lemma WorkKeepsCopy(s: State, k: Key, fault: Fault, order: seq<string>, s': State)
    requires CopyInv(s) && WorkStep(s, k, fault, order, s')
    ensures CopyOK(s'.world, k, WorkerAt(s', k))
  {
    CopyIsRead(k, WorkerAt(s, k), s.world, fault, order);
  }

  lemma {:induction false} RunCopyInv(run: seq<State>, i: int)
    requires IsRun(run) && 0 <= i < |run|
    ensures CopyInv(run[i])
  {
    if i == 0 {
    } else {
      RunCopyInv(run, i - 1);
      assert Next(run[i - 1], run[(i - 1) + 1]);
      var a :| Step(run[i - 1], a, run[i]);
      StepKeepsCopyInv(run[i - 1], a, run[i]);
    }
  }

  // What a worker's step leaves as it is.

  /** Not the ConfigMap of the SteamServer that its owner reference names. */
  ghost predicate Foreign(c: Key, x: ConfigMap) {
    x.owner.Some? && !(x.owner.value.kind == "SteamServer" && c.name == x.owner.value.name + "-config")
  }

  ghost predicate KeepsConfigMap(w: World, w': World, c: Key) {
    c in w.configMaps ==>
      && c in w'.configMaps
      && (Foreign(c, w.configMaps[c]) ==> w'.configMaps[c] == w.configMaps[c])
  }

  ghost predicate KeepsStatefulSet(w: World, w': World, c: Key) {
    c in w.statefulSets ==>
      && c in w'.statefulSets
      && var x, y := w.statefulSets[c], w'.statefulSets[c];
         y.owner == x.owner && y.replicas == x.replicas && y.readyReplicas == x.readyReplicas
  }

  ghost predicate KeepsService(w: World, w': World, c: Key) {
    c in w.services ==>
      && c in w'.services
      && var x, y := w.services[c], w'.services[c];
         y.owner == x.owner && y.clusterIP == x.clusterIP && y.ingress == x.ingress
  }

  lemma ConfigMapKept(w: World, k: Key, p: Worker, fault: Fault, c: Key)
    requires !p.Finished? && Shape(p) && CopyOK(w, k, p) && (HasServer(p) ==> p.server.key == k)
    ensures KeepsConfigMap(w, Call(w, NextOp(k, p), fault).0, c)
  {
    CallEffect(w, NextOp(k, p), fault);
    if p.ConfigMapUpdate? && c == ConfigMapKey(k) && c in w.configMaps {
      OwnMapIsNotForeign(k, p);
    }
  }

  lemma OwnMapIsNotForeign(k: Key, p: Worker)
    requires p.ConfigMapUpdate? && Shape(p) && p.server.key == k
    ensures !Foreign(ConfigMapKey(k), p.configMap)
  {
  }

  lemma StatefulSetKept(w: World, k: Key, p: Worker, fault: Fault, c: Key)
    requires !p.Finished? && Shape(p) && CopyOK(w, k, p)
    ensures KeepsStatefulSet(w, Call(w, NextOp(k, p), fault).0, c)
  {
    CallOrNothing(w, NextOp(k, p), fault);
    CallEffect(w, NextOp(k, p), NoFault);
    if p.StatefulSetUpdate? && k in w.statefulSets {
      StatefulSetUpdated(w, NextOp(k, p));
    }
  }

  lemma StatefulSetUpdated(w: World, op: Op)
    requires op.UpdateStatefulSet? && op.key in w.statefulSets
    ensures var w' := Exec(w, op).0;
            && op.key in w'.statefulSets
            && var x, y := w.statefulSets[op.key], w'.statefulSets[op.key];
               && y.replicas == x.replicas && y.readyReplicas == x.readyReplicas
               && (w'.statefulSets == w.statefulSets || (y.owner == op.sts.owner && x.rv == op.sts.rv))
  {
  }

  lemma ServiceKept(w: World, k: Key, p: Worker, fault: Fault, c: Key)
    requires !p.Finished? && Shape(p) && CopyOK(w, k, p)
    ensures KeepsService(w, Call(w, NextOp(k, p), fault).0, c)
  {
    CallOrNothing(w, NextOp(k, p), fault);
    CallEffect(w, NextOp(k, p), NoFault);
    if p.ServiceUpdate? && k in w.services {
      ServiceUpdated(w, NextOp(k, p));
    }
  }

  lemma ServiceUpdated(w: World, op: Op)
    requires op.UpdateService? && op.key in w.services
    ensures var w' := Exec(w, op).0;
            && op.key in w'.services
            && var x, y := w.services[op.key], w'.services[op.key];
               && y.ingress == x.ingress
               && (|| w'.services == w.services
                   || (y.owner == op.svc.owner && y.clusterIP == op.svc.clusterIP && x.rv == op.svc.rv))
  {
  }

  /** In every run, whatever was edited between a read and its write: a worker's step leaves a
      ConfigMap that is another's untouched, the owner and the counts of every StatefulSet, and
      the owner and the addresses of every Service. */
  lemma UpdatesLeaveTheRest(run: seq<State>, i: int, k: Key, fault: Fault, order: seq<string>, c: Key)
    requires IsRun(run) && 0 <= i < |run| - 1 && WorkStep(run[i], k, fault, order, run[i + 1])
    ensures KeepsConfigMap(run[i].world, run[i + 1].world, c)
    ensures KeepsStatefulSet(run[i].world, run[i + 1].world, c)
    ensures KeepsService(run[i].world, run[i + 1].world, c)
  {
    RunInv(run, i);
    RunCopyInv(run, i);
    var p, w := WorkerAt(run[i], k), run[i].world;
    assert WorkerOK(w, k, p) && CopyOK(w, k, p);
    ConfigMapKept(w, k, p, fault, c);
    StatefulSetKept(w, k, p, fault, c);
    ServiceKept(w, k, p, fault, c);
  }
}
