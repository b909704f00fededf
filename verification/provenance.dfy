// Where the children's content comes from, over all interleaved runs.
module Provenance {
  import opened Api
  import opened Cluster
  import opened Enumeration
  import opened GameDefinitions
  import opened Machine
  import opened System
  import Decimal
  import Services
  import StatefulSets

  ghost predicate ServerStored(run: seq<State>, i: int, x: Server) {
    0 <= i < |run| && x.key in run[i].world.servers && run[i].world.servers[x.key] == x
  }

  ghost predicate DefStored(run: seq<State>, j: int, d: Option<GameDef>) {
    0 <= j < |run| && (d.Some? ==> d.value.name in run[j].world.defs && run[j].world.defs[d.value.name] == d.value)
  }

  /** The server was stored at some moment and the definition at that moment or later. */
  ghost predicate Snapshot(run: seq<State>, x: Server, d: Option<GameDef>) {
    exists i, j :: i <= j && ServerStored(run, i, x) && DefStored(run, j, d)
  }

  /** A snapshot that passed the gates: a live server under the finalizer, with no
      definition because it names none, or with the one it names, which was ready,
      and with a config that its schema accepts. */
  ghost predicate Approved(run: seq<State>, x: Server, d: Option<GameDef>) {
    && Snapshot(run, x, d)
    && !x.deleting && FINALIZER in x.finalizers
    && (d.None? <==> x.spec.gameDefinition == "")
    && (d.Some? ==> d.value.name == x.spec.gameDefinition && d.value.ready)
    && ConfigAccepted(x, d)
  }

  predicate BuiltStatefulSet(sts: StatefulSet, x: Server, d: Option<GameDef>, order: seq<string>) {
    var b := StatefulSetBuilderFor(x, d);
    sts.spec == b.Desired(order) && sts.labels == b.Labels()
  }

  predicate BuiltService(svc: Service, x: Server, d: Option<GameDef>) {
    var b := ServiceBuilderFor(x, d);
    && svc.serviceType == b.GetServiceType() && svc.selector == svc.labels == b.Labels()
    && WithoutNodePorts(svc.ports) == Services.ServicePorts(b.GetPorts())
  }

  predicate BuiltConfigMap(configMap: ConfigMap, x: Server) {
    configMap.data == StatefulSets.ConfigData(x.spec.configFiles) && configMap.labels == ConfigMapLabels(x)
        && x.spec.configFiles != []
  }

  ghost predicate StatefulSetFrom(run: seq<State>, k: Key, sts: StatefulSet) {
    exists x: Server, d, order ::
        x.key == k && Approved(run, x, d) && Enumerates(order, x.spec.config.Keys) && BuiltStatefulSet(sts, x, d, order)
  }

  ghost predicate ServiceFrom(run: seq<State>, k: Key, svc: Service) {
    exists x: Server, d :: x.key == k && Approved(run, x, d) && BuiltService(svc, x, d)
  }

  ghost predicate ConfigMapFrom(run: seq<State>, c: Key, configMap: ConfigMap) {
    exists x: Server, d :: ConfigMapKey(x.key) == c && Approved(run, x, d) && BuiltConfigMap(configMap, x)
  }

  ghost predicate WorkerFrom(run: seq<State>, p: Worker) {
    && (p.FetchingDef? ==> exists i :: ServerStored(run, i, p.server))
    && (HasPlan(p) ==> Approved(run, p.server, p.def))
  }

  ghost predicate Traced(run: seq<State>, s: State) {
    && (forall k :: WorkerFrom(run, WorkerAt(s, k)))
    && (forall k :: k in s.world.statefulSets && s.world.statefulSets[k].writer.Operator? ==>
          StatefulSetFrom(run, k, s.world.statefulSets[k]))
    && (forall k :: k in s.world.services && s.world.services[k].writer.Operator? ==>
          ServiceFrom(run, k, s.world.services[k]))
    && (forall c :: c in s.world.configMaps && s.world.configMaps[c].writer.Operator? ==>
          ConfigMapFrom(run, c, s.world.configMaps[c]))
  }

  // Longer runs keep what shorter ones showed.

  lemma ApprovedLater(run: seq<State>, s: State, x: Server, d: Option<GameDef>)
    ensures Approved(run, x, d) ==> Approved(run + [s], x, d)
  {
    if Approved(run, x, d) {
      var i, j :| i <= j && ServerStored(run, i, x) && DefStored(run, j, d);
      assert ServerStored(run + [s], i, x) && DefStored(run + [s], j, d);
    }
  }

  lemma TracedLater(run: seq<State>, s: State, s': State)
    requires Traced(run, s)
    ensures Traced(run + [s'], s)
  {
    forall x, d ensures Approved(run, x, d) ==> Approved(run + [s'], x, d) {
      ApprovedLater(run, s', x, d);
    }
    forall k ensures WorkerFrom(run + [s'], WorkerAt(s, k)) {
      var p := WorkerAt(s, k);
      assert WorkerFrom(run, p);
      if p.FetchingDef? {
        var i :| ServerStored(run, i, p.server);
        assert ServerStored(run + [s'], i, p.server);
      }
    }
  }

  // One step.

  /** A plan is carried along unchanged from the point where the gates were passed. */
  lemma PlanKept(p: Worker, reply: Reply, order: seq<string>)
    requires !p.Finished?
    ensures var p' := Advance(p, reply, order);
            && (p'.FetchingDef? ==> p.Idle? && reply.GotServer? && p'.server == reply.server)
            && (HasPlan(p') ==>
                  || (HasPlan(p) && p'.server == p.server && p'.def == p.def)
                  || (p.Idle? && reply.GotServer? && p'.server == reply.server && p'.def.None?)
                  || (p.FetchingDef? && reply.GotDef? && p'.server == p.server && p'.def == Some(reply.def)))
  {
  }

  lemma WorkerTraced(run: seq<State>, s: State, k: Key, fault: Fault, order: seq<string>, s': State)
    requires |run| > 0 && run[|run| - 1] == s
    requires Inv(s) && WorkStep(s, k, fault, order, s') && WorkerFrom(run, WorkerAt(s, k))
    ensures WorkerFrom(run, WorkerAt(s', k))
  {
    var p, w := WorkerAt(s, k), s.world;
    var reply := Call(w, NextOp(k, p), fault).1;
    var p' := Advance(p, reply, order);
    assert WorkerOK(w, k, p) && ServerOK(w, k);
    AdvanceKeepsShape(k, p, reply, order);
    PlanKept(p, reply, order);
    if p.Idle? && reply.GotServer? {
      assert ServerStored(run, |run| - 1, reply.server);
      assert DefStored(run, |run| - 1, None);
    }
    if p.FetchingDef? && reply.GotDef? {
      assert DefOK(w, p.server.spec.gameDefinition);
      assert DefStored(run, |run| - 1, Some(reply.def));
    }
  }

  lemma StatefulSetTraced(run: seq<State>, w: World, k: Key, p: Worker, w': World, j: Key)
    requires !p.Finished? && Shape(p) && WorkerFrom(run, p) && (HasServer(p) ==> p.server.key == k)
    requires StatefulSetEffect(w, NextOp(k, p), w')
    requires j in w'.statefulSets && w'.statefulSets[j].writer.Operator?
    requires j in w.statefulSets && w.statefulSets[j].writer.Operator? ==> StatefulSetFrom(run, j, w.statefulSets[j])
    ensures StatefulSetFrom(run, j, w'.statefulSets[j])
  {
    if w'.statefulSets != w.statefulSets && j == k {
      assert BuiltStatefulSet(NextOp(k, p).sts, p.server, p.def, p.order);
      assert BuiltStatefulSet(w'.statefulSets[j], p.server, p.def, p.order);
    }
  }

  lemma ServiceTraced(run: seq<State>, w: World, k: Key, p: Worker, w': World, j: Key)
    requires !p.Finished? && Shape(p) && WorkerFrom(run, p) && (HasServer(p) ==> p.server.key == k)
    requires ServiceEffect(w, NextOp(k, p), w')
    requires j in w'.services && w'.services[j].writer.Operator?
    requires j in w.services && w.services[j].writer.Operator? ==> ServiceFrom(run, j, w.services[j])
    ensures ServiceFrom(run, j, w'.services[j])
  {
    if w'.services != w.services && j == k {
      NoNodePorts(ServiceBuilderFor(p.server, p.def).GetPorts());
      assert BuiltService(NextOp(k, p).svc, p.server, p.def);
      assert BuiltService(w'.services[j], p.server, p.def);
    }
  }

  lemma ConfigMapTraced(run: seq<State>, w: World, k: Key, p: Worker, w': World, c: Key)
    requires !p.Finished? && Shape(p) && WorkerFrom(run, p) && (HasServer(p) ==> p.server.key == k)
    requires ConfigMapEffect(w, NextOp(k, p), w')
    requires c in w'.configMaps && w'.configMaps[c].writer.Operator?
    requires c in w.configMaps && w.configMaps[c].writer.Operator? ==> ConfigMapFrom(run, c, w.configMaps[c])
    ensures ConfigMapFrom(run, c, w'.configMaps[c])
  {
    if w'.configMaps != w.configMaps && c == ConfigMapKey(k) {
      assert BuiltConfigMap(NextOp(k, p).configMap, p.server);
      assert BuiltConfigMap(w'.configMaps[c], p.server);
    }
  }

  lemma ChildrenTraced(run: seq<State>, s: State, k: Key, s': State)
    requires Traced(run, s) && Inv(s)
    requires !WorkerAt(s, k).Finished? && Effect(s.world, NextOp(k, WorkerAt(s, k)), s'.world)
    ensures forall j :: j in s'.world.statefulSets && s'.world.statefulSets[j].writer.Operator? ==>
        StatefulSetFrom(run, j, s'.world.statefulSets[j])
    ensures forall j :: j in s'.world.services && s'.world.services[j].writer.Operator? ==>
        ServiceFrom(run, j, s'.world.services[j])
    ensures forall c :: c in s'.world.configMaps && s'.world.configMaps[c].writer.Operator? ==>
        ConfigMapFrom(run, c, s'.world.configMaps[c])
  {
    var p, w, w' := WorkerAt(s, k), s.world, s'.world;
    assert WorkerOK(w, k, p) && WorkerFrom(run, p);
    forall j | j in w'.statefulSets && w'.statefulSets[j].writer.Operator?
      ensures StatefulSetFrom(run, j, w'.statefulSets[j])
    {
      StatefulSetTraced(run, w, k, p, w', j);
    }
    forall j | j in w'.services && w'.services[j].writer.Operator? ensures ServiceFrom(run, j, w'.services[j]) {
      ServiceTraced(run, w, k, p, w', j);
    }
    forall c | c in w'.configMaps && w'.configMaps[c].writer.Operator? ensures ConfigMapFrom(run, c, w'.configMaps[c]) {
      ConfigMapTraced(run, w, k, p, w', c);
    }
  }

  lemma NoNodePorts(ports: seq<ServerPort>)
    ensures WithoutNodePorts(Services.ServicePorts(ports)) == Services.ServicePorts(ports)
  {
  }

  lemma EnvTraced(run: seq<State>, s: State, s': State)
    requires Traced(run, s) && EnvStep(s.world, s'.world) && s' == s.(world := s'.world)
    ensures Traced(run, s')
  {
    forall k | k in s'.world.statefulSets && s'.world.statefulSets[k].writer.Operator?
      ensures StatefulSetFrom(run, k, s'.world.statefulSets[k])
    {
      assert StatefulSetEdited(s.world, s'.world, k);
      var x: Server, d, order :| x.key == k && Approved(run, x, d) && Enumerates(order, x.spec.config.Keys)
                         && BuiltStatefulSet(s.world.statefulSets[k], x, d, order);
      assert BuiltStatefulSet(s'.world.statefulSets[k], x, d, order);
    }
    forall k | k in s'.world.services && s'.world.services[k].writer.Operator?
      ensures ServiceFrom(run, k, s'.world.services[k])
    {
      assert ServiceEdited(s.world, s'.world, k);
      var x: Server, d :| x.key == k && Approved(run, x, d) && BuiltService(s.world.services[k], x, d);
      assert BuiltService(s'.world.services[k], x, d);
    }
    forall c | c in s'.world.configMaps && s'.world.configMaps[c].writer.Operator?
      ensures ConfigMapFrom(run, c, s'.world.configMaps[c])
    {
      assert ConfigMapEdited(s.world, s'.world, c);
    }
    forall k ensures WorkerFrom(run, WorkerAt(s', k)) {
      assert WorkerAt(s', k) == WorkerAt(s, k);
    }
  }

  lemma StepTraced(run: seq<State>, s: State, a: Action, s': State)
    requires |run| > 0 && run[|run| - 1] == s && Inv(s) && Traced(run, s) && Step(s, a, s')
    ensures Traced(run, s')
  {
    match a
    case Environment => EnvTraced(run, s, s');
    case Work(k, fault, order) =>
      assert WorkerFrom(run, WorkerAt(s, k));
      WorkerTraced(run, s, k, fault, order, s');
      CallEffect(s.world, NextOp(k, WorkerAt(s, k)), fault);
      ChildrenTraced(run, s, k, s');
      forall j ensures WorkerFrom(run, WorkerAt(s', j)) {
        assert j != k ==> WorkerAt(s', j) == WorkerAt(s, j);
      }
    case Restart(k) =>
      forall j ensures WorkerFrom(run, WorkerAt(s', j)) {
        assert j != k ==> WorkerAt(s', j) == WorkerAt(s, j);
      }
    case DefWork(n, fault, error) =>
      CallEffect(s.world, DefNextOp(n, DefWorkerAt(s, n)), fault);
      assert forall k :: WorkerAt(s', k) == WorkerAt(s, k);
    case DefRestart(n) =>
      assert forall k :: WorkerAt(s', k) == WorkerAt(s, k);
  }

  lemma {:induction false} RunTraced(run: seq<State>)
    requires IsRun(run)
    ensures Traced(run, run[|run| - 1])
    decreases |run|
  {
    if |run| == 1 {
    } else {
      var front, last := run[..|run| - 1], run[|run| - 1];
      RunPrefix(run);
      RunTraced(front);
      RunInv(front, |front| - 1);
      var a :| Step(front[|front| - 1], a, last);
      StepTraced(front, front[|front| - 1], a, last);
      TracedLater(front, last, last);
      assert run == front + [last];
    }
  }

  // The results.

  /** In every reachable state, every StatefulSet, Service and ConfigMap last written by
      the operator is what the builders make of one earlier snapshot that passed the gates. */
  lemma WrittenChildrenAreBuilt(run: seq<State>, k: Key)
    requires IsRun(run)
    ensures var w := run[|run| - 1].world;
            && (k in w.statefulSets && w.statefulSets[k].writer.Operator? ==>
                  StatefulSetFrom(run, k, w.statefulSets[k]))
            && (k in w.services && w.services[k].writer.Operator? ==> ServiceFrom(run, k, w.services[k]))
            && (ConfigMapKey(k) in w.configMaps && w.configMaps[ConfigMapKey(k)].writer.Operator? ==>
                  ConfigMapFrom(run, ConfigMapKey(k), w.configMaps[ConfigMapKey(k)]))
  {
    RunTraced(run);
  }

  /** In every reachable state the selector of a written StatefulSet is its pods' labels,
      and is made of the server's name, and of the game and the app id of one approved snapshot. */
  lemma SelectorIsPodLabels(run: seq<State>, k: Key)
    requires IsRun(run)
    requires k in run[|run| - 1].world.statefulSets && run[|run| - 1].world.statefulSets[k].writer.Operator?
    ensures var sts := run[|run| - 1].world.statefulSets[k];
            && sts.spec.selector == sts.spec.podLabels == sts.labels
            && exists x: Server, d ::
                 && x.key == k && Approved(run, x, d)
                 && sts.spec.selector
                    == StatefulSets.StatefulSetLabels(k.name, x.spec.gameDefinition,
                        StatefulSetBuilderFor(x, d).GetAppId())
  {
    RunTraced(run);
    var sts := run[|run| - 1].world.statefulSets[k];
    var x: Server, d, order :| x.key == k && Approved(run, x, d) && Enumerates(order, x.spec.config.Keys)
        && BuiltStatefulSet(sts, x, d, order);
    assert sts.spec.selector == StatefulSetBuilderFor(x, d).Labels();
  }

  /** An update keeps the selector exactly when it keeps the game and, as far as it is
      positive, the app id. */
  lemma SelectorKeptIff(name: string, game: string, appId: int, newGame: string, newAppId: int)
    ensures StatefulSets.StatefulSetLabels(name, game, appId) == StatefulSets.StatefulSetLabels(name, newGame, newAppId)
       <==> game == newGame && (appId == newAppId || (appId <= 0 && newAppId <= 0))
  {
    var a, b := StatefulSets.StatefulSetLabels(name, game, appId),
        StatefulSets.StatefulSetLabels(name, newGame, newAppId);
    assert a[StatefulSets.GAME_LABEL] == game && b[StatefulSets.GAME_LABEL] == newGame;
    assert (StatefulSets.APP_ID_LABEL in a <==> appId > 0) && (StatefulSets.APP_ID_LABEL in b <==> newAppId > 0);
    if a == b && appId > 0 {
      Decimal.TextInjective(appId, newAppId);
    }
  }

  /** In every reachable state no Service written by the operator selects pods of a
      written StatefulSet of another name, in whatever namespace. */
  lemma NoForeignPods(run: seq<State>, k: Key, j: Key)
    requires IsRun(run) && k.name != j.name
    requires k in run[|run| - 1].world.services && run[|run| - 1].world.services[k].writer.Operator?
    requires j in run[|run| - 1].world.statefulSets && run[|run| - 1].world.statefulSets[j].writer.Operator?
    ensures !Services.Selects(run[|run| - 1].world.services[k].selector,
        run[|run| - 1].world.statefulSets[j].spec.podLabels)
  {
    var w := run[|run| - 1].world;
    RunTraced(run);
    var x: Server, d :| x.key == k && Approved(run, x, d) && BuiltService(w.services[k], x, d);
    var y: Server, e, order :| y.key == j && Approved(run, y, e) && Enumerates(order, y.spec.config.Keys)
        && BuiltStatefulSet(w.statefulSets[j], y, e, order);
    Services.SelectsOwnPodsOnly(k.name, j.name, x.spec.gameDefinition, y.spec.gameDefinition,
        StatefulSetBuilderFor(y, e).GetAppId());
  }

  /** The definition that a gate is about: none is named, or one was fetched. */
  predicate PassesGate(p: Worker, reply: Reply)
    requires p.FetchingDef? || reply.GotServer?
  {
    if p.FetchingDef? then reply.GotDef? && GateOpen(p.server, Some(reply.def)) else GateOpen(reply.server, None)
  }

  /** A live server's reconcile goes on to its children exactly when the definition it names
      can be fetched, is ready, and accepts the config. Otherwise it makes one more call, a
      status write, and so leaves the children alone. */
  lemma StoppedAtGate(k: Key, p: Worker, reply: Reply, order: seq<string>, written: Reply)
    requires p.FetchingDef? || (p.Idle? && reply.GotServer? && !reply.server.deleting
                                && FINALIZER in reply.server.finalizers && reply.server.spec.gameDefinition == "")
    ensures var next := Advance(p, reply, order);
            && !next.Finished?
            && (HasPlan(next) <==> PassesGate(p, reply))
            && (!HasPlan(next) ==>
                  && next.ErrorWrite? && NextOp(k, next).UpdateServerStatus?
                  && NextOp(k, next).server.status.state == Error
                  && NextOp(k, next).server.status.message
                     == (if reply.GotDef? && reply.def.ready then "Failed to reconcile Config: "
                         else "Failed to reconcile GameDefinition: ")
                  && Advance(next, written, order)
                     == Finished(if reply.GotDef? && !reply.def.ready then RequeueAfter(30) else Failure))
  {
  }
}
