// The SteamServer reconciler as it runs: methods that change the server in hand,
// call the API and return. Everybody else and the faults are a script that the
// reconciler is proved against for every choice of; the step machine is its specification.
module Controller {
  import opened Api
  import opened Cluster
  import opened ConfigValues
  import opened Convergence
  import opened Enumeration
  import opened Executions
  import opened Machine
  import opened Observations
  import opened Reporting
  import opened System
  import Decimal
  import Services
  import StatefulSets

  /** The server in hand. */
  class SteamServer {
    const key: Key
    const uid: nat
    const rv: nat
    const deleting: bool
    const spec: SteamServerSpec
    var finalizers: seq<string>
    var status: ServerStatus

    constructor (s: Server)
      ensures Value() == s
    {
      key, uid, rv, deleting, spec := s.key, s.uid, s.rv, s.deleting, s.spec;
      finalizers, status := s.finalizers, s.status;
    }

    function Value(): Server
      reads this
    {
      Server(key, uid, rv, deleting, finalizers, spec, status)
    }

    method AddFinalizer(finalizer: string)
      requires finalizer !in finalizers
      modifies this
      ensures Value() == old(Value()).(finalizers := old(finalizers) + [finalizer])
    {
      finalizers := finalizers + [finalizer];
    }

    method RemoveFinalizer(finalizer: string)
      modifies this
      ensures Value() == old(Value()).(finalizers := Without(old(finalizers), finalizer))
    {
      var kept := [];
      for i := 0 to |finalizers|
        invariant unchanged(this)
        invariant kept == Without(finalizers[..i], finalizer)
      {
        assert finalizers[..i + 1][..i] == finalizers[..i];
        if finalizers[i] != finalizer {
          kept := kept + [finalizers[i]];
        }
      }
      assert finalizers[..|finalizers|] == finalizers;
      finalizers := kept;
    }
  }

  // The parts that only read.

  method PortsEqual(a: seq<PortStatus>, b: seq<PortStatus>) returns (equal: bool)
    ensures equal <==> a == b
  {
    if |a| != |b| {
      return false;
    }
    for i := 0 to |a|
      invariant a[..i] == b[..i]
    {
      if a[i].name != b[i].name || a[i].port != b[i].port || a[i].protocol != b[i].protocol {
        return false;
      }
    }
    assert a[..|a|] == a && b[..|a|] == b;
    return true;
  }

  method CheckLabels(actual: map<string, string>, expected: map<string, string>) returns (inOrder: bool)
    ensures inOrder <==> HasLabels(actual, expected)
    ensures inOrder <==> forall k :: k in expected ==> (if k in actual then actual[k] else "") == expected[k]
  {
    var order := Walk(expected.Keys);
    for i := 0 to |order|
      invariant forall k :: k in order[..i] ==> LabelOf(actual, k) == expected[k]
    {
      assert order[i] in order;
      if LabelOf(actual, order[i]) != expected[order[i]] {
        return false;
      }
    }
    assert order[..|order|] == order;
    return true;
  }

  method StateOfPod(pod: Pod) returns (state: ServerState)
    ensures PodShows(pod, state)
    ensures state == PodState(pod)
  {
    PodStateShows(pod);
    match pod.phase {
      case "Pending" => return Pending;
      case "Running" =>
        for i := 0 to |pod.initStatuses|
          invariant ScanInit(pod.initStatuses) == ScanInit(pod.initStatuses[i..])
        {
          var cs := pod.initStatuses[i];
          assert pod.initStatuses[i..][1..] == pod.initStatuses[i + 1..];
          if cs.name == StatefulSets.INIT_CONTAINER {
            if cs.state.Executing? {
              return Installing;
            }
            if cs.state.Terminated? && cs.state.exitCode != 0 {
              return Error;
            }
          }
        }
        for i := 0 to |pod.statuses|
          invariant ScanMain(pod.statuses) == ScanMain(pod.statuses[i..])
        {
          var cs := pod.statuses[i];
          assert pod.statuses[i..][1..] == pod.statuses[i + 1..];
          if cs.name == StatefulSets.GAME_SERVER_CONTAINER {
            if cs.state.Executing? && cs.ready {
              return Running;
            }
            if cs.state.Executing? {
              return Starting;
            }
          }
        }
        return Starting;
      case "Failed" => return Error;
      case _ => return Pending;
    }
  }

  method AddressOf(svc: Option<Service>) returns (address: string)
    ensures AddressShows(svc, address)
    ensures address == DetermineAddress(svc)
  {
    AddressShowsIff(svc, DetermineAddress(svc));
    if svc.None? {
      return "";
    }
    match svc.value.serviceType {
      case "LoadBalancer" =>
        var ingress := svc.value.ingress;
        for i := 0 to |ingress|
          invariant FirstIngress(ingress) == FirstIngress(ingress[i..])
        {
          assert ingress[i..][1..] == ingress[i + 1..];
          if ingress[i].ip != "" {
            return ingress[i].ip;
          }
          if ingress[i].hostname != "" {
            return ingress[i].hostname;
          }
        }
        return "<pending>";
      case "NodePort" => return "<node-ip>";
      case "ClusterIP" => return svc.value.clusterIP;
      case _ => return "";
    }
  }

  method PortsOf(svc: Option<Service>) returns (ports: seq<PortStatus>)
    ensures PortsShow(svc, ports)
    ensures ports == DeterminePorts(svc)
  {
    PortsShowIff(svc, DeterminePorts(svc));
    if svc.None? {
      return [];
    }
    var shown := svc.value.ports;
    ports := seq(|shown|, i => PortStatus("", 0, ""));
    for i := 0 to |shown|
      invariant |ports| == |shown|
      invariant forall j :: 0 <= j < i ==> ports[j] == ShownPort(svc.value.serviceType, shown[j])
    {
      var port := shown[i].port;
      if svc.value.serviceType == "NodePort" && shown[i].nodePort != 0 {
        port := shown[i].nodePort;
      }
      ports := ports[i := PortStatus(shown[i].name, port, shown[i].protocol)];
    }
  }

  method CommonLabelsOf(name: string, game: string) returns (labels: map<string, string>)
    ensures labels == StatefulSets.CommonLabels(name, game)
  {
    labels := map[StatefulSets.NAME_LABEL := "steamserver", StatefulSets.INSTANCE_LABEL := name,
        StatefulSets.MANAGED_BY_LABEL := "boilerr"];
    if game != "" {
      labels := labels[StatefulSets.GAME_LABEL := game];
    }
  }

  /** The servers to look at again when a definition changes: those that refer to it, in list
      order, or none when they cannot be listed. */
  method FindSteamServersForGameDef(listed: Option<seq<Server>>, game: string) returns (requests: seq<Key>)
    ensures listed.None? ==> requests == []
    ensures listed.Some? ==> forall k ::
              k in requests <==> exists s :: s in listed.value && s.spec.gameDefinition == game && s.key == k
    ensures listed.Some? ==>
              && |requests| == |Referring(listed.value, game)|
              && forall i :: 0 <= i < |requests| ==> requests[i] == Referring(listed.value, game)[i].key
  {
    requests := [];
    if listed.None? {
      return;
    }
    var servers := listed.value;
    for i := 0 to |servers|
      invariant |requests| == |Referring(servers[..i], game)|
      invariant forall j :: 0 <= j < |requests| ==> requests[j] == Referring(servers[..i], game)[j].key
      invariant forall k :: k in requests <==> exists s ::
          s in servers[..i] && s.spec.gameDefinition == game && s.key == k
    {
      assert servers[..i + 1][..i] == servers[..i];
      assert forall s :: s in servers[..i + 1] <==> s in servers[..i] || s == servers[i];
      if servers[i].spec.gameDefinition == game {
        requests := requests + [servers[i].key];
      }
    }
    assert servers[..|servers|] == servers;
  }

  function Referring(servers: seq<Server>, game: string): seq<Server> {
    if servers == [] then []
    else
      var front, last := Referring(servers[..|servers| - 1], game), servers[|servers| - 1];
      if last.spec.gameDefinition == game then front + [last] else front
  }

  /** The kind of answer a call can get. */
  predicate Answers(op: Op, reply: Reply) {
    match op
    case GetServer(_) => reply.GotServer?
    case GetDef(_) => reply.GotDef?
    case GetConfigMap(_) => reply.GotConfigMap?
    case GetClaim(_) => reply.GotClaim?
    case GetStatefulSet(_) => reply.GotStatefulSet?
    case GetService(_) => reply.GotService?
    case GetPod(_) => reply.GotPod?
    case _ => reply.Done?
  }

  lemma CallAnswers(w: World, op: Op, fault: Fault)
    ensures Call(w, op, fault).1.Failed? || Answers(op, Call(w, op, fault).1)
  {
  }

  /** The status tells what the reads of a status update were answered, in order: the
      StatefulSet, the Service, and the pod if there are replicas. */
  ghost predicate TellsReads(status: ServerStatus, seen: seq<Reply>)
    requires |seen| >= 2
  {
    && (if seen[0].GotStatefulSet? && HasReplicas(seen[0].sts) then |seen| > 2 && StateRead(seen[2], status.state)
        else status.state == if seen[0].GotStatefulSet? || seen[0] == Failed(NotFound) then Pending else Error)
    && AddressShows(ServiceRead(seen[1]), status.address)
    && PortsShow(ServiceRead(seen[1]), status.ports)
  }

  ghost predicate StateRead(pod: Reply, state: ServerState) {
    if pod.GotPod? then PodShows(pod.pod, state)
    else state == if pod == Failed(NotFound) then Pending else Error
  }

  function ServiceRead(svc: Reply): Option<Service> {
    if svc.GotService? then Some(svc.svc) else None
  }

  lemma ReadsAreTold(r0: Reply, r1: Reply, read: seq<Reply>, written: seq<Reply>, status: ServerStatus)
    requires var sts := SeenStatefulSet(r0);
             if NeedsPod(sts) then |read| == 1 && Shows(status, DetermineState(sts, SeenPod(read[0])), ServiceRead(r1))
             else Shows(status, DetermineState(sts, Absent), ServiceRead(r1))
    ensures TellsReads(status, [r0, r1] + read + written)
    ensures forall before: seq<Reply> :: before + [r0, r1] + read + written == before + ([r0, r1] + read + written)
  {
    var seen := [r0, r1] + read + written;
    assert seen[0] == r0 && seen[1] == r1;
    TellsIff(status, status.state, ServiceRead(r1));
    if |read| > 0 {
      assert seen[2] == read[0];
      ReadsShowIff(SeenStatefulSet(r0), SeenPod(read[0]), status.state);
    }
    ReadsShowIff(SeenStatefulSet(r0), Absent, status.state);
  }

  /** One call among others' steps is an event of the execution. */
  lemma CallHappened(k: Key, path: seq<State>, p: Worker, fault: Fault, order: seq<string>)
    requires OthersPath(OfServer(k), path) && WorkEnabled(p, order)
    ensures var (w', reply) := Call(Last(path).world, NextOp(k, p), fault);
            Happened(k, With(path[0], k, p), Event(AllWith(path, k, p), fault, reply, order),
                     With(Last(path).(world := w'), k, Advance(p, reply, order)))
  {
    var (w', reply) := Call(Last(path).world, NextOp(k, p), fault);
    OthersPathWith(k, path, p);
    var q := Advance(p, reply, order);
    assert Last(AllWith(path, k, p)) == With(Last(path), k, p);
    assert With(Last(path), k, p).workers[k := q] == Last(path).workers[k := q];
  }

  /** The reconciler of one server. Between two of its calls the others, which are the
      environment and every other worker, do what the script says. */
  class SteamServerReconciler {
    const key: Key
    const others: (nat, State) -> seq<State>
    const faults: nat -> Fault
    var calls: nat
    var rest: State
    ghost const start: State
    ghost var worker: Worker
    ghost var record: Record
    ghost var replies: seq<Reply>

    /** The cluster, everybody else, and where this worker is. */
    ghost function Whole(): State
      reads this
    {
      With(rest, key, worker)
    }

    ghost predicate Valid()
      reads this
    {
      && (forall i, s :: OthersPath(OfServer(key), [s] + others(i, s)))
      && record.Explains(key, start, Whole())
      && replies == record.Replies()
    }

    constructor (request: Key, rest: State, others: (nat, State) -> seq<State>, faults: nat -> Fault)
      requires forall i, s :: OthersPath(OfServer(request), [s] + others(i, s))
      ensures Valid() && key == request && this.rest == rest && record.events == [] && replies == []
      ensures start == Whole() == With(rest, request, Idle)
    {
      key, this.others, this.faults, calls, this.rest := request, others, faults, 0, rest;
      start, worker, record := With(rest, request, Idle), Idle, Record([With(rest, request, Idle)], []);
      replies := [];
    }

    /** One call: others move first, then the call has its effect or not, and is answered or not. */
    method Call(op: Op, ghost order: seq<string>) returns (reply: Reply)
      requires Valid() && WorkEnabled(worker, order) && op == NextOp(key, worker)
      modifies this
      ensures Valid()
      ensures worker == Advance(old(worker), reply, order)
      ensures replies == old(replies) + [reply]
      ensures reply.Failed? || Answers(op, reply)
    {
      var path, fault := [rest] + others(calls, rest), faults(calls);
      assert OthersPath(OfServer(key), path);
      CallHappened(key, path, worker, fault, order);
      CallAnswers(Last(path).world, op, fault);
      ghost var before := Whole();
      var result := Cluster.Call(Last(path).world, op, fault);
      reply := result.1;
      rest := Last(path).(world := result.0);
      calls := calls + 1;
      ghost var e := Event(AllWith(path, key, worker), fault, reply, order);
      worker := Advance(worker, reply, order);
      RecordExtended(record, key, start, before, e, Whole());
      record := record.Plus(e, Whole());
      replies := replies + [reply];
    }

    /** The main loop, continuing any run of the system: what it does is a run, it ends
        where the machine ends after at most fourteen calls, and if it asks for nothing more
        there is nothing left to do: a server that is not being deleted shows in its stored
        status that it was seen running. */
    method Reconcile(ghost before: seq<State>) returns (outcome: Outcome)
      requires Valid() && record.events == [] && IsRun(before) && Last(before) == Whole()
      modifies this
      ensures Valid()
      ensures worker == Finished(outcome)
      ensures IsRun(before + record.Steps(|record.events|)) && Last(before + record.Steps(|record.events|)) == Whole()
      ensures 0 < |record.events| <= 14
      ensures outcome == Success ==> NothingLeftToDo(record.History(key))
      ensures outcome == Success && record.events[0].reply.GotServer? && !record.events[0].reply.server.deleting ==>
                && key in rest.world.servers
                && exists i :: ShowsObserved(record, key, i, rest.world.servers[key].status)
    {
      outcome := Start();
      ExecutionIsReconcile(record, key, start, Whole());
      ReconcileIsBounded(record.History(key));
      ExecutionExtendsRun(before, record, key, Whole(), |record.events|);
      if outcome == Success {
        NoSilentStall(record.History(key));
        if record.events[0].reply.GotServer? && !record.events[0].reply.server.deleting {
          SuccessIsPersisted(before, record, key, Whole());
        }
      }
    }

    method Start() returns (outcome: Outcome)
      requires Valid() && worker == Idle
      modifies this
      ensures Valid()
      ensures worker == Finished(outcome)
    {
      var reply := Call(GetServer(key), []);
      if reply.Failed? {
        if reply.error == NotFound {
          return Success;
        }
        return Failure;
      }
      var server := new SteamServer(reply.server);
      outcome := ReconcileServer(server);
    }

    method ReconcileServer(server: SteamServer) returns (outcome: Outcome)
      requires Valid() && worker == OnRead(server.Value())
      modifies this, server
      ensures Valid()
      ensures worker == Finished(outcome)
    {
      if server.deleting {
        outcome := HandleDeletion(server);
        return;
      }
      if FINALIZER !in server.finalizers {
        server.AddFinalizer(FINALIZER);
        var reply := Call(UpdateServer(server.Value()), []);
        return if reply.Done? then Requeue else Failure;
      }
      var found, def := FetchGameDefinition(server.Value());
      if !found {
        outcome := SetErrorStatus(server, "GameDefinition", false);
        return;
      }
      if def.Some? && !def.value.ready {
        var _ := SetErrorStatus(server, "GameDefinition", true);
        return RequeueAfter(30);
      }
      if def.Some? && def.value.spec.configSchema.Some? {
        var error := CheckConfig(server.spec.config, def.value.spec.configSchema.value);
        if error.Some? {
          outcome := SetErrorStatus(server, "Config", false);
          return;
        }
      }
      outcome := ReconcileChildren(server, def);
    }

    method HandleDeletion(server: SteamServer) returns (outcome: Outcome)
      requires Valid() && server.deleting && worker == OnRead(server.Value())
      modifies this, server
      ensures Valid()
      ensures worker == Finished(outcome)
      ensures FINALIZER !in server.finalizers
    {
      if FINALIZER in server.finalizers {
        server.RemoveFinalizer(FINALIZER);
        var reply := Call(UpdateServer(server.Value()), []);
        if !reply.Done? {
          return Failure;
        }
      }
      return Success;
    }

    method FetchGameDefinition(server: Server) returns (found: bool, def: Option<GameDef>)
      requires Valid() && worker == if server.spec.gameDefinition == "" then Gate(server, None) else FetchingDef(server)
      modifies this
      ensures Valid()
      ensures worker == if found then Gate(server, def) else FailedAt(server, "GameDefinition")
    {
      if server.spec.gameDefinition == "" {
        return true, None;
      }
      var reply := Call(GetDef(server.spec.gameDefinition), []);
      if reply.Failed? {
        return false, None;
      }
      return true, Some(reply.def);
    }

    /** The walks of the three passes of the validation are picked here. */
    method CheckConfig(config: Config, schema: Schema) returns (error: Option<ConfigError>)
      ensures error.None? <==> Accepted(config, schema)
      ensures error.Some? ==> Refuted(config, schema, error.value)
    {
      var first := Walk(schema.Keys);
      var second := Walk(config.Keys);
      var third := Walk(config.Keys);
      error := ValidateConfig(config, schema, first, second, third);
    }

    method ReconcileChildren(server: SteamServer, def: Option<GameDef>) returns (outcome: Outcome)
      requires Valid() && GateOpen(server.Value(), def) && worker == Gate(server.Value(), def)
      modifies this, server
      ensures Valid()
      ensures worker == Finished(outcome)
    {
      var ok := ReconcileConfigMap(server.Value(), def);
      if !ok {
        outcome := SetErrorStatus(server, "ConfigMap", false);
        return;
      }
      ok := ReconcilePvc(server.Value(), def);
      if !ok {
        outcome := SetErrorStatus(server, "PVC", false);
        return;
      }
      ok := ReconcileStatefulSet(server.Value(), def);
      if !ok {
        outcome := SetErrorStatus(server, "StatefulSet", false);
        return;
      }
      ok := ReconcileService(server.Value(), def);
      if !ok {
        outcome := SetErrorStatus(server, "Service", false);
        return;
      }
      ghost var seen;
      outcome, seen := UpdateStatus(server);
    }

    /** What the ConfigMap is turned into, unless it belongs to another controller. */
    method MutateConfigMap(server: Server, found: ConfigMap) returns (ok: bool, configMap: ConfigMap)
      ensures ok <==> !OwnedByAnother(found.owner, server)
      ensures ok ==> configMap == MutatedConfigMap(server, found)
    {
      configMap := found;
      var labels := CommonLabelsOf(server.key.name, server.spec.gameDefinition);
      configMap := configMap.(labels := labels);
      configMap := configMap.(data := map[]);
      var files := server.spec.configFiles;
      for i := 0 to |files|
        invariant configMap == found.(labels := labels, data := StatefulSets.ConfigData(files[..i]))
      {
        assert files[..i + 1][..i] == files[..i];
        configMap := configMap.(data := configMap.data["config-" + Decimal.Text(i) := files[i].content]);
      }
      assert files[..|files|] == files;
      if OwnedByAnother(configMap.owner, server) {
        return false, found;
      }
      configMap := configMap.(owner := Some(OwnerOf(server)));
      ok := true;
    }

    method ReconcileConfigMap(server: Server, ghost def: Option<GameDef>) returns (ok: bool)
      requires Valid()
      requires worker == if server.spec.configFiles == [] then EnterClaim(server, def) else ConfigMapGet(server, def)
      modifies this
      ensures Valid()
      ensures worker == if ok then EnterClaim(server, def) else FailedAt(server, "ConfigMap")
    {
      if |server.spec.configFiles| == 0 {
        return true;
      }
      var reply := Call(GetConfigMap(ConfigMapKey(key)), []);
      if reply.GotConfigMap? {
        ok := RepairConfigMap(server, def, reply.configMap);
      } else if reply.error == NotFound {
        ok := MakeConfigMap(server, def);
      } else {
        ok := false;
      }
    }

    method MakeConfigMap(server: Server, ghost def: Option<GameDef>) returns (ok: bool)
      requires Valid() && worker == ConfigMapCreate(server, def)
      modifies this
      ensures Valid()
      ensures worker == if ok then EnterClaim(server, def) else FailedAt(server, "ConfigMap")
    {
      var _, made := MutateConfigMap(server, ConfigMap(0, Operator, None, map[], map[]));
      var reply := Call(CreateConfigMap(ConfigMapKey(key), made), []);
      return reply.Done?;
    }

    method RepairConfigMap(server: Server, ghost def: Option<GameDef>, existing: ConfigMap) returns (ok: bool)
      requires Valid() && worker == OnConfigMap(server, def, GotConfigMap(existing))
      modifies this
      ensures Valid()
      ensures worker == if ok then EnterClaim(server, def) else FailedAt(server, "ConfigMap")
    {
      var allowed, changed := MutateConfigMap(server, existing);
      if !allowed {
        return false;
      }
      if changed == existing {
        return true;
      }
      var reply := Call(UpdateConfigMap(ConfigMapKey(key), changed), []);
      return reply.Done?;
    }

    method ReconcilePvc(server: Server, def: Option<GameDef>) returns (ok: bool)
      requires Valid() && worker == EnterClaim(server, def)
      modifies this
      ensures Valid()
      ensures worker == if ok then StatefulSetGet(server, def) else FailedAt(server, "PVC")
    {
      var builder := ClaimBuilderFor(server, def);
      var desired, labels := builder.Build();
      if desired.None? {
        return true;
      }
      var reply := Call(GetClaim(ClaimKey(key)), []);
      if reply.Failed? {
        if reply.error != NotFound {
          return false;
        }
        ok := CreatePvc(server, def, desired.value, labels);
        return;
      }
      ok := RepairPvcLabels(server, def, reply.claim, labels);
    }

    method CreatePvc(server: Server, ghost def: Option<GameDef>, desired: PvcSpec, labels: map<string, string>)
      returns (ok: bool)
      requires Valid() && worker == ClaimCreate(server, def)
      requires ClaimBuilderFor(server, def).Desired() == Some(desired)
      requires labels == ClaimBuilderFor(server, def).Labels()
      modifies this
      ensures Valid()
      ensures worker == if ok then StatefulSetGet(server, def) else FailedAt(server, "PVC")
    {
      var reply := Call(CreateClaim(ClaimKey(key), Claim(0, Operator, Some(OwnerOf(server)), labels, desired)), []);
      return reply.Done?;
    }

    method RepairPvcLabels(server: Server, ghost def: Option<GameDef>, found: Claim, labels: map<string, string>)
      returns (ok: bool)
      requires Valid() && worker == OnClaim(server, def, GotClaim(found))
      requires labels == ClaimBuilderFor(server, def).Labels()
      modifies this
      ensures Valid()
      ensures worker == if ok then StatefulSetGet(server, def) else FailedAt(server, "PVC")
    {
      var existing := found;
      var inOrder := CheckLabels(existing.labels, labels);
      if !inOrder {
        existing := existing.(labels := labels);
        var reply := Call(UpdateClaim(ClaimKey(key), existing), []);
        return reply.Done?;
      }
      return true;
    }

    method ReconcileStatefulSet(server: Server, def: Option<GameDef>) returns (ok: bool)
      requires Valid() && worker == StatefulSetGet(server, def)
      modifies this
      ensures Valid()
      ensures worker == if ok then ServiceGet(server, def) else FailedAt(server, "StatefulSet")
    {
      var order, desired := BuildSts(server, def);
      var existing := FindSts(server, def, order);
      match existing {
        case Found(sts) => ok := UpdateSts(server, def, order, sts, desired);
        case Absent => ok := CreateSts(server, def, order, desired);
        case Unreadable => ok := false;
      }
    }

    method FindSts(server: Server, ghost def: Option<GameDef>, ghost order: seq<string>)
      returns (existing: Seen<StatefulSet>)
      requires Valid() && worker == StatefulSetGet(server, def) && Enumerates(order, server.spec.config.Keys)
      modifies this
      ensures Valid()
      ensures existing.Found? ==> worker == StatefulSetUpdate(server, def, order, existing.item)
      ensures existing.Absent? ==> worker == StatefulSetCreate(server, def, order)
      ensures existing.Unreadable? ==> worker == FailedAt(server, "StatefulSet")
    {
      var reply := Call(GetStatefulSet(key), order);
      existing := SeenStatefulSet(reply);
    }

    /** The walks over the schema and the config are picked here. */
    method BuildSts(server: Server, def: Option<GameDef>) returns (order: seq<string>, desired: StatefulSet)
      ensures Enumerates(order, server.spec.config.Keys)
      ensures desired == NewStatefulSet(server, def, order)
    {
      var builder := StatefulSetBuilderFor(server, def);
      var schemaOrder := Walk(builder.GetSchema().Keys);
      order := Walk(server.spec.config.Keys);
      var spec, labels := builder.Build(schemaOrder, order);
      desired := StatefulSet(0, Operator, Some(OwnerOf(server)), labels, spec, 0, 0);
    }

    method CreateSts(server: Server, ghost def: Option<GameDef>, ghost order: seq<string>, desired: StatefulSet)
      returns (ok: bool)
      requires Valid() && worker == StatefulSetCreate(server, def, order)
      requires desired == NewStatefulSet(server, def, order)
      modifies this
      ensures Valid()
      ensures worker == if ok then ServiceGet(server, def) else FailedAt(server, "StatefulSet")
    {
      var reply := Call(CreateStatefulSet(key, desired), []);
      return reply.Done?;
    }

    method UpdateSts(server: Server, ghost def: Option<GameDef>, ghost order: seq<string>, found: StatefulSet,
                     desired: StatefulSet)
      returns (ok: bool)
      requires Valid() && worker == StatefulSetUpdate(server, def, order, found)
      requires desired == NewStatefulSet(server, def, order)
      modifies this
      ensures Valid()
      ensures worker == if ok then ServiceGet(server, def) else FailedAt(server, "StatefulSet")
    {
      var existing := found;
      existing := existing.(spec := desired.spec);
      existing := existing.(labels := desired.labels);
      var reply := Call(UpdateStatefulSet(key, existing), []);
      return reply.Done?;
    }

    method ReconcileService(server: Server, def: Option<GameDef>) returns (ok: bool)
      requires Valid() && worker == ServiceGet(server, def)
      modifies this
      ensures Valid()
      ensures worker == if ok then ObserveStatefulSet(server) else FailedAt(server, "Service")
    {
      var builder := ServiceBuilderFor(server, def);
      var serviceType, selector, ports := builder.Build();
      var existing := FindSvc(server, def);
      match existing {
        case Found(svc) => ok := UpdateSvc(server, def, svc, serviceType, selector, ports);
        case Absent => ok := CreateSvc(server, def, serviceType, selector, ports);
        case Unreadable => ok := false;
      }
    }

    method FindSvc(server: Server, ghost def: Option<GameDef>) returns (existing: Seen<Service>)
      requires Valid() && worker == ServiceGet(server, def)
      modifies this
      ensures Valid()
      ensures existing.Found? ==> worker == ServiceUpdate(server, def, existing.item)
      ensures existing.Absent? ==> worker == ServiceCreate(server, def)
      ensures existing.Unreadable? ==> worker == FailedAt(server, "Service")
    {
      var reply := Call(GetService(key), []);
      if reply.GotService? {
        return Found(reply.svc);
      }
      return if reply.error == NotFound then Absent else Unreadable;
    }

    method CreateSvc(server: Server, ghost def: Option<GameDef>, serviceType: string, selector: map<string, string>,
                     ports: seq<ServicePort>)
      returns (ok: bool)
      requires Valid() && worker == ServiceCreate(server, def)
      requires serviceType == ServiceBuilderFor(server, def).GetServiceType()
      requires selector == ServiceBuilderFor(server, def).Labels()
      requires ports == Services.ServicePorts(ServiceBuilderFor(server, def).GetPorts())
      modifies this
      ensures Valid()
      ensures worker == if ok then ObserveStatefulSet(server) else FailedAt(server, "Service")
    {
      var made := Service(0, Operator, Some(OwnerOf(server)), selector, serviceType, selector, ports, "", []);
      var reply := Call(CreateService(key, made), []);
      return reply.Done?;
    }

    /** The address that the cluster gave the service is left as it is. */
    method UpdateSvc(server: Server, ghost def: Option<GameDef>, found: Service,
                     serviceType: string, selector: map<string, string>, ports: seq<ServicePort>)
      returns (ok: bool)
      requires Valid() && worker == ServiceUpdate(server, def, found)
      requires serviceType == ServiceBuilderFor(server, def).GetServiceType()
      requires selector == ServiceBuilderFor(server, def).Labels()
      requires ports == Services.ServicePorts(ServiceBuilderFor(server, def).GetPorts())
      modifies this
      ensures Valid()
      ensures worker == if ok then ObserveStatefulSet(server) else FailedAt(server, "Service")
    {
      var existing := found;
      existing := existing.(serviceType := serviceType);
      existing := existing.(selector := selector);
      existing := existing.(ports := ports);
      existing := existing.(labels := selector);
      var reply := Call(UpdateService(key, existing), []);
      return reply.Done?;
    }

    /** The status in hand shows what the two or three reads of the status saw, whether its
        write is answered, fails or is not needed. */
    method UpdateStatus(server: SteamServer) returns (outcome: Outcome, ghost seen: seq<Reply>)
      requires Valid() && worker == ObserveStatefulSet(server.Value())
      modifies this, server
      ensures Valid()
      ensures worker == Finished(outcome)
      ensures replies == old(replies) + seen && |seen| >= 2 && TellsReads(server.status, seen)
      ensures outcome == Failure || outcome == if server.status.state == Running then Success else RequeueAfter(10)
    {
      ghost var r0, r1, read, written;
      var sts, svc, newState;
      sts, svc, r0, r1 := ReadChildren(server.Value());
      newState, read := ObserveState(server.Value(), sts, svc);
      outcome, written := ReportState(server, newState, svc);
      assert replies == old(replies) + [r0, r1] + read + written;
      seen := [r0, r1] + read + written;
      ReadsAreTold(r0, r1, read, written, server.status);
    }

    method ReadChildren(server: Server)
      returns (sts: Seen<StatefulSet>, svc: Option<Service>, ghost r0: Reply, ghost r1: Reply)
      requires Valid() && worker == ObserveStatefulSet(server)
      modifies this
      ensures Valid()
      ensures worker == if NeedsPod(sts) then ObservePod(server, sts, svc)
          else Report(server, DetermineState(sts, Absent), svc)
      ensures replies == old(replies) + [r0, r1]
      ensures sts == SeenStatefulSet(r0) && svc == if r1.GotService? then Some(r1.svc) else None
    {
      var reply := Call(GetStatefulSet(key), []);
      r0, sts := reply, SeenStatefulSet(reply);
      reply := Call(GetService(key), []);
      r1, svc := reply, if reply.GotService? then Some(reply.svc) else None;
    }

    method ReportState(server: SteamServer, newState: ServerState, svc: Option<Service>)
      returns (outcome: Outcome, ghost written: seq<Reply>)
      requires Valid() && worker == Report(server.Value(), newState, svc)
      modifies this, server
      ensures Valid()
      ensures worker == Finished(outcome)
      ensures Shows(server.status, newState, svc)
      ensures outcome == Failure || Finished(outcome) == Settled(newState)
      ensures replies == old(replies) + written
    {
      written := [];
      var newAddress := AddressOf(svc);
      var newPorts := PortsOf(svc);
      var samePorts := PortsEqual(server.status.ports, newPorts);
      var statusChanged := server.status.state != newState || server.status.address != newAddress || !samePorts;
      if statusChanged {
        var ok, reply := WriteStatus(server, newState, newAddress, newPorts);
        written := [reply];
        if !ok {
          outcome := Failure;
          return;
        }
      }
      outcome := if newState != Running then RequeueAfter(10) else Success;
    }

    method WriteStatus(server: SteamServer, newState: ServerState, newAddress: string, newPorts: seq<PortStatus>)
      returns (ok: bool, ghost answer: Reply)
      requires Valid()
      requires worker == StatusWrite(server.Value().(status := ServerStatus(newState, newAddress, newPorts,
          StateMessage(newState))))
      modifies this, server
      ensures Valid()
      ensures worker == if ok then Settled(newState) else Finished(Failure)
      ensures server.status == ServerStatus(newState, newAddress, newPorts, StateMessage(newState))
      ensures replies == old(replies) + [answer]
    {
      server.status := server.status.(state := newState);
      server.status := server.status.(address := newAddress);
      server.status := server.status.(ports := newPorts);
      server.status := server.status.(message := StateMessage(newState));
      var reply := Call(UpdateServerStatus(server.Value()), []);
      ok, answer := reply.Done?, reply;
    }

    method ObserveState(server: Server, sts: Seen<StatefulSet>, ghost svc: Option<Service>) 
      returns (state: ServerState, ghost read: seq<Reply>)
      requires Valid()
      requires worker == if NeedsPod(sts) then ObservePod(server, sts, svc)
          else Report(server, DetermineState(sts, Absent), svc)
      modifies this
      ensures Valid()
      ensures worker == Report(server, state, svc)
      ensures replies == old(replies) + read
      ensures if NeedsPod(sts) then |read| == 1 && state == DetermineState(sts, SeenPod(read[0]))
              else read == [] && state == DetermineState(sts, Absent)
    {
      read := [];
      if !sts.Found? {
        state := if sts.Absent? then Pending else Error;
        return;
      }
      if sts.item.readyReplicas == 0 && sts.item.replicas == 0 {
        state := Pending;
        return;
      }
      var pod, answer := ReadPod(server, sts, svc);
      read := [answer];
      if !pod.Found? {
        state := if pod.Absent? then Pending else Error;
        return;
      }
      state := StateOfPod(pod.item);
    }

    method ReadPod(server: Server, ghost sts: Seen<StatefulSet>, ghost svc: Option<Service>)
      returns (pod: Seen<Pod>, ghost answer: Reply)
      requires Valid() && worker == ObservePod(server, sts, svc)
      modifies this
      ensures Valid()
      ensures pod == SeenPod(answer) && worker == Report(server, DetermineState(sts, pod), svc)
      ensures replies == old(replies) + [answer]
    {
      var reply := Call(GetPod(PodKey(key)), []);
      pod, answer := SeenPod(reply), reply;
    }

    /** Whether the error status is written or not, the reconcile ends in failure; only the
        caller that found the definition not ready makes it a requeue instead. */
    method SetErrorStatus(server: SteamServer, resource: string, ghost notReady: bool) returns (outcome: Outcome)
      requires Valid() && worker == ErrorWrite(Errored(server.Value(), resource), notReady)
      modifies this, server
      ensures Valid()
      ensures worker == Finished(if notReady then RequeueAfter(30) else Failure)
      ensures outcome == Failure && server.Value() == old(Errored(server.Value(), resource))
      ensures server.status.state == Error && server.status.message == "Failed to reconcile " + resource + ": "
    {
      server.status := server.status.(state := Error);
      server.status := server.status.(message := FailureMessage(resource));
      var _ := Call(UpdateServerStatus(server.Value()), []);
      return Failure;
    }
  }
}
