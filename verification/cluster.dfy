// The cluster the controllers act on: a store of objects with resource versions,
// finalizers and a separate status write, calls that may fail in two ways, and
// everybody else who changes the store.
module Cluster {
  import opened Api

  const FINALIZER := "boilerr.dev/steamserver-finalizer"

  const EMPTY_STATUS := ServerStatus(NoState, "", [], "")

  datatype Server = Server(key: Key, uid: nat, rv: nat, deleting: bool, finalizers: seq<string>,
                           spec: SteamServerSpec, status: ServerStatus)

  datatype GameDef = GameDef(name: string, rv: nat, spec: GameDefinitionSpec, ready: bool, message: string)

  /** Who wrote an object's content last. */
  datatype Writer = Operator | Other

  datatype OwnerRef = OwnerRef(kind: string, name: string, uid: nat)

  datatype ConfigMap = ConfigMap(rv: nat, writer: Writer, owner: Option<OwnerRef>, labels: map<string, string>,
                                 data: map<string, string>)

  datatype Claim = Claim(rv: nat, writer: Writer, owner: Option<OwnerRef>, labels: map<string, string>, spec: PvcSpec)

  datatype StatefulSet = StatefulSet(rv: nat, writer: Writer, owner: Option<OwnerRef>, labels: map<string, string>,
                                     spec: StatefulSetSpec, replicas: int, readyReplicas: int)

  datatype Ingress = Ingress(ip: string, hostname: string)

  datatype Service = Service(rv: nat, writer: Writer, owner: Option<OwnerRef>, labels: map<string, string>,
                             serviceType: string, selector: map<string, string>, ports: seq<ServicePort>,
                             clusterIP: string, ingress: seq<Ingress>)

  datatype RunState = Waiting | Executing | Terminated(exitCode: int)

  datatype ContainerStatus = ContainerStatus(name: string, state: RunState, ready: bool)

  datatype Pod = Pod(phase: string, initStatuses: seq<ContainerStatus>, statuses: seq<ContainerStatus>)

  datatype World = World(
    clock: nat,
    servers: map<Key, Server>,
    defs: map<string, GameDef>,
    configMaps: map<Key, ConfigMap>,
    claims: map<Key, Claim>,
    statefulSets: map<Key, StatefulSet>,
    services: map<Key, Service>,
    pods: map<Key, Pod>)

  function Find<K, V>(m: map<K, V>, k: K): Option<V> {
    if k in m then Some(m[k]) else None
  }

  // Calls of the API server.

  datatype Op =
    | GetServer(key: Key) | UpdateServer(server: Server) | UpdateServerStatus(server: Server)
    | GetDef(name: string) | UpdateDefStatus(def: GameDef)
    | GetConfigMap(key: Key)
    | CreateConfigMap(key: Key, configMap: ConfigMap) | UpdateConfigMap(key: Key, configMap: ConfigMap)
    | GetClaim(key: Key) | CreateClaim(key: Key, claim: Claim) | UpdateClaim(key: Key, claim: Claim)
    | GetStatefulSet(key: Key)
    | CreateStatefulSet(key: Key, sts: StatefulSet) | UpdateStatefulSet(key: Key, sts: StatefulSet)
    | GetService(key: Key) | CreateService(key: Key, svc: Service) | UpdateService(key: Key, svc: Service)
    | GetPod(key: Key)

  datatype ApiError = NotFound | Conflict | AlreadyExists | Unavailable

  datatype Reply =
    | Done
    | GotServer(server: Server) | GotDef(def: GameDef) | GotConfigMap(configMap: ConfigMap) | GotClaim(claim: Claim)
    | GotStatefulSet(sts: StatefulSet) | GotService(svc: Service) | GotPod(pod: Pod)
    | Failed(error: ApiError)

  function PutServer(w: World, k: Key, s: Server): World {
    w.(servers := w.servers[k := s.(rv := w.clock + 1)], clock := w.clock + 1)
  }

  function ExecUpdateServer(w: World, s: Server): (World, Reply) {
    if s.key !in w.servers then (w, Failed(NotFound))
    else if w.servers[s.key].rv != s.rv then (w, Failed(Conflict))
    else
      var next := w.servers[s.key].(spec := s.spec, finalizers := s.finalizers);
      if next.deleting && next.finalizers == [] then (w.(servers := w.servers - {s.key}, clock := w.clock + 1), Done)
      else if next == w.servers[s.key] then (w, Done)
      else (PutServer(w, s.key, next), Done)
  }

  function ExecUpdateServerStatus(w: World, s: Server): (World, Reply) {
    if s.key !in w.servers then (w, Failed(NotFound))
    else if w.servers[s.key].rv != s.rv then (w, Failed(Conflict))
    else if w.servers[s.key].status == s.status then (w, Done)
    else (PutServer(w, s.key, w.servers[s.key].(status := s.status)), Done)
  }

  function ExecUpdateDefStatus(w: World, d: GameDef): (World, Reply) {
    if d.name !in w.defs then (w, Failed(NotFound))
    else if w.defs[d.name].rv != d.rv then (w, Failed(Conflict))
    else
      var next := w.defs[d.name].(ready := d.ready, message := d.message);
      if next == w.defs[d.name] then (w, Done)
      else (w.(defs := w.defs[d.name := next.(rv := w.clock + 1)], clock := w.clock + 1), Done)
  }

  function PutConfigMap(w: World, k: Key, x: ConfigMap): World {
    w.(configMaps := w.configMaps[k := x.(rv := w.clock + 1)], clock := w.clock + 1)
  }

  function ExecUpdateConfigMap(w: World, k: Key, x: ConfigMap): (World, Reply) {
    if k !in w.configMaps then (w, Failed(NotFound))
    else if w.configMaps[k].rv != x.rv then (w, Failed(Conflict))
    else if w.configMaps[k] == x.(writer := Operator) then (w, Done)
    else (PutConfigMap(w, k, x.(writer := Operator)), Done)
  }

  function PutClaim(w: World, k: Key, x: Claim): World {
    w.(claims := w.claims[k := x.(rv := w.clock + 1)], clock := w.clock + 1)
  }

  function ExecUpdateClaim(w: World, k: Key, x: Claim): (World, Reply) {
    if k !in w.claims then (w, Failed(NotFound))
    else if w.claims[k].rv != x.rv then (w, Failed(Conflict))
    else if w.claims[k] == x.(writer := Operator) then (w, Done)
    else (PutClaim(w, k, x.(writer := Operator)), Done)
  }

  function PutStatefulSet(w: World, k: Key, x: StatefulSet): World {
    w.(statefulSets := w.statefulSets[k := x.(rv := w.clock + 1)], clock := w.clock + 1)
  }

  /** An update of the object leaves its status to the system. */
  function ExecUpdateStatefulSet(w: World, k: Key, x: StatefulSet): (World, Reply) {
    if k !in w.statefulSets then (w, Failed(NotFound))
    else if w.statefulSets[k].rv != x.rv then (w, Failed(Conflict))
    else
      var stored := w.statefulSets[k];
      var next := x.(writer := Operator, replicas := stored.replicas, readyReplicas := stored.readyReplicas);
      if stored == next then (w, Done) else (PutStatefulSet(w, k, next), Done)
  }

  function PutService(w: World, k: Key, x: Service): World {
    w.(services := w.services[k := x.(rv := w.clock + 1)], clock := w.clock + 1)
  }

  function ExecUpdateService(w: World, k: Key, x: Service): (World, Reply) {
    if k !in w.services then (w, Failed(NotFound))
    else if w.services[k].rv != x.rv then (w, Failed(Conflict))
    else
      var next := x.(writer := Operator, ingress := w.services[k].ingress);
      if w.services[k] == next then (w, Done) else (PutService(w, k, next), Done)
  }

  function Exec(w: World, op: Op): (World, Reply) {
    match op
    case GetServer(k) => (w, if k in w.servers then GotServer(w.servers[k]) else Failed(NotFound))
    case UpdateServer(s) => ExecUpdateServer(w, s)
    case UpdateServerStatus(s) => ExecUpdateServerStatus(w, s)
    case GetDef(n) => (w, if n in w.defs then GotDef(w.defs[n]) else Failed(NotFound))
    case UpdateDefStatus(d) => ExecUpdateDefStatus(w, d)
    case GetConfigMap(k) => (w, if k in w.configMaps then GotConfigMap(w.configMaps[k]) else Failed(NotFound))
    case CreateConfigMap(k, x) =>
      if k in w.configMaps then (w, Failed(AlreadyExists)) else (PutConfigMap(w, k, x.(writer := Operator)), Done)
    case UpdateConfigMap(k, x) => ExecUpdateConfigMap(w, k, x)
    case GetClaim(k) => (w, if k in w.claims then GotClaim(w.claims[k]) else Failed(NotFound))
    case CreateClaim(k, x) =>
      if k in w.claims then (w, Failed(AlreadyExists)) else (PutClaim(w, k, x.(writer := Operator)), Done)
    case UpdateClaim(k, x) => ExecUpdateClaim(w, k, x)
    case GetStatefulSet(k) => (w, if k in w.statefulSets then GotStatefulSet(w.statefulSets[k]) else Failed(NotFound))
    case CreateStatefulSet(k, x) =>
      if k in w.statefulSets then (w, Failed(AlreadyExists))
      else (PutStatefulSet(w, k, x.(writer := Operator, replicas := 0, readyReplicas := 0)), Done)
    case UpdateStatefulSet(k, x) => ExecUpdateStatefulSet(w, k, x)
    case GetService(k) => (w, if k in w.services then GotService(w.services[k]) else Failed(NotFound))
    case CreateService(k, x) =>
      if k in w.services then (w, Failed(AlreadyExists))
      else (PutService(w, k, x.(writer := Operator, ingress := [])), Done)
    case UpdateService(k, x) => ExecUpdateService(w, k, x)
    case GetPod(k) => (w, if k in w.pods then GotPod(w.pods[k]) else Failed(NotFound))
  }

  /** A call may be refused, or take effect while its reply is lost. */
  datatype Fault = NoFault | Refused | ReplyLost

  function Call(w: World, op: Op, fault: Fault): (World, Reply) {
    match fault
    case NoFault => Exec(w, op)
    case Refused => (w, Failed(Unavailable))
    case ReplyLost => (Exec(w, op).0, Failed(Unavailable))
  }

  // Everybody else. Only the operator writes statuses of servers and definitions
  // and takes its own finalizer off.

  ghost predicate Fresh(rv: nat, w: World, w': World) {
    w.clock < rv <= w'.clock
  }

  ghost predicate ServerEdited(w: World, w': World, k: Key) {
    match (Find(w.servers, k), Find(w'.servers, k))
    case (None, None) => true
    case (None, Some(s')) => s'.key == k && Fresh(s'.rv, w, w') && Fresh(s'.uid, w, w') && !s'.deleting
        && s'.status == EMPTY_STATUS
    case (Some(s), None) => FINALIZER !in s.finalizers
    case (Some(s), Some(s')) =>
      s' == s
      || (&& Fresh(s'.rv, w, w')
          && s'.key == s.key && s'.uid == s.uid && s'.status == s.status
          && (s.deleting ==> s'.deleting)
          && (FINALIZER in s.finalizers ==> FINALIZER in s'.finalizers))
  }

  ghost predicate DefEdited(w: World, w': World, n: string) {
    match (Find(w.defs, n), Find(w'.defs, n))
    case (_, None) => true
    case (None, Some(d')) => d'.name == n && Fresh(d'.rv, w, w') && !d'.ready && d'.message == ""
    case (Some(d), Some(d')) => d' == d || (Fresh(d'.rv, w, w') && d'.(spec := d.spec, rv := d.rv) == d)
  }

  ghost predicate ConfigMapEdited(w: World, w': World, k: Key) {
    k in w'.configMaps ==> Find(w.configMaps, k) == Find(w'.configMaps, k)
                           || (Fresh(w'.configMaps[k].rv, w, w') && w'.configMaps[k].writer.Other?)
  }

  ghost predicate ClaimEdited(w: World, w': World, k: Key) {
    k in w'.claims ==> Find(w.claims, k) == Find(w'.claims, k)
                       || (Fresh(w'.claims[k].rv, w, w') && w'.claims[k].writer.Other?)
  }

  /** Equal but for the version and the status. */
  predicate SameStatefulSet(a: StatefulSet, b: StatefulSet) {
    a.(rv := 0, replicas := 0, readyReplicas := 0) == b.(rv := 0, replicas := 0, readyReplicas := 0)
  }

  ghost predicate StatefulSetEdited(w: World, w': World, k: Key) {
    k in w'.statefulSets ==> Find(w.statefulSets, k) == Find(w'.statefulSets, k)
                             || (&& Fresh(w'.statefulSets[k].rv, w, w')
                                 && (w'.statefulSets[k].writer.Other? || (k in w.statefulSets
                                       && SameStatefulSet(w.statefulSets[k], w'.statefulSets[k]))))
  }

  function WithoutNodePorts(ports: seq<ServicePort>): seq<ServicePort> {
    seq(|ports|, i requires 0 <= i < |ports| => ports[i].(nodePort := 0))
  }

  /** Equal but for what the cluster itself fills in: version, addresses, node ports. */
  predicate SameService(a: Service, b: Service) {
    a.(rv := 0, clusterIP := "", ingress := [], ports := WithoutNodePorts(a.ports))
    == b.(rv := 0, clusterIP := "", ingress := [], ports := WithoutNodePorts(b.ports))
  }

  ghost predicate ServiceEdited(w: World, w': World, k: Key) {
    k in w'.services ==> Find(w.services, k) == Find(w'.services, k)
                         || (&& Fresh(w'.services[k].rv, w, w')
                             && (w'.services[k].writer.Other?
                                   || (k in w.services && SameService(w.services[k], w'.services[k]))))
  }

  ghost predicate EnvStep(w: World, w': World) {
    && w.clock <= w'.clock
    && (forall k :: ServerEdited(w, w', k))
    && (forall n :: DefEdited(w, w', n))
    && (forall k :: ConfigMapEdited(w, w', k))
    && (forall k :: ClaimEdited(w, w', k))
    && (forall k :: StatefulSetEdited(w, w', k))
    && (forall k :: ServiceEdited(w, w', k))
  }

  // Facts about calls that hold whatever the fault.

  predicate IsRead(op: Op) {
    || op.GetServer? || op.GetDef? || op.GetConfigMap? || op.GetClaim?
    || op.GetStatefulSet? || op.GetService? || op.GetPod?
  }

  predicate WritesConfigMap(op: Op) { op.CreateConfigMap? || op.UpdateConfigMap? }

  predicate WritesClaim(op: Op) { op.CreateClaim? || op.UpdateClaim? }

  predicate WritesStatefulSet(op: Op) { op.CreateStatefulSet? || op.UpdateStatefulSet? }

  predicate WritesService(op: Op) { op.CreateService? || op.UpdateService? }

  predicate IsChildWrite(op: Op) {
    WritesConfigMap(op) || WritesClaim(op) || WritesStatefulSet(op) || WritesService(op)
  }

  lemma CallOrNothing(w: World, op: Op, fault: Fault)
    ensures Call(w, op, fault).0 == w || Call(w, op, fault).0 == Exec(w, op).0
    ensures Call(w, op, fault).1 == Exec(w, op).1 || Call(w, op, fault).1 == Failed(Unavailable)
    ensures !Call(w, op, fault).1.Failed? ==> Call(w, op, fault) == Exec(w, op)
  {
  }

  lemma ReadsChangeNothing(w: World, op: Op, fault: Fault)
    requires IsRead(op)
    ensures Call(w, op, fault).0 == w
  {
  }

  // What a call may do to the store: nothing, or one change of one object of its
  // kind, which gets a new version.

  ghost predicate ServerEffect(w: World, op: Op, w': World) {
    || w'.servers == w.servers
    || (&& (op.UpdateServer? || op.UpdateServerStatus?)
        && w'.clock == w.clock + 1
        && op.server.key in w.servers
        && (|| w'.servers == w.servers - {op.server.key}
            || (op.server.key in w'.servers && w'.servers[op.server.key].rv == w'.clock
                && w'.servers == w.servers[op.server.key := w'.servers[op.server.key]])))
  }

  ghost predicate DefEffect(w: World, op: Op, w': World) {
    || w'.defs == w.defs
    || (&& op.UpdateDefStatus?
        && w'.clock == w.clock + 1
        && op.def.name in w.defs && w.defs[op.def.name].rv == op.def.rv
        && w'.defs == w.defs[op.def.name := w.defs[op.def.name].(ready := op.def.ready, message := op.def.message,
              rv := w'.clock)])
  }

  ghost predicate ConfigMapEffect(w: World, op: Op, w': World) {
    || w'.configMaps == w.configMaps
    || (&& WritesConfigMap(op)
        && w'.clock == w.clock + 1
        && w'.configMaps == w.configMaps[op.key := op.configMap.(writer := Operator, rv := w'.clock)]
        && if op.CreateConfigMap? then op.key !in w.configMaps
              else op.key in w.configMaps && w.configMaps[op.key].rv == op.configMap.rv)
  }

  ghost predicate ClaimEffect(w: World, op: Op, w': World) {
    || w'.claims == w.claims
    || (&& WritesClaim(op)
        && w'.clock == w.clock + 1
        && w'.claims == w.claims[op.key := op.claim.(writer := Operator, rv := w'.clock)]
        && if op.CreateClaim? then op.key !in w.claims else op.key in w.claims && w.claims[op.key].rv == op.claim.rv)
  }

  ghost predicate StatefulSetEffect(w: World, op: Op, w': World) {
    || w'.statefulSets == w.statefulSets
    || (&& WritesStatefulSet(op)
        && w'.clock == w.clock + 1
        && op.key in w'.statefulSets
        && w'.statefulSets == w.statefulSets[op.key := w'.statefulSets[op.key]]
        && w'.statefulSets[op.key].rv == w'.clock
        && SameStatefulSet(w'.statefulSets[op.key], op.sts.(writer := Operator))
        && if op.CreateStatefulSet? then op.key !in w.statefulSets
              else op.key in w.statefulSets && w.statefulSets[op.key].rv == op.sts.rv)
  }

  /** The stored service is the sent one, but for its version and its addresses. */
  predicate ServiceIs(stored: Service, sent: Service) {
    stored.(rv := 0, ingress := []) == sent.(rv := 0, ingress := [], writer := Operator)
  }

  ghost predicate ServiceEffect(w: World, op: Op, w': World) {
    || w'.services == w.services
    || (&& WritesService(op)
        && w'.clock == w.clock + 1
        && op.key in w'.services
        && w'.services == w.services[op.key := w'.services[op.key]]
        && w'.services[op.key].rv == w'.clock
        && ServiceIs(w'.services[op.key], op.svc)
        && if op.CreateService? then op.key !in w.services
              else op.key in w.services && w.services[op.key].rv == op.svc.rv)
  }

  ghost predicate Effect(w: World, op: Op, w': World) {
    && w.clock <= w'.clock
    && w'.pods == w.pods
    && ServerEffect(w, op, w')
    && DefEffect(w, op, w')
    && ConfigMapEffect(w, op, w')
    && ClaimEffect(w, op, w')
    && StatefulSetEffect(w, op, w')
    && ServiceEffect(w, op, w')
  }

  lemma CallEffect(w: World, op: Op, fault: Fault)
    ensures Effect(w, op, Call(w, op, fault).0)
  {
    CallOrNothing(w, op, fault);
    if op.UpdateServer? {
      UpdateServerEffect(w, op);
    } else if op.UpdateServerStatus? {
      UpdateServerStatusEffect(w, op);
    } else if op.CreateStatefulSet? {
      CreateStatefulSetEffect(w, op);
    } else if op.UpdateStatefulSet? {
      UpdateStatefulSetEffect(w, op);
    } else if WritesService(op) {
      ServiceWriteEffect(w, op);
    } else if op.UpdateDefStatus? {
      DefWriteEffect(w, op);
    } else if WritesConfigMap(op) {
      ConfigMapWriteEffect(w, op);
    } else if WritesClaim(op) {
      ClaimWriteEffect(w, op);
    } else {
      ReadsChangeNothing(w, op, fault);
    }
  }

  lemma PutServerEffect(w: World, op: Op, x: Server)
    requires (op.UpdateServer? || op.UpdateServerStatus?) && op.server.key in w.servers
    ensures Effect(w, op, PutServer(w, op.server.key, x))
    ensures Effect(w, op, w.(servers := w.servers - {op.server.key}, clock := w.clock + 1))
  {
  }

  lemma UpdateServerEffect(w: World, op: Op)
    requires op.UpdateServer?
    ensures Effect(w, op, ExecUpdateServer(w, op.server).0)
  {
    var x := op.server;
    if x.key in w.servers && w.servers[x.key].rv == x.rv {
      PutServerEffect(w, op, w.servers[x.key].(spec := x.spec, finalizers := x.finalizers));
    }
  }

  lemma UpdateServerStatusEffect(w: World, op: Op)
    requires op.UpdateServerStatus?
    ensures Effect(w, op, ExecUpdateServerStatus(w, op.server).0)
  {
    var x := op.server;
    if x.key in w.servers && w.servers[x.key].rv == x.rv {
      PutServerEffect(w, op, w.servers[x.key].(status := x.status));
    }
  }

  lemma DefWriteEffect(w: World, op: Op)
    requires op.UpdateDefStatus?
    ensures Effect(w, op, Exec(w, op).0)
  {
  }

  lemma ConfigMapWriteEffect(w: World, op: Op)
    requires WritesConfigMap(op)
    ensures Effect(w, op, Exec(w, op).0)
  {
    if op.CreateConfigMap? && op.key !in w.configMaps {
      PutConfigMapEffect(w, op);
    } else if op.UpdateConfigMap? && op.key in w.configMaps && w.configMaps[op.key].rv == op.configMap.rv {
      PutConfigMapEffect(w, op);
    }
  }

  lemma PutConfigMapEffect(w: World, op: Op)
    requires WritesConfigMap(op)
    requires if op.CreateConfigMap? then op.key !in w.configMaps
        else op.key in w.configMaps && w.configMaps[op.key].rv == op.configMap.rv
    ensures Effect(w, op, PutConfigMap(w, op.key, op.configMap.(writer := Operator)))
  {
  }

  lemma ClaimWriteEffect(w: World, op: Op)
    requires WritesClaim(op)
    ensures Effect(w, op, Exec(w, op).0)
  {
    if op.CreateClaim? && op.key !in w.claims {
      PutClaimEffect(w, op);
    } else if op.UpdateClaim? && op.key in w.claims && w.claims[op.key].rv == op.claim.rv {
      PutClaimEffect(w, op);
    }
  }

  lemma PutClaimEffect(w: World, op: Op)
    requires WritesClaim(op)
    requires if op.CreateClaim? then op.key !in w.claims else op.key in w.claims && w.claims[op.key].rv == op.claim.rv
    ensures Effect(w, op, PutClaim(w, op.key, op.claim.(writer := Operator)))
  {
  }

  lemma CreateStatefulSetEffect(w: World, op: Op)
    requires op.CreateStatefulSet?
    ensures Effect(w, op, Exec(w, op).0)
  {
  }

  lemma UpdateStatefulSetEffect(w: World, op: Op)
    requires op.UpdateStatefulSet?
    ensures Effect(w, op, ExecUpdateStatefulSet(w, op.key, op.sts).0)
  {
    if op.key in w.statefulSets && w.statefulSets[op.key].rv == op.sts.rv {
      var stored := w.statefulSets[op.key];
      PutStatefulSetEffect(w, op,
          op.sts.(writer := Operator, replicas := stored.replicas, readyReplicas := stored.readyReplicas));
    }
  }

  lemma PutStatefulSetEffect(w: World, op: Op, x: StatefulSet)
    requires op.UpdateStatefulSet? && op.key in w.statefulSets && w.statefulSets[op.key].rv == op.sts.rv
    requires SameStatefulSet(x, op.sts.(writer := Operator))
    ensures Effect(w, op, PutStatefulSet(w, op.key, x))
  {
  }

  lemma ServiceWriteEffect(w: World, op: Op)
    requires WritesService(op)
    ensures Effect(w, op, Exec(w, op).0)
  {
    if op.CreateService? && op.key !in w.services {
      PutServiceEffect(w, op, op.svc.(writer := Operator, ingress := []));
    } else if op.UpdateService? && op.key in w.services && w.services[op.key].rv == op.svc.rv {
      PutServiceEffect(w, op, op.svc.(writer := Operator, ingress := w.services[op.key].ingress));
    }
  }

  lemma PutServiceEffect(w: World, op: Op, x: Service)
    requires WritesService(op) && ServiceIs(x, op.svc)
    requires if op.CreateService? then op.key !in w.services
        else op.key in w.services && w.services[op.key].rv == op.svc.rv
    ensures Effect(w, op, PutService(w, op.key, x))
  {
  }

  // Writes that meet what they expect succeed.

  lemma StatefulSetWriteSucceeds(w: World, op: Op)
    requires op.CreateStatefulSet? ==> op.key !in w.statefulSets
    requires op.UpdateStatefulSet? ==> op.key in w.statefulSets && w.statefulSets[op.key].rv == op.sts.rv
    requires WritesStatefulSet(op)
    ensures var (w', reply) := Exec(w, op);
            && reply.Done? && w' == w.(clock := w'.clock, statefulSets := w'.statefulSets)
            && op.key in w'.statefulSets && SameStatefulSet(w'.statefulSets[op.key], op.sts.(writer := Operator))
  {
  }

  lemma ServiceWriteSucceeds(w: World, op: Op)
    requires op.CreateService? ==> op.key !in w.services
    requires op.UpdateService? ==> op.key in w.services && w.services[op.key].rv == op.svc.rv
    requires WritesService(op)
    ensures var (w', reply) := Exec(w, op);
            && reply.Done? && w' == w.(clock := w'.clock, services := w'.services)
            && op.key in w'.services && ServiceIs(w'.services[op.key], op.svc)
  {
  }
}
