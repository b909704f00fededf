// The SteamServer reconciler as a step machine. A worker is at a point of the
// code; the point fixes the next API call, and the reply leads to the next point.
// Everything between two calls happens within one step.
module Machine {
  import opened Api
  import opened Cluster
  import opened ConfigValues
  import Pvcs
  import Services
  import StatefulSets

  datatype Outcome = Success | Requeue | RequeueAfter(seconds: nat) | Failure

  /** What a read for the status showed. */
  datatype Seen<T> = Found(item: T) | Absent | Unreadable

  datatype Worker =
    | Idle
    | RemovingFinalizer(server: Server)
    | AddingFinalizer(server: Server)
    | FetchingDef(server: Server)
    | ConfigMapGet(server: Server, def: Option<GameDef>)
    | ConfigMapCreate(server: Server, def: Option<GameDef>)
    | ConfigMapUpdate(server: Server, def: Option<GameDef>, configMap: ConfigMap)
    | ClaimGet(server: Server, def: Option<GameDef>)
    | ClaimCreate(server: Server, def: Option<GameDef>)
    | ClaimUpdate(server: Server, def: Option<GameDef>, claim: Claim)
    | StatefulSetGet(server: Server, def: Option<GameDef>)
    | StatefulSetCreate(server: Server, def: Option<GameDef>, order: seq<string>)
    | StatefulSetUpdate(server: Server, def: Option<GameDef>, order: seq<string>, sts: StatefulSet)
    | ServiceGet(server: Server, def: Option<GameDef>)
    | ServiceCreate(server: Server, def: Option<GameDef>)
    | ServiceUpdate(server: Server, def: Option<GameDef>, svc: Service)
    | ObserveStatefulSet(server: Server)
    | ObserveService(server: Server, seenSts: Seen<StatefulSet>)
    | ObservePod(server: Server, seenSts: Seen<StatefulSet>, seenSvc: Option<Service>)
    | StatusWrite(server: Server)
    | ErrorWrite(server: Server, notReady: bool)
    | Finished(outcome: Outcome)

  // Names.

  function ConfigMapKey(k: Key): Key { Key(k.ns, StatefulSets.ConfigMapName(k.name)) }

  function ClaimKey(k: Key): Key { Key(k.ns, StatefulSets.PvcName(k.name)) }

  function PodKey(k: Key): Key { Key(k.ns, k.name + "-0") }

  // What is desired, from a server and its definition.

  function SpecOf(def: Option<GameDef>): Option<GameDefinitionSpec> {
    if def.Some? then Some(def.value.spec) else None
  }

  function StatefulSetBuilderFor(s: Server, def: Option<GameDef>): StatefulSets.StatefulSetBuilder {
    StatefulSets.StatefulSetBuilder(s.key.name, s.spec, SpecOf(def))
  }

  function ServiceBuilderFor(s: Server, def: Option<GameDef>): Services.ServiceBuilder {
    Services.ServiceBuilder(s.key.name, s.spec, SpecOf(def))
  }

  function ClaimBuilderFor(s: Server, def: Option<GameDef>): Pvcs.PvcBuilder {
    Pvcs.PvcBuilder(s.key.name, s.spec, SpecOf(def))
  }

  function OwnerOf(s: Server): OwnerRef { OwnerRef("SteamServer", s.key.name, s.uid) }

  /** Another controller's object cannot be taken over. */
  predicate OwnedByAnother(owner: Option<OwnerRef>, s: Server) {
    owner.Some? && !(owner.value.kind == "SteamServer" && owner.value.name == s.key.name)
  }

  function ConfigMapLabels(s: Server): map<string, string> {
    StatefulSets.CommonLabels(s.key.name, s.spec.gameDefinition)
  }

  function MutatedConfigMap(s: Server, x: ConfigMap): ConfigMap {
    x.(labels := ConfigMapLabels(s), data := StatefulSets.ConfigData(s.spec.configFiles), owner := Some(OwnerOf(s)))
  }

  function NewConfigMap(s: Server): ConfigMap {
    MutatedConfigMap(s, ConfigMap(0, Operator, None, map[], map[]))
  }

  function NewClaim(s: Server, def: Option<GameDef>): Claim
    requires ClaimBuilderFor(s, def).Desired().Some?
  {
    Claim(0, Operator, Some(OwnerOf(s)), ClaimBuilderFor(s, def).Labels(), ClaimBuilderFor(s, def).Desired().value)
  }

  function NewStatefulSet(s: Server, def: Option<GameDef>, order: seq<string>): StatefulSet {
    var b := StatefulSetBuilderFor(s, def);
    StatefulSet(0, Operator, Some(OwnerOf(s)), b.Labels(), b.Desired(order), 0, 0)
  }

  function UpdatedStatefulSet(s: Server, def: Option<GameDef>, order: seq<string>, x: StatefulSet): StatefulSet {
    var b := StatefulSetBuilderFor(s, def);
    x.(spec := b.Desired(order), labels := b.Labels())
  }

  function NewService(s: Server, def: Option<GameDef>): Service {
    var b := ServiceBuilderFor(s, def);
    Service(0, Operator, Some(OwnerOf(s)), b.Labels(), b.GetServiceType(), b.Labels(),
        Services.ServicePorts(b.GetPorts()), "", [])
  }

  function UpdatedService(s: Server, def: Option<GameDef>, x: Service): Service {
    var b := ServiceBuilderFor(s, def);
    x.(serviceType := b.GetServiceType(), selector := b.Labels(), ports := Services.ServicePorts(b.GetPorts()),
        labels := b.Labels())
  }

  /** A missing label reads as the empty text. */
  function LabelOf(labels: map<string, string>, k: string): string {
    if k in labels then labels[k] else ""
  }

  predicate HasLabels(actual: map<string, string>, expected: map<string, string>) {
    forall k :: k in expected ==> LabelOf(actual, k) == expected[k]
  }

  // Finalizers.

  function Without(finalizers: seq<string>, f: string): (r: seq<string>)
    ensures forall x :: x in r <==> x in finalizers && x != f
  {
    if finalizers == [] then []
    else
      var front, last := Without(finalizers[..|finalizers| - 1], f), finalizers[|finalizers| - 1];
      if last == f then front else front + [last]
  }

  // Status.

  function StateMessage(state: ServerState): string {
    match state
    case Pending => "Waiting for resources to be scheduled"
    case Installing => "SteamCMD is downloading game files"
    case Starting => "Game server is starting up"
    case Running => "Game server is running"
    case Error => "An error occurred"
    case NoState => ""
  }

  /** The wording of the error itself is not modelled. */
  function FailureMessage(resource: string): string {
    "Failed to reconcile " + resource + ": "
  }

  function Errored(s: Server, resource: string): Server {
    s.(status := s.status.(state := Error, message := FailureMessage(resource)))
  }

  function ScanInit(statuses: seq<ContainerStatus>): Option<ServerState> {
    if statuses == [] then None
    else if statuses[0].name == StatefulSets.INIT_CONTAINER && statuses[0].state.Executing? then Some(Installing)
    else if statuses[0].name == StatefulSets.INIT_CONTAINER && statuses[0].state.Terminated?
        && statuses[0].state.exitCode != 0 then Some(Error)
    else ScanInit(statuses[1..])
  }

  function ScanMain(statuses: seq<ContainerStatus>): ServerState {
    if statuses == [] then Starting
    else if statuses[0].name == StatefulSets.GAME_SERVER_CONTAINER && statuses[0].state.Executing? then
      if statuses[0].ready then Running else Starting
    else ScanMain(statuses[1..])
  }

  function PodState(pod: Pod): ServerState {
    if pod.phase == "Running" then
      match ScanInit(pod.initStatuses)
      case Some(state) => state
      case None => ScanMain(pod.statuses)
    else if pod.phase == "Failed" then Error
    else Pending
  }

  predicate NeedsPod(sts: Seen<StatefulSet>) {
    sts.Found? && !(sts.item.readyReplicas == 0 && sts.item.replicas == 0)
  }

  function DetermineState(sts: Seen<StatefulSet>, pod: Seen<Pod>): ServerState {
    if sts.Absent? then Pending
    else if sts.Unreadable? then Error
    else if !NeedsPod(sts) then Pending
    else
      match pod
      case Absent => Pending
      case Unreadable => Error
      case Found(p) => PodState(p)
  }

  function FirstIngress(ingress: seq<Ingress>): string {
    if ingress == [] then "<pending>"
    else if ingress[0].ip != "" then ingress[0].ip
    else if ingress[0].hostname != "" then ingress[0].hostname
    else FirstIngress(ingress[1..])
  }

  function DetermineAddress(svc: Option<Service>): string {
    if svc.None? then ""
    else if svc.value.serviceType == "LoadBalancer" then FirstIngress(svc.value.ingress)
    else if svc.value.serviceType == "NodePort" then "<node-ip>"
    else if svc.value.serviceType == "ClusterIP" then svc.value.clusterIP
    else ""
  }

  function ShownPort(serviceType: string, p: ServicePort): PortStatus {
    PortStatus(p.name, if serviceType == "NodePort" && p.nodePort != 0 then p.nodePort else p.port, p.protocol)
  }

  function DeterminePorts(svc: Option<Service>): seq<PortStatus> {
    if svc.None? then []
    else
      var ports := svc.value.ports;
      seq(|ports|, i requires 0 <= i < |ports| => ShownPort(svc.value.serviceType, ports[i]))
  }

  predicate Shows(status: ServerStatus, state: ServerState, svc: Option<Service>) {
    status.state == state && status.address == DetermineAddress(svc) && status.ports == DeterminePorts(svc)
  }

  function NewStatus(state: ServerState, svc: Option<Service>): ServerStatus {
    ServerStatus(state, DetermineAddress(svc), DeterminePorts(svc), StateMessage(state))
  }

  function Settled(state: ServerState): Worker {
    if state == Running then Finished(Success) else Finished(RequeueAfter(10))
  }

  /** The status is written only when state, address or ports differ. */
  function Report(s: Server, state: ServerState, svc: Option<Service>): Worker {
    if Shows(s.status, state, svc) then Settled(state) else StatusWrite(s.(status := NewStatus(state, svc)))
  }

  // From point to point.

  function OnRead(s: Server): Worker {
    if s.deleting then
      if FINALIZER in s.finalizers then RemovingFinalizer(s) else Finished(Success)
    else if FINALIZER !in s.finalizers then AddingFinalizer(s)
    else if s.spec.gameDefinition == "" then Gate(s, None)
    else FetchingDef(s)
  }

  predicate ConfigAccepted(s: Server, def: Option<GameDef>) {
    def.Some? && def.value.spec.configSchema.Some? ==> Accepted(s.spec.config, def.value.spec.configSchema.value)
  }

  predicate GateOpen(s: Server, def: Option<GameDef>) {
    (def.Some? ==> def.value.ready) && ConfigAccepted(s, def)
  }

  function Gate(s: Server, def: Option<GameDef>): Worker {
    if def.Some? && !def.value.ready then ErrorWrite(Errored(s, "GameDefinition"), true)
    else if !ConfigAccepted(s, def) then ErrorWrite(Errored(s, "Config"), false)
    else if s.spec.configFiles == [] then EnterClaim(s, def)
    else ConfigMapGet(s, def)
  }

  function EnterClaim(s: Server, def: Option<GameDef>): Worker {
    if ClaimBuilderFor(s, def).Desired().None? then StatefulSetGet(s, def) else ClaimGet(s, def)
  }

  function FailedAt(s: Server, resource: string): Worker { ErrorWrite(Errored(s, resource), false) }

  function OnConfigMap(s: Server, def: Option<GameDef>, reply: Reply): Worker {
    match reply
    case GotConfigMap(x) =>
      if OwnedByAnother(x.owner, s) then FailedAt(s, "ConfigMap")
      else if MutatedConfigMap(s, x) == x then EnterClaim(s, def)
      else ConfigMapUpdate(s, def, x)
    case Failed(NotFound) => ConfigMapCreate(s, def)
    case _ => FailedAt(s, "ConfigMap")
  }

  function OnClaim(s: Server, def: Option<GameDef>, reply: Reply): Worker {
    match reply
    case GotClaim(x) =>
      if HasLabels(x.labels, ClaimBuilderFor(s, def).Labels()) then StatefulSetGet(s, def) else ClaimUpdate(s, def, x)
    case Failed(NotFound) => ClaimCreate(s, def)
    case _ => FailedAt(s, "PVC")
  }

  function OnStatefulSet(s: Server, def: Option<GameDef>, order: seq<string>, reply: Reply): Worker {
    match reply
    case GotStatefulSet(x) => StatefulSetUpdate(s, def, order, x)
    case Failed(NotFound) => StatefulSetCreate(s, def, order)
    case _ => FailedAt(s, "StatefulSet")
  }

  function OnService(s: Server, def: Option<GameDef>, reply: Reply): Worker {
    match reply
    case GotService(x) => ServiceUpdate(s, def, x)
    case Failed(NotFound) => ServiceCreate(s, def)
    case _ => FailedAt(s, "Service")
  }

  function SeenStatefulSet(reply: Reply): Seen<StatefulSet> {
    match reply
    case GotStatefulSet(x) => Found(x)
    case Failed(NotFound) => Absent
    case _ => Unreadable
  }

  function SeenPod(reply: Reply): Seen<Pod> {
    match reply
    case GotPod(x) => Found(x)
    case Failed(NotFound) => Absent
    case _ => Unreadable
  }

  /** The call a worker makes next. A definition is cluster-scoped: its key is a name. */
  function NextOp(k: Key, p: Worker): Op
    requires !p.Finished?
    requires p.ClaimCreate? ==> ClaimBuilderFor(p.server, p.def).Desired().Some?
  {
    match p
    case Idle => GetServer(k)
    case RemovingFinalizer(s) => UpdateServer(s.(finalizers := Without(s.finalizers, FINALIZER)))
    case AddingFinalizer(s) => UpdateServer(s.(finalizers := s.finalizers + [FINALIZER]))
    case FetchingDef(s) => GetDef(s.spec.gameDefinition)
    case ConfigMapGet(s, _) => GetConfigMap(ConfigMapKey(k))
    case ConfigMapCreate(s, _) => CreateConfigMap(ConfigMapKey(k), NewConfigMap(s))
    case ConfigMapUpdate(s, _, x) => UpdateConfigMap(ConfigMapKey(k), MutatedConfigMap(s, x))
    case ClaimGet(_, _) => GetClaim(ClaimKey(k))
    case ClaimCreate(s, def) => CreateClaim(ClaimKey(k), NewClaim(s, def))
    case ClaimUpdate(s, def, x) => UpdateClaim(ClaimKey(k), x.(labels := ClaimBuilderFor(s, def).Labels()))
    case StatefulSetGet(_, _) => GetStatefulSet(k)
    case StatefulSetCreate(s, def, order) => CreateStatefulSet(k, NewStatefulSet(s, def, order))
    case StatefulSetUpdate(s, def, order, x) => UpdateStatefulSet(k, UpdatedStatefulSet(s, def, order, x))
    case ServiceGet(_, _) => GetService(k)
    case ServiceCreate(s, def) => CreateService(k, NewService(s, def))
    case ServiceUpdate(s, def, x) => UpdateService(k, UpdatedService(s, def, x))
    case ObserveStatefulSet(_) => GetStatefulSet(k)
    case ObserveService(_, _) => GetService(k)
    case ObservePod(_, _, _) => GetPod(PodKey(k))
    case StatusWrite(s) => UpdateServerStatus(s)
    case ErrorWrite(s, _) => UpdateServerStatus(s)
  }

  /** Where a reply leads. The order is the walk of the config map, for the step that builds the StatefulSet. */
  function Advance(p: Worker, reply: Reply, order: seq<string>): Worker
    requires !p.Finished?
  {
    match p
    case Idle =>
      (match reply
       case GotServer(s) => OnRead(s)
       case Failed(NotFound) => Finished(Success)
       case _ => Finished(Failure))
    case RemovingFinalizer(_) => Finished(if reply.Done? then Success else Failure)
    case AddingFinalizer(_) => Finished(if reply.Done? then Requeue else Failure)
    case FetchingDef(s) => if reply.GotDef? then Gate(s, Some(reply.def)) else FailedAt(s, "GameDefinition")
    case ConfigMapGet(s, def) => OnConfigMap(s, def, reply)
    case ConfigMapCreate(s, def) => if reply.Done? then EnterClaim(s, def) else FailedAt(s, "ConfigMap")
    case ConfigMapUpdate(s, def, _) => if reply.Done? then EnterClaim(s, def) else FailedAt(s, "ConfigMap")
    case ClaimGet(s, def) => OnClaim(s, def, reply)
    case ClaimCreate(s, def) => if reply.Done? then StatefulSetGet(s, def) else FailedAt(s, "PVC")
    case ClaimUpdate(s, def, _) => if reply.Done? then StatefulSetGet(s, def) else FailedAt(s, "PVC")
    case StatefulSetGet(s, def) => OnStatefulSet(s, def, order, reply)
    case StatefulSetCreate(s, def, _) => if reply.Done? then ServiceGet(s, def) else FailedAt(s, "StatefulSet")
    case StatefulSetUpdate(s, def, _, _) => if reply.Done? then ServiceGet(s, def) else FailedAt(s, "StatefulSet")
    case ServiceGet(s, def) => OnService(s, def, reply)
    case ServiceCreate(s, _) => if reply.Done? then ObserveStatefulSet(s) else FailedAt(s, "Service")
    case ServiceUpdate(s, _, _) => if reply.Done? then ObserveStatefulSet(s) else FailedAt(s, "Service")
    case ObserveStatefulSet(s) => ObserveService(s, SeenStatefulSet(reply))
    case ObserveService(s, sts) =>
      var svc := if reply.GotService? then Some(reply.svc) else None;
      if NeedsPod(sts) then ObservePod(s, sts, svc) else Report(s, DetermineState(sts, Absent), svc)
    case ObservePod(s, sts, svc) => Report(s, DetermineState(sts, SeenPod(reply)), svc)
    case StatusWrite(s) => if reply.Done? then Settled(s.status.state) else Finished(Failure)
    case ErrorWrite(_, notReady) => Finished(if notReady then RequeueAfter(30) else Failure)
  }
}
