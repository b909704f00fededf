// What a status says about the cluster, read off the fields of pods and services: what
// the scans of the reconciler come to.
module Observations {
  import opened Api
  import opened Cluster
  import opened Machine

  // Pods.

  /** A status of the installing container that settles the question. */
  predicate Decides(cs: ContainerStatus) {
    cs.name == "steamcmd" && (cs.state.Executing? || (cs.state.Terminated? && cs.state.exitCode != 0))
  }

  ghost predicate FirstDeciding(statuses: seq<ContainerStatus>, i: int) {
    0 <= i < |statuses| && Decides(statuses[i]) && forall j :: 0 <= j < i ==> !Decides(statuses[j])
  }

  ghost predicate InstallDone(pod: Pod) {
    forall i :: 0 <= i < |pod.initStatuses| ==> !Decides(pod.initStatuses[i])
  }

  predicate GameExecutes(cs: ContainerStatus) { cs.name == "gameserver" && cs.state.Executing? }

  /** The first container of the game that executes is ready. */
  ghost predicate GameReady(statuses: seq<ContainerStatus>) {
    exists i :: GameReadyAt(statuses, i)
  }

  ghost predicate GameReadyAt(statuses: seq<ContainerStatus>, i: int) {
    && 0 <= i < |statuses| && GameExecutes(statuses[i]) && statuses[i].ready
    && forall j :: 0 <= j < i ==> !GameExecutes(statuses[j])
  }

  /** The server in the pod can be played on. */
  ghost predicate PodIsPlayable(pod: Pod) {
    pod.phase == "Running" && InstallDone(pod) && GameReady(pod.statuses)
  }

  /** The state that a pod's own fields amount to; exactly one state does. */
  ghost predicate PodShows(pod: Pod, state: ServerState) {
    && (state == Running <==> PodIsPlayable(pod))
    && (state == Starting <==> pod.phase == "Running" && InstallDone(pod) && !GameReady(pod.statuses))
    && (state == Installing <==>
          (pod.phase == "Running"
           && exists i :: FirstDeciding(pod.initStatuses, i) && pod.initStatuses[i].state.Executing?))
    && (state == Error <==>
          (|| pod.phase == "Failed"
           || (pod.phase == "Running"
               && exists i :: FirstDeciding(pod.initStatuses, i) && pod.initStatuses[i].state.Terminated?)))
    && (state == Pending <==> pod.phase != "Running" && pod.phase != "Failed")
  }

  lemma {:induction false} InitScanMeans(statuses: seq<ContainerStatus>)
    ensures ScanInit(statuses).None? <==> forall i :: 0 <= i < |statuses| ==> !Decides(statuses[i])
    ensures ScanInit(statuses).Some? ==>
              exists i :: FirstDeciding(statuses, i)
                && ScanInit(statuses) == Some(if statuses[i].state.Executing? then Installing else Error)
  {
    if statuses == [] {
    } else if Decides(statuses[0]) {
      assert FirstDeciding(statuses, 0);
    } else {
      InitScanMeans(statuses[1..]);
      if ScanInit(statuses).Some? {
        var i :| FirstDeciding(statuses[1..], i)
            && ScanInit(statuses[1..]) == Some(if statuses[1..][i].state.Executing? then Installing else Error);
        assert FirstDeciding(statuses, i + 1) by {
          forall j | 0 <= j < i + 1 ensures !Decides(statuses[j]) {
            assert j > 0 ==> statuses[j] == statuses[1..][j - 1];
          }
        }
      } else {
        forall i | 0 <= i < |statuses| ensures !Decides(statuses[i]) {
          assert i > 0 ==> statuses[i] == statuses[1..][i - 1];
        }
      }
    }
  }

  lemma FirstIsUnique(statuses: seq<ContainerStatus>, i: int, j: int)
    requires FirstDeciding(statuses, i) && FirstDeciding(statuses, j)
    ensures i == j
  {
  }

  lemma {:induction false} MainScanMeans(statuses: seq<ContainerStatus>)
    ensures ScanMain(statuses) == if GameReady(statuses) then Running else Starting
  {
    if statuses == [] {
    } else if GameExecutes(statuses[0]) {
      if statuses[0].ready {
        assert GameReadyAt(statuses, 0);
      }
    } else {
      var rest := statuses[1..];
      MainScanMeans(rest);
      assert forall i :: 0 <= i < |rest| ==> rest[i] == statuses[i + 1];
      if GameReady(rest) {
        var i :| GameReadyAt(rest, i);
        assert GameReadyAt(statuses, i + 1) by {
          forall j | 0 <= j < i + 1 ensures !GameExecutes(statuses[j]) {
            assert j > 0 ==> statuses[j] == rest[j - 1];
          }
        }
      }
      if GameReady(statuses) {
        var i :| GameReadyAt(statuses, i);
        assert GameReadyAt(rest, i - 1);
      }
    }
  }

  lemma PodStateShows(pod: Pod)
    ensures PodShows(pod, PodState(pod))
  {
    InitScanMeans(pod.initStatuses);
    MainScanMeans(pod.statuses);
    if ScanInit(pod.initStatuses).Some? {
      var i :| FirstDeciding(pod.initStatuses, i)
          && ScanInit(pod.initStatuses) == Some(if pod.initStatuses[i].state.Executing? then Installing else Error);
      forall j | FirstDeciding(pod.initStatuses, j) ensures j == i {
        FirstIsUnique(pod.initStatuses, i, j);
      }
    }
  }

  /** The two scans with their early returns find the one state that the pod's fields amount to. */
  lemma PodShowsIff(pod: Pod, state: ServerState)
    ensures PodShows(pod, state) <==> state == PodState(pod)
  {
    PodStateShows(pod);
  }

  // The StatefulSet and its pod together.

  predicate HasReplicas(sts: StatefulSet) { sts.replicas != 0 || sts.readyReplicas != 0 }

  /** The state that follows from what the reads gave. */
  ghost predicate ReadsShow(sts: Seen<StatefulSet>, pod: Seen<Pod>, state: ServerState) {
    match sts
    case Absent => state == Pending
    case Unreadable => state == Error
    case Found(s) =>
      if !HasReplicas(s) then state == Pending
      else
        match pod
        case Absent => state == Pending
        case Unreadable => state == Error
        case Found(p) => PodShows(p, state)
  }

  lemma ReadsShowIff(sts: Seen<StatefulSet>, pod: Seen<Pod>, state: ServerState)
    ensures ReadsShow(sts, pod, state) <==> state == DetermineState(sts, pod)
    ensures sts.Found? ==> (NeedsPod(sts) <==> HasReplicas(sts.item))
  {
    if pod.Found? {
      PodShowsIff(pod.item, state);
    }
  }

  /** Running is only ever read off a pod that can be played on. */
  lemma RunningMeans(sts: Seen<StatefulSet>, pod: Seen<Pod>)
    ensures DetermineState(sts, pod) == Running
       <==> sts.Found? && HasReplicas(sts.item) && pod.Found? && PodIsPlayable(pod.item)
  {
    if pod.Found? {
      PodStateShows(pod.item);
    }
  }

  /** The state of a server that shows in a store. */
  ghost predicate StoreShows(k: Key, w: World, state: ServerState) {
    var pod := Key(k.ns, k.name + "-0");
    if k !in w.statefulSets || !HasReplicas(w.statefulSets[k]) || pod !in w.pods then state == Pending
    else PodShows(w.pods[pod], state)
  }

  // Services.

  predicate Usable(ingress: Ingress) { ingress.ip != "" || ingress.hostname != "" }

  ghost predicate FirstUsable(ingress: seq<Ingress>, i: int) {
    0 <= i < |ingress| && Usable(ingress[i]) && forall j :: 0 <= j < i ==> !Usable(ingress[j])
  }

  /** The address of the first ingress that has one, or that there is none yet. */
  ghost predicate IngressShows(ingress: seq<Ingress>, address: string) {
    if forall i :: 0 <= i < |ingress| ==> !Usable(ingress[i]) then address == "<pending>"
    else exists i :: FirstUsable(ingress, i)
           && address == if ingress[i].ip != "" then ingress[i].ip else ingress[i].hostname
  }

  ghost predicate AddressShows(svc: Option<Service>, address: string) {
    match svc
    case None => address == ""
    case Some(s) =>
      && (s.serviceType == "LoadBalancer" ==> IngressShows(s.ingress, address))
      && (s.serviceType == "NodePort" ==> address == "<node-ip>")
      && (s.serviceType == "ClusterIP" ==> address == s.clusterIP)
      && (s.serviceType != "LoadBalancer" && s.serviceType != "NodePort" && s.serviceType != "ClusterIP" ==>
            address == "")
  }

  lemma {:induction false} FirstIngressShows(ingress: seq<Ingress>)
    ensures IngressShows(ingress, FirstIngress(ingress))
  {
    if ingress == [] {
    } else if Usable(ingress[0]) {
      assert FirstUsable(ingress, 0);
    } else {
      var rest := ingress[1..];
      FirstIngressShows(rest);
      assert forall i :: 0 <= i < |rest| ==> rest[i] == ingress[i + 1];
      if i :| 0 <= i < |ingress| && Usable(ingress[i]) {
        assert Usable(rest[i - 1]);
        var j :| FirstUsable(rest, j)
            && FirstIngress(rest) == if rest[j].ip != "" then rest[j].ip else rest[j].hostname;
        assert FirstUsable(ingress, j + 1) by {
          forall m | 0 <= m < j + 1 ensures !Usable(ingress[m]) {
            assert m > 0 ==> ingress[m] == rest[m - 1];
          }
        }
      }
    }
  }

  lemma AddressShowsIff(svc: Option<Service>, address: string)
    ensures AddressShows(svc, address) <==> address == DetermineAddress(svc)
  {
    if svc.Some? {
      FirstIngressShows(svc.value.ingress);
    }
  }

  /** One entry for each port of the service; its number is the node port where that is what
      players connect to. */
  ghost predicate PortsShow(svc: Option<Service>, ports: seq<PortStatus>) {
    match svc
    case None => ports == []
    case Some(s) =>
      && |ports| == |s.ports|
      && forall i :: 0 <= i < |ports| ==>
           && ports[i].name == s.ports[i].name && ports[i].protocol == s.ports[i].protocol
           && ports[i].port == if s.serviceType == "NodePort" && s.ports[i].nodePort != 0 then s.ports[i].nodePort
                               else s.ports[i].port
  }

  lemma PortsShowIff(svc: Option<Service>, ports: seq<PortStatus>)
    ensures PortsShow(svc, ports) <==> ports == DeterminePorts(svc)
  {
    if svc.Some? && PortsShow(svc, ports) {
      var s := svc.value;
      forall i | 0 <= i < |ports| ensures ports[i] == ShownPort(s.serviceType, s.ports[i]) {
        assert ports[i].name == s.ports[i].name;
      }
    }
  }

  // Statuses.

  ghost predicate Tells(status: ServerStatus, state: ServerState, svc: Option<Service>) {
    status.state == state && AddressShows(svc, status.address) && PortsShow(svc, status.ports)
  }

  lemma TellsIff(status: ServerStatus, state: ServerState, svc: Option<Service>)
    ensures Tells(status, state, svc) <==> Shows(status, state, svc)
  {
    AddressShowsIff(svc, status.address);
    PortsShowIff(svc, status.ports);
  }
}
