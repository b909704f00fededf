// What is in the store after a finished reconcile without faults, in terms of the fields
// that the user and the author of the definition wrote.
module Arrival {
  import opened Api
  import opened Cluster
  import opened Convergence
  import opened Enumeration
  import opened Machine
  import opened Observations
  import opened Provenance
  import opened System
  import Decimal
  import Pvcs
  import Recovery
  import Services
  import StatefulSets

  function Last(run: seq<Local>): World
    requires |run| > 0
  {
    run[|run| - 1].w
  }

  function GivenBy(d: Option<GameDef>): Option<GameDefinitionSpec> {
    match d
    case None => None
    case Some(def) => Some(def.spec)
  }

  ghost predicate CleanlyFinished(k: Key, x: Server, d: Option<GameDef>, run: seq<Local>) {
    CleanRun(k, run) && Setting(k, x, d, run[0].w) && run[|run| - 1].p.Finished?
  }

  lemma HasArrived(k: Key, x: Server, d: Option<GameDef>, run: seq<Local>)
    requires CleanlyFinished(k, x, d, run)
    ensures Arrived(k, x, d, run[|run| - 1]) && x.key == k && SpecOf(d) == GivenBy(d)
  {
    CleanReconcileConverges(k, x, d, run);
  }

  // The children.

  /** The stored StatefulSet takes each field from the server, else from the definition, else
      from the fixed values. */
  lemma StatefulSetArrives(k: Key, x: Server, d: Option<GameDef>, run: seq<Local>)
    requires CleanlyFinished(k, x, d, run)
    ensures var w := Last(run);
            && k in w.statefulSets
            && StatefulSets.Layered(k.name, x.spec, GivenBy(d), w.statefulSets[k].spec)
            && w.statefulSets[k].labels == w.statefulSets[k].spec.podLabels
  {
    HasArrived(k, x, d, run);
    var order := BuiltFor(k, x, d, Last(run));
    StatefulSets.DesiredLayered(StatefulSetBuilderFor(x, d), order);
  }

  lemma BuiltFor(k: Key, x: Server, d: Option<GameDef>, w: World) returns (order: seq<string>)
    requires StatefulSetMatches(k, x, d, w)
    ensures Enumerates(order, x.spec.config.Keys)
    ensures w.statefulSets[k].spec == StatefulSetBuilderFor(x, d).Desired(order)
    ensures w.statefulSets[k].labels == w.statefulSets[k].spec.podLabels
  {
    order :| Enumerates(order, x.spec.config.Keys) && BuiltStatefulSet(w.statefulSets[k], x, d, order);
  }

  /** The stored Service has the type, the selector and the ports that were asked for. */
  lemma ServiceArrives(k: Key, x: Server, d: Option<GameDef>, run: seq<Local>)
    requires CleanlyFinished(k, x, d, run)
    ensures var w := Last(run);
            && k in w.services
            && Services.Serves(k.name, x.spec, GivenBy(d), w.services[k].serviceType, w.services[k].selector,
                               w.services[k].ports)
            && w.services[k].labels == w.services[k].selector
  {
    HasArrived(k, x, d, run);
    BuiltServiceServes(k, x, d, Last(run).services[k]);
  }

  lemma ExposedInService(svc: Service, x: Server, d: Option<GameDef>)
    requires BuiltService(svc, x, d)
    ensures Services.PortsExposed(ServiceBuilderFor(x, d).GetPorts(), svc.ports)
  {
    var ports := ServiceBuilderFor(x, d).GetPorts();
    assert |WithoutNodePorts(svc.ports)| == |Services.ServicePorts(ports)|;
    forall i | 0 <= i < |ports| ensures svc.ports[i].(nodePort := 0) == Services.ToServicePort(ports[i]) {
      assert WithoutNodePorts(svc.ports)[i] == Services.ServicePorts(ports)[i];
    }
  }

  /** The stored ConfigMap holds the contents of the files under numbered keys, and no others,
      names the game if there is one, and is owned by the server. */
  lemma ConfigMapArrives(k: Key, x: Server, d: Option<GameDef>, run: seq<Local>)
    requires CleanlyFinished(k, x, d, run) && x.spec.configFiles != []
    ensures var w, name := Last(run), Key(k.ns, k.name + "-config");
            && name in w.configMaps
            && FilesHeld(x.spec.configFiles, w.configMaps[name].data)
            && w.configMaps[name].labels
               == map["app.kubernetes.io/name" := "steamserver", "app.kubernetes.io/instance" := k.name,
                      "app.kubernetes.io/managed-by" := "boilerr"]
                  + (if x.spec.gameDefinition != "" then map["boilerr.dev/game" := x.spec.gameDefinition] else map[])
            && w.configMaps[name].owner == Some(OwnerRef("SteamServer", k.name, x.uid))
  {
    HasArrived(k, x, d, run);
    DataHoldsFiles(x.spec.configFiles);
  }

  ghost predicate FilesHeld(files: seq<ConfigFile>, data: map<string, string>) {
    && (forall i: nat :: i < |files| ==> HeldAt(files, data, i))
    && (forall key :: key in data ==> exists i: nat :: i < |files| && key == "config-" + Decimal.Text(i))
  }

  ghost predicate HeldAt(files: seq<ConfigFile>, data: map<string, string>, i: nat)
    requires i < |files|
  {
    var key := "config-" + Decimal.Text(i);
    key in data && data[key] == files[i].content
  }

  lemma DataHoldsFiles(files: seq<ConfigFile>)
    ensures FilesHeld(files, StatefulSets.ConfigData(files))
  {
    var data := StatefulSets.ConfigData(files);
    forall i: nat | i < |files| ensures HeldAt(files, data, i) {
      StatefulSets.ConfigDataAt(files, i);
    }
    forall key | key in data ensures exists i: nat :: i < |files| && key == "config-" + Decimal.Text(i) {
      StatefulSets.ConfigDataKeys(files, key);
      var i: nat :| i < |files| && StatefulSets.ConfigKey(i) == key;
      assert key == "config-" + Decimal.Text(i);
    }
  }

  /** Where there was no claim before, there is the one that was asked for, with its size, its
      storage class and the server as its owner, or none for a size of zero. A claim that was
      there keeps its content and its owner. */
  lemma ClaimArrives(k: Key, x: Server, d: Option<GameDef>, run: seq<Local>)
    requires CleanlyFinished(k, x, d, run)
    ensures var before, w, name := run[0].w, Last(run), Key(k.ns, k.name + "-data");
            && (name in before.claims ==>
                  && name in w.claims && w.claims[name].spec == before.claims[name].spec
                  && w.claims[name].owner == before.claims[name].owner)
            && (name !in before.claims ==>
                  && Pvcs.Claims(x.spec, GivenBy(d), if name in w.claims then Some(w.claims[name].spec) else None)
                  && (name in w.claims ==>
                        && w.claims[name].owner == Some(OwnerRef("SteamServer", k.name, x.uid))
                        && StatefulSets.LabelsSay(w.claims[name].labels, k.name, x.spec.gameDefinition)))
  {
    HasArrived(k, x, d, run);
    var was, b := run[0].w, ClaimBuilderFor(x, d);
    Recovery.SinceItself(k, x, d, was);
    Recovery.CleanReconcileCompletes(k, x, d, was, run);
    Pvcs.NoClaimIff(b);
    StatefulSets.LabelsLayered(k.name, x.spec.gameDefinition, 0);
  }

  /** The same of every run, whatever failed or was edited meanwhile: what the operator wrote last
      takes its fields from one server and one definition that passed the gates together. */
  lemma WrittenChildrenTakeFields(run: seq<State>, k: Key)
    requires IsRun(run)
    ensures var w := run[|run| - 1].world;
            k in w.statefulSets && w.statefulSets[k].writer.Operator? ==>
              exists x: Server, d :: x.key == k && Approved(run, x, d)
                && StatefulSets.Layered(k.name, x.spec, GivenBy(d), w.statefulSets[k].spec)
    ensures var w := run[|run| - 1].world;
            k in w.services && w.services[k].writer.Operator? ==>
              exists x: Server, d :: x.key == k && Approved(run, x, d)
                && Services.Serves(k.name, x.spec, GivenBy(d), w.services[k].serviceType, w.services[k].selector,
                                   w.services[k].ports)
  {
    WrittenChildrenAreBuilt(run, k);
    var w := run[|run| - 1].world;
    if k in w.statefulSets && w.statefulSets[k].writer.Operator? {
      var x: Server, d, order :| x.key == k && Approved(run, x, d) && Enumerates(order, x.spec.config.Keys)
          && BuiltStatefulSet(w.statefulSets[k], x, d, order);
      StatefulSets.DesiredLayered(StatefulSetBuilderFor(x, d), order);
      assert SpecOf(d) == GivenBy(d);
    }
    if k in w.services && w.services[k].writer.Operator? {
      var x: Server, d :| x.key == k && Approved(run, x, d) && BuiltService(w.services[k], x, d);
      BuiltServiceServes(k, x, d, w.services[k]);
    }
  }

  lemma BuiltServiceServes(k: Key, x: Server, d: Option<GameDef>, svc: Service)
    requires x.key == k && BuiltService(svc, x, d)
    ensures Services.Serves(k.name, x.spec, GivenBy(d), svc.serviceType, svc.selector, svc.ports)
    ensures svc.labels == svc.selector
  {
    StatefulSets.LabelsLayered(k.name, x.spec.gameDefinition, 0);
    ExposedInService(svc, x, d);
    assert SpecOf(d) == GivenBy(d);
  }

  // The status.

  /** The stored status lists exactly the ports that the server, or else its definition, asks
      for, in order and with their defaults; where players connect to nodes, each under the node
      port that the cluster gave it. */
  lemma StatusListsResolvedPorts(k: Key, x: Server, d: Option<GameDef>, run: seq<Local>, i: int)
    requires CleanlyFinished(k, x, d, run)
    ensures k in Last(run).servers && k in Last(run).services
    ensures var ports := if x.spec.ports != [] then x.spec.ports else if d.Some? then d.value.spec.ports else [];
            var w := Last(run);
            var shown, served := w.servers[k].status.ports, w.services[k].ports;
            && |shown| == |ports| == |served|
            && (0 <= i < |ports| ==>
                  shown[i] == PortStatus(ports[i].name,
                                         if x.spec.serviceType == "NodePort" && served[i].nodePort != 0
                                         then served[i].nodePort
                                         else if ports[i].servicePort != 0 then ports[i].servicePort
                                         else ports[i].containerPort,
                                         if ports[i].protocol != "" then ports[i].protocol else "UDP"))
  {
    StatusTellsService(k, x, d, run);
    ServiceArrives(k, x, d, run);
    var shown, served := Last(run).servers[k].status.ports, Last(run).services[k].ports;
    if 0 <= i < |shown| {
      assert shown[i].name == served[i].name;
    }
  }

  /** The stored address, by the type that was asked for: through a load balancer the first
      ingress that has an address, or that there is none yet; else what the type says. */
  lemma StatusGivesAddress(k: Key, x: Server, d: Option<GameDef>, run: seq<Local>)
    requires CleanlyFinished(k, x, d, run)
    ensures k in Last(run).servers && k in Last(run).services
    ensures var svc, address := Last(run).services[k], Last(run).servers[k].status.address;
            && (x.spec.serviceType == "" || x.spec.serviceType == "LoadBalancer" ==> IngressShows(svc.ingress, address))
            && (x.spec.serviceType == "NodePort" ==> address == "<node-ip>")
            && (x.spec.serviceType == "ClusterIP" ==> address == svc.clusterIP)
  {
    StatusTellsService(k, x, d, run);
    ServiceArrives(k, x, d, run);
  }
}
