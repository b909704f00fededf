// The Service of a server.
module Services {
  import opened Api
  import StatefulSets

  function ToServicePort(port: ServerPort): ServicePort {
    ServicePort(port.name,
                if port.servicePort == 0 then port.containerPort else port.servicePort,
                port.containerPort,
                StatefulSets.WithProtocol(port.protocol),
                0)
  }

  function ServicePorts(ports: seq<ServerPort>): (r: seq<ServicePort>)
    ensures |r| == |ports|
  {
    seq(|ports|, i requires 0 <= i < |ports| => ToServicePort(ports[i]))
  }

  /** One service port for each port of the server, or of the definition if it has none: the
      number players use is the service port if given, else that of the container. */
  ghost predicate PortsExposed(ports: seq<ServerPort>, exposed: seq<ServicePort>) {
    && |exposed| == |ports|
    && forall i :: 0 <= i < |exposed| ==>
         && exposed[i].name == ports[i].name && exposed[i].targetPort == ports[i].containerPort
         && exposed[i].port == (if ports[i].servicePort != 0 then ports[i].servicePort else ports[i].containerPort)
         && exposed[i].protocol == (if ports[i].protocol != "" then ports[i].protocol else "UDP")
  }

  /** What is served: by default through a load balancer, to the pods of this server and game. */
  ghost predicate Serves(name: string, spec: SteamServerSpec, def: Option<GameDefinitionSpec>,
                         serviceType: string, selector: map<string, string>, ports: seq<ServicePort>)
  {
    && serviceType == (if spec.serviceType != "" then spec.serviceType else "LoadBalancer")
    && StatefulSets.LabelsSay(selector, name, spec.gameDefinition)
    && PortsExposed(if spec.ports != [] then spec.ports else if def.Some? then def.value.ports else [], ports)
  }

  datatype ServiceBuilder = ServiceBuilder(name: string, spec: SteamServerSpec, def: Option<GameDefinitionSpec>) {
    function Labels(): map<string, string> {
      StatefulSets.BaseLabels(name, spec.gameDefinition)
    }

    function GetServiceType(): string {
      if spec.serviceType != "" then spec.serviceType else "LoadBalancer"
    }

    function GetPorts(): seq<ServerPort> {
      if spec.ports != [] then spec.ports else if def.Some? then def.value.ports else []
    }

    method BuildServicePorts() returns (result: seq<ServicePort>)
      ensures result == ServicePorts(GetPorts())
    {
      var ports := GetPorts();
      result := seq(|ports|, i => ServicePort("", 0, 0, "", 0));
      for i := 0 to |ports|
        invariant |result| == |ports|
        invariant forall k :: 0 <= k < i ==> result[k] == ToServicePort(ports[k])
      {
        var port := ports[i];
        var protocol := port.protocol;
        if protocol == "" {
          protocol := "UDP";
        }
        var servicePort := port.servicePort;
        if servicePort == 0 {
          servicePort := port.containerPort;
        }
        result := result[i := ServicePort(port.name, servicePort, port.containerPort, protocol, 0)];
      }
    }

    method Build() returns (serviceType: string, selector: map<string, string>, ports: seq<ServicePort>)
      ensures serviceType == GetServiceType() && selector == Labels() && ports == ServicePorts(GetPorts())
      ensures Serves(name, spec, def, serviceType, selector, ports)
    {
      serviceType, selector := GetServiceType(), Labels();
      ports := BuildServicePorts();
    }
  }

  predicate InPortRange(port: int) { 0 < port <= 65535 }

  /** The two builders list the same ports in the same order: a service port has the
      name and protocol of its container port and targets it. */
  lemma PortsAgree(name: string, spec: SteamServerSpec, def: Option<GameDefinitionSpec>, order: seq<string>)
    ensures var exposed := ServicePorts(ServiceBuilder(name, spec, def).GetPorts());
            var inside := StatefulSets.StatefulSetBuilder(name, spec, def).Desired(order).mainContainer.ports;
            && |exposed| == |inside|
            && forall i :: 0 <= i < |exposed| ==>
                 && exposed[i].name == inside[i].name
                 && exposed[i].protocol == inside[i].protocol
                 && exposed[i].targetPort == inside[i].containerPort
                 && exposed[i].protocol != ""
  {
    var ports := ServiceBuilder(name, spec, def).GetPorts();
    assert forall i :: 0 <= i < |ports| ==> ServicePorts(ports)[i] == ToServicePort(ports[i]);
  }

  /** A Service selects a pod that has all the labels of its selector. */
  predicate Selects(selector: map<string, string>, labels: map<string, string>) {
    forall k :: k in selector ==> k in labels && labels[k] == selector[k]
  }

  /** A server's Service selects its own pods, and never those of another name. */
  lemma SelectsOwnPodsOnly(server: string, other: string, game: string, otherGame: string, appId: int)
    ensures Selects(StatefulSets.BaseLabels(server, game), StatefulSets.StatefulSetLabels(other, otherGame, appId))
       <==> server == other && game == otherGame
  {
    var selector, labels := StatefulSets.BaseLabels(server, game),
        StatefulSets.StatefulSetLabels(other, otherGame, appId);
    assert labels[StatefulSets.INSTANCE_LABEL] == other && labels[StatefulSets.GAME_LABEL] == otherGame;
    assert selector[StatefulSets.INSTANCE_LABEL] == server && selector[StatefulSets.GAME_LABEL] == game;
  }
}
