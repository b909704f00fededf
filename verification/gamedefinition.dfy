// The GameDefinition reconciler: validation of a spec, and the status write that
// opens or closes the gate for every server that refers to it.
module GameDefinitions {
  import opened Api
  import opened Cluster
  import opened Enumeration
  import Decimal
  import opened Services

  const VALIDATED := "GameDefinition validated successfully"

  datatype DefError =
    | BadAppId | NoCommand | NoPorts | NoPortName(i: nat) | BadContainerPort(i: nat) | BadMapTo(key: string)
  {
    function Text(): string {
      match this
      case BadAppId => "appId must be a positive integer"
      case NoCommand => "command is required"
      case NoPorts => "at least one port is required"
      case NoPortName(i) => "port[" + Decimal.Text(i) + "].name is required"
      case BadContainerPort(i) => "port[" + Decimal.Text(i) + "].containerPort must be between 1 and 65535"
      case BadMapTo(key) => "configSchema[" + key + "].mapTo.type must be 'arg', 'env', or 'configFile'"
    }
  }

  predicate MapToAllowed(entry: ConfigSchemaEntry) {
    entry.mapToType.Some? ==> entry.mapToType.value in ["arg", "env", "configFile"]
  }

  predicate PortAllowed(port: ServerPort) {
    port.name != "" && InPortRange(port.containerPort)
  }

  function SchemaOf(spec: GameDefinitionSpec): map<string, ConfigSchemaEntry> {
    if spec.configSchema.Some? then spec.configSchema.value else map[]
  }

  /** What a usable definition is. */
  ghost predicate ValidDefinition(spec: GameDefinitionSpec) {
    && spec.appId > 0
    && spec.command != ""
    && spec.ports != []
    && (forall i :: 0 <= i < |spec.ports| ==> PortAllowed(spec.ports[i]))
    && (forall k :: k in SchemaOf(spec) ==> MapToAllowed(SchemaOf(spec)[k]))
  }

  predicate Refutes(spec: GameDefinitionSpec, e: DefError) {
    match e
    case BadAppId => spec.appId <= 0
    case NoCommand => spec.command == ""
    case NoPorts => spec.ports == []
    case NoPortName(i) => i < |spec.ports| && spec.ports[i].name == ""
    case BadContainerPort(i) => i < |spec.ports| && !InPortRange(spec.ports[i].containerPort)
    case BadMapTo(k) => k in SchemaOf(spec) && !MapToAllowed(SchemaOf(spec)[k])
  }

  /** The verdict may name different faults for different walks of the schema, but
      always a true one, and none exactly for a valid definition. */
  method Validate(spec: GameDefinitionSpec, schemaOrder: seq<string>) returns (error: Option<DefError>)
    requires Enumerates(schemaOrder, SchemaOf(spec).Keys)
    ensures error.None? <==> ValidDefinition(spec)
    ensures error.Some? ==> Refutes(spec, error.value)
  {
    if spec.appId <= 0 {
      return Some(BadAppId);
    }
    if spec.command == "" {
      return Some(NoCommand);
    }
    if |spec.ports| == 0 {
      return Some(NoPorts);
    }
    for i := 0 to |spec.ports|
      invariant forall k :: 0 <= k < i ==> PortAllowed(spec.ports[k])
    {
      var port := spec.ports[i];
      if port.name == "" {
        return Some(NoPortName(i));
      }
      if port.containerPort <= 0 || port.containerPort > 65535 {
        return Some(BadContainerPort(i));
      }
    }
    for i := 0 to |schemaOrder|
      invariant forall k :: k in schemaOrder[..i] ==> MapToAllowed(SchemaOf(spec)[k])
    {
      assert schemaOrder[i] in schemaOrder;
      var entry := SchemaOf(spec)[schemaOrder[i]];
      if entry.mapToType.Some? {
        match entry.mapToType.value {
          case "arg" =>
          case "env" =>
          case "configFile" =>
          case _ => return Some(BadMapTo(schemaOrder[i]));
        }
      }
    }
    assert schemaOrder[..|schemaOrder|] == schemaOrder;
    return None;
  }

  // The reconciler as a step machine.

  datatype DefWorker =
    | DefIdle
    | DefStatusWrite(def: GameDef)
    | DefFinished(failed: bool)

  /** The verdict on a read definition, with the error the validation happened to report. */
  ghost predicate Verdict(spec: GameDefinitionSpec, error: Option<DefError>) {
    && (error.None? <==> ValidDefinition(spec))
    && (error.Some? ==> Refutes(spec, error.value))
  }

  function DefNextOp(n: string, p: DefWorker): Op
    requires !p.DefFinished?
  {
    match p
    case DefIdle => GetDef(n)
    case DefStatusWrite(d) => UpdateDefStatus(d)
  }

  function OnDefinition(d: GameDef, error: Option<DefError>): DefWorker {
    if error.Some? then DefStatusWrite(d.(ready := false, message := error.value.Text()))
    else if !d.ready || d.message != VALIDATED then DefStatusWrite(d.(ready := true, message := VALIDATED))
    else DefFinished(false)
  }

  function DefAdvance(p: DefWorker, reply: Reply, error: Option<DefError>): DefWorker
    requires !p.DefFinished?
  {
    match p
    case DefIdle =>
      (match reply
       case GotDef(d) => OnDefinition(d, error)
       case Failed(NotFound) => DefFinished(false)
       case _ => DefFinished(true))
    case DefStatusWrite(_) => DefFinished(!reply.Done?)
  }

  // A definition that passes leaves no port out of range.

  /** Every port a valid definition exposes is a port number, as long as the service
      ports, which are not validated, are left out or are port numbers themselves. */
  lemma ExposedPortsInRangeIff(spec: GameDefinitionSpec, i: int)
    requires ValidDefinition(spec) && 0 <= i < |spec.ports|
    ensures var exposed := ServicePorts(spec.ports)[i];
            && InPortRange(exposed.targetPort)
            && (InPortRange(exposed.port) <==> spec.ports[i].servicePort == 0 || InPortRange(spec.ports[i].servicePort))
  {
    assert PortAllowed(spec.ports[i]) && ServicePorts(spec.ports)[i] == ToServicePort(spec.ports[i]);
  }
}
