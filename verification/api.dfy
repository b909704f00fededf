// The API types of the operator: SteamServer and GameDefinition, and the parts
// of the Kubernetes objects that the builders fill in.
module Api {
  datatype Option<+T> = None | Some(value: T)

  datatype SecretKeySelector = SecretKeySelector(name: string, key: string, optional: Option<bool>)

  /** Every source other than a secret key is passed through untouched. */
  datatype EnvVarSource = SecretKeyRef(ref: SecretKeySelector) | OtherSource(text: string)

  datatype EnvVar = EnvVar(name: string, value: string, valueFrom: Option<EnvVarSource>)

  datatype ConfigValue = ConfigValue(value: string, secretKeyRef: Option<SecretKeySelector>)

  datatype ConfigSchemaEntry = ConfigSchemaEntry(default: string, required: bool, enum: seq<string>,
                                                 mapToType: Option<string>)

  datatype ServerPort = ServerPort(name: string, containerPort: int, servicePort: int, protocol: string)

  datatype ConfigFile = ConfigFile(path: string, content: string)

  datatype Quantity = Quantity(amount: int) {
    predicate IsZero() { amount == 0 }
  }

  /** A quantity written as text, by what parsing it gives. */
  datatype QuantityText = Unset | Unparsable | Parsed(quantity: Quantity)

  datatype StorageSpec = StorageSpec(size: Quantity, storageClassName: Option<string>)

  datatype ResourceRequirements = ResourceRequirements(requests: map<string, Quantity>, limits: map<string, Quantity>)

  datatype GameDefinitionSpec = GameDefinitionSpec(
    appId: int,
    image: string,
    installDir: string,
    command: string,
    args: seq<string>,
    ports: seq<ServerPort>,
    env: seq<EnvVar>,
    configSchema: Option<map<string, ConfigSchemaEntry>>,
    defaultResources: ResourceRequirements,
    defaultStorage: QuantityText)

  datatype SteamServerSpec = SteamServerSpec(
    gameDefinition: string,
    config: map<string, ConfigValue>,
    appId: Option<int>,
    image: string,
    ports: seq<ServerPort>,
    command: seq<string>,
    args: seq<string>,
    env: seq<EnvVar>,
    configFiles: seq<ConfigFile>,
    storage: Option<StorageSpec>,
    resources: Option<ResourceRequirements>,
    serviceType: string,
    beta: string,
    validate: Option<bool>,
    anonymous: Option<bool>,
    steamCredentialsSecret: string)

  datatype ServerState = NoState | Pending | Installing | Starting | Running | Error

  datatype PortStatus = PortStatus(name: string, port: int, protocol: string)

  datatype ServerStatus = ServerStatus(state: ServerState, address: string, ports: seq<PortStatus>, message: string)

  datatype Key = Key(ns: string, name: string)

  // What the builders produce.

  datatype ContainerPort = ContainerPort(name: string, containerPort: int, protocol: string)

  datatype VolumeMount = VolumeMount(name: string, mountPath: string, subPath: string, readOnly: bool)

  datatype Volume = PvcVolume(name: string, claimName: string) | ConfigMapVolume(name: string, configMapName: string)

  datatype Container = Container(
    name: string,
    image: string,
    command: seq<string>,
    args: seq<string>,
    ports: seq<ContainerPort>,
    env: seq<EnvVar>,
    resources: ResourceRequirements,
    volumeMounts: seq<VolumeMount>)

  datatype StatefulSetSpec = StatefulSetSpec(
    replicas: int,
    serviceName: string,
    selector: map<string, string>,
    podLabels: map<string, string>,
    initContainer: Container,
    mainContainer: Container,
    volumes: seq<Volume>)

  datatype ServicePort = ServicePort(name: string, port: int, targetPort: int, protocol: string, nodePort: int)

  datatype PvcSpec = PvcSpec(accessModes: seq<string>, size: Quantity, storageClassName: Option<string>)
}

// A map is walked in an arbitrary order: an enumeration of its keys.
module Enumeration {
  predicate Enumerates<K(==)>(order: seq<K>, keys: set<K>) {
    && (forall i, j :: 0 <= i < j < |order| ==> order[i] != order[j])
    && (forall k :: k in order ==> k in keys)
    && (forall k :: k in keys ==> k in order)
  }

  /** Every finite set can be walked, and with any chosen member last. */
  lemma {:induction false} EnumerationEndingIn<K>(keys: set<K>, last: K) returns (order: seq<K>)
    requires last in keys
    ensures Enumerates(order, keys) && |order| > 0 && order[|order| - 1] == last
  {
    var rest := SomeEnumeration(keys - {last});
    order := rest + [last];
  }

  lemma {:induction false} SomeEnumeration<K>(keys: set<K>) returns (order: seq<K>)
    ensures Enumerates(order, keys)
    decreases keys
  {
    if keys == {} {
      order := [];
    } else {
      var k :| k in keys;
      var rest := SomeEnumeration(keys - {k});
      order := rest + [k];
    }
  }

  lemma EnumerationStartingWith<K>(keys: set<K>, first: K) returns (order: seq<K>)
    requires first in keys
    ensures Enumerates(order, keys) && |order| > 0 && order[0] == first
  {
    var rest := SomeEnumeration(keys - {first});
    order := [first] + rest;
  }

  /** Walking a map: its keys in an order that nobody chose. */
  method Walk<K(==)>(keys: set<K>) returns (order: seq<K>)
    ensures Enumerates(order, keys)
  {
    order := [];
    var rest := keys;
    while rest != {}
      invariant rest <= keys && Enumerates(order, keys - rest)
      decreases rest
    {
      var k :| k in rest;
      order, rest := order + [k], rest - {k};
    }
    assert keys - rest == keys;
  }
}
