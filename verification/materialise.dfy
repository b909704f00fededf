// Writing every value that a server takes from its game definition into the
// server itself, and building without a definition, gives the same children.
module Materialisation {
  import opened Api
  import opened Enumeration
  import opened ConfigValues
  import EnvVars
  import Pvcs
  import SecretEnvs
  import Services
  import StatefulSets

  /** The schema's non-empty defaults as literals, under the user's values. */
  function MaterialConfig(config: Config, schema: Schema): Config {
    (map k | k in schema && schema[k].default != "" :: ConfigValue(schema[k].default, None)) + config
  }

  function Material(b: StatefulSets.StatefulSetBuilder, size: Quantity): SteamServerSpec {
    b.spec.(
      appId := Some(b.GetAppId()),
      image := b.GetImage(),
      ports := b.GetPorts(),
      command := b.GetCommand(),
      args := b.GetArgs(),
      env := EnvVars.Merged(b.BaseEnv()),
      config := MaterialConfig(b.spec.config, b.GetSchema()),
      resources := Some(b.GetResources()),
      storage := Some(StorageSpec(size, if b.spec.storage.Some? then b.spec.storage.value.storageClassName else None)))
  }

  function Materialised(name: string, spec: SteamServerSpec, def: Option<GameDefinitionSpec>): SteamServerSpec {
    Material(StatefulSets.StatefulSetBuilder(name, spec, def), Pvcs.PvcBuilder(name, spec, def).GetStorageSize())
  }

  lemma ResolvedAfterMaterialising(config: Config, schema: Schema)
    ensures ResolvedValues(MaterialConfig(config, schema), map[]) == ResolvedValues(config, schema)
  {
  }

  /** Defaults are literals, so a walk over the larger map meets the same secrets. */
  lemma {:induction false} SecretsOfMaterial(config: Config, schema: Schema, order: seq<string>)
    ensures SecretEnv(MaterialConfig(config, schema), order) == SecretEnv(config, order)
  {
    if order == [] {
    } else {
      SecretsOfMaterial(config, schema, order[..|order| - 1]);
    }
  }

  /** Walking only the keys of a smaller map that holds all the secrets gives the same entries. */
  lemma {:induction false} SecretsOfRestriction(config: Config, order: seq<string>)
    ensures SecretEnv(config, Restricted(order, config.Keys)) == SecretEnv(config, order)
  {
    if order == [] {
    } else {
      var front, last := order[..|order| - 1], order[|order| - 1];
      SecretsOfRestriction(config, front);
      if last in config.Keys {
        var r := Restricted(front, config.Keys) + [last];
        assert r[..|r| - 1] == Restricted(front, config.Keys);
      }
    }
  }

  function Restricted(order: seq<string>, keys: set<string>): seq<string> {
    if order == [] then []
    else
      var front, last := Restricted(order[..|order| - 1], keys), order[|order| - 1];
      if last in keys then front + [last] else front
  }

  lemma {:induction false} RestrictedEnumerates(order: seq<string>, all: set<string>, keys: set<string>)
    requires Enumerates(order, all) && keys <= all
    ensures Enumerates(Restricted(order, keys), keys)
  {
    if order == [] {
    } else {
      var front, last := order[..|order| - 1], order[|order| - 1];
      assert forall k :: k in front ==> k in order && k != last;
      assert forall k :: k in all - {last} ==> k in front;
      RestrictedEnumerates(front, all - {last}, keys - {last});
      SameRestriction(front, keys, last);
    }
  }

  lemma {:induction false} SameRestriction(order: seq<string>, keys: set<string>, absent: string)
    requires absent !in order
    ensures Restricted(order, keys - {absent}) == Restricted(order, keys)
  {
    if order == [] {
    } else {
      assert order[|order| - 1] in order;
      SameRestriction(order[..|order| - 1], keys, absent);
    }
  }

  lemma SameContainerEnv(base: seq<EnvVar>, config: Config, schema: Schema, order: seq<string>)
    ensures SecretEnvs.ContainerEnv(EnvVars.Merged(base), MaterialConfig(config, schema), order)
         == SecretEnvs.ContainerEnv(base, config, Restricted(order, config.Keys))
  {
    SecretsOfMaterial(config, schema, order);
    SecretsOfRestriction(config, order);
    EnvVars.MergePrefix(base, SecretEnv(config, order));
  }

  lemma SameGetters(b: StatefulSets.StatefulSetBuilder, size: Quantity)
    ensures var c := StatefulSets.StatefulSetBuilder(b.name, Material(b, size), None);
            && c.GetImage() == b.GetImage() && c.GetCommand() == b.GetCommand() && c.GetArgs() == b.GetArgs()
            && c.GetPorts() == b.GetPorts() && c.GetResources() == b.GetResources() && c.GetAppId() == b.GetAppId()
            && c.GetSchema() == map[] && c.BaseEnv() == EnvVars.Merged(b.BaseEnv())
            && c.spec.configFiles == b.spec.configFiles && c.spec.config == MaterialConfig(b.spec.config, b.GetSchema())
  {
  }

  /** The main container is the same one, built with the same walk cut down to the user's keys. */
  lemma SameMainContainer(b: StatefulSets.StatefulSetBuilder, c: StatefulSets.StatefulSetBuilder, order: seq<string>)
    requires c.GetImage() == b.GetImage() && c.GetCommand() == b.GetCommand() && c.GetArgs() == b.GetArgs()
    requires c.GetPorts() == b.GetPorts() && c.GetResources() == b.GetResources()
    requires c.GetSchema() == map[] && c.BaseEnv() == EnvVars.Merged(b.BaseEnv())
    requires c.spec.configFiles == b.spec.configFiles && c.spec.config == MaterialConfig(b.spec.config, b.GetSchema())
    ensures c.MainContainer(order) == b.MainContainer(Restricted(order, b.spec.config.Keys))
  {
    ResolvedAfterMaterialising(b.spec.config, b.GetSchema());
    SameContainerEnv(b.BaseEnv(), b.spec.config, b.GetSchema(), order);
  }

  lemma SameInitContainer(b: StatefulSets.StatefulSetBuilder, size: Quantity)
    ensures var c := StatefulSets.StatefulSetBuilder(b.name, Material(b, size), None);
            && c.SteamCmdConfig() == b.SteamCmdConfig().(installDir := StatefulSets.SERVER_FILES_PATH)
            && c.InitContainer().(args := []) == b.InitContainer().(args := [])
            && c.Volumes() == b.Volumes() && c.Labels() == b.Labels()
  {
    SameGetters(b, size);
    assert StatefulSets.StatefulSetBuilder(b.name, Material(b, size), None).InitEnv() == b.InitEnv();
  }

  ghost predicate SameButInstallDir(before: StatefulSetSpec, after: StatefulSetSpec) {
    after.(initContainer := after.initContainer.(args := []))
        == before.(initContainer := before.initContainer.(args := []))
  }

  /** The same StatefulSet, for every walk of the materialised map, but for the install
      directory in the arguments of the init container. */
  lemma MaterialisingPreservesStatefulSet(name: string, spec: SteamServerSpec, def: Option<GameDefinitionSpec>,
                                          order: seq<string>)
    returns (userOrder: seq<string>)
    requires Enumerates(order, Materialised(name, spec, def).config.Keys)
    ensures Enumerates(userOrder, spec.config.Keys)
    ensures SameButInstallDir(StatefulSets.StatefulSetBuilder(name, spec, def).Desired(userOrder),
                              StatefulSets.StatefulSetBuilder(name, Materialised(name, spec, def), None).Desired(order))
    ensures StatefulSets.StatefulSetBuilder(name, Materialised(name, spec, def), None).SteamCmdConfig()
         == StatefulSets.StatefulSetBuilder(name, spec, def).SteamCmdConfig()
            .(installDir := StatefulSets.SERVER_FILES_PATH)
  {
    var b := StatefulSets.StatefulSetBuilder(name, spec, def);
    var size := Pvcs.PvcBuilder(name, spec, def).GetStorageSize();
    userOrder := Restricted(order, spec.config.Keys);
    RestrictedEnumerates(order, Materialised(name, spec, def).config.Keys, spec.config.Keys);
    var c := StatefulSets.StatefulSetBuilder(name, Material(b, size), None);
    SameGetters(b, size);
    SameMainContainer(b, c, order);
    SameInitContainer(b, size);
  }

  lemma MaterialisingPreservesServiceAndClaim(name: string, spec: SteamServerSpec, def: Option<GameDefinitionSpec>)
    ensures var b, c := Services.ServiceBuilder(name, spec, def),
        Services.ServiceBuilder(name, Materialised(name, spec, def), None);
            && b.Labels() == c.Labels() && b.GetServiceType() == c.GetServiceType()
            && Services.ServicePorts(b.GetPorts()) == Services.ServicePorts(c.GetPorts())
    ensures var b, c := Pvcs.PvcBuilder(name, spec, def), Pvcs.PvcBuilder(name, Materialised(name, spec, def), None);
            b.Labels() == c.Labels() && b.Desired() == c.Desired()
  {
    SameGetters(StatefulSets.StatefulSetBuilder(name, spec, def), Pvcs.PvcBuilder(name, spec, def).GetStorageSize());
  }

  const EMPTY_DEFINITION := GameDefinitionSpec(0, "", "", "", [], [], [], None, StatefulSets.NO_RESOURCES, Unset)

  /** A definition with nothing in it is the same as no definition. */
  lemma EmptyDefinitionIsNone(name: string, spec: SteamServerSpec, order: seq<string>)
    ensures StatefulSets.StatefulSetBuilder(name, spec, Some(EMPTY_DEFINITION)).Desired(order)
         == StatefulSets.StatefulSetBuilder(name, spec, None).Desired(order)
    ensures Services.ServiceBuilder(name, spec, Some(EMPTY_DEFINITION)).GetPorts()
        == Services.ServiceBuilder(name, spec, None).GetPorts()
    ensures Pvcs.PvcBuilder(name, spec, Some(EMPTY_DEFINITION)).Desired() == Pvcs.PvcBuilder(name, spec, None).Desired()
  {
    var b, c := StatefulSets.StatefulSetBuilder(name, spec, Some(EMPTY_DEFINITION)),
        StatefulSets.StatefulSetBuilder(name, spec, None);
    assert b.BaseEnv() == c.BaseEnv();
    assert b.InitContainer() == c.InitContainer();
    assert b.MainContainer(order) == c.MainContainer(order);
  }
}
