// The StatefulSet of a server: values come from the server first, then from its
// game definition, then from a default.
module StatefulSets {
  import opened Api
  import opened Enumeration
  import opened ConfigValues
  import Decimal
  import EnvVars
  import SecretEnvs
  import SteamCmd
  import Templates

  const SERVER_FILES_VOLUME := "serverfiles"
  const SERVER_FILES_PATH := "/serverfiles"
  const CONFIG_FILES_VOLUME := "config-files"
  const INIT_CONTAINER := "steamcmd"
  const GAME_SERVER_CONTAINER := "gameserver"
  const DEFAULT_IMAGE := "steamcmd/steamcmd:ubuntu-22"

  const NAME_LABEL := "app.kubernetes.io/name"
  const INSTANCE_LABEL := "app.kubernetes.io/instance"
  const MANAGED_BY_LABEL := "app.kubernetes.io/managed-by"
  const GAME_LABEL := "boilerr.dev/game"
  const APP_ID_LABEL := "boilerr.dev/app-id"

  const NO_RESOURCES := ResourceRequirements(map[], map[])

  function PvcName(server: string): string { server + "-data" }

  function ConfigMapName(server: string): string { server + "-config" }

  function ConfigKey(i: nat): string { "config-" + Decimal.Text(i) }

  function BaseLabels(server: string, game: string): map<string, string> {
    map[NAME_LABEL := "steamserver", INSTANCE_LABEL := server, MANAGED_BY_LABEL := "boilerr", GAME_LABEL := game]
  }

  function StatefulSetLabels(server: string, game: string, appId: int): map<string, string> {
    var labels := BaseLabels(server, game);
    if appId > 0 then labels[APP_ID_LABEL := Decimal.Text(appId)] else labels
  }

  function WithProtocol(protocol: string): string {
    if protocol == "" then "UDP" else protocol
  }

  function ToContainerPort(port: ServerPort): ContainerPort {
    ContainerPort(port.name, port.containerPort, WithProtocol(port.protocol))
  }

  function ContainerPorts(ports: seq<ServerPort>): (r: seq<ContainerPort>)
    ensures |r| == |ports|
  {
    seq(|ports|, i requires 0 <= i < |ports| => ToContainerPort(ports[i]))
  }

  function ConfigMount(file: ConfigFile, i: nat): VolumeMount {
    VolumeMount(CONFIG_FILES_VOLUME, file.path, ConfigKey(i), true)
  }

  function ConfigMounts(files: seq<ConfigFile>): (r: seq<VolumeMount>)
    ensures |r| == |files|
  {
    seq(|files|, i requires 0 <= i < |files| => ConfigMount(files[i], i))
  }

  const SERVER_FILES_MOUNT := VolumeMount(SERVER_FILES_VOLUME, SERVER_FILES_PATH, "", false)

  // What a built object is, in terms of the fields it comes from: the server's own, else
  // the definition's, else a fixed one.

  ghost predicate LabelsSay(labels: map<string, string>, server: string, game: string) {
    labels == map["app.kubernetes.io/name" := "steamserver", "app.kubernetes.io/instance" := server,
                  "app.kubernetes.io/managed-by" := "boilerr", "boilerr.dev/game" := game]
  }

  /** An app id that is one shows in a label of its own, as text that reads back. */
  ghost predicate AppLabelsSay(labels: map<string, string>, server: string, game: string, appId: int) {
    && LabelsSay(labels - {"boilerr.dev/app-id"}, server, game)
    && ("boilerr.dev/app-id" in labels <==> appId > 0)
    && (appId > 0 ==> Decimal.Parse(labels["boilerr.dev/app-id"]) == Some(appId))
  }

  ghost predicate PortsOpen(ports: seq<ServerPort>, open: seq<ContainerPort>) {
    && |open| == |ports|
    && forall i :: 0 <= i < |open| ==>
         && open[i].name == ports[i].name && open[i].containerPort == ports[i].containerPort
         && open[i].protocol == if ports[i].protocol != "" then ports[i].protocol else "UDP"
  }

  /** Every argument with its placeholders filled, or the raw ones because one cannot be parsed. */
  ghost predicate ArgsFilled(raw: seq<string>, values: map<string, string>, args: seq<string>) {
    && |args| == |raw|
    && (|| (forall i :: 0 <= i < |raw| ==> Templates.Interpolate(raw[i], values) == Some(args[i]))
        || (args == raw && exists i :: 0 <= i < |raw| && Templates.Interpolate(raw[i], values).None?))
  }

  ghost predicate ArgsLayered(spec: SteamServerSpec, def: Option<GameDefinitionSpec>, args: seq<string>) {
    var raw := if spec.args != [] then spec.args else if def.Some? then def.value.args else [];
    var schema := if def.Some? && def.value.configSchema.Some? then def.value.configSchema.value else map[];
    exists values :: Resolves(spec.config, schema, values) && ArgsFilled(raw, values, args)
  }

  ghost predicate EnvLayered(spec: SteamServerSpec, def: Option<GameDefinitionSpec>, env: seq<EnvVar>) {
    SecretEnvs.Layered(if def.Some? then def.value.env else [], spec.env, spec.config, env)
  }

  /** The game's container. */
  ghost predicate MainLayered(spec: SteamServerSpec, def: Option<GameDefinitionSpec>, c: Container) {
    && c.name == "gameserver"
    && c.command == (if spec.command != [] then spec.command
                     else if def.Some? && def.value.command != "" then [def.value.command]
                     else [])
    && ArgsLayered(spec, def, c.args)
    && PortsOpen(if spec.ports != [] then spec.ports else if def.Some? then def.value.ports else [], c.ports)
    && EnvLayered(spec, def, c.env)
    && c.resources == (if spec.resources.Some? then spec.resources.value
                       else if def.Some? then def.value.defaultResources
                       else ResourceRequirements(map[], map[]))
  }

  function SecretEntryOf(variable: string, secret: string, key: string): EnvVar {
    EnvVar(variable, "", Some(SecretKeyRef(SecretKeySelector(secret, key, None))))
  }

  /** The installing container: its argument list reads back as what is to be installed, how. */
  ghost predicate InstallLayered(spec: SteamServerSpec, def: Option<GameDefinitionSpec>, appId: int, c: Container) {
    && c.name == "steamcmd" && c.command == ["steamcmd"] && c.ports == []
    && c.resources == ResourceRequirements(map[], map[])
    && SteamCmd.Decode(c.args) == Some(SteamCmd.Settings(
         if def.Some? && def.value.installDir != "" then def.value.installDir else "/serverfiles",
         spec.anonymous != Some(false),
         appId,
         if spec.beta != "" then Some(spec.beta) else None,
         false,
         spec.validate != Some(false)))
    && |c.env| > 0 && c.env[0] == EnvVar("APP_ID", c.env[0].value, None)
    && Decimal.Parse(c.env[0].value) == Some(appId)
    && c.env[1..] == (if spec.anonymous == Some(false) && spec.steamCredentialsSecret != "" then
                        [SecretEntryOf("STEAM_USERNAME", spec.steamCredentialsSecret, "username"),
                         SecretEntryOf("STEAM_PASSWORD", spec.steamCredentialsSecret, "password")]
                      else [])
  }

  /** Both containers have the files of the server's claim, and the game's container moreover
      one mount for each config file. */
  ghost predicate FilesMounted(name: string, files: seq<ConfigFile>, sts: StatefulSetSpec) {
    && sts.volumes == [PvcVolume("serverfiles", name + "-data")]
                      + (if files != [] then [ConfigMapVolume("config-files", name + "-config")] else [])
    && sts.initContainer.volumeMounts == [VolumeMount("serverfiles", "/serverfiles", "", false)]
    && |sts.mainContainer.volumeMounts| == 1 + |files|
    && sts.mainContainer.volumeMounts[0] == VolumeMount("serverfiles", "/serverfiles", "", false)
    && forall i: nat :: i < |files| ==>
         sts.mainContainer.volumeMounts[i + 1]
         == VolumeMount("config-files", files[i].path, "config-" + Decimal.Text(i), true)
  }

  ghost predicate Layered(name: string, spec: SteamServerSpec, def: Option<GameDefinitionSpec>, sts: StatefulSetSpec) {
    var appId := if spec.appId.Some? then spec.appId.value else if def.Some? then def.value.appId else 0;
    && sts.replicas == 1 && sts.serviceName == name && sts.selector == sts.podLabels
    && AppLabelsSay(sts.podLabels, name, spec.gameDefinition, appId)
    && sts.initContainer.image == sts.mainContainer.image
       == (if spec.image != "" then spec.image
           else if def.Some? && def.value.image != "" then def.value.image
           else "steamcmd/steamcmd:ubuntu-22")
    && InstallLayered(spec, def, appId, sts.initContainer)
    && MainLayered(spec, def, sts.mainContainer)
    && FilesMounted(name, spec.configFiles, sts)
  }

  datatype StatefulSetBuilder =
    StatefulSetBuilder(name: string, spec: SteamServerSpec, def: Option<GameDefinitionSpec>)
  {

    // Fallbacks.

    function GetAppId(): int {
      if spec.appId.Some? then spec.appId.value else if def.Some? then def.value.appId else 0
    }

    function GetImage(): string {
      if spec.image != "" then spec.image
      else if def.Some? && def.value.image != "" then def.value.image
      else DEFAULT_IMAGE
    }

    function GetInstallDir(): string {
      if def.Some? && def.value.installDir != "" then def.value.installDir else SERVER_FILES_PATH
    }

    function GetCommand(): seq<string> {
      if spec.command != [] then spec.command
      else if def.Some? && def.value.command != "" then [def.value.command]
      else []
    }

    function GetArgs(): seq<string> {
      if spec.args != [] then spec.args else if def.Some? then def.value.args else []
    }

    function GetResources(): ResourceRequirements {
      if spec.resources.Some? then spec.resources.value
      else if def.Some? then def.value.defaultResources
      else NO_RESOURCES
    }

    function GetPorts(): seq<ServerPort> {
      if spec.ports != [] then spec.ports else if def.Some? then def.value.ports else []
    }

    function GetSchema(): Schema {
      if def.Some? && def.value.configSchema.Some? then def.value.configSchema.value else map[]
    }

    predicate IsAnonymous() { spec.anonymous.None? || spec.anonymous.value }

    predicate ShouldValidate() { spec.validate.None? || spec.validate.value }

    function Labels(): map<string, string> {
      StatefulSetLabels(name, spec.gameDefinition, GetAppId())
    }

    function InterpolatedArgs(values: map<string, string>): seq<string> {
      if GetArgs() == [] then []
      else
        match Templates.Interpolated(GetArgs(), values)
        case None => GetArgs()
        case Some(args) => args
    }

    function BaseEnv(): seq<EnvVar> {
      (if def.Some? then def.value.env else []) + spec.env
    }

    function SteamCmdConfig(): SteamCmd.CommandConfig {
      SteamCmd.CommandConfig(GetAppId(), GetInstallDir(), IsAnonymous(), spec.beta, "", ShouldValidate())
    }

    // The specification of the built object, for a given walk of the config map.

    function InitEnv(): seq<EnvVar> {
      [EnvVar("APP_ID", Decimal.Text(GetAppId()), None)]
      + if !IsAnonymous() && spec.steamCredentialsSecret != ""
        then [Credential("STEAM_USERNAME", "username"), Credential("STEAM_PASSWORD", "password")]
        else []
    }

    function Credential(variable: string, key: string): EnvVar {
      EnvVar(variable, "", Some(SecretKeyRef(SecretKeySelector(spec.steamCredentialsSecret, key, None))))
    }

    function InitContainer(): Container {
      Container(INIT_CONTAINER, GetImage(), ["steamcmd"], SteamCmd.CommandArgs(SteamCmdConfig()), [], InitEnv(),
                NO_RESOURCES, [SERVER_FILES_MOUNT])
    }

    function MainContainer(order: seq<string>): Container {
      Container(GAME_SERVER_CONTAINER, GetImage(), GetCommand(),
                InterpolatedArgs(ResolvedValues(spec.config, GetSchema())),
                ContainerPorts(GetPorts()), SecretEnvs.ContainerEnv(BaseEnv(), spec.config, order),
                GetResources(), [SERVER_FILES_MOUNT] + ConfigMounts(spec.configFiles))
    }

    function Volumes(): seq<Volume> {
      [PvcVolume(SERVER_FILES_VOLUME, PvcName(name))]
      + if spec.configFiles != [] then [ConfigMapVolume(CONFIG_FILES_VOLUME, ConfigMapName(name))] else []
    }

    function Desired(order: seq<string>): StatefulSetSpec {
      StatefulSetSpec(1, name, Labels(), Labels(), InitContainer(), MainContainer(order), Volumes())
    }

    // The builder itself.

    method BuildLabels() returns (labels: map<string, string>)
      ensures labels == Labels()
    {
      labels := BaseLabels(name, spec.gameDefinition);
      var appId := GetAppId();
      if appId > 0 {
        labels := labels[APP_ID_LABEL := Decimal.Text(appId)];
      }
    }

    method BuildContainerPorts() returns (result: seq<ContainerPort>)
      ensures result == ContainerPorts(GetPorts())
    {
      var ports := GetPorts();
      result := seq(|ports|, i => ContainerPort("", 0, ""));
      for i := 0 to |ports|
        invariant |result| == |ports|
        invariant forall k :: 0 <= k < i ==> result[k] == ToContainerPort(ports[k])
      {
        var protocol := ports[i].protocol;
        if protocol == "" {
          protocol := "UDP";
        }
        result := result[i := ContainerPort(ports[i].name, ports[i].containerPort, protocol)];
      }
    }

    method BuildVolumes() returns (volumes: seq<Volume>)
      ensures volumes == Volumes()
    {
      volumes := [PvcVolume(SERVER_FILES_VOLUME, PvcName(name))];
      if |spec.configFiles| > 0 {
        volumes := volumes + [ConfigMapVolume(CONFIG_FILES_VOLUME, ConfigMapName(name))];
      }
    }

    method BuildVolumeMounts() returns (mounts: seq<VolumeMount>)
      ensures mounts == [SERVER_FILES_MOUNT] + ConfigMounts(spec.configFiles)
    {
      mounts := [VolumeMount(SERVER_FILES_VOLUME, SERVER_FILES_PATH, "", false)];
      for i := 0 to |spec.configFiles|
        invariant |mounts| == i + 1
        invariant mounts[0] == SERVER_FILES_MOUNT
        invariant forall k :: 0 <= k < i ==> mounts[k + 1] == ConfigMount(spec.configFiles[k], k)
      {
        mounts := mounts
            + [VolumeMount(CONFIG_FILES_VOLUME, spec.configFiles[i].path, "config-" + Decimal.Text(i), true)];
      }
      assert mounts == [SERVER_FILES_MOUNT] + ConfigMounts(spec.configFiles);
    }

    method BuildInitEnvVars() returns (envVars: seq<EnvVar>)
      ensures envVars == InitEnv()
    {
      envVars := [EnvVar("APP_ID", Decimal.Text(GetAppId()), None)];
      if !IsAnonymous() && spec.steamCredentialsSecret != "" {
        envVars := envVars + [Credential("STEAM_USERNAME", "username"), Credential("STEAM_PASSWORD", "password")];
      }
    }

    method BuildInitContainer() returns (container: Container)
      ensures container == InitContainer()
    {
      var args := SteamCmd.Build(SteamCmdConfig());
      var env := BuildInitEnvVars();
      container := Container(INIT_CONTAINER, GetImage(), ["steamcmd"], args, [], env, NO_RESOURCES,
          [SERVER_FILES_MOUNT]);
    }

    method GetInterpolatedArgs(values: map<string, string>) returns (result: seq<string>)
      ensures result == InterpolatedArgs(values)
    {
      var args := GetArgs();
      if |args| == 0 {
        return [];
      }
      var interpolated := Templates.InterpolateArgs(args, values);
      if interpolated.None? {
        return args;
      }
      return interpolated.value;
    }

    method BuildMainEnvVars(configEnvVars: seq<EnvVar>) returns (env: seq<EnvVar>)
      ensures env == EnvVars.Merged(BaseEnv() + configEnvVars)
    {
      var gameDefEnv := [];
      if def.Some? {
        gameDefEnv := def.value.env;
      }
      env := EnvVars.MergeEnvVars([gameDefEnv, spec.env, configEnvVars]);
      FlattenThree(gameDefEnv, spec.env, configEnvVars);
    }

    method BuildMainContainer(schemaOrder: seq<string>, configOrder: seq<string>) returns (container: Container)
      requires Enumerates(schemaOrder, GetSchema().Keys)
      requires Enumerates(configOrder, spec.config.Keys)
      ensures container == MainContainer(configOrder)
    {
      var configValues, configEnvVars := ResolveConfigValues(spec.config, GetSchema(), schemaOrder, configOrder);
      var args := GetInterpolatedArgs(configValues);
      var env := BuildMainEnvVars(configEnvVars);
      var ports := BuildContainerPorts();
      var mounts := BuildVolumeMounts();
      container := Container(GAME_SERVER_CONTAINER, GetImage(), GetCommand(), args, ports, env, GetResources(), mounts);
    }

    method Build(schemaOrder: seq<string>, configOrder: seq<string>)
      returns (sts: StatefulSetSpec, labels: map<string, string>)
      requires Enumerates(schemaOrder, GetSchema().Keys)
      requires Enumerates(configOrder, spec.config.Keys)
      ensures Layered(name, spec, def, sts)
      ensures sts == Desired(configOrder)
      ensures labels == sts.selector == sts.podLabels == Labels()
    {
      DesiredLayered(this, configOrder);
      labels := BuildLabels();
      var initContainer := BuildInitContainer();
      var mainContainer := BuildMainContainer(schemaOrder, configOrder);
      var volumes := BuildVolumes();
      sts := StatefulSetSpec(1, name, labels, labels, initContainer, mainContainer, volumes);
    }
  }

  lemma FlattenThree(a: seq<EnvVar>, b: seq<EnvVar>, c: seq<EnvVar>)
    ensures EnvVars.Flatten([a, b, c]) == a + b + c
  {
    assert [a, b, c][..2] == [a, b] && [a, b][..1] == [a] && [a][..0] == [];
    assert EnvVars.Flatten([a]) == a;
    assert EnvVars.Flatten([a, b]) == a + b;
  }

  // What the built object promises.

  lemma LabelsLayered(name: string, game: string, appId: int)
    ensures AppLabelsSay(StatefulSetLabels(name, game, appId), name, game, appId)
    ensures LabelsSay(BaseLabels(name, game), name, game)
  {
    Decimal.ParseText(appId);
    assert StatefulSetLabels(name, game, appId) - {"boilerr.dev/app-id"} == BaseLabels(name, game);
  }

  lemma InterpolatedFills(raw: seq<string>, values: map<string, string>)
    ensures ArgsFilled(raw, values, match Templates.Interpolated(raw, values) case None => raw case Some(args) => args)
  {
    if Templates.Interpolated(raw, values).None? {
      var i :| 0 <= i < |raw| && Templates.Parse(raw[i]).None?;
      assert Templates.Interpolate(raw[i], values).None?;
    }
  }

  lemma ArgsAreLayered(b: StatefulSetBuilder)
    ensures ArgsLayered(b.spec, b.def, b.InterpolatedArgs(ResolvedValues(b.spec.config, b.GetSchema())))
  {
    var values := ResolvedValues(b.spec.config, b.GetSchema());
    ResolvesIff(b.spec.config, b.GetSchema(), values);
    InterpolatedFills(b.GetArgs(), values);
    assert ArgsFilled(b.GetArgs(), values, b.InterpolatedArgs(values));
  }

  lemma InstallIsLayered(b: StatefulSetBuilder)
    ensures InstallLayered(b.spec, b.def, b.GetAppId(), b.InitContainer())
  {
    SteamCmd.DecodeBuilt(b.SteamCmdConfig());
    Decimal.ParseText(b.GetAppId());
    var env := b.InitEnv();
    assert env[0] == EnvVar("APP_ID", Decimal.Text(b.GetAppId()), None);
  }

  lemma MainIsLayered(b: StatefulSetBuilder, order: seq<string>)
    requires Enumerates(order, b.spec.config.Keys)
    ensures MainLayered(b.spec, b.def, b.MainContainer(order))
  {
    ArgsAreLayered(b);
    PortsAreOpen(b.GetPorts());
    EnvIsLayered(b, order);
    MadeOf(b, order, b.MainContainer(order));
  }

  lemma PortsAreOpen(ports: seq<ServerPort>)
    ensures PortsOpen(ports, ContainerPorts(ports))
  {
  }

  lemma EnvIsLayered(b: StatefulSetBuilder, order: seq<string>)
    requires Enumerates(order, b.spec.config.Keys)
    ensures EnvLayered(b.spec, b.def, SecretEnvs.ContainerEnv(b.BaseEnv(), b.spec.config, order))
  {
    SecretEnvs.ContainerEnvLayered(if b.def.Some? then b.def.value.env else [], b.spec.env, b.spec.config, order);
  }

  lemma MadeOf(b: StatefulSetBuilder, order: seq<string>, c: Container)
    requires c == b.MainContainer(order)
    ensures c.name == "gameserver" && c.command == b.GetCommand() && c.resources == b.GetResources()
    ensures c.args == b.InterpolatedArgs(ResolvedValues(b.spec.config, b.GetSchema()))
    ensures c.ports == ContainerPorts(b.GetPorts())
    ensures c.env == SecretEnvs.ContainerEnv(b.BaseEnv(), b.spec.config, order)
  {
  }

  lemma FilesAreMounted(b: StatefulSetBuilder, order: seq<string>)
    ensures FilesMounted(b.name, b.spec.configFiles, b.Desired(order))
  {
  }

  /** For every walk the built object takes each field from where it comes first. */
  lemma DesiredLayered(b: StatefulSetBuilder, order: seq<string>)
    requires Enumerates(order, b.spec.config.Keys)
    ensures Layered(b.name, b.spec, b.def, b.Desired(order))
  {
    LabelsLayered(b.name, b.spec.gameDefinition, b.GetAppId());
    InstallIsLayered(b);
    MainIsLayered(b, order);
    FilesAreMounted(b, order);
  }

  /** What the server sets itself comes out the same under any two definitions. */
  lemma ServerFieldsWin(name: string, spec: SteamServerSpec, def: Option<GameDefinitionSpec>,
                        other: Option<GameDefinitionSpec>, a: StatefulSetSpec, b: StatefulSetSpec)
    requires Layered(name, spec, def, a) && Layered(name, spec, other, b)
    ensures spec.image != "" ==>
              a.initContainer.image == b.initContainer.image == a.mainContainer.image == b.mainContainer.image
              == spec.image
    ensures spec.appId.Some? ==> AppLabelsSay(a.podLabels, name, spec.gameDefinition, spec.appId.value)
                                 && AppLabelsSay(b.podLabels, name, spec.gameDefinition, spec.appId.value)
    ensures SameOwnFields(spec, a.mainContainer, b.mainContainer)
    ensures a.initContainer.env[1..] == b.initContainer.env[1..]
    ensures a.volumes == b.volumes && a.mainContainer.volumeMounts == b.mainContainer.volumeMounts
  {
    FieldsOfMainWin(spec, def, other, a.mainContainer, b.mainContainer);
    SameMounts(name, spec.configFiles, a, b);
  }

  /** What a server sets for the game's container itself is in both of two containers. */
  ghost predicate SameOwnFields(spec: SteamServerSpec, a: Container, b: Container) {
    && (spec.command != [] ==> a.command == b.command == spec.command)
    && (spec.resources.Some? ==> a.resources == b.resources == spec.resources.value)
    && (spec.ports != [] ==> a.ports == b.ports && PortsOpen(spec.ports, a.ports))
    && (spec.args != [] && NoPlaceholders(spec.args) ==> a.args == b.args == spec.args)
    && (forall i :: SecretEnvs.Stands(spec.env, i) && !SecretEnvs.SecretNamed(spec.config, spec.env[i].name) ==>
          spec.env[i] in a.env && spec.env[i] in b.env)
  }

  lemma FieldsOfMainWin(spec: SteamServerSpec, def: Option<GameDefinitionSpec>, other: Option<GameDefinitionSpec>,
                        a: Container, b: Container)
    requires MainLayered(spec, def, a) && MainLayered(spec, other, b)
    ensures SameOwnFields(spec, a, b)
  {
    if spec.ports != [] {
      SameOpen(spec.ports, a.ports, b.ports);
    }
    if spec.args != [] && NoPlaceholders(spec.args) {
      PlainArgsStay(spec, def, a.args);
      PlainArgsStay(spec, other, b.args);
    }
  }

  lemma SameOpen(ports: seq<ServerPort>, a: seq<ContainerPort>, b: seq<ContainerPort>)
    requires PortsOpen(ports, a) && PortsOpen(ports, b)
    ensures a == b
  {
    forall i | 0 <= i < |a| ensures a[i] == b[i] {
      assert a[i].name == b[i].name && a[i].protocol == b[i].protocol;
    }
  }

  lemma SameMounts(name: string, files: seq<ConfigFile>, a: StatefulSetSpec, b: StatefulSetSpec)
    requires FilesMounted(name, files, a) && FilesMounted(name, files, b)
    ensures a.volumes == b.volumes && a.mainContainer.volumeMounts == b.mainContainer.volumeMounts
  {
    var m, n := a.mainContainer.volumeMounts, b.mainContainer.volumeMounts;
    forall i | 0 <= i < |m| ensures m[i] == n[i] {
      if i > 0 {
        var j: nat := i - 1;
        assert files[j].path == m[j + 1].mountPath == n[j + 1].mountPath;
      }
    }
  }

  ghost predicate NoPlaceholders(args: seq<string>) {
    forall i :: 0 <= i < |args| ==> Literal(args[i])
  }

  ghost predicate Literal(arg: string) {
    forall k :: 0 <= k < |arg| - 1 ==> !(arg[k] == '{' && arg[k + 1] == '{')
  }

  lemma PlainArgsStay(spec: SteamServerSpec, def: Option<GameDefinitionSpec>, args: seq<string>)
    requires ArgsLayered(spec, def, args) && spec.args != [] && NoPlaceholders(spec.args)
    ensures args == spec.args
  {
    var schema := if def.Some? && def.value.configSchema.Some? then def.value.configSchema.value else map[];
    var values :| Resolves(spec.config, schema, values) && ArgsFilled(spec.args, values, args);
    forall i | 0 <= i < |args| ensures args[i] == spec.args[i] {
      assert Literal(spec.args[i]);
      Templates.LiteralStays(spec.args[i], values);
    }
  }

  /** End to end: an argument that is one placeholder reaches the container as what the user
      wrote for it, whether the argument is the server's or the definition's. */
  lemma UserValueArrives(b: StatefulSetBuilder, order: seq<string>, key: string)
    requires Templates.IsIdentifier(key)
    requires (if b.spec.args != [] then b.spec.args else if b.def.Some? then b.def.value.args else [])
             == ["{{.Config." + key + "}}"]
    requires key in b.spec.config && b.spec.config[key].secretKeyRef.None?
    ensures b.Desired(order).mainContainer.args == [b.spec.config[key].value]
  {
    ArgsAreLayered(b);
    MadeOf(b, order, b.MainContainer(order));
    UserValueFills(b.spec, b.def, b.MainContainer(order).args, key);
  }

  lemma UserValueFills(spec: SteamServerSpec, def: Option<GameDefinitionSpec>, args: seq<string>, key: string)
    requires ArgsLayered(spec, def, args) && Templates.IsIdentifier(key)
    requires (if spec.args != [] then spec.args else if def.Some? then def.value.args else [])
             == ["{{.Config." + key + "}}"]
    requires key in spec.config && spec.config[key].secretKeyRef.None?
    ensures args == [spec.config[key].value]
  {
    var schema := if def.Some? && def.value.configSchema.Some? then def.value.configSchema.value else map[];
    var raw := ["{{.Config." + key + "}}"];
    var values :| Resolves(spec.config, schema, values) && ArgsFilled(raw, values, args);
    OnePlaceholder(key, values);
    OneArgFilled(raw[0], values[key], values, args);
  }

  /** The sample's argument, spelled out. */
  lemma ServerNameArrives(b: StatefulSetBuilder, order: seq<string>)
    requires b.spec.args == ["{{.Config.serverName}}"]
    requires "serverName" in b.spec.config && b.spec.config["serverName"].secretKeyRef.None?
    ensures b.Desired(order).mainContainer.args == [b.spec.config["serverName"].value]
  {
    assert "{{.Config." + "serverName" + "}}" == "{{.Config.serverName}}";
    UserValueArrives(b, order, "serverName");
  }

  /** One placeholder of a key with a dash, even one that has a value, and no argument at all is
      filled: the container gets the raw list. */
  lemma DashedKeyLeavesArgsRaw(b: StatefulSetBuilder, order: seq<string>, i: nat, text: string, before: string,
                               after: string, tail: string)
    requires i < |b.GetArgs()| && b.GetArgs()[i] == text + ("{{.Config." + before + "-" + after + "}}" + tail)
    requires Templates.PlainText(text) && Templates.IsIdentifier(before)
    requires forall j :: 0 <= j < |after| ==> after[j] != '}'
    ensures b.Desired(order).mainContainer.args
         == if b.spec.args != [] then b.spec.args else if b.def.Some? then b.def.value.args else []
  {
    var values := ResolvedValues(b.spec.config, b.GetSchema());
    Templates.DashedKeyFails(text, before, after, tail, values);
    assert Templates.Parse(b.GetArgs()[i]).None?;
  }

  lemma OneArgFilled(raw: string, value: string, values: map<string, string>, args: seq<string>)
    requires ArgsFilled([raw], values, args) && Templates.Interpolate(raw, values) == Some(value)
    ensures args == [value]
  {
    assert [raw][0] == raw;
  }

  lemma OnePlaceholder(key: string, values: map<string, string>)
    requires Templates.IsIdentifier(key) && key in values
    ensures Templates.Interpolate("{{.Config." + key + "}}", values) == Some(values[key])
  {
    Templates.SubstitutionIsNotRescanned("", key, "", values);
    Templates.LiteralStays("", values);
    var arg := "{{.Config." + key + "}}";
    assert "" + (arg + "") == arg;
    assert "" + (values[key] + "") == values[key];
  }

  lemma ConfigKeyInjective(i: nat, j: nat)
    requires ConfigKey(i) == ConfigKey(j)
    ensures i == j
  {
    assert ConfigKey(i)[7..] == Decimal.Text(i) && ConfigKey(j)[7..] == Decimal.Text(j);
    Decimal.TextInjective(i, j);
  }

  /** The data of a server's ConfigMap: the i-th file's content under the i-th key. */
  function ConfigData(files: seq<ConfigFile>): map<string, string> {
    if files == [] then map[]
    else ConfigData(files[..|files| - 1])[ConfigKey(|files| - 1) := files[|files| - 1].content]
  }

  /** The labels of the ConfigMap leave the game out when there is none. */
  function CommonLabels(server: string, game: string): map<string, string> {
    var labels := map[NAME_LABEL := "steamserver", INSTANCE_LABEL := server, MANAGED_BY_LABEL := "boilerr"];
    if game != "" then labels[GAME_LABEL := game] else labels
  }

  /** Walking the config map in two orders gives the same object up to the order of the
      secret entries of the main container, as long as colliding keys agree. */
  lemma BuildUpToOrder(b: StatefulSetBuilder, order: seq<string>, other: seq<string>)
    requires Enumerates(order, b.spec.config.Keys) && Enumerates(other, b.spec.config.Keys)
    requires SecretEnvs.CollisionsAgree(b.spec.config)
    ensures SameUpToEnvOrder(b.Desired(order), b.Desired(other))
  {
    SecretEnvs.MultisetOfContainerEnv(b.BaseEnv(), b.spec.config, order, other);
  }

  ghost predicate SameUpToEnvOrder(a: StatefulSetSpec, b: StatefulSetSpec) {
    && multiset(a.mainContainer.env) == multiset(b.mainContainer.env)
    && a.(mainContainer := a.mainContainer.(env := b.mainContainer.env)) == b
  }

  /** The whole object is walk-independent exactly when the environment list is. */
  lemma BuildIndependentOfOrderIff(b: StatefulSetBuilder)
    ensures SecretEnvs.CollisionsAgree(b.spec.config) && SecretEnvs.AtMostOneNewName(b.BaseEnv(), b.spec.config) <==>
            forall order, other | Enumerates(order, b.spec.config.Keys) && Enumerates(other, b.spec.config.Keys) ::
              b.Desired(order) == b.Desired(other)
  {
    SecretEnvs.EnvListIndependentOfOrderIff(b.BaseEnv(), b.spec.config);
    if forall order, other | Enumerates(order, b.spec.config.Keys) && Enumerates(other, b.spec.config.Keys) ::
         b.Desired(order) == b.Desired(other)
    {
      forall order, other | Enumerates(order, b.spec.config.Keys) && Enumerates(other, b.spec.config.Keys)
        ensures SecretEnvs.ContainerEnv(b.BaseEnv(), b.spec.config, order)
            == SecretEnvs.ContainerEnv(b.BaseEnv(), b.spec.config, other)
      {
        assert b.Desired(order) == b.Desired(other);
      }
    }
  }

  /** Either every argument is interpolated or the container gets the raw list. */
  lemma ArgsAllOrNothing(b: StatefulSetBuilder, order: seq<string>)
    ensures var raw, args, values := b.GetArgs(), b.Desired(order).mainContainer.args,
        ResolvedValues(b.spec.config, b.GetSchema());
            && |args| == |raw|
            && ((forall i :: 0 <= i < |raw| ==> Templates.Interpolate(raw[i], values) == Some(args[i]))
                || (args == raw && exists i :: 0 <= i < |raw| && Templates.Parse(raw[i]).None?))
  {
  }

  /** Arguments that only name resolved keys are filled with exactly their values: no
      placeholder shows a missing one. */
  lemma PlaceholdersResolve(b: StatefulSetBuilder, order: seq<string>, i: int)
    requires 0 <= i < |b.GetArgs()|
    requires Templates.Interpolated(b.GetArgs(), ResolvedValues(b.spec.config, b.GetSchema())).Some?
    requires Templates.FieldsOf(Templates.Parse(b.GetArgs()[i]).value) <= ResolvedKeys(b.spec.config, b.GetSchema())
    ensures b.Desired(order).mainContainer.args[i]
         == Templates.Filled(Templates.Parse(b.GetArgs()[i]).value, ResolvedValues(b.spec.config, b.GetSchema()))
  {
    Templates.ExecuteFills(Templates.Parse(b.GetArgs()[i]).value, ResolvedValues(b.spec.config, b.GetSchema()));
  }

  /** The i-th mount of the config volume reads the key that holds the i-th file. */
  lemma MountsMatchConfigMap(b: StatefulSetBuilder, order: seq<string>, i: int)
    requires 0 <= i < |b.spec.configFiles|
    ensures var mounts := b.Desired(order).mainContainer.volumeMounts;
            && |mounts| == 1 + |b.spec.configFiles|
            && mounts[i + 1].mountPath == b.spec.configFiles[i].path
            && mounts[i + 1].subPath in ConfigData(b.spec.configFiles)
            && ConfigData(b.spec.configFiles)[mounts[i + 1].subPath] == b.spec.configFiles[i].content
            && (forall j :: 0 < j < |mounts| && j != i + 1 ==> mounts[j].subPath != mounts[i + 1].subPath)
            && ConfigMapVolume(mounts[i + 1].name, ConfigMapName(b.name)) in b.Desired(order).volumes
  {
    ConfigDataAt(b.spec.configFiles, i);
    assert b.Volumes()[1] == ConfigMapVolume(CONFIG_FILES_VOLUME, ConfigMapName(b.name));
    forall j: nat | j < |b.spec.configFiles| && j != i ensures ConfigKey(j) != ConfigKey(i) {
      if ConfigKey(j) == ConfigKey(i) {
        ConfigKeyInjective(i, j);
      }
    }
  }

  lemma {:induction false} ConfigDataAt(files: seq<ConfigFile>, i: int)
    requires 0 <= i < |files|
    ensures ConfigKey(i) in ConfigData(files) && ConfigData(files)[ConfigKey(i)] == files[i].content
  {
    if i == |files| - 1 {
    } else {
      ConfigDataAt(files[..|files| - 1], i);
      if ConfigKey(i) == ConfigKey(|files| - 1) {
        ConfigKeyInjective(i, |files| - 1);
      }
    }
  }

  lemma {:induction false} ConfigDataKeys(files: seq<ConfigFile>, key: string)
    ensures key in ConfigData(files) <==> exists i: nat :: i < |files| && ConfigKey(i) == key
  {
    if files == [] {
    } else {
      ConfigDataKeys(files[..|files| - 1], key);
    }
  }
}
