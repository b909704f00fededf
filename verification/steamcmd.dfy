// SteamCMD argument lists: the builder that grows the list, and a reader that
// recovers every effective setting from it.
module SteamCmd {
  import opened Api
  import Decimal

  const DEFAULT_INSTALL_DIR := "/data/server"

  datatype CommandConfig = CommandConfig(
    appId: int, installDir: string, anonymous: bool, beta: string, betaPassword: string, validate: bool)

  /** What a configuration asks for once its defaults are applied: an empty
      directory is the default one, and a beta password without a branch is inert. */
  datatype Settings = Settings(
    installDir: string, anonymous: bool, appId: int, beta: Option<string>, betaPassword: bool, validate: bool)

  function Effective(config: CommandConfig): Settings {
    Settings(
      if config.installDir == "" then DEFAULT_INSTALL_DIR else config.installDir,
      config.anonymous,
      config.appId,
      if config.beta == "" then None else Some(config.beta),
      config.beta != "" && config.betaPassword != "",
      config.validate)
  }

  predicate RequiresCredentials(config: CommandConfig) { !config.anonymous }

  predicate RequiresBetaPassword(config: CommandConfig) { config.beta != "" && config.betaPassword != "" }

  function LoginArgs(anonymous: bool): seq<string> {
    if anonymous then ["+login", "anonymous"] else ["+login", "$STEAM_USERNAME", "$STEAM_PASSWORD"]
  }

  function BetaArgs(beta: string, betaPassword: string): seq<string> {
    if beta == "" then []
    else if betaPassword == "" then ["-beta", beta]
    else ["-beta", beta, "-betapassword", "$STEAM_BETA_PASSWORD"]
  }

  function CommandArgs(config: CommandConfig): seq<string> {
    ["+force_install_dir", if config.installDir == "" then DEFAULT_INSTALL_DIR else config.installDir]
    + LoginArgs(config.anonymous)
    + ["+app_update", Decimal.Text(config.appId)]
    + BetaArgs(config.beta, config.betaPassword)
    + (if config.validate then ["validate"] else [])
    + ["+quit"]
  }

  lemma BetaAppended(front: seq<string>, beta: string)
    ensures front + ["-beta", beta] + ["-betapassword", "$STEAM_BETA_PASSWORD"]
         == front + ["-beta", beta, "-betapassword", "$STEAM_BETA_PASSWORD"]
  {
  }

  lemma NothingAppended(front: seq<string>)
    ensures front + [] == front && [] + front == front
  {
  }

  method Build(config: CommandConfig) returns (args: seq<string>)
    ensures args == CommandArgs(config)
  {
    args := [];
    var installDir := config.installDir;
    if installDir == "" {
      installDir := DEFAULT_INSTALL_DIR;
    }
    NothingAppended(["+force_install_dir", installDir]);
    args := args + ["+force_install_dir", installDir];
    if config.anonymous {
      args := args + ["+login", "anonymous"];
    } else {
      args := args + ["+login", "$STEAM_USERNAME", "$STEAM_PASSWORD"];
    }
    args := args + ["+app_update", Decimal.Text(config.appId)];
    ghost var front := args;
    NothingAppended(front);
    if config.beta != "" {
      args := args + ["-beta", config.beta];
      if config.betaPassword != "" {
        BetaAppended(front, config.beta);
        args := args + ["-betapassword", "$STEAM_BETA_PASSWORD"];
      }
    }
    front := args;
    NothingAppended(front);
    if config.validate {
      args := args + ["validate"];
    }
    args := args + ["+quit"];
  }

  // Reading a list back, front to back.

  /** The part after the app id: an optional branch, an optional password, an optional validate. */
  function DecodeTail(tail: seq<string>): Option<(Option<string>, bool, bool)> {
    if tail == ["+quit"] then Some((None, false, false))
    else if tail == ["validate", "+quit"] then Some((None, false, true))
    else if |tail| < 3 || tail[0] != "-beta" then None
    else if tail[2..] == ["+quit"] then Some((Some(tail[1]), false, false))
    else if tail[2..] == ["validate", "+quit"] then Some((Some(tail[1]), false, true))
    else if tail[2..] == ["-betapassword", "$STEAM_BETA_PASSWORD", "+quit"] then Some((Some(tail[1]), true, false))
    else if tail[2..] == ["-betapassword", "$STEAM_BETA_PASSWORD", "validate", "+quit"] then
      Some((Some(tail[1]), true, true))
    else None
  }

  function DecodeUpdate(installDir: string, anonymous: bool, rest: seq<string>): Option<Settings> {
    if |rest| < 2 || rest[0] != "+app_update" then None
    else
      match (Decimal.Parse(rest[1]), DecodeTail(rest[2..]))
      case (Some(appId), Some((beta, password, validate))) =>
        Some(Settings(installDir, anonymous, appId, beta, password, validate))
      case _ => None
  }

  function Decode(args: seq<string>): Option<Settings> {
    if |args| < 5 || args[0] != "+force_install_dir" || args[2] != "+login" then None
    else if args[3] == "anonymous" then DecodeUpdate(args[1], true, args[4..])
    else if args[3] == "$STEAM_USERNAME" && args[4] == "$STEAM_PASSWORD" then DecodeUpdate(args[1], false, args[5..])
    else None
  }

  lemma DecodeBuiltTail(config: CommandConfig)
    ensures DecodeTail(BetaArgs(config.beta, config.betaPassword) + (if config.validate then ["validate"] else [])
        + ["+quit"])
         == Some((Effective(config).beta, Effective(config).betaPassword, config.validate))
  {
    var end := (if config.validate then ["validate"] else []) + ["+quit"];
    var beta := BetaArgs(config.beta, config.betaPassword);
    assert beta + (if config.validate then ["validate"] else []) + ["+quit"] == beta + end;
    if beta != [] {
      assert (beta + end)[2..] == beta[2..] + end;
    }
  }

  /** Every list the builder makes reads back as the effective settings it was made from. */
  lemma DecodeBuilt(config: CommandConfig)
    ensures Decode(CommandArgs(config)) == Some(Effective(config))
    ensures config.installDir == "" ==> Effective(config).installDir == "/data/server"
  {
    var args := CommandArgs(config);
    var tail := BetaArgs(config.beta, config.betaPassword) + (if config.validate then ["validate"] else []) + ["+quit"];
    var rest := ["+app_update", Decimal.Text(config.appId)] + tail;
    assert args == args[..2] + LoginArgs(config.anonymous) + rest;
    assert rest[2..] == tail;
    DecodeBuiltTail(config);
    Decimal.ParseText(config.appId);
    if config.anonymous {
      assert args[4..] == rest;
    } else {
      assert args[5..] == rest;
    }
  }

  /** The two questions about a configuration are answered by its list. */
  lemma RequirementsShow(config: CommandConfig)
    ensures var read := Decode(CommandArgs(config));
            && read.Some?
            && (RequiresCredentials(config) <==> !read.value.anonymous)
            && (RequiresBetaPassword(config) <==> read.value.betaPassword)
  {
    DecodeBuilt(config);
  }

  lemma SameArgsSameSettings(a: CommandConfig, b: CommandConfig)
    ensures CommandArgs(a) == CommandArgs(b) <==> Effective(a) == Effective(b)
  {
    DecodeBuilt(a);
    DecodeBuilt(b);
  }
}
