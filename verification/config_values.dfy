// Config values: validation against a schema, resolution to strings, and the
// environment entries that carry the secret-backed ones.
module ConfigValues {
  import opened Api
  import opened Enumeration

  type Config = map<string, ConfigValue>
  type Schema = map<string, ConfigSchemaEntry>

  // Names of the generated environment variables.

  function UpperChar(c: char): char {
    if 'a' <= c <= 'z' then (c - 'a') + 'A' else c
  }

  function EnvChar(c: char): char {
    if c == '-' then '_' else UpperChar(c)
  }

  function MangledText(key: string): (s: string)
    ensures |s| == |key|
  {
    seq(|key|, i requires 0 <= i < |key| => EnvChar(key[i]))
  }

  function EnvName(key: string): string {
    "CONFIG_" + MangledText(key)
  }

  /** Two characters that a generated name cannot tell apart. */
  predicate Alike(c: char, d: char) {
    || c == d
    || (c in ['-', '_'] && d in ['-', '_'])
    || ('a' <= c <= 'z' && d as int == c as int - 32)
    || ('a' <= d <= 'z' && c as int == d as int - 32)
  }

  /** Exactly the keys that differ only in the case of letters, and in dashes for underscores,
      get the same name. */
  lemma SameNameIff(a: string, b: string)
    ensures EnvName(a) == EnvName(b) <==> |a| == |b| && forall i :: 0 <= i < |a| ==> Alike(a[i], b[i])
  {
    assert EnvName(a)[7..] == MangledText(a) && EnvName(b)[7..] == MangledText(b);
    if MangledText(a) == MangledText(b) {
      forall i | 0 <= i < |a| ensures Alike(a[i], b[i]) {
        assert MangledText(a)[i] == MangledText(b)[i];
      }
    }
  }

  /** A generated name is spelled in capitals and has no dashes. */
  lemma NameSpelled(key: string, i: int)
    requires 0 <= i < |key|
    ensures |EnvName(key)| == 7 + |key| && EnvName(key)[..7] == "CONFIG_"
    ensures var c := EnvName(key)[7 + i];
            c != '-' && !('a' <= c <= 'z') && Alike(c, key[i]) && (key[i] == '-' ==> c == '_')
  {
    assert EnvName(key)[7 + i] == MangledText(key)[i];
  }

  function Reference(name: string): string {
    "$(" + name + ")"
  }

  // Resolution.

  predicate IsSecret(config: Config, key: string) {
    key in config && config[key].secretKeyRef.Some?
  }

  function SecretEntry(config: Config, key: string): EnvVar
    requires IsSecret(config, key)
  {
    EnvVar(EnvName(key), "", Some(SecretKeyRef(config[key].secretKeyRef.value)))
  }

  /** The secret-backed keys of a walk, as environment entries. */
  function SecretEnv(config: Config, order: seq<string>): (envs: seq<EnvVar>)
  {
    if order == [] then []
    else
      var before, key := SecretEnv(config, order[..|order| - 1]), order[|order| - 1];
      if IsSecret(config, key) then before + [SecretEntry(config, key)] else before
  }

  function ResolvedKeys(config: Config, schema: Schema): set<string> {
    config.Keys + set k | k in schema && schema[k].default != ""
  }

  function ResolvedValue(config: Config, schema: Schema, key: string): string
    requires key in ResolvedKeys(config, schema)
  {
    if key in config then LiteralOrReference(config, key) else schema[key].default
  }

  function ResolvedValues(config: Config, schema: Schema): map<string, string> {
    map k | k in ResolvedKeys(config, schema) :: ResolvedValue(config, schema, k)
  }

  /** What the resolved values are: what the user wrote, even when it is empty, a reference in
      place of a secret, and else the schema's default if it has one. */
  ghost predicate Resolves(config: Config, schema: Schema, values: map<string, string>) {
    && (forall k :: k in config && config[k].secretKeyRef.None? ==> k in values && values[k] == config[k].value)
    && (forall k :: k in config && config[k].secretKeyRef.Some? ==>
          k in values && values[k] == "$(" + EnvName(k) + ")")
    && (forall k :: k !in config && k in schema && schema[k].default != "" ==>
          k in values && values[k] == schema[k].default)
    && (forall k :: k in values ==> k in config || (k in schema && schema[k].default != ""))
  }

  lemma ResolvesIff(config: Config, schema: Schema, values: map<string, string>)
    ensures Resolves(config, schema, values) <==> values == ResolvedValues(config, schema)
  {
    if Resolves(config, schema, values) {
      assert values.Keys == ResolvedKeys(config, schema);
    }
  }

  /** The non-empty defaults of the keys walked so far. */
  function DefaultsOf(schema: Schema, walked: seq<string>): map<string, string> {
    map k | k in walked && k in schema && schema[k].default != "" :: schema[k].default
  }

  function LiteralOrReference(config: Config, key: string): string
    requires key in config
  {
    if config[key].secretKeyRef.Some? then Reference(EnvName(key)) else config[key].value
  }

  /** The user's values of the keys walked so far. */
  function OverridesOf(config: Config, walked: seq<string>): map<string, string> {
    map k | k in walked && k in config :: LiteralOrReference(config, k)
  }

  lemma OverridesExtended(config: Config, walked: seq<string>, key: string, under: map<string, string>)
    requires key in config
    ensures under + OverridesOf(config, walked + [key])
         == (under + OverridesOf(config, walked))[key := LiteralOrReference(config, key)]
    ensures SecretEnv(config, walked + [key])
         == SecretEnv(config, walked) + (if IsSecret(config, key) then [SecretEntry(config, key)] else [])
  {
    assert (walked + [key])[..|walked|] == walked;
  }

  lemma DefaultsExtended(schema: Schema, walked: seq<string>, key: string)
    requires key in schema
    ensures DefaultsOf(schema, walked + [key])
         == if schema[key].default != "" then DefaultsOf(schema, walked)[key := schema[key].default]
             else DefaultsOf(schema, walked)
  {
  }

  lemma OneMoreDefault(schema: Schema, order: seq<string>, i: nat)
    requires i < |order| && order[i] in schema
    ensures var before, key := DefaultsOf(schema, order[..i]), order[i];
            DefaultsOf(schema, order[..i + 1])
            == if schema[key].default != "" then before[key := schema[key].default] else before
  {
    DefaultsExtended(schema, order[..i], order[i]);
    assert order[..i] + [order[i]] == order[..i + 1];
  }

  lemma OneMoreOverride(config: Config, order: seq<string>, i: nat, under: map<string, string>)
    requires i < |order| && order[i] in config
    ensures under + OverridesOf(config, order[..i + 1])
         == (under + OverridesOf(config, order[..i]))[order[i] := LiteralOrReference(config, order[i])]
    ensures SecretEnv(config, order[..i + 1])
         == SecretEnv(config, order[..i]) + (if IsSecret(config, order[i]) then [SecretEntry(config, order[i])] else [])
  {
    OverridesExtended(config, order[..i], order[i], under);
    assert order[..i] + [order[i]] == order[..i + 1];
  }

  lemma OverlayIsResolved(config: Config, schema: Schema, schemaOrder: seq<string>, configOrder: seq<string>)
    requires Enumerates(schemaOrder, schema.Keys)
    requires Enumerates(configOrder, config.Keys)
    ensures DefaultsOf(schema, schemaOrder) + OverridesOf(config, configOrder) == ResolvedValues(config, schema)
  {
  }

  method ResolveConfigValues(config: Config, schema: Schema, schemaOrder: seq<string>, configOrder: seq<string>)
    returns (values: map<string, string>, envVars: seq<EnvVar>)
    requires Enumerates(schemaOrder, schema.Keys)
    requires Enumerates(configOrder, config.Keys)
    ensures Resolves(config, schema, values) && values == ResolvedValues(config, schema)
    ensures envVars == SecretEnv(config, configOrder)
  {
    ResolvesIff(config, schema, ResolvedValues(config, schema));
    values := map[];
    envVars := [];
    for i := 0 to |schemaOrder|
      invariant values == DefaultsOf(schema, schemaOrder[..i])
    {
      var key := schemaOrder[i];
      assert key in schemaOrder;
      OneMoreDefault(schema, schemaOrder, i);
      if schema[key].default != "" {
        values := values[key := schema[key].default];
      }
    }
    assert schemaOrder[..|schemaOrder|] == schemaOrder;
    ghost var defaults := values;
    for i := 0 to |configOrder|
      invariant values == defaults + OverridesOf(config, configOrder[..i])
      invariant envVars == SecretEnv(config, configOrder[..i])
    {
      var key := configOrder[i];
      assert key in configOrder;
      OneMoreOverride(config, configOrder, i, defaults);
      var cv := config[key];
      if cv.secretKeyRef.Some? {
        var envName := EnvName(key);
        envVars := envVars + [EnvVar(envName, "", Some(SecretKeyRef(cv.secretKeyRef.value)))];
        values := values[key := "$(" + envName + ")"];
      } else {
        values := values[key := cv.value];
      }
    }
    assert configOrder[..|configOrder|] == configOrder;
    OverlayIsResolved(config, schema, schemaOrder, configOrder);
  }

  // Validation.

  datatype ConfigError =
    | Missing(key: string) | EmptyRequired(key: string) | Unknown(key: string) | NotAllowed(key: string)

  /** Why a config is refused, each reason by what it says about the config and the schema. */
  predicate Refuted(config: Config, schema: Schema, error: ConfigError) {
    match error
    case Missing(k) => k in schema && schema[k].required && k !in config
    case EmptyRequired(k) =>
      k in schema && schema[k].required && k in config && config[k].value == "" && config[k].secretKeyRef.None?
    case Unknown(k) => k in config && k !in schema
    case NotAllowed(k) =>
      k in config && k in schema && schema[k].enum != [] && config[k].value != "" && config[k].value !in schema[k].enum
  }

  predicate Accepted(config: Config, schema: Schema) {
    && (forall k :: k in schema && schema[k].required ==>
          k in config && (config[k].value != "" || config[k].secretKeyRef.Some?))
    && (forall k :: k in config ==> k in schema)
    && (forall k :: k in config && k in schema && schema[k].enum != [] && config[k].value != "" ==>
          config[k].value in schema[k].enum)
  }

  lemma AcceptedIffNotRefuted(config: Config, schema: Schema)
    ensures Accepted(config, schema) <==> forall error :: !Refuted(config, schema, error)
  {
    if forall error :: !Refuted(config, schema, error) {
      forall k | k in schema && schema[k].required
        ensures k in config && (config[k].value != "" || config[k].secretKeyRef.Some?)
      {
        assert !Refuted(config, schema, Missing(k)) && !Refuted(config, schema, EmptyRequired(k));
      }
      forall k | k in config ensures k in schema {
        assert !Refuted(config, schema, Unknown(k)) && !Refuted(config, schema, NotAllowed(k));
      }
      assert forall k :: k in config && k in schema ==> !Refuted(config, schema, NotAllowed(k));
    }
  }

  /** Whatever the three walks, the result is an error exactly when the config is
      not acceptable, and an error that is reported is a true one. */
  method ValidateConfig(config: Config, schema: Schema,
                        requiredOrder: seq<string>, unknownOrder: seq<string>, enumOrder: seq<string>)
    returns (error: Option<ConfigError>)
    requires Enumerates(requiredOrder, schema.Keys)
    requires Enumerates(unknownOrder, config.Keys)
    requires Enumerates(enumOrder, config.Keys)
    ensures error.None? <==> Accepted(config, schema)
    ensures error.Some? ==> Refuted(config, schema, error.value)
  {
    for i := 0 to |requiredOrder|
      invariant forall k :: k in requiredOrder[..i] && schema[k].required ==>
                  k in config && (config[k].value != "" || config[k].secretKeyRef.Some?)
    {
      var key := requiredOrder[i];
      assert key in requiredOrder;
      if schema[key].required {
        if key !in config {
          return Some(Missing(key));
        }
        if config[key].value == "" && config[key].secretKeyRef.None? {
          return Some(EmptyRequired(key));
        }
      }
    }
    assert requiredOrder[..|requiredOrder|] == requiredOrder;
    for i := 0 to |unknownOrder|
      invariant forall k :: k in unknownOrder[..i] ==> k in schema
    {
      assert unknownOrder[i] in unknownOrder;
      if unknownOrder[i] !in schema {
        return Some(Unknown(unknownOrder[i]));
      }
    }
    assert unknownOrder[..|unknownOrder|] == unknownOrder;
    for i := 0 to |enumOrder|
      invariant forall k :: k in enumOrder[..i] && schema[k].enum != [] && config[k].value != "" ==>
                  config[k].value in schema[k].enum
    {
      var key := enumOrder[i];
      assert key in enumOrder;
      var entry, value := schema[key], config[key].value;
      if entry.enum != [] && value != "" {
        var valid := false;
        var a := 0;
        while a < |entry.enum| && !valid
          invariant 0 <= a <= |entry.enum|
          invariant valid <==> value in entry.enum[..a]
        {
          valid := value == entry.enum[a];
          a := a + 1;
        }
        if !valid {
          assert entry.enum[..|entry.enum|] == entry.enum;
          return Some(NotAllowed(key));
        }
      }
    }
    assert enumOrder[..|enumOrder|] == enumOrder;
    return None;
  }

  // What validation buys.

  /** The resolved keys are the user's keys and those with a non-empty default;
      after validation every required one resolves to a non-empty text. */
  lemma RequiredResolveNonEmpty(config: Config, schema: Schema, key: string)
    requires Accepted(config, schema)
    requires key in schema && schema[key].required
    ensures key in ResolvedValues(config, schema) && ResolvedValues(config, schema)[key] != ""
  {
    if IsSecret(config, key) {
      assert Reference(EnvName(key))[0] == '$';
    }
  }

  /** Validation checks the enums of what the user wrote, never those of the schema's
      defaults: the resolved literals are all allowed exactly when the defaults in use are. */
  lemma EnumsOfResolved(config: Config, schema: Schema)
    requires Accepted(config, schema)
    ensures (forall k :: k in ResolvedValues(config, schema) && !IsSecret(config, k) && schema[k].enum != [] &&
                         ResolvedValues(config, schema)[k] != "" ==>
                         ResolvedValues(config, schema)[k] in schema[k].enum)
       <==> (forall k :: k in schema && k !in config && schema[k].default != "" && schema[k].enum != [] ==>
                         schema[k].default in schema[k].enum)
  {
    var values := ResolvedValues(config, schema);
    if forall k :: k in values && !IsSecret(config, k) && schema[k].enum != [] && values[k] != "" ==>
        values[k] in schema[k].enum {
      forall k | k in schema && k !in config && schema[k].default != "" && schema[k].enum != []
        ensures schema[k].default in schema[k].enum
      {
        assert k in values && values[k] == schema[k].default;
      }
    }
  }
}
