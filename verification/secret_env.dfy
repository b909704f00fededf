// What the container finally sees of the secret-backed config values, whatever
// the order in which the config map is walked.
module SecretEnvs {
  import opened Api
  import opened Enumeration
  import opened EnvVars
  import opened ConfigValues

  /** The environment of the main container: the definition's and the user's
      entries first, then the secret-backed config values in walk order. */
  function ContainerEnv(base: seq<EnvVar>, config: Config, order: seq<string>): seq<EnvVar> {
    Merged(base + SecretEnv(config, order))
  }

  lemma {:induction false} SecretEnvMember(config: Config, order: seq<string>, env: EnvVar)
    ensures env in SecretEnv(config, order) <==> exists k ::
        k in order && IsSecret(config, k) && SecretEntry(config, k) == env
  {
    if order == [] {
    } else {
      var front, last := order[..|order| - 1], order[|order| - 1];
      SecretEnvMember(config, front, env);
      assert forall k :: k in order <==> k in front || k == last;
    }
  }

  lemma {:induction false} NamesOfMember(envs: seq<EnvVar>, env: EnvVar)
    requires env in envs
    ensures env.name in Names(envs)
  {
    var i :| 0 <= i < |envs| && envs[i] == env;
    NameAt(envs, i);
  }

  /** The entry that carries a secret's name is the entry of a secret key of that name. */
  lemma CarrierOf(base: seq<EnvVar>, config: Config, order: seq<string>, key: string) returns (carrier: string)
    requires Enumerates(order, config.Keys) && IsSecret(config, key)
    ensures IsSecret(config, carrier) && EnvName(carrier) == EnvName(key)
    ensures EnvName(key) in Names(base + SecretEnv(config, order))
    ensures LastNamed(base + SecretEnv(config, order), EnvName(key)) == SecretEntry(config, carrier)
  {
    var envs, name := SecretEnv(config, order), EnvName(key);
    SecretEnvMember(config, order, SecretEntry(config, key));
    NamesOfMember(envs, SecretEntry(config, key));
    LastOfConcatenation(base, envs, name);
    SecretEnvMember(config, order, LastNamed(envs, name));
    carrier :| carrier in order && IsSecret(config, carrier) && SecretEntry(config, carrier) == LastNamed(envs, name);
  }

  /** For every secret-backed key the resolved value refers to a name N, and whatever
      the other environment lists hold, the container has exactly one entry named N:
      the entry of a secret key whose mangled name is N. */
  lemma SecretReferenceSound(base: seq<EnvVar>, config: Config, schema: Schema, order: seq<string>, key: string)
    requires Enumerates(order, config.Keys) && IsSecret(config, key)
    ensures ResolvedValues(config, schema)[key] == "$(" + EnvName(key) + ")"
    ensures exists i :: 0 <= i < |ContainerEnv(base, config, order)|
                && (exists k :: IsSecret(config, k) && EnvName(k) == EnvName(key)
                      && ContainerEnv(base, config, order)[i] == SecretEntry(config, k))
                && (forall j :: 0 <= j < |ContainerEnv(base, config, order)| && j != i ==>
                      ContainerEnv(base, config, order)[j].name != EnvName(key))
    ensures (forall k :: IsSecret(config, k) && EnvName(k) == EnvName(key) ==>
        config[k].secretKeyRef == config[key].secretKeyRef) ==>
              SecretEntry(config, key) in ContainerEnv(base, config, order)
  {
    var envs := base + SecretEnv(config, order);
    var carrier := CarrierOf(base, config, order, key);
    var i := MergedAt(envs, EnvName(key));
    MergedNamesDistinct(envs);
    assert ContainerEnv(base, config, order)[i] == SecretEntry(config, carrier);
    forall j | 0 <= j < |ContainerEnv(base, config, order)| && j != i
      ensures ContainerEnv(base, config, order)[j].name != EnvName(key)
    {
      assert Merged(envs)[if i < j then i else j].name != Merged(envs)[if i < j then j else i].name;
    }
  }

  // Which of three lists an entry comes from.

  /** An entry that no later one of its list overrides. */
  ghost predicate Stands(envs: seq<EnvVar>, i: int) {
    0 <= i < |envs| && forall j :: i < j < |envs| ==> envs[j].name != envs[i].name
  }

  ghost predicate Lists(envs: seq<EnvVar>, name: string) {
    exists i :: 0 <= i < |envs| && envs[i].name == name
  }

  ghost predicate SecretNamed(config: Config, name: string) {
    exists k :: k in config && config[k].secretKeyRef.Some? && EnvName(k) == name
  }

  /** The entry of a secret whose generated name this is. */
  ghost predicate CarriesSecret(config: Config, e: EnvVar) {
    exists k :: k in config && config[k].secretKeyRef.Some? && EnvName(k) == e.name
                && e == EnvVar(e.name, "", Some(SecretKeyRef(config[k].secretKeyRef.value)))
  }

  /** One entry for each name: that of a secret of this name, else the last that the server
      itself lists, else the last that it inherits. */
  ghost predicate Layered(inherited: seq<EnvVar>, own: seq<EnvVar>, config: Config, env: seq<EnvVar>) {
    && (forall i, j :: 0 <= i < j < |env| ==> env[i].name != env[j].name)
    && (forall e :: e in env ==>
          SecretNamed(config, e.name) || Lists(own, e.name) || Lists(inherited, e.name))
    && (forall i :: Stands(own, i) && !SecretNamed(config, own[i].name) ==> own[i] in env)
    && (forall i ::
          Stands(inherited, i) && !SecretNamed(config, inherited[i].name) && !Lists(own, inherited[i].name) ==>
            inherited[i] in env)
    && (forall e :: e in env && SecretNamed(config, e.name) ==> CarriesSecret(config, e))
    && (forall k :: k in config && config[k].secretKeyRef.Some? ==> Lists(env, EnvName(k)))
  }

  lemma ListsIff(envs: seq<EnvVar>, name: string)
    ensures Lists(envs, name) <==> name in Names(envs)
  {
    if i :| 0 <= i < |envs| && envs[i].name == name {
      NameAt(envs, i);
    }
    if name in Names(envs) {
      var env := LastNamed(envs, name);
      var i :| 0 <= i < |envs| && envs[i] == env;
    }
  }

  lemma {:induction false} StandingIsLast(envs: seq<EnvVar>, i: int)
    requires Stands(envs, i)
    ensures envs[i].name in Names(envs) && LastNamed(envs, envs[i].name) == envs[i]
  {
    if i == |envs| - 1 {
    } else {
      StandingIsLast(envs[..|envs| - 1], i);
    }
  }

  lemma SecretNamedIff(config: Config, order: seq<string>, name: string)
    requires Enumerates(order, config.Keys)
    ensures SecretNamed(config, name) <==> name in Names(SecretEnv(config, order))
  {
    if k :| k in config && config[k].secretKeyRef.Some? && EnvName(k) == name {
      SecretEnvMember(config, order, SecretEntry(config, k));
      NamesOfMember(SecretEnv(config, order), SecretEntry(config, k));
    }
    if name in Names(SecretEnv(config, order)) {
      NameTransfers(config, order, order, name);
    }
  }

  /** Where a name of three lists one after another is listed, and which entry is its last. */
  lemma LastOfThree(inherited: seq<EnvVar>, own: seq<EnvVar>, secrets: seq<EnvVar>, name: string)
    ensures var all := inherited + own + secrets;
            && (name in Names(all) <==> name in Names(inherited) || name in Names(own) || name in Names(secrets))
            && (name in Names(all) ==>
                  LastNamed(all, name)
                  == if name in Names(secrets) then LastNamed(secrets, name)
                     else if name in Names(own) then LastNamed(own, name)
                     else LastNamed(inherited, name))
  {
    NamesOfConcatenation(inherited, own);
    NamesOfConcatenation(inherited + own, secrets);
    if name in Names(inherited + own + secrets) {
      LastOfConcatenation(inherited + own, secrets, name);
      if name !in Names(secrets) {
        LastOfConcatenation(inherited, own, name);
      }
    }
  }

  lemma OwnEntryStays(inherited: seq<EnvVar>, own: seq<EnvVar>, config: Config, order: seq<string>, i: int)
    requires Enumerates(order, config.Keys) && Stands(own, i) && !SecretNamed(config, own[i].name)
    ensures own[i] in ContainerEnv(inherited + own, config, order)
  {
    var secrets := SecretEnv(config, order);
    SecretNamedIff(config, order, own[i].name);
    StandingIsLast(own, i);
    LastOfThree(inherited, own, secrets, own[i].name);
    MergedMember(inherited + own + secrets, own[i]);
  }

  lemma InheritedEntryStays(inherited: seq<EnvVar>, own: seq<EnvVar>, config: Config, order: seq<string>, i: int)
    requires Enumerates(order, config.Keys) && Stands(inherited, i)
    requires !SecretNamed(config, inherited[i].name) && !Lists(own, inherited[i].name)
    ensures inherited[i] in ContainerEnv(inherited + own, config, order)
  {
    var secrets := SecretEnv(config, order);
    SecretNamedIff(config, order, inherited[i].name);
    ListsIff(own, inherited[i].name);
    StandingIsLast(inherited, i);
    LastOfThree(inherited, own, secrets, inherited[i].name);
    MergedMember(inherited + own + secrets, inherited[i]);
  }

  lemma EntryComesFrom(inherited: seq<EnvVar>, own: seq<EnvVar>, config: Config, order: seq<string>, e: EnvVar)
    requires Enumerates(order, config.Keys) && e in ContainerEnv(inherited + own, config, order)
    ensures SecretNamed(config, e.name) || Lists(own, e.name) || Lists(inherited, e.name)
    ensures SecretNamed(config, e.name) ==> CarriesSecret(config, e)
  {
    var secrets := SecretEnv(config, order);
    MergedMember(inherited + own + secrets, e);
    LastOfThree(inherited, own, secrets, e.name);
    ListsIff(own, e.name);
    ListsIff(inherited, e.name);
    SecretNamedIff(config, order, e.name);
    if SecretNamed(config, e.name) {
      SecretEnvMember(config, order, e);
      var k :| k in order && IsSecret(config, k) && SecretEntry(config, k) == e;
    }
  }

  lemma SecretIsListed(base: seq<EnvVar>, config: Config, order: seq<string>, key: string)
    requires Enumerates(order, config.Keys) && IsSecret(config, key)
    ensures Lists(ContainerEnv(base, config, order), EnvName(key))
  {
    var carrier := CarrierOf(base, config, order, key);
    var i := MergedAt(base + SecretEnv(config, order), EnvName(key));
  }

  /** For every walk, each name of the container's environment has one entry, of the first of
      these that has the name: the secrets, the server's list, the definition's list. */
  lemma ContainerEnvLayered(inherited: seq<EnvVar>, own: seq<EnvVar>, config: Config, order: seq<string>)
    requires Enumerates(order, config.Keys)
    ensures Layered(inherited, own, config, ContainerEnv(inherited + own, config, order))
  {
    var env := ContainerEnv(inherited + own, config, order);
    MergedNamesDistinct(inherited + own + SecretEnv(config, order));
    forall e | e in env
      ensures SecretNamed(config, e.name) || Lists(own, e.name) || Lists(inherited, e.name)
      ensures SecretNamed(config, e.name) ==> CarriesSecret(config, e)
    {
      EntryComesFrom(inherited, own, config, order, e);
    }
    forall i | Stands(own, i) && !SecretNamed(config, own[i].name) ensures own[i] in env {
      OwnEntryStays(inherited, own, config, order, i);
    }
    forall i | Stands(inherited, i) && !SecretNamed(config, inherited[i].name) && !Lists(own, inherited[i].name)
      ensures inherited[i] in env
    {
      InheritedEntryStays(inherited, own, config, order, i);
    }
    forall k | k in config && config[k].secretKeyRef.Some? ensures Lists(env, EnvName(k)) {
      SecretIsListed(inherited + own, config, order, k);
    }
  }

  // Order independence, and exactly when it fails.

  /** Secret keys that are mangled to the same name refer to the same secret. */
  ghost predicate CollisionsAgree(config: Config) {
    forall a, b :: IsSecret(config, a) && IsSecret(config, b) && EnvName(a) == EnvName(b) ==>
      config[a].secretKeyRef == config[b].secretKeyRef
  }

  ghost predicate AtMostOneNewName(base: seq<EnvVar>, config: Config) {
    forall a, b ::
        IsSecret(config, a) && IsSecret(config, b) && EnvName(a) !in Names(base) && EnvName(b) !in Names(base) ==>
      EnvName(a) == EnvName(b)
  }

  lemma {:induction false} DistinctCount<T>(s: seq<T>, x: T)
    requires forall i, j :: 0 <= i < j < |s| ==> s[i] != s[j]
    ensures multiset(s)[x] == if x in s then 1 else 0
  {
    if s == [] {
    } else {
      var front, last := s[..|s| - 1], s[|s| - 1];
      DistinctCount(front, x);
      assert s == front + [last];
    }
  }

  lemma NamesOfSecretEnv(config: Config, order: seq<string>, other: seq<string>)
    requires Enumerates(order, config.Keys) && Enumerates(other, config.Keys)
    ensures Names(SecretEnv(config, order)) == Names(SecretEnv(config, other))
  {
    forall n | n in Names(SecretEnv(config, order)) ensures n in Names(SecretEnv(config, other)) {
      NameTransfers(config, order, other, n);
    }
    forall n | n in Names(SecretEnv(config, other)) ensures n in Names(SecretEnv(config, order)) {
      NameTransfers(config, other, order, n);
    }
  }

  lemma NameTransfers(config: Config, order: seq<string>, other: seq<string>, name: string)
    requires Enumerates(order, config.Keys) && Enumerates(other, config.Keys)
    requires name in Names(SecretEnv(config, order))
    ensures name in Names(SecretEnv(config, other))
    ensures exists k :: IsSecret(config, k) && EnvName(k) == name
  {
    var env := LastNamed(SecretEnv(config, order), name);
    SecretEnvMember(config, order, env);
    SecretEnvMember(config, other, env);
    NamesOfMember(SecretEnv(config, other), env);
  }

  lemma SameLastValues(base: seq<EnvVar>, config: Config, order: seq<string>, other: seq<string>)
    requires Enumerates(order, config.Keys) && Enumerates(other, config.Keys)
    requires CollisionsAgree(config)
    ensures Names(base + SecretEnv(config, order)) == Names(base + SecretEnv(config, other))
    ensures forall n :: n in Names(base + SecretEnv(config, order)) ==>
              LastNamed(base + SecretEnv(config, order), n) == LastNamed(base + SecretEnv(config, other), n)
  {
    var a, b := SecretEnv(config, order), SecretEnv(config, other);
    NamesOfConcatenation(base, a);
    NamesOfConcatenation(base, b);
    NamesOfSecretEnv(config, order, other);
    forall n | n in Names(base + a) ensures LastNamed(base + a, n) == LastNamed(base + b, n) {
      if n in Names(a) {
        NameTransfers(config, order, other, n);
        var key :| IsSecret(config, key) && EnvName(key) == n;
        var x := CarrierOf(base, config, order, key);
        var y := CarrierOf(base, config, other, key);
      } else {
        LastOfConcatenation(base, a, n);
        LastOfConcatenation(base, b, n);
      }
    }
  }

  lemma MultisetOfContainerEnv(base: seq<EnvVar>, config: Config, order: seq<string>, other: seq<string>)
    requires Enumerates(order, config.Keys) && Enumerates(other, config.Keys)
    requires CollisionsAgree(config)
    ensures multiset(ContainerEnv(base, config, order)) == multiset(ContainerEnv(base, config, other))
  {
    var a, b := base + SecretEnv(config, order), base + SecretEnv(config, other);
    SameLastValues(base, config, order, other);
    MergedNamesDistinct(a);
    MergedNamesDistinct(b);
    forall env: EnvVar ensures multiset(Merged(a))[env] == multiset(Merged(b))[env] {
      DistinctCount(Merged(a), env);
      DistinctCount(Merged(b), env);
      MergedMember(a, env);
      MergedMember(b, env);
    }
  }

  /** Of the secret keys with one mangled name, the last one that is walked gives its entry. */
  lemma {:induction false} LastWalkedCarries(config: Config, order: seq<string>, i: int)
    requires 0 <= i < |order| && IsSecret(config, order[i])
    requires forall j :: i < j < |order| && IsSecret(config, order[j]) ==> EnvName(order[j]) != EnvName(order[i])
    ensures EnvName(order[i]) in Names(SecretEnv(config, order))
    ensures LastNamed(SecretEnv(config, order), EnvName(order[i])) == SecretEntry(config, order[i])
  {
    var front, last := order[..|order| - 1], order[|order| - 1];
    if i == |order| - 1 {
      NamesExtended(SecretEnv(config, front), SecretEntry(config, last));
    } else {
      LastWalkedCarries(config, front, i);
      if IsSecret(config, last) {
        NamesExtended(SecretEnv(config, front), SecretEntry(config, last));
      }
    }
  }

  /** For any walk: the container gets the secret of whichever of the colliding keys was
      walked last, whatever the other environment lists hold, and of no other. */
  lemma LastWalkedWins(base: seq<EnvVar>, config: Config, order: seq<string>, i: int, env: EnvVar)
    requires 0 <= i < |order| && IsSecret(config, order[i])
    requires forall j :: i < j < |order| && IsSecret(config, order[j]) ==> EnvName(order[j]) != EnvName(order[i])
    ensures env.name == EnvName(order[i]) ==>
              (env in ContainerEnv(base, config, order) <==> env == SecretEntry(config, order[i]))
  {
    LastWalkedCarries(config, order, i);
    LastOfConcatenation(base, SecretEnv(config, order), EnvName(order[i]));
    MergedMember(base + SecretEnv(config, order), env);
  }

  /** A key's own secret reaches the container for every walk exactly when all secret keys
      of its mangled name refer to that secret. */
  lemma OwnSecretIff(base: seq<EnvVar>, config: Config, key: string)
    requires IsSecret(config, key)
    ensures (forall order | Enumerates(order, config.Keys) ::
        SecretEntry(config, key) in ContainerEnv(base, config, order))
       <==> (forall k :: IsSecret(config, k) && EnvName(k) == EnvName(key) ==>
           config[k].secretKeyRef == config[key].secretKeyRef)
  {
    if forall k :: IsSecret(config, k) && EnvName(k) == EnvName(key) ==>
        config[k].secretKeyRef == config[key].secretKeyRef {
      forall order | Enumerates(order, config.Keys)
        ensures SecretEntry(config, key) in ContainerEnv(base, config, order)
      {
        var carrier := CarrierOf(base, config, order, key);
        MergedMember(base + SecretEnv(config, order), SecretEntry(config, key));
      }
    } else {
      var k :| IsSecret(config, k) && EnvName(k) == EnvName(key) && config[k].secretKeyRef != config[key].secretKeyRef;
      var order := EnumerationEndingIn(config.Keys, k);
      LastWalkedWins(base, config, order, |order| - 1, SecretEntry(config, key));
    }
  }

  // Two inputs.

  function SecretValue(key: string): ConfigValue {
    ConfigValue("", Some(SecretKeySelector("credentials", key, None)))
  }

  /** Keys that differ in a dash collide, and one of the two secrets never arrives. */
  lemma DashCollides(base: seq<EnvVar>)
    ensures var config := map["a-b" := SecretValue("x"), "a_b" := SecretValue("y")];
            && EnvName("a-b") == EnvName("a_b") == "CONFIG_A_B"
            && SecretEntry(config, "a-b") in ContainerEnv(base, config, ["a_b", "a-b"])
            && SecretEntry(config, "a-b") !in ContainerEnv(base, config, ["a-b", "a_b"])
  {
    var config := map["a-b" := SecretValue("x"), "a_b" := SecretValue("y")];
    assert MangledText("a-b") == MangledText("a_b") == "A_B";
    LastWalkedWins(base, config, ["a_b", "a-b"], 1, SecretEntry(config, "a-b"));
    LastWalkedWins(base, config, ["a-b", "a_b"], 1, SecretEntry(config, "a-b"));
  }

  /** Two secrets without a collision are listed in walk order. */
  lemma WalkShows()
    ensures var config := map["a" := SecretValue("x"), "b" := SecretValue("y")];
            ContainerEnv([], config, ["a", "b"]) != ContainerEnv([], config, ["b", "a"])
  {
    var config := map["a" := SecretValue("x"), "b" := SecretValue("y")];
    FirstWalkedPosition([], config, ["a", "b"], "a");
    FirstWalkedPosition([], config, ["b", "a"], "b");
    assert EnvName("a")[7] == 'A' && EnvName("b")[7] == 'B';
  }

  /** The container's entries, as a multiset, do not depend on the walk exactly when
      colliding secret keys refer to the same secret. */
  lemma EnvIndependentOfOrderIff(base: seq<EnvVar>, config: Config)
    ensures CollisionsAgree(config) <==>
            forall order, other | Enumerates(order, config.Keys) && Enumerates(other, config.Keys) ::
              multiset(ContainerEnv(base, config, order)) == multiset(ContainerEnv(base, config, other))
  {
    if CollisionsAgree(config) {
      forall order, other | Enumerates(order, config.Keys) && Enumerates(other, config.Keys)
        ensures multiset(ContainerEnv(base, config, order)) == multiset(ContainerEnv(base, config, other))
      {
        MultisetOfContainerEnv(base, config, order, other);
      }
    } else {
      var a, b :| IsSecret(config, a) && IsSecret(config, b) && EnvName(a) == EnvName(b)
                  && config[a].secretKeyRef != config[b].secretKeyRef;
      var order := EnumerationEndingIn(config.Keys, a);
      var other := EnumerationEndingIn(config.Keys, b);
      var entry := SecretEntry(config, a);
      LastWalkedWins(base, config, order, |order| - 1, entry);
      LastWalkedWins(base, config, other, |other| - 1, entry);
      assert entry in multiset(ContainerEnv(base, config, order))
          && entry !in multiset(ContainerEnv(base, config, other));
    }
  }

  lemma {:induction false} FirstWalkedIsFirst(config: Config, order: seq<string>, key: string)
    requires |order| > 0 && order[0] == key && IsSecret(config, key)
    ensures SecretEnv(config, order) != [] && SecretEnv(config, order)[0] == SecretEntry(config, key)
  {
    if |order| == 1 {
    } else {
      FirstWalkedIsFirst(config, order[..|order| - 1], key);
    }
  }

  lemma {:induction false} FirstNewName(names: seq<string>, known: set<string>)
    requires names != [] && names[0] !in known
    ensures NewNames(names, known) != [] && NewNames(names, known)[0] == names[0]
  {
    if |names| == 1 {
    } else {
      FirstNewName(names[..|names| - 1], known);
    }
  }

  /** The first secret walked supplies the first name after those of the base list. */
  lemma FirstWalkedPosition(base: seq<EnvVar>, config: Config, order: seq<string>, key: string)
    requires |order| > 0 && order[0] == key && IsSecret(config, key) && EnvName(key) !in Names(base)
    ensures |FirstNames(base)| < |ContainerEnv(base, config, order)|
    ensures ContainerEnv(base, config, order)[|FirstNames(base)|].name == EnvName(key)
  {
    FirstWalkedIsFirst(config, order, key);
    var envs := SecretEnv(config, order);
    assert envs == [envs[0]] + envs[1..];
    FirstNamesOfConcatenation([envs[0]], envs[1..]);
    assert FirstNames([envs[0]]) == [EnvName(key)];
    FirstNewName(FirstNames(envs), Names(base));
    FirstNamesOfConcatenation(base, envs);
  }

  lemma AtLeastTwo(names: seq<string>)
    requires forall i, j :: 0 <= i < j < |names| ==> names[i] != names[j]
    ensures |names| > 1 ==> exists m, n :: m in names && n in names && m != n
  {
    if |names| > 1 {
      assert names[0] in names && names[1] in names;
    }
  }

  lemma SingletonNewNames(names: seq<string>, others: seq<string>)
    requires forall i, j :: 0 <= i < j < |names| ==> names[i] != names[j]
    requires forall i, j :: 0 <= i < j < |others| ==> others[i] != others[j]
    requires forall n :: n in names <==> n in others
    requires forall m, n :: m in names && n in names ==> m == n
    ensures names == others
  {
    AtLeastTwo(names);
    AtLeastTwo(others);
    if names != [] {
      assert names[0] in others;
    }
    if others != [] {
      assert others[0] in names;
    }
  }

  lemma NewNamesOf(base: seq<EnvVar>, envs: seq<EnvVar>) returns (added: seq<string>)
    ensures FirstNames(base + envs) == FirstNames(base) + added
    ensures forall n :: n in added <==> n in Names(envs) && n !in Names(base)
    ensures forall i, j :: 0 <= i < j < |added| ==> added[i] != added[j]
  {
    FirstNamesOfConcatenation(base, envs);
    added := NewNames(FirstNames(envs), Names(base));
    AddedDistinct(base + envs, FirstNames(base), added);
  }

  lemma AddedDistinct(envs: seq<EnvVar>, before: seq<string>, added: seq<string>)
    requires FirstNames(envs) == before + added
    ensures forall i, j :: 0 <= i < j < |added| ==> added[i] != added[j]
  {
    var all, k := before + added, |before|;
    forall i, j | 0 <= i < j < |added| ensures added[i] != added[j] {
      assert added[i] == all[k + i] && added[j] == all[k + j];
      FirstNamesDistinct(envs, k + i, k + j);
    }
  }

  lemma SameList(base: seq<EnvVar>, config: Config, order: seq<string>, other: seq<string>)
    requires Enumerates(order, config.Keys) && Enumerates(other, config.Keys)
    requires CollisionsAgree(config) && AtMostOneNewName(base, config)
    ensures ContainerEnv(base, config, order) == ContainerEnv(base, config, other)
  {
    var a, b := SecretEnv(config, order), SecretEnv(config, other);
    SameLastValues(base, config, order, other);
    NamesOfSecretEnv(config, order, other);
    var x := NewNamesOf(base, a);
    var y := NewNamesOf(base, b);
    forall m, n | m in x && n in x ensures m == n {
      NameTransfers(config, order, other, m);
      NameTransfers(config, order, other, n);
    }
    SingletonNewNames(x, y);
    SameMeaningSameMerge(base + a, base + b);
  }

  /** The container's environment list is the same for every walk exactly when colliding
      keys agree and at most one name is new: new names are listed in walk order. */
  lemma EnvListIndependentOfOrderIff(base: seq<EnvVar>, config: Config)
    ensures CollisionsAgree(config) && AtMostOneNewName(base, config) <==>
            forall order, other | Enumerates(order, config.Keys) && Enumerates(other, config.Keys) ::
              ContainerEnv(base, config, order) == ContainerEnv(base, config, other)
  {
    if CollisionsAgree(config) && AtMostOneNewName(base, config) {
      forall order, other | Enumerates(order, config.Keys) && Enumerates(other, config.Keys)
        ensures ContainerEnv(base, config, order) == ContainerEnv(base, config, other)
      {
        SameList(base, config, order, other);
      }
    } else if !CollisionsAgree(config) {
      EnvIndependentOfOrderIff(base, config);
    } else {
      var a, b :| IsSecret(config, a) && IsSecret(config, b) && EnvName(a) !in Names(base) && EnvName(b) !in Names(base)
                  && EnvName(a) != EnvName(b);
      var order := EnumerationStartingWith(config.Keys, a);
      var other := EnumerationStartingWith(config.Keys, b);
      FirstWalkedPosition(base, config, order, a);
      FirstWalkedPosition(base, config, other, b);
    }
  }
}
