// Merging environment variable lists: later entries override earlier ones in place.
module EnvVars {
  import opened Api

  // The specification: names in the order of their first occurrence, each with
  // the value of its last occurrence.

  function Names(envs: seq<EnvVar>): set<string> {
    if envs == [] then {} else Names(envs[..|envs| - 1]) + {envs[|envs| - 1].name}
  }

  /** The distinct names of a list, in the order in which they first occur. */
  function FirstNames(envs: seq<EnvVar>): (names: seq<string>)
    ensures forall n :: n in names <==> n in Names(envs)
  {
    if envs == [] then []
    else
      var before, last := FirstNames(envs[..|envs| - 1]), envs[|envs| - 1].name;
      if last in before then before else before + [last]
  }

  function LastNamed(envs: seq<EnvVar>, name: string): (env: EnvVar)
    requires name in Names(envs)
    ensures env in envs && env.name == name
  {
    var last := envs[|envs| - 1];
    if last.name == name then last else LastNamed(envs[..|envs| - 1], name)
  }

  function Merged(envs: seq<EnvVar>): (merged: seq<EnvVar>)
    ensures |merged| == |FirstNames(envs)|
    ensures forall i :: 0 <= i < |merged| ==> merged[i].name == FirstNames(envs)[i]
  {
    var names := FirstNames(envs);
    seq(|names|, i requires 0 <= i < |names| => assert names[i] in names; LastNamed(envs, names[i]))
  }

  function Flatten(slices: seq<seq<EnvVar>>): seq<EnvVar> {
    if slices == [] then [] else Flatten(slices[..|slices| - 1]) + slices[|slices| - 1]
  }

  // The implementation: one pass with a map from names to positions in the result.

  /** The map sends exactly the names of the result to their positions. */
  ghost predicate Indexes(seen: map<string, int>, result: seq<EnvVar>) {
    && (forall i :: 0 <= i < |result| ==> result[i].name in seen && seen[result[i].name] == i)
    && (forall n :: n in seen ==> 0 <= seen[n] < |result| && result[seen[n]].name == n)
  }

  lemma {:induction false} FirstNamesDistinct(envs: seq<EnvVar>, i: int, j: int)
    requires 0 <= i < j < |FirstNames(envs)|
    ensures FirstNames(envs)[i] != FirstNames(envs)[j]
  {
    var before := FirstNames(envs[..|envs| - 1]);
    if j < |before| {
      FirstNamesDistinct(envs[..|envs| - 1], i, j);
    } else {
      assert before[i] in before;
    }
  }

  /** Appending an entry to the input overwrites its position, or appends it to the output. */
  lemma MergedExtended(envs: seq<EnvVar>, env: EnvVar)
    ensures env.name !in Names(envs) ==> Merged(envs + [env]) == Merged(envs) + [env]
    ensures forall i :: 0 <= i < |Merged(envs)| && Merged(envs)[i].name == env.name ==>
              Merged(envs + [env]) == Merged(envs)[i := env]
  {
    var names := FirstNames(envs);
    assert (envs + [env])[..|envs|] == envs;
    if env.name !in Names(envs) {
      assert FirstNames(envs + [env]) == names + [env.name];
      forall i | 0 <= i < |names| ensures Merged(envs + [env])[i] == Merged(envs)[i] {
        assert names[i] in names;
      }
    } else {
      forall i | 0 <= i < |names| && names[i] == env.name
        ensures Merged(envs + [env]) == Merged(envs)[i := env]
      {
        forall k | 0 <= k < |names| && k != i ensures Merged(envs + [env])[k] == Merged(envs)[k] {
          FirstNamesDistinct(envs, if i < k then i else k, if i < k then k else i);
        }
      }
    }
  }

  lemma IndexedNames(seen: map<string, int>, envs: seq<EnvVar>)
    requires Indexes(seen, Merged(envs))
    ensures seen.Keys == Names(envs)
  {
    forall n ensures n in seen <==> n in Names(envs) {
      if n in seen {
        assert FirstNames(envs)[seen[n]] == n;
        assert n in FirstNames(envs);
      }
      if n in Names(envs) {
        var i := MergedAt(envs, n);
      }
    }
  }

  lemma MergeStep(envs: seq<EnvVar>, env: EnvVar, seen: map<string, int>)
    requires Indexes(seen, Merged(envs))
    ensures env.name in seen ==>
              var next := Merged(envs)[seen[env.name] := env];
              Merged(envs + [env]) == next && Indexes(seen, next)
    ensures env.name !in seen ==>
              var next := Merged(envs) + [env];
              Merged(envs + [env]) == next && Indexes(seen[env.name := |next| - 1], next)
  {
    IndexedNames(seen, envs);
    MergedExtended(envs, env);
  }

  lemma OneMore(before: seq<EnvVar>, envs: seq<EnvVar>, e: nat)
    requires e < |envs|
    ensures before + envs[..e] + [envs[e]] == before + envs[..e + 1]
  {
  }

  lemma OneMoreSlice(slices: seq<seq<EnvVar>>, s: nat)
    requires s < |slices|
    ensures Flatten(slices[..s]) + slices[s][..|slices[s]|] == Flatten(slices[..s + 1])
  {
    assert slices[..s + 1][..s] == slices[..s];
    assert slices[s][..|slices[s]|] == slices[s];
  }

  method MergeEnvVars(envSlices: seq<seq<EnvVar>>) returns (result: seq<EnvVar>)
    ensures result == Merged(Flatten(envSlices))
  {
    var seen: map<string, int> := map[];
    result := [];
    ghost var done: seq<EnvVar> := [];
    for s := 0 to |envSlices|
      invariant done == Flatten(envSlices[..s])
      invariant result == Merged(done)
      invariant Indexes(seen, result)
    {
      var envs := envSlices[s];
      for e := 0 to |envs|
        invariant done == Flatten(envSlices[..s]) + envs[..e]
        invariant result == Merged(done)
        invariant Indexes(seen, result)
      {
        var env := envs[e];
        MergeStep(done, env, seen);
        OneMore(Flatten(envSlices[..s]), envs, e);
        done := done + [env];
        if env.name in seen {
          result := result[seen[env.name] := env];
        } else {
          seen := seen[env.name := |result|];
          result := result + [env];
        }
      }
      OneMoreSlice(envSlices, s);
    }
    assert envSlices[..|envSlices|] == envSlices;
  }

  // The algebra of merging. Two lists with the same first names and the same
  // last values cannot be told apart by a merge, nor by a merge with a suffix.

  ghost predicate SameMeaning(a: seq<EnvVar>, b: seq<EnvVar>) {
    && FirstNames(a) == FirstNames(b)
    && Names(a) == Names(b)
    && (forall n :: n in Names(a) ==> LastNamed(a, n) == LastNamed(b, n))
  }

  lemma MergedAt(envs: seq<EnvVar>, name: string) returns (i: int)
    requires name in Names(envs)
    ensures 0 <= i < |Merged(envs)| && Merged(envs)[i] == LastNamed(envs, name)
  {
    assert name in FirstNames(envs);
    i :| 0 <= i < |FirstNames(envs)| && FirstNames(envs)[i] == name;
  }

  lemma SameMeaningSameMerge(a: seq<EnvVar>, b: seq<EnvVar>)
    ensures SameMeaning(a, b) <==> Merged(a) == Merged(b)
  {
    if Merged(a) == Merged(b) {
      assert FirstNames(a) == FirstNames(b);
      assert Names(a) == Names(b) by {
        assert forall n :: n in Names(a) <==> n in FirstNames(a);
      }
      forall n | n in Names(a) ensures LastNamed(a, n) == LastNamed(b, n) {
        var i := MergedAt(a, n);
        assert FirstNames(b)[i] == n;
      }
    }
  }

  lemma {:induction false} SameMeaningAppend(a: seq<EnvVar>, b: seq<EnvVar>, suffix: seq<EnvVar>)
    requires SameMeaning(a, b)
    ensures SameMeaning(a + suffix, b + suffix)
  {
    if suffix == [] {
      assert a + suffix == a && b + suffix == b;
    } else {
      var front, last := suffix[..|suffix| - 1], suffix[|suffix| - 1];
      SameMeaningAppend(a, b, front);
      assert (a + suffix)[..|a + suffix| - 1] == a + front && (a + suffix)[|a + suffix| - 1] == last;
      assert (b + suffix)[..|b + suffix| - 1] == b + front && (b + suffix)[|b + suffix| - 1] == last;
    }
  }

  lemma {:induction false} NameAt(envs: seq<EnvVar>, i: int)
    requires 0 <= i < |envs|
    ensures envs[i].name in Names(envs)
  {
    if i == |envs| - 1 {
    } else {
      NameAt(envs[..|envs| - 1], i);
    }
  }

  lemma {:induction false} DistinctMergedIsSame(envs: seq<EnvVar>)
    requires forall i, j :: 0 <= i < j < |envs| ==> envs[i].name != envs[j].name
    ensures Merged(envs) == envs
  {
    if envs == [] {
    } else {
      var front, last := envs[..|envs| - 1], envs[|envs| - 1];
      DistinctMergedIsSame(front);
      assert front + [last] == envs;
      assert last.name !in Names(front) by {
        assert last.name in Names(front) ==> LastNamed(front, last.name) in front;
      }
      forall i | 0 <= i < |front| ensures Merged(envs)[i] == front[i] {
        assert Merged(front)[i] == front[i];
      }
    }
  }

  /** Merging what is already merged changes nothing. */
  lemma MergeIdempotent(envs: seq<EnvVar>)
    ensures Merged(Merged(envs)) == Merged(envs)
  {
    MergedNamesDistinct(envs);
    DistinctMergedIsSame(Merged(envs));
  }

  lemma MergePrefix(a: seq<EnvVar>, b: seq<EnvVar>)
    ensures Merged(Merged(a) + b) == Merged(a + b)
  {
    MergeIdempotent(a);
    SameMeaningSameMerge(Merged(a), a);
    SameMeaningAppend(Merged(a), a, b);
    SameMeaningSameMerge(Merged(a) + b, a + b);
  }

  /** The names that are not among the known ones, in order. */
  function NewNames(names: seq<string>, known: set<string>): (r: seq<string>)
    ensures forall n :: n in r <==> n in names && n !in known
  {
    if names == [] then []
    else
      var before, last := NewNames(names[..|names| - 1], known), names[|names| - 1];
      if last in known then before else before + [last]
  }

  lemma {:induction false} NamesOfConcatenation(a: seq<EnvVar>, b: seq<EnvVar>)
    ensures Names(a + b) == Names(a) + Names(b)
  {
    if b == [] {
      assert a + b == a;
    } else {
      NamesOfConcatenation(a, b[..|b| - 1]);
      assert (a + b)[..|a + b| - 1] == a + b[..|b| - 1];
    }
  }

  lemma {:induction false} FirstNamesOfConcatenation(a: seq<EnvVar>, b: seq<EnvVar>)
    ensures FirstNames(a + b) == FirstNames(a) + NewNames(FirstNames(b), Names(a))
  {
    if b == [] {
      assert a + b == a;
    } else {
      var front, last := b[..|b| - 1], b[|b| - 1];
      var appended, added := a + front, if last.name in Names(front) then [] else [last.name];
      calc {
        FirstNames(a + b);
        { assert a + b == appended + [last]; NamesExtended(appended, last); }
        FirstNames(appended) + (if last.name in Names(appended) then [] else [last.name]);
        { FirstNamesOfConcatenation(a, front); NamesOfConcatenation(a, front); }
        FirstNames(a) + NewNames(FirstNames(front), Names(a))
        + (if last.name in Names(a) + Names(front) then [] else [last.name]);
        { NamesOfOneMore(FirstNames(a), FirstNames(front), last.name, Names(a), Names(front)); }
        FirstNames(a) + NewNames(FirstNames(front) + added, Names(a));
        { assert b == front + [last]; NamesExtended(front, last); }
        FirstNames(a) + NewNames(FirstNames(b), Names(a));
      }
    }
  }

  lemma NamesOfOneMore(a: seq<string>, front: seq<string>, last: string, known: set<string>, more: set<string>)
    ensures a + NewNames(front, known) + (if last in known + more then [] else [last])
         == a + NewNames(front + (if last in more then [] else [last]), known)
  {
    if last in more {
      assert front + [] == front;
    } else {
      NewNamesExtended(front, last, known);
    }
  }

  lemma NamesExtended(envs: seq<EnvVar>, env: EnvVar)
    ensures Names(envs + [env]) == Names(envs) + {env.name}
    ensures FirstNames(envs + [env]) == FirstNames(envs) + (if env.name in Names(envs) then [] else [env.name])
  {
    assert (envs + [env])[..|envs|] == envs;
  }

  lemma NewNamesExtended(names: seq<string>, last: string, known: set<string>)
    ensures NewNames(names + [last], known) == NewNames(names, known) + (if last in known then [] else [last])
  {
    assert (names + [last])[..|names|] == names;
  }

  lemma {:induction false} LastOfConcatenation(a: seq<EnvVar>, b: seq<EnvVar>, name: string)
    requires name in Names(a) + Names(b)
    ensures name in Names(a + b)
    ensures LastNamed(a + b, name) == if name in Names(b) then LastNamed(b, name) else LastNamed(a, name)
  {
    NamesOfConcatenation(a, b);
    if b == [] {
      assert a + b == a;
    } else {
      assert (a + b)[..|a + b| - 1] == a + b[..|b| - 1];
      if b[|b| - 1].name != name {
        LastOfConcatenation(a, b[..|b| - 1], name);
      }
    }
  }

  lemma MergeSuffix(a: seq<EnvVar>, b: seq<EnvVar>)
    ensures Merged(a + Merged(b)) == Merged(a + b)
  {
    MergeIdempotent(b);
    SameMeaningSameMerge(Merged(b), b);
    NamesOfConcatenation(a, b);
    NamesOfConcatenation(a, Merged(b));
    FirstNamesOfConcatenation(a, b);
    FirstNamesOfConcatenation(a, Merged(b));
    forall n | n in Names(a + b) ensures LastNamed(a + Merged(b), n) == LastNamed(a + b, n) {
      LastOfConcatenation(a, b, n);
      LastOfConcatenation(a, Merged(b), n);
    }
    SameMeaningSameMerge(a + Merged(b), a + b);
  }

  /** Merging is associative: grouping the slices differently gives the same list. */
  lemma MergeAssociative(a: seq<EnvVar>, b: seq<EnvVar>, c: seq<EnvVar>)
    ensures Merged(Merged(a + b) + c) == Merged(a + Merged(b + c)) == Merged(a + b + c)
  {
    MergePrefix(a + b, c);
    MergeSuffix(a, b + c);
    assert a + (b + c) == a + b + c;
  }

  /** An entry of a merged list is the last entry of its name, and the only one of that name. */
  lemma MergedMember(envs: seq<EnvVar>, env: EnvVar)
    ensures env in Merged(envs) <==> env.name in Names(envs) && env == LastNamed(envs, env.name)
  {
    var merged := Merged(envs);
    if env in merged {
      var i :| 0 <= i < |merged| && merged[i] == env;
      assert FirstNames(envs)[i] in FirstNames(envs);
    }
    if env.name in Names(envs) && env == LastNamed(envs, env.name) {
      var i := MergedAt(envs, env.name);
    }
  }

  lemma MergedNamesDistinct(envs: seq<EnvVar>)
    ensures forall i, j :: 0 <= i < j < |Merged(envs)| ==> Merged(envs)[i].name != Merged(envs)[j].name
  {
    forall i, j | 0 <= i < j < |Merged(envs)| ensures Merged(envs)[i].name != Merged(envs)[j].name {
      FirstNamesDistinct(envs, i, j);
    }
  }
}
