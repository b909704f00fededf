// Config files: what the StatefulSet mounts against what the ConfigMap holds.
module ConfigFiles {
  import opened Api
  import opened Cluster
  import opened Enumeration
  import opened Convergence
  import opened Machine
  import opened Provenance
  import opened System
  import Recovery
  import Reporting
  import StatefulSets

  ghost predicate KeyPresent(k: Key, w: World, key: string) {
    ConfigMapKey(k) in w.configMaps && key in w.configMaps[ConfigMapKey(k)].data
  }

  /** A pod of this StatefulSet can be started: every key it mounts is in the ConfigMap. */
  ghost predicate MountsPresent(k: Key, w: World) {
    k in w.statefulSets ==>
      var mounts := w.statefulSets[k].spec.mainContainer.volumeMounts;
      forall m :: m in mounts && m.name == StatefulSets.CONFIG_FILES_VOLUME ==> KeyPresent(k, w, m.subPath)
  }

  /** The mounts are those of a list of n files. */
  ghost predicate MountsOf(sts: StatefulSet, n: nat) {
    var mounts := sts.spec.mainContainer.volumeMounts;
    && |mounts| == n + 1 && mounts[0] == StatefulSets.SERVER_FILES_MOUNT
    && forall i: nat :: 0 < i < |mounts| ==>
          mounts[i].name == StatefulSets.CONFIG_FILES_VOLUME && mounts[i].subPath == StatefulSets.ConfigKey(i - 1)
  }

  ghost predicate HoldsKeys(k: Key, w: World, n: nat) {
    forall i: nat :: i < n ==> KeyPresent(k, w, StatefulSets.ConfigKey(i))
  }

  lemma DataHoldsKeys(files: seq<ConfigFile>)
    ensures forall i: nat :: i < |files| ==> StatefulSets.ConfigKey(i) in StatefulSets.ConfigData(files)
  {
    forall i: nat | i < |files| ensures StatefulSets.ConfigKey(i) in StatefulSets.ConfigData(files) {
      StatefulSets.ConfigDataAt(files, i);
    }
  }

  lemma DataLacksKey(files: seq<ConfigFile>, n: nat)
    requires |files| <= n
    ensures StatefulSets.ConfigKey(n) !in StatefulSets.ConfigData(files)
  {
    StatefulSets.ConfigDataKeys(files, StatefulSets.ConfigKey(n));
    forall i: nat | i < |files| ensures StatefulSets.ConfigKey(i) != StatefulSets.ConfigKey(n) {
      if StatefulSets.ConfigKey(i) == StatefulSets.ConfigKey(n) {
        StatefulSets.ConfigKeyInjective(i, n);
      }
    }
  }

  lemma KeysMakeMountsPresent(k: Key, w: World, n: nat)
    requires k in w.statefulSets && MountsOf(w.statefulSets[k], n)
    ensures MountsPresent(k, w) <==> HoldsKeys(k, w, n)
  {
    var mounts := w.statefulSets[k].spec.mainContainer.volumeMounts;
    if HoldsKeys(k, w, n) {
      forall m | m in mounts && m.name == StatefulSets.CONFIG_FILES_VOLUME ensures KeyPresent(k, w, m.subPath) {
        var i :| 0 <= i < |mounts| && mounts[i] == m;
        assert i > 0;
      }
    }
    if MountsPresent(k, w) {
      forall i: nat | i < n ensures KeyPresent(k, w, StatefulSets.ConfigKey(i)) {
        assert mounts[i + 1] in mounts;
      }
    }
  }

  // Agreement after the two writes.

  /** Calls with any fault, crashes, and anything by others that leaves the data of this
      ConfigMap alone. */
  ghost predicate SparedStep(k: Key, a: Local, b: Local) {
    Recovery.FaultyStep(k, a, b) || Recovery.CrashStep(a, b) || DataSpared(k, a, b)
  }

  ghost predicate DataSpared(k: Key, a: Local, b: Local) {
    && a.p == b.p
    && (ConfigMapKey(k) in a.w.configMaps ==>
          && ConfigMapKey(k) in b.w.configMaps
          && b.w.configMaps[ConfigMapKey(k)].data == a.w.configMaps[ConfigMapKey(k)].data)
  }

  ghost predicate SparedRun(k: Key, run: seq<Local>) {
    && |run| > 0 && run[0].p == Idle
    && (forall i, j :: 0 <= i < j <= i + 1 && j < |run| ==> SparedStep(k, run[i], run[j]))
  }

  ghost predicate HoldsData(k: Key, w: World, files: seq<ConfigFile>) {
    ConfigMapKey(k) in w.configMaps && w.configMaps[ConfigMapKey(k)].data == StatefulSets.ConfigData(files)
  }

  /** Past the ConfigMap stage the ConfigMap holds the files of the server in hand. */
  ghost predicate DataBehind(k: Key, a: Local) {
    && Shape(a.p)
    && (HasPlan(a.p) && Reporting.Stage(a.p) > 1 ==>
          a.p.server.spec.configFiles == [] || HoldsData(k, a.w, a.p.server.spec.configFiles))
  }

  lemma DataKept(k: Key, p: Worker, w: World, w': World)
    requires !p.Finished? && Shape(p) && HasPlan(p) && ConfigMapEffect(w, NextOp(k, p), w')
    requires HoldsData(k, w, p.server.spec.configFiles)
    ensures HoldsData(k, w', p.server.spec.configFiles)
  {
  }

  lemma DataSettled(k: Key, p: Worker, w: World, fault: Fault, order: seq<string>)
    requires WorkEnabled(p, order) && Shape(p) && HasPlan(p) && Reporting.Stage(p) == 1
    requires Reporting.Stage(Advance(p, Call(w, NextOp(k, p), fault).1, order)) > 1
    ensures HoldsData(k, Call(w, NextOp(k, p), fault).0, p.server.spec.configFiles)
  {
    var reply := Call(w, NextOp(k, p), fault).1;
    CallOrNothing(w, NextOp(k, p), fault);
    Reporting.StageAdvances(Reporting.Exchange(p, reply, order), p.server, p.def);
    if !p.ConfigMapGet? {
      ConfigMapWritten(w, k, p);
    }
  }

  lemma CallKeepsDataBehind(k: Key, a: Local, fault: Fault, order: seq<string>)
    requires DataBehind(k, a) && WorkEnabled(a.p, order)
    ensures DataBehind(k, Recovery.Tried(k, a, fault, order))
  {
    var p, w := a.p, a.w;
    var reply := Call(w, NextOp(k, p), fault).1;
    AdvanceKeepsShape(k, p, reply, order);
    FirstHolds(k, p, w, fault, order);
    if HasPlan(p) {
      Reporting.StageAdvances(Reporting.Exchange(p, reply, order), p.server, p.def);
      if Reporting.Stage(p) > 1 && p.server.spec.configFiles != [] {
        CallEffect(w, NextOp(k, p), fault);
        DataKept(k, p, w, Call(w, NextOp(k, p), fault).0);
      } else if Reporting.Stage(p) == 1 && Reporting.Stage(Advance(p, reply, order)) > 1 {
        DataSettled(k, p, w, fault, order);
      }
    }
  }

  lemma {:induction false} SparedRunDataBehind(k: Key, run: seq<Local>, i: int)
    requires SparedRun(k, run) && 0 <= i < |run|
    ensures DataBehind(k, run[i])
  {
    if i == 0 {
    } else {
      SparedRunDataBehind(k, run, i - 1);
      assert SparedStep(k, run[i - 1], run[(i - 1) + 1]);
      SparedStepKeepsDataBehind(k, run[i - 1], run[i]);
    }
  }

  lemma SparedStepKeepsDataBehind(k: Key, a: Local, b: Local)
    requires DataBehind(k, a) && SparedStep(k, a, b)
    ensures DataBehind(k, b)
  {
    if Recovery.FaultyStep(k, a, b) {
      var fault, order :| WorkEnabled(a.p, order) && b == Recovery.Tried(k, a, fault, order);
      CallKeepsDataBehind(k, a, fault, order);
    }
  }

  /** The i-th mount of the StatefulSet reads a key of the ConfigMap that holds the i-th
      content, and no other mount reads the same one. */
  ghost predicate FilesMatch(k: Key, w: World, files: seq<ConfigFile>) {
    && k in w.statefulSets
    && var mounts := w.statefulSets[k].spec.mainContainer.volumeMounts;
       && |mounts| == 1 + |files|
       && forall i :: 0 <= i < |files| ==>
            && mounts[i + 1].mountPath == files[i].path
            && ConfigMapKey(k) in w.configMaps
            && mounts[i + 1].subPath in w.configMaps[ConfigMapKey(k)].data
            && w.configMaps[ConfigMapKey(k)].data[mounts[i + 1].subPath] == files[i].content
            && (forall j :: 0 < j < |mounts| && j != i + 1 ==> mounts[j].subPath != mounts[i + 1].subPath)
  }

  lemma BuiltFilesMatch(k: Key, w: World, b: StatefulSets.StatefulSetBuilder, order: seq<string>)
    requires k in w.statefulSets && w.statefulSets[k].spec == b.Desired(order)
    requires b.spec.configFiles == [] || HoldsData(k, w, b.spec.configFiles)
    ensures FilesMatch(k, w, b.spec.configFiles)
  {
    forall i | 0 <= i < |b.spec.configFiles|
      ensures var mounts := w.statefulSets[k].spec.mainContainer.volumeMounts;
              && mounts[i + 1].mountPath == b.spec.configFiles[i].path
              && mounts[i + 1].subPath in w.configMaps[ConfigMapKey(k)].data
              && w.configMaps[ConfigMapKey(k)].data[mounts[i + 1].subPath] == b.spec.configFiles[i].content
              && (forall j :: 0 < j < |mounts| && j != i + 1 ==> mounts[j].subPath != mounts[i + 1].subPath)
    {
      StatefulSets.MountsMatchConfigMap(b, order, i);
    }
  }

  lemma StatefulSetWritten(k: Key, p: Worker, w: World)
    requires p.StatefulSetCreate? || p.StatefulSetUpdate?
    requires Exec(w, NextOp(k, p)).1.Done?
    ensures var w' := Exec(w, NextOp(k, p)).0;
            && w'.configMaps == w.configMaps && k in w'.statefulSets
            && w'.statefulSets[k].spec == StatefulSetBuilderFor(p.server, p.def).Desired(p.order)
  {
    var op := NextOp(k, p);
    DoneWriteMet(w, op);
    StatefulSetWriteSucceeds(w, op);
    var sent := op.sts.spec;
    assert Exec(w, op).0.statefulSets[k].spec == sent;
  }

  lemma DoneWriteMet(w: World, op: Op)
    requires WritesStatefulSet(op) && Exec(w, op).1.Done?
    ensures op.CreateStatefulSet? ==> op.key !in w.statefulSets
    ensures op.UpdateStatefulSet? ==> op.key in w.statefulSets && w.statefulSets[op.key].rv == op.sts.rv
  {
  }

  /** Whenever the write of a StatefulSet is answered, however its reconcile and those before
      it went, from any earlier state: the files that the StatefulSet mounts are those that
      the ConfigMap holds. */
  lemma FilesAgree(k: Key, run: seq<Local>, i: int, fault: Fault, order: seq<string>)
    requires SparedRun(k, run) && 0 <= i < |run| && WorkEnabled(run[i].p, order)
    requires run[i].p.StatefulSetCreate? || run[i].p.StatefulSetUpdate?
    requires Call(run[i].w, NextOp(k, run[i].p), fault).1.Done?
    ensures FilesMatch(k, Recovery.Tried(k, run[i], fault, order).w, run[i].p.server.spec.configFiles)
  {
    var p, w := run[i].p, run[i].w;
    SparedRunDataBehind(k, run, i);
    CallOrNothing(w, NextOp(k, p), fault);
    StatefulSetWritten(k, p, w);
    BuiltFilesMatch(k, Exec(w, NextOp(k, p)).0, StatefulSetBuilderFor(p.server, p.def), p.order);
  }

  // Between the two writes.

  /** The write of a ConfigMap that is answered leaves every mounted key present exactly
      when the list is not shorter than the one the stored StatefulSet mounts. */
  lemma ConfigMapWriteKeepsMountsIff(k: Key, w: World, p: Worker, n: nat)
    requires p.ConfigMapCreate? || p.ConfigMapUpdate?
    requires k in w.statefulSets && MountsOf(w.statefulSets[k], n)
    requires Exec(w, NextOp(k, p)).1.Done?
    ensures MountsPresent(k, Exec(w, NextOp(k, p)).0) <==> n <= |p.server.spec.configFiles|
  {
    var w', files := Exec(w, NextOp(k, p)).0, p.server.spec.configFiles;
    ConfigMapWritten(w, k, p);
    KeysMakeMountsPresent(k, w', n);
    if n <= |files| {
      DataHoldsKeys(files);
    } else {
      DataLacksKey(files, n - 1);
      assert !KeyPresent(k, w', StatefulSets.ConfigKey(n - 1));
    }
  }

  // An input: a second file is dropped.

  const FIRST_FILE := ConfigFile("/cfg/a", "first")
  const SECOND_FILE := ConfigFile("/cfg/b", "second")

  function FilesSpec(files: seq<ConfigFile>): SteamServerSpec {
    SteamServerSpec("", map[], None, "", [], [], [], [], files, None, None, "", "", None, None, "")
  }

  function FilesServer(k: Key, files: seq<ConfigFile>): Server {
    Server(k, 0, 0, false, [FINALIZER], FilesSpec(files), EMPTY_STATUS)
  }

  /** The children of a server with two files. */
  function TwoFiles(k: Key): World {
    var x := FilesServer(k, [FIRST_FILE, SECOND_FILE]);
    World(0, map[k := x], map[], map[ConfigMapKey(k) := NewConfigMap(x)], map[],
        map[k := NewStatefulSet(x, None, [])], map[], map[])
  }

  lemma TwoFilesMounted(k: Key)
    ensures MountsOf(TwoFiles(k).statefulSets[k], 2) && MountsPresent(k, TwoFiles(k))
  {
    var x := FilesServer(k, [FIRST_FILE, SECOND_FILE]);
    BuiltMounts(StatefulSetBuilderFor(x, None), [], TwoFiles(k).statefulSets[k]);
    DataHoldsKeys([FIRST_FILE, SECOND_FILE]);
    KeysMakeMountsPresent(k, TwoFiles(k), 2);
  }

  /** Once the ConfigMap is written for the first file alone, the StatefulSet mounts a key that
      is not there. */
  lemma DroppedFileIsStillMounted(k: Key)
    ensures var p := ConfigMapUpdate(FilesServer(k, [FIRST_FILE]), None, TwoFiles(k).configMaps[ConfigMapKey(k)]);
            && MountsPresent(k, TwoFiles(k))
            && Exec(TwoFiles(k), NextOp(k, p)).1.Done?
            && !MountsPresent(k, Exec(TwoFiles(k), NextOp(k, p)).0)
  {
    var p := ConfigMapUpdate(FilesServer(k, [FIRST_FILE]), None, TwoFiles(k).configMaps[ConfigMapKey(k)]);
    TwoFilesMounted(k);
    UpdateIsDone(TwoFiles(k), NextOp(k, p));
    ConfigMapWriteKeepsMountsIff(k, TwoFiles(k), p, 2);
  }

  lemma UpdateIsDone(w: World, op: Op)
    requires op.UpdateConfigMap? && op.key in w.configMaps && w.configMaps[op.key].rv == op.configMap.rv
    ensures Exec(w, op).1.Done?
  {
  }

  lemma ConfigMapWritten(w: World, k: Key, p: Worker)
    requires (p.ConfigMapCreate? || p.ConfigMapUpdate?) && Exec(w, NextOp(k, p)).1.Done?
    ensures var w' := Exec(w, NextOp(k, p)).0;
            && w'.statefulSets == w.statefulSets
            && ConfigMapKey(k) in w'.configMaps
            && w'.configMaps[ConfigMapKey(k)].data == StatefulSets.ConfigData(p.server.spec.configFiles)
  {
    ConfigMapStored(w, NextOp(k, p));
  }

  lemma ConfigMapStored(w: World, op: Op)
    requires WritesConfigMap(op) && Exec(w, op).1.Done?
    ensures var w' := Exec(w, op).0;
            && w'.statefulSets == w.statefulSets && op.key in w'.configMaps
            && w'.configMaps[op.key].data == op.configMap.data
  {
    var x := op.configMap.(writer := Operator);
    var put := PutConfigMap(w, op.key, x);
    assert put.statefulSets == w.statefulSets && put.configMaps[op.key].data == op.configMap.data;
  }

  // Runs in which the list is never shortened.

  /** The longest list that was ever stored, besides the cluster and the worker. */
  datatype Watched = Watched(a: Local, longest: nat)

  function FilesOf(k: Key, w: World): nat {
    if k in w.servers then |w.servers[k].spec.configFiles| else 0
  }

  /** Others may edit, delete and recreate the server, as long as its list is never
      shorter than one it had before; they leave the content of the ConfigMap alone and
      may delete the StatefulSet but not rewrite it. */
  ghost predicate GrowingEdit(k: Key, s: Watched, t: Watched) {
    var v, w := s.a.w, t.a.w;
    && t.a.p == s.a.p
    && (k in w.servers ==> w.servers[k].key == k)
    && (ConfigMapKey(k) in v.configMaps ==>
          ConfigMapKey(k) in w.configMaps && w.configMaps[ConfigMapKey(k)].data == v.configMaps[ConfigMapKey(k)].data)
    && (k in w.statefulSets ==> k in v.statefulSets && SameStatefulSet(v.statefulSets[k], w.statefulSets[k]))
  }

  ghost predicate WatchedStep(k: Key, s: Watched, t: Watched) {
    && (Recovery.FaultyStep(k, s.a, t.a) || Recovery.CrashStep(s.a, t.a) || GrowingEdit(k, s, t))
    && t.longest >= s.longest
    && (k in t.a.w.servers ==> FilesOf(k, t.a.w) == t.longest)
  }

  ghost predicate GrowingRun(k: Key, run: seq<Watched>) {
    && |run| > 0
    && run[0].a.p == Idle && k !in run[0].a.w.statefulSets
    && (k in run[0].a.w.servers ==> FilesOf(k, run[0].a.w) == run[0].longest && run[0].a.w.servers[k].key == k)
    && (forall i, j :: 0 <= i < j <= i + 1 && j < |run| ==> WatchedStep(k, run[i], run[j]))
  }

  predicate ReadsServer(p: Worker) { HasPlan(p) || p.FetchingDef? }

  /** n files are mounted: no more than the list in hand has, and their keys are there. */
  ghost predicate Mounted(k: Key, s: Watched, n: nat) {
    && k in s.a.w.statefulSets
    && n <= s.longest
    && MountsOf(s.a.w.statefulSets[k], n)
    && HoldsKeys(k, s.a.w, n)
    && (ReadsServer(s.a.p) ==> n <= |s.a.p.server.spec.configFiles|)
  }

  ghost predicate FilesInv(k: Key, s: Watched) {
    var w, p := s.a.w, s.a.p;
    && Shape(p)
    && (k in w.servers ==> FilesOf(k, w) == s.longest && w.servers[k].key == k)
    && (HasServer(p) ==> p.server.key == k && |p.server.spec.configFiles| <= s.longest)
    && (HasPlan(p) && Reporting.Stage(p) > 1 ==> HoldsKeys(k, w, |p.server.spec.configFiles|))
    && (k in w.statefulSets ==> exists n :: Mounted(k, s, n))
  }

  lemma BuiltMounts(b: StatefulSets.StatefulSetBuilder, order: seq<string>, sts: StatefulSet)
    requires sts.spec == b.Desired(order)
    ensures MountsOf(sts, |b.spec.configFiles|)
  {
  }

  /** What a call leaves of the keys: those of the list in hand, or all that were there. */
  lemma KeysAfterCall(k: Key, p: Worker, w: World, w': World, n: nat)
    requires !p.Finished? && Shape(p) && ConfigMapEffect(w, NextOp(k, p), w')
    requires HoldsKeys(k, w, n) && (HasPlan(p) ==> n <= |p.server.spec.configFiles|)
    ensures HoldsKeys(k, w', n)
  {
    if WritesConfigMap(NextOp(k, p)) && w'.configMaps != w.configMaps {
      DataHoldsKeys(p.server.spec.configFiles);
    }
  }

  /** Past the ConfigMap stage the keys of the list in hand are there. */
  lemma KeysBehind(k: Key, p: Worker, w: World, fault: Fault, order: seq<string>)
    requires WorkEnabled(p, order) && Shape(p) && HasPlan(p)
    requires Reporting.Stage(p) > 1 ==> HoldsKeys(k, w, |p.server.spec.configFiles|)
    ensures var (w', reply) := Call(w, NextOp(k, p), fault);
            var p' := Advance(p, reply, order);
            HasPlan(p') && Reporting.Stage(p') > 1 ==>
                p'.server == p.server && HoldsKeys(k, w', |p.server.spec.configFiles|)
  {
    var (w', reply) := Call(w, NextOp(k, p), fault);
    CallOrNothing(w, NextOp(k, p), fault);
    Reporting.StageAdvances(Reporting.Exchange(p, reply, order), p.server, p.def);
    if Reporting.Stage(p) > 1 {
      CallEffect(w, NextOp(k, p), fault);
      KeysAfterCall(k, p, w, w', |p.server.spec.configFiles|);
    } else if p.ConfigMapGet? {
      DataHoldsKeys(p.server.spec.configFiles);
    } else if reply.Done? {
      ConfigMapWritten(w, k, p);
      DataHoldsKeys(p.server.spec.configFiles);
    }
  }

  lemma UpdateKeepsKey(k: Key, w: World, y: Server)
    requires y.key == k && (k in w.servers ==> w.servers[k].key == k)
    ensures k in ExecUpdateServer(w, y).0.servers ==> ExecUpdateServer(w, y).0.servers[k].key == k
    ensures k in ExecUpdateServerStatus(w, y).0.servers ==> ExecUpdateServerStatus(w, y).0.servers[k].key == k
  {
  }

  lemma ServersAfterCall(k: Key, p: Worker, w: World, fault: Fault, order: seq<string>)
    requires WorkEnabled(p, order) && Shape(p) && (HasServer(p) ==> p.server.key == k)
    requires k in w.servers ==> w.servers[k].key == k
    ensures var w' := Call(w, NextOp(k, p), fault).0; k in w'.servers ==> w'.servers[k].key == k
  {
    var op := NextOp(k, p);
    HoldersDoNotWriteServers(k, p, Done, order);
    if IsRead(op) || IsChildWrite(op) {
      OtherCallsKeep(w, op, fault);
    } else {
      CallOrNothing(w, op, fault);
      UpdateKeepsKey(k, w, op.server);
    }
  }

  lemma NewMounts(k: Key, p: Worker, w: World, w': World)
    requires p.StatefulSetCreate? || p.StatefulSetUpdate?
    requires StatefulSetEffect(w, NextOp(k, p), w') && w'.statefulSets != w.statefulSets
    ensures k in w'.statefulSets && MountsOf(w'.statefulSets[k], |p.server.spec.configFiles|)
  {
    BuiltMounts(StatefulSetBuilderFor(p.server, p.def), p.order, NextOp(k, p).sts);
  }

  lemma MountsAfterCall(k: Key, s: Watched, fault: Fault, order: seq<string>, t: Watched)
    requires FilesInv(k, s) && WorkEnabled(s.a.p, order) && t.a == Recovery.Tried(k, s.a, fault, order)
    requires t.longest >= s.longest
    requires k in t.a.w.statefulSets
    requires ReadsServer(t.a.p) && !ReadsServer(s.a.p) ==> |t.a.p.server.spec.configFiles| == s.longest
    ensures exists n :: Mounted(k, t, n)
  {
    var p, w, w' := s.a.p, s.a.w, t.a.w;
    var op := NextOp(k, p);
    CallEffect(w, op, fault);
    AdvanceKeepsServer(p, Call(w, op, fault).1, order);
    if WritesStatefulSet(op) && w'.statefulSets != w.statefulSets {
      var n := |p.server.spec.configFiles|;
      NewMounts(k, p, w, w');
      KeysAfterCall(k, p, w, w', n);
      assert Mounted(k, t, n);
    } else {
      var n :| Mounted(k, s, n);
      KeysAfterCall(k, p, w, w', n);
      assert Mounted(k, t, n);
    }
  }

  lemma CallKeepsFilesInv(k: Key, s: Watched, fault: Fault, order: seq<string>, t: Watched)
    requires FilesInv(k, s) && WorkEnabled(s.a.p, order) && t.a == Recovery.Tried(k, s.a, fault, order)
    requires t.longest >= s.longest
    requires k in t.a.w.servers ==> FilesOf(k, t.a.w) == t.longest
    ensures FilesInv(k, t)
  {
    var p, w := s.a.p, s.a.w;
    var reply := Call(w, NextOp(k, p), fault).1;
    CallOrNothing(w, NextOp(k, p), fault);
    AdvanceKeepsShape(k, p, reply, order);
    AdvanceKeepsServer(p, reply, order);
    ServersAfterCall(k, p, w, fault, order);
    FirstHolds(k, p, w, fault, order);
    if HasPlan(p) {
      KeysBehind(k, p, w, fault, order);
    }
    if k in t.a.w.statefulSets {
      MountsAfterCall(k, s, fault, order, t);
    }
  }

  /** A server in hand was just read, or was in hand before; entering past the ConfigMap
      stage directly means there are no files. */
  lemma FirstHolds(k: Key, p: Worker, w: World, fault: Fault, order: seq<string>)
    requires WorkEnabled(p, order) && Shape(p)
    ensures var (w', reply) := Call(w, NextOp(k, p), fault);
            var p' := Advance(p, reply, order);
            && (HasServer(p') && !HasServer(p) ==>
                  && p.Idle? && k in w.servers && w' == w
                  && p'.server.spec == w.servers[k].spec && p'.server.key == w.servers[k].key)
            && (HasPlan(p') && !HasPlan(p) && Reporting.Stage(p') > 1 ==> p'.server.spec.configFiles == [])
            && (ReadsServer(p') && !ReadsServer(p) ==> p.Idle?)
  {
    CallOrNothing(w, NextOp(k, p), fault);
    var reply := Call(w, NextOp(k, p), fault).1;
    FirstPoint(p, reply, order);
    if p.Idle? && reply.GotServer? {
      assert reply == Exec(w, GetServer(k)).1;
    }
  }

  lemma FirstPoint(p: Worker, reply: Reply, order: seq<string>)
    requires WorkEnabled(p, order) && Shape(p)
    ensures var p' := Advance(p, reply, order);
            && (HasServer(p') && !HasServer(p) ==>
                  && p.Idle? && reply.GotServer?
                  && p'.server.spec == reply.server.spec && p'.server.key == reply.server.key)
            && (HasPlan(p') && !HasPlan(p) && Reporting.Stage(p') > 1 ==> p'.server.spec.configFiles == [])
            && (ReadsServer(p') && !ReadsServer(p) ==> p.Idle?)
  {
  }

  lemma StepKeepsFilesInv(k: Key, s: Watched, t: Watched)
    requires FilesInv(k, s) && WatchedStep(k, s, t)
    ensures FilesInv(k, t)
  {
    if Recovery.FaultyStep(k, s.a, t.a) {
      var fault, order :| WorkEnabled(s.a.p, order) && t.a == Recovery.Tried(k, s.a, fault, order);
      CallKeepsFilesInv(k, s, fault, order, t);
    } else if k in t.a.w.statefulSets {
      var n :| Mounted(k, s, n);
      assert HoldsKeys(k, t.a.w, n);
      assert Mounted(k, t, n);
    }
  }

  /** In a run in which the list is never shortened and nobody else rewrites the two
      children, every key that is mounted is present at every moment, whatever fails. */
  lemma {:induction false} MountsAlwaysPresent(k: Key, run: seq<Watched>, i: int)
    requires GrowingRun(k, run) && 0 <= i < |run|
    ensures FilesInv(k, run[i])
    ensures MountsPresent(k, run[i].a.w)
  {
    if i == 0 {
    } else {
      MountsAlwaysPresent(k, run, i - 1);
      assert WatchedStep(k, run[i - 1], run[(i - 1) + 1]);
      StepKeepsFilesInv(k, run[i - 1], run[i]);
    }
    if k in run[i].a.w.statefulSets {
      var n :| Mounted(k, run[i], n);
      KeysMakeMountsPresent(k, run[i].a.w, n);
    }
  }
}
