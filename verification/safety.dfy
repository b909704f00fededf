// Safety over all interleaved runs.
module Safety {
  import opened Api
  import opened Cluster
  import opened Enumeration
  import opened GameDefinitions
  import opened Machine
  import opened System
  import Services
  import StatefulSets

  // Children are only written under the finalizer.

  /** Whenever a worker is about to write a child, the very server it read is still
      stored, under the finalizer; and a child it creates is owned by that server. */
  lemma ChildWritesAreGuarded(run: seq<State>, i: int, k: Key, fault: Fault, order: seq<string>)
    requires IsRun(run) && 0 <= i < |run| - 1
    requires WorkStep(run[i], k, fault, order, run[i + 1]) && IsChildWrite(NextOp(k, WorkerAt(run[i], k)))
    ensures k in run[i].world.servers && k in run[i + 1].world.servers
    ensures FINALIZER in run[i + 1].world.servers[k].finalizers
    ensures var op, uid := NextOp(k, WorkerAt(run[i], k)), run[i].world.servers[k].uid;
            && uid == WorkerAt(run[i], k).server.uid == run[i + 1].world.servers[k].uid
            && (op.CreateConfigMap? ==> op.configMap.owner == Some(OwnerRef("SteamServer", k.name, uid)))
            && (op.CreateClaim? ==> op.claim.owner == Some(OwnerRef("SteamServer", k.name, uid)))
            && (op.CreateStatefulSet? ==> op.sts.owner == Some(OwnerRef("SteamServer", k.name, uid)))
            && (op.CreateService? ==> op.svc.owner == Some(OwnerRef("SteamServer", k.name, uid)))
  {
    RunInv(run, i);
    var p := WorkerAt(run[i], k);
    assert WorkerOK(run[i].world, k, p);
    HoldersDoNotWriteServers(k, p, Done, order);
    OtherCallsKeep(run[i].world, NextOp(k, p), fault);
  }

  /** A reconcile that reads a deletion timestamp makes at most one more call, which
      takes the finalizer off; it writes no child and asks for no definition. */
  lemma DeletionOnlyRemovesFinalizer(k: Key, x: Server, reply: Reply, order: seq<string>)
    requires x.deleting
    ensures var p := Advance(Idle, GotServer(x), order);
            if FINALIZER in x.finalizers then
              && !p.Finished?
              && NextOp(k, p).UpdateServer? && FINALIZER !in NextOp(k, p).server.finalizers
              && (forall f :: f in x.finalizers && f != FINALIZER ==> f in NextOp(k, p).server.finalizers)
              && Advance(p, reply, order).Finished?
            else p == Finished(Success)
  {
  }

  /** Once that call succeeds the finalizer is off the stored server, and the server is
      gone exactly when nobody else has one on it. */
  lemma RemovalTakesEffect(s: State, k: Key, order: seq<string>, s': State)
    requires Inv(s) && WorkStep(s, k, NoFault, order, s')
    requires WorkerAt(s, k).RemovingFinalizer? && WorkerAt(s', k) == Finished(Success)
    ensures k in s.world.servers
    ensures k in s'.world.servers <==> exists f :: f in s.world.servers[k].finalizers && f != FINALIZER
    ensures k in s'.world.servers ==> FINALIZER !in s'.world.servers[k].finalizers && s'.world.servers[k].deleting
  {
    var p := WorkerAt(s, k);
    assert WorkerOK(s.world, k, p);
    var left := Without(p.server.finalizers, FINALIZER);
    if left != [] {
      assert left[0] in left;
    }
  }

  // Isolation: a worker touches its own server and its own children only.

  lemma NamesInjective(a: Key, b: Key)
    ensures ConfigMapKey(a) == ConfigMapKey(b) <==> a == b
    ensures ClaimKey(a) == ClaimKey(b) <==> a == b
    ensures PodKey(a) == PodKey(b) <==> a == b
  {
    assert forall x: string, suffix: string :: (x + suffix)[..|x + suffix| - |suffix|] == x;
    if ConfigMapKey(a) == ConfigMapKey(b) {
      assert a.name == (a.name + "-config")[..|a.name|] && b.name == (b.name + "-config")[..|b.name|];
    }
    if ClaimKey(a) == ClaimKey(b) {
      assert a.name == (a.name + "-data")[..|a.name|] && b.name == (b.name + "-data")[..|b.name|];
    }
    if PodKey(a) == PodKey(b) {
      assert a.name == (a.name + "-0")[..|a.name|] && b.name == (b.name + "-0")[..|b.name|];
    }
  }

  ghost predicate SameForOthers(w: World, w': World, k: Key) {
    && w'.defs == w.defs && w'.pods == w.pods
    && (forall j :: j != k ==> Find(w'.servers, j) == Find(w.servers, j))
    && (forall j :: j != ConfigMapKey(k) ==> Find(w'.configMaps, j) == Find(w.configMaps, j))
    && (forall j :: j != ClaimKey(k) ==> Find(w'.claims, j) == Find(w.claims, j))
    && (forall j :: j != k ==> Find(w'.statefulSets, j) == Find(w.statefulSets, j))
    && (forall j :: j != k ==> Find(w'.services, j) == Find(w.services, j))
  }

  /** A call on one key leaves every other key alone. */
  predicate OpOf(op: Op, k: Key) {
    match op
    case UpdateServer(x) => x.key == k
    case UpdateServerStatus(x) => x.key == k
    case UpdateDefStatus(_) => false
    case CreateConfigMap(j, _) => j == ConfigMapKey(k)
    case UpdateConfigMap(j, _) => j == ConfigMapKey(k)
    case CreateClaim(j, _) => j == ClaimKey(k)
    case UpdateClaim(j, _) => j == ClaimKey(k)
    case CreateStatefulSet(j, _) => j == k
    case UpdateStatefulSet(j, _) => j == k
    case CreateService(j, _) => j == k
    case UpdateService(j, _) => j == k
    case _ => true
  }

  lemma CallsOfKey(w: World, op: Op, k: Key, w': World)
    requires OpOf(op, k) && Effect(w, op, w')
    ensures SameForOthers(w, w', k)
  {
  }

  lemma WorkIsIsolated(s: State, k: Key, fault: Fault, order: seq<string>, s': State)
    requires Inv(s) && WorkStep(s, k, fault, order, s')
    ensures SameForOthers(s.world, s'.world, k)
    ensures forall j :: j != k ==> WorkerAt(s', j) == WorkerAt(s, j)
  {
    assert WorkerOK(s.world, k, WorkerAt(s, k));
    assert OpOf(NextOp(k, WorkerAt(s, k)), k);
    CallEffect(s.world, NextOp(k, WorkerAt(s, k)), fault);
    CallsOfKey(s.world, NextOp(k, WorkerAt(s, k)), k, s'.world);
  }

  // Claims are never altered but for their labels, and labels settle.

  ghost predicate ClaimInv(s: State) {
    && (forall c :: c in s.world.claims ==> s.world.claims[c].rv <= s.world.clock)
    && (forall k :: var p := WorkerAt(s, k); p.ClaimUpdate? ==>
          LabelsMissing(p) && ClaimCopy(s.world, ClaimKey(k), p.claim))
  }

  ghost predicate LabelsMissing(p: Worker)
    requires p.ClaimUpdate?
  {
    !HasLabels(p.claim.labels, ClaimBuilderFor(p.server, p.def).Labels())
  }

  ghost predicate ClaimCopy(w: World, c: Key, x: Claim) {
    x.rv <= w.clock && (c in w.claims && w.claims[c].rv == x.rv ==> w.claims[c] == x)
  }

  ghost predicate ClaimMoves(w: World, w': World) {
    && w.clock <= w'.clock
    && (forall c :: c in w'.claims ==> (c in w.claims && w'.claims[c] == w.claims[c]) || Fresh(w'.claims[c].rv, w, w'))
  }

  lemma StepMovesClaims(s: State, a: Action, s': State)
    requires Inv(s) && Step(s, a, s')
    ensures ClaimMoves(s.world, s'.world)
  {
    match a
    case Environment =>
      forall c | c in s'.world.claims
        ensures (c in s.world.claims && s'.world.claims[c] == s.world.claims[c])
            || Fresh(s'.world.claims[c].rv, s.world, s'.world)
      {
        assert ClaimEdited(s.world, s'.world, c);
      }
    case Work(k, fault, order) =>
      CallEffect(s.world, NextOp(k, WorkerAt(s, k)), fault);
      EffectMovesClaims(s.world, NextOp(k, WorkerAt(s, k)), s'.world);
    case DefWork(n, fault, error) =>
      CallEffect(s.world, DefNextOp(n, DefWorkerAt(s, n)), fault);
      EffectMovesClaims(s.world, DefNextOp(n, DefWorkerAt(s, n)), s'.world);
    case _ =>
  }

  lemma EffectMovesClaims(w: World, op: Op, w': World)
    requires Effect(w, op, w')
    ensures ClaimMoves(w, w')
  {
  }

  lemma StepKeepsClaimInv(s: State, a: Action, s': State)
    requires Inv(s) && ClaimInv(s) && Step(s, a, s')
    ensures ClaimInv(s')
  {
    StepMovesClaims(s, a, s');
    forall k | WorkerAt(s', k).ClaimUpdate?
      ensures LabelsMissing(WorkerAt(s', k)) && ClaimCopy(s'.world, ClaimKey(k), WorkerAt(s', k).claim)
    {
      if a.Work? && a.key == k {
        WorkReadsClaim(s, k, a.fault, a.order, s');
      } else {
        assert WorkerAt(s', k) == WorkerAt(s, k) || a == Restart(k);
      }
    }
  }

  lemma WorkReadsClaim(s: State, k: Key, fault: Fault, order: seq<string>, s': State)
    requires ClaimInv(s) && WorkStep(s, k, fault, order, s') && WorkerAt(s', k).ClaimUpdate?
    ensures LabelsMissing(WorkerAt(s', k)) && ClaimCopy(s'.world, ClaimKey(k), WorkerAt(s', k).claim)
  {
    var p := WorkerAt(s, k);
    ClaimUpdateCameFrom(p, Call(s.world, NextOp(k, p), fault).1, order);
  }

  lemma ClaimUpdateCameFrom(p: Worker, reply: Reply, order: seq<string>)
    requires !p.Finished? && Advance(p, reply, order).ClaimUpdate?
    ensures p.ClaimGet? && reply == GotClaim(Advance(p, reply, order).claim) && LabelsMissing(Advance(p, reply, order))
  {
  }

  lemma {:induction false} RunClaimInv(run: seq<State>, i: int)
    requires IsRun(run) && 0 <= i < |run|
    ensures ClaimInv(run[i])
  {
    if i == 0 {
    } else {
      RunClaimInv(run, i - 1);
      RunInv(run, i - 1);
      assert Next(run[i - 1], run[(i - 1) + 1]);
      var a :| Step(run[i - 1], a, run[i]);
      StepKeepsClaimInv(run[i - 1], a, run[i]);
    }
  }

  /** The claim after a worker's step: as it was, or with the labels that were missing. */
  ghost predicate OnlyRelabelled(before: Claim, after: Claim, c: Key, k: Key, p: Worker) {
    && after.spec == before.spec && after.owner == before.owner
    && (after.labels == before.labels
        || (&& c == ClaimKey(k) && p.ClaimUpdate?
            && !HasLabels(before.labels, ClaimBuilderFor(p.server, p.def).Labels())
            && OnClaim(p.server, p.def, GotClaim(after)) == StatefulSetGet(p.server, p.def)))
  }

  lemma EffectRelabels(w: World, k: Key, p: Worker, w': World, c: Key)
    requires !p.Finished? && Shape(p) && c in w.claims
    requires p.ClaimUpdate? ==> ClaimCopy(w, ClaimKey(k), p.claim) && LabelsMissing(p)
    requires ClaimEffect(w, NextOp(k, p), w')
    ensures c in w'.claims && OnlyRelabelled(w.claims[c], w'.claims[c], c, k, p)
  {
  }

  /** In every run a worker neither deletes a claim nor changes anything of it but its
      labels; it writes labels only when some are missing, and its next look finds them in order. */
  lemma ClaimsAreOnlyRelabelled(run: seq<State>, i: int, k: Key, fault: Fault, order: seq<string>, c: Key)
    requires IsRun(run) && 0 <= i < |run| - 1
    requires WorkStep(run[i], k, fault, order, run[i + 1]) && c in run[i].world.claims
    ensures c in run[i + 1].world.claims
    ensures OnlyRelabelled(run[i].world.claims[c], run[i + 1].world.claims[c], c, k, WorkerAt(run[i], k))
  {
    RunInv(run, i);
    RunClaimInv(run, i);
    var p, w := WorkerAt(run[i], k), run[i].world;
    assert WorkerOK(w, k, p);
    assert ClaimInv(run[i]);
    CallEffect(w, NextOp(k, p), fault);
    EffectRelabels(w, k, p, run[i + 1].world, c);
  }

  /** Labels that pass for in order are complete but for one kind of gap: an absent label
      whose expected value is empty, such as the game of a server without a definition. */
  lemma LabelsInOrderCompleteIff(actual: map<string, string>, server: string, game: string)
    requires HasLabels(actual, StatefulSets.BaseLabels(server, game))
    ensures Services.Selects(StatefulSets.BaseLabels(server, game), actual)
       <==> (game != "" || StatefulSets.GAME_LABEL in actual) && (server != "" || StatefulSets.INSTANCE_LABEL in actual)
  {
    var expected := StatefulSets.BaseLabels(server, game);
    assert StatefulSets.GAME_LABEL in expected && StatefulSets.INSTANCE_LABEL in expected;
    assert forall k :: k in expected ==> LabelOf(actual, k) == expected[k];
  }
}
