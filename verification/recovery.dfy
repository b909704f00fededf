// Crash recovery: reconciles that are cut off after any prefix of their calls, with
// calls refused and replies lost, leave nothing that a later clean reconcile does not
// complete to what a clean run would have made.
module Recovery {
  import opened Api
  import opened Cluster
  import opened Convergence
  import opened Enumeration
  import opened Machine
  import opened Provenance
  import opened System
  import SecretEnvs
  import StatefulSets

  /** A call with any fault, a crash, or a change by others of anything but the server's spec,
      its definition and the content of its children. */
  ghost predicate RoughStep(k: Key, a: Local, b: Local) {
    FaultyStep(k, a, b) || CrashStep(a, b) || QuietStep(k, a, b)
  }

  ghost predicate FaultyStep(k: Key, a: Local, b: Local) {
    exists fault, order :: WorkEnabled(a.p, order) && b == Tried(k, a, fault, order)
  }

  function Tried(k: Key, a: Local, fault: Fault, order: seq<string>): Local
    requires !a.p.Finished? && (a.p.ClaimCreate? ==> ClaimBuilderFor(a.p.server, a.p.def).Desired().Some?)
  {
    var (w', reply) := Call(a.w, NextOp(k, a.p), fault);
    Local(w', Advance(a.p, reply, order))
  }

  ghost predicate CrashStep(a: Local, b: Local) {
    b == Local(a.w, Idle)
  }

  ghost predicate QuietStep(k: Key, a: Local, b: Local) {
    && a.p == b.p
    && (k in a.w.servers ==>
          && k in b.w.servers
          && var x, y := a.w.servers[k], b.w.servers[k];
             && y.key == x.key && y.uid == x.uid && y.spec == x.spec && y.deleting == x.deleting
             && Find(b.w.defs, x.spec.gameDefinition) == Find(a.w.defs, x.spec.gameDefinition))
    && Find(b.w.configMaps, ConfigMapKey(k)) == Find(a.w.configMaps, ConfigMapKey(k))
    && Find(b.w.claims, ClaimKey(k)) == Find(a.w.claims, ClaimKey(k))
    && (k in b.w.statefulSets <==> k in a.w.statefulSets)
    && (k in a.w.statefulSets ==> SameStatefulSet(a.w.statefulSets[k], b.w.statefulSets[k]))
    && (k in b.w.services <==> k in a.w.services)
    && (k in a.w.services ==> SameService(a.w.services[k], b.w.services[k]))
  }

  ghost predicate RoughRun(k: Key, run: seq<Local>) {
    && |run| > 0
    && (forall i, j :: 0 <= i < j <= i + 1 && j < |run| ==> RoughStep(k, run[i], run[j]))
  }

  /** What stays fixed: which server it is, what it asks for, and the definition that answers. */
  ghost predicate Fits(k: Key, x: Server, y: Server) {
    y.key == k && y.uid == x.uid && y.spec == x.spec && !y.deleting
  }

  ghost predicate Fixed(k: Key, x: Server, d: Option<GameDef>, w: World) {
    && x.key == k && !x.deleting
    && k in w.servers && Fits(k, x, w.servers[k])
    && (d.None? <==> x.spec.gameDefinition == "")
    && (d.Some? ==> Find(w.defs, x.spec.gameDefinition) == d)
    && GateOpen(x, d)
  }

  // Children exactly as a clean run makes them from nothing.

  ghost predicate ExactConfigMap(x: Server, c: ConfigMap) {
    BuiltConfigMap(c, x) && c.owner == Some(OwnerOf(x))
  }

  ghost predicate ExactClaim(x: Server, d: Option<GameDef>, c: Claim) {
    var b := ClaimBuilderFor(x, d);
    Some(c.spec) == b.Desired() && c.labels == b.Labels() && c.owner == Some(OwnerOf(x))
  }

  ghost predicate SomehowBuilt(x: Server, d: Option<GameDef>, c: StatefulSet) {
    exists order :: Enumerates(order, x.spec.config.Keys) && BuiltStatefulSet(c, x, d, order)
  }

  // What reconciles of one server can have made of a child, from what it was at the start.

  predicate ClaimLabelled(x: Server, d: Option<GameDef>, c: Claim) {
    HasLabels(c.labels, ClaimBuilderFor(x, d).Labels())
  }

  ghost predicate ConfigMapSince(x: Server, was: Option<ConfigMap>, now: Option<ConfigMap>) {
    now == was || (now.Some? && ExactConfigMap(x, now.value))
  }

  /** An existing claim keeps its content; labels that were not in order may have been repaired. */
  ghost predicate ClaimSince(x: Server, d: Option<GameDef>, was: Option<Claim>, now: Option<Claim>) {
    match (was, now)
    case (None, None) => true
    case (None, Some(c)) => ExactClaim(x, d, c)
    case (Some(_), None) => false
    case (Some(b), Some(c)) =>
      && c.spec == b.spec && c.owner == b.owner
      && (|| c.labels == b.labels
          || (&& ClaimBuilderFor(x, d).Desired().Some? && !ClaimLabelled(x, d, b)
              && c.labels == ClaimBuilderFor(x, d).Labels()))
  }

  /** An owner is set at creation only. */
  function OwnerSince(x: Server, was: Option<Option<OwnerRef>>): Option<OwnerRef> {
    if was.Some? then was.value else Some(OwnerOf(x))
  }

  function StatefulSetOwner(x: Server, was: Option<StatefulSet>): Option<OwnerRef> {
    OwnerSince(x, if was.Some? then Some(was.value.owner) else None)
  }

  function ServiceOwner(x: Server, was: Option<Service>): Option<OwnerRef> {
    OwnerSince(x, if was.Some? then Some(was.value.owner) else None)
  }

  ghost predicate StatefulSetSince(x: Server, d: Option<GameDef>, was: Option<StatefulSet>, now: Option<StatefulSet>) {
    match (was, now)
    case (_, None) => was.None?
    case (_, Some(c)) =>
      && c.owner == StatefulSetOwner(x, was)
      && (SomehowBuilt(x, d, c) || (was.Some? && c.spec == was.value.spec && c.labels == was.value.labels))
  }

  ghost predicate ServiceSince(x: Server, d: Option<GameDef>, was: Option<Service>, now: Option<Service>) {
    match (was, now)
    case (_, None) => was.None?
    case (_, Some(c)) =>
      && c.owner == ServiceOwner(x, was)
      && (BuiltService(c, x, d) || (was.Some? && SameService(was.value.(writer := c.writer), c)))
  }

  ghost predicate Since(k: Key, x: Server, d: Option<GameDef>, was: World, now: World) {
    && ConfigMapSince(x, Find(was.configMaps, ConfigMapKey(k)), Find(now.configMaps, ConfigMapKey(k)))
    && ClaimSince(x, d, Find(was.claims, ClaimKey(k)), Find(now.claims, ClaimKey(k)))
    && StatefulSetSince(x, d, Find(was.statefulSets, k), Find(now.statefulSets, k))
    && ServiceSince(x, d, Find(was.services, k), Find(now.services, k))
  }

  /** Moreover each child that is asked for is there and as asked for. */
  ghost predicate Complete(k: Key, x: Server, d: Option<GameDef>, was: World, now: World) {
    && Since(k, x, d, was, now)
    && (x.spec.configFiles != [] ==>
          ConfigMapKey(k) in now.configMaps && ExactConfigMap(x, now.configMaps[ConfigMapKey(k)]))
    && (ClaimBuilderFor(x, d).Desired().Some? ==>
          ClaimKey(k) in now.claims && ClaimLabelled(x, d, now.claims[ClaimKey(k)]))
    && k in now.statefulSets && SomehowBuilt(x, d, now.statefulSets[k])
    && k in now.services && BuiltService(now.services[k], x, d)
  }

  /** A worker that read the server and its definition, and copies of such children. */
  ghost predicate Fitting(k: Key, x: Server, d: Option<GameDef>, was: World, p: Worker) {
    && Shape(p)
    && !p.RemovingFinalizer?
    && (HasServer(p) ==> Fits(k, x, p.server))
    && (HasPlan(p) ==> p.def == d)
    && (p.ClaimUpdate? ==> ClaimCopyFits(x, d, Find(was.claims, ClaimKey(k)), p.claim))
    && (p.StatefulSetUpdate? ==> p.sts.owner == StatefulSetOwner(x, Find(was.statefulSets, k)))
    && (p.ServiceUpdate? ==> p.svc.owner == ServiceOwner(x, Find(was.services, k)))
  }

  ghost predicate ClaimCopyFits(x: Server, d: Option<GameDef>, was: Option<Claim>, copy: Claim) {
    && was.Some? && copy.spec == was.value.spec && copy.owner == was.value.owner
    && !ClaimLabelled(x, d, was.value)
  }

  ghost predicate RoughInv(k: Key, x: Server, d: Option<GameDef>, was: World, a: Local) {
    Fixed(k, x, d, a.w) && Since(k, x, d, was, a.w) && Fitting(k, x, d, was, a.p)
  }

  // The builders look at nothing else of a server.

  lemma FittingBuildsSame(k: Key, x: Server, y: Server, d: Option<GameDef>)
    requires Fits(k, x, y) && x.key == k
    ensures StatefulSetBuilderFor(y, d) == StatefulSetBuilderFor(x, d)
    ensures ServiceBuilderFor(y, d) == ServiceBuilderFor(x, d)
    ensures ClaimBuilderFor(y, d) == ClaimBuilderFor(x, d)
    ensures OwnerOf(y) == OwnerOf(x) && ConfigMapLabels(y) == ConfigMapLabels(x)
    ensures GateOpen(y, d) <==> GateOpen(x, d)
  {
  }

  // One rough step.

  lemma ConfigMapAfterCall(k: Key, x: Server, d: Option<GameDef>, was: World, w: World, p: Worker, w': World)
    requires x.key == k && Fitting(k, x, d, was, p) && !p.Finished? && ConfigMapEffect(w, NextOp(k, p), w')
    requires ConfigMapSince(x, Find(was.configMaps, ConfigMapKey(k)), Find(w.configMaps, ConfigMapKey(k)))
    ensures ConfigMapSince(x, Find(was.configMaps, ConfigMapKey(k)), Find(w'.configMaps, ConfigMapKey(k)))
    ensures Exacted(k, x, w) ==> Exacted(k, x, w')
  {
    if WritesConfigMap(NextOp(k, p)) {
      FittingBuildsSame(k, x, p.server, d);
      assert ExactConfigMap(x, NextOp(k, p).configMap);
    }
  }

  ghost predicate Exacted(k: Key, x: Server, w: World) {
    ConfigMapKey(k) in w.configMaps && ExactConfigMap(x, w.configMaps[ConfigMapKey(k)])
  }

  lemma ClaimAfterCall(k: Key, x: Server, d: Option<GameDef>, was: World, w: World, p: Worker, w': World)
    requires x.key == k && Fitting(k, x, d, was, p) && !p.Finished? && ClaimEffect(w, NextOp(k, p), w')
    requires ClaimSince(x, d, Find(was.claims, ClaimKey(k)), Find(w.claims, ClaimKey(k)))
    ensures ClaimSince(x, d, Find(was.claims, ClaimKey(k)), Find(w'.claims, ClaimKey(k)))
    ensures Labelled(k, x, d, w) ==> Labelled(k, x, d, w')
  {
    if WritesClaim(NextOp(k, p)) {
      FittingBuildsSame(k, x, p.server, d);
      assert NextOp(k, p).claim.labels == ClaimBuilderFor(x, d).Labels();
    }
  }

  ghost predicate Labelled(k: Key, x: Server, d: Option<GameDef>, w: World) {
    ClaimKey(k) in w.claims && ClaimLabelled(x, d, w.claims[ClaimKey(k)])
  }

  lemma StatefulSetAfterCall(k: Key, x: Server, d: Option<GameDef>, was: World, w: World, p: Worker, w': World)
    requires x.key == k && Fitting(k, x, d, was, p) && !p.Finished? && StatefulSetEffect(w, NextOp(k, p), w')
    requires StatefulSetSince(x, d, Find(was.statefulSets, k), Find(w.statefulSets, k))
    ensures StatefulSetSince(x, d, Find(was.statefulSets, k), Find(w'.statefulSets, k))
    ensures BuiltThere(k, x, d, w) ==> BuiltThere(k, x, d, w')
  {
    if WritesStatefulSet(NextOp(k, p)) && w'.statefulSets != w.statefulSets {
      FittingBuildsSame(k, x, p.server, d);
      assert BuiltStatefulSet(NextOp(k, p).sts, x, d, p.order);
      assert BuiltStatefulSet(w'.statefulSets[k], x, d, p.order);
    }
  }

  ghost predicate BuiltThere(k: Key, x: Server, d: Option<GameDef>, w: World) {
    k in w.statefulSets && SomehowBuilt(x, d, w.statefulSets[k])
  }

  lemma ServiceAfterCall(k: Key, x: Server, d: Option<GameDef>, was: World, w: World, p: Worker, w': World)
    requires x.key == k && Fitting(k, x, d, was, p) && !p.Finished? && ServiceEffect(w, NextOp(k, p), w')
    requires ServiceSince(x, d, Find(was.services, k), Find(w.services, k))
    ensures ServiceSince(x, d, Find(was.services, k), Find(w'.services, k))
    ensures ServedThere(k, x, d, w) ==> ServedThere(k, x, d, w')
  {
    if WritesService(NextOp(k, p)) && w'.services != w.services {
      FittingBuildsSame(k, x, p.server, d);
      NoNodePorts(ServiceBuilderFor(x, d).GetPorts());
      assert BuiltService(NextOp(k, p).svc, x, d);
      assert BuiltService(w'.services[k], x, d);
    }
  }

  ghost predicate ServedThere(k: Key, x: Server, d: Option<GameDef>, w: World) {
    k in w.services && BuiltService(w.services[k], x, d)
  }

  lemma FixedAfterUpdate(k: Key, x: Server, d: Option<GameDef>, w: World, y: Server)
    requires Fixed(k, x, d, w) && y.key == k && y.spec == x.spec
    ensures Fixed(k, x, d, ExecUpdateServer(w, y).0)
  {
    var next := w.servers[k].(spec := y.spec, finalizers := y.finalizers);
    assert PutServer(w, k, next).servers[k] == next.(rv := w.clock + 1);
  }

  lemma FixedAfterStatus(k: Key, x: Server, d: Option<GameDef>, w: World, y: Server)
    requires Fixed(k, x, d, w) && y.key == k
    ensures Fixed(k, x, d, ExecUpdateServerStatus(w, y).0)
  {
  }

  lemma FixedAfterCall(k: Key, x: Server, d: Option<GameDef>, was: World, w: World, p: Worker, fault: Fault,
                       order: seq<string>)
    requires Fixed(k, x, d, w) && Fitting(k, x, d, was, p) && WorkEnabled(p, order)
    ensures Fixed(k, x, d, Call(w, NextOp(k, p), fault).0)
  {
    HoldersDoNotWriteServers(k, p, Done, order);
    var op := NextOp(k, p);
    if IsRead(op) || IsChildWrite(op) {
      OtherCallsKeep(w, op, fault);
    } else {
      CallOrNothing(w, op, fault);
      FixedAfterUpdate(k, x, d, w, op.server);
      FixedAfterStatus(k, x, d, w, op.server);
    }
  }

  lemma FittingAfterReply(k: Key, x: Server, d: Option<GameDef>, was: World, w: World, p: Worker, reply: Reply,
                          order: seq<string>)
    requires Fixed(k, x, d, w) && Since(k, x, d, was, w) && Fitting(k, x, d, was, p) && WorkEnabled(p, order)
    requires reply.Failed? || reply == Exec(w, NextOp(k, p)).1
    ensures Fitting(k, x, d, was, Advance(p, reply, order))
  {
    var p' := Advance(p, reply, order);
    AdvanceKeepsShape(k, p, reply, order);
    AdvanceKeepsServer(p, reply, order);
    PlanKept(p, reply, order);
    CopiesAreRead(p, reply, order);
    CopiesFit(k, x, d, was, w, p, reply, p');
  }

  lemma CopiesFit(k: Key, x: Server, d: Option<GameDef>, was: World, w: World, p: Worker, reply: Reply, p': Worker)
    requires Fixed(k, x, d, w) && Since(k, x, d, was, w) && Fitting(k, x, d, was, p) && !p.Finished?
    requires reply.Failed? || reply == Exec(w, NextOp(k, p)).1
    requires p'.ClaimUpdate? ==> p.ClaimGet? && reply == GotClaim(p'.claim) && !ClaimLabelled(p.server, p.def, p'.claim)
    requires p'.StatefulSetUpdate? ==> p.StatefulSetGet? && reply == GotStatefulSet(p'.sts)
    requires p'.ServiceUpdate? ==> p.ServiceGet? && reply == GotService(p'.svc)
    ensures p'.ClaimUpdate? ==> ClaimCopyFits(x, d, Find(was.claims, ClaimKey(k)), p'.claim)
    ensures p'.StatefulSetUpdate? ==> p'.sts.owner == StatefulSetOwner(x, Find(was.statefulSets, k))
    ensures p'.ServiceUpdate? ==> p'.svc.owner == ServiceOwner(x, Find(was.services, k))
  {
    if p'.ClaimUpdate? {
      FittingBuildsSame(k, x, p.server, d);
      assert Find(w.claims, ClaimKey(k)) == Some(p'.claim);
      assert !ClaimLabelled(x, d, p'.claim);
    }
  }

  /** A copy of a child is what the reply just showed. */
  lemma CopiesAreRead(p: Worker, reply: Reply, order: seq<string>)
    requires !p.Finished?
    ensures var p' := Advance(p, reply, order);
            && (p'.ClaimUpdate? ==>
                  p.ClaimGet? && reply == GotClaim(p'.claim) && !ClaimLabelled(p.server, p.def, p'.claim))
            && (p'.StatefulSetUpdate? ==> p.StatefulSetGet? && reply == GotStatefulSet(p'.sts))
            && (p'.ServiceUpdate? ==> p.ServiceGet? && reply == GotService(p'.svc))
            && (p'.RemovingFinalizer? ==> p.Idle? && reply.GotServer? && reply.server.deleting)
  {
  }

  lemma RoughStepStays(k: Key, x: Server, d: Option<GameDef>, was: World, a: Local, b: Local)
    requires RoughInv(k, x, d, was, a) && RoughStep(k, a, b)
    ensures RoughInv(k, x, d, was, b)
    ensures Complete(k, x, d, was, a.w) ==> Complete(k, x, d, was, b.w)
  {
    if QuietStep(k, a, b) {
      QuietStays(k, x, d, was, a, b);
    } else if FaultyStep(k, a, b) {
      FaultyStays(k, x, d, was, a, b);
    }
  }

  lemma FaultyStays(k: Key, x: Server, d: Option<GameDef>, was: World, a: Local, b: Local)
    requires RoughInv(k, x, d, was, a) && FaultyStep(k, a, b)
    ensures RoughInv(k, x, d, was, b)
    ensures Complete(k, x, d, was, a.w) ==> Complete(k, x, d, was, b.w)
  {
    var fault, order :| WorkEnabled(a.p, order) && b == Tried(k, a, fault, order);
    var op := NextOp(k, a.p);
    CallEffect(a.w, op, fault);
    ChildrenAfterCall(k, x, d, was, a.w, a.p, b.w);
    FixedAfterCall(k, x, d, was, a.w, a.p, fault, order);
    CallOrNothing(a.w, op, fault);
    FittingAfterReply(k, x, d, was, a.w, a.p, Call(a.w, op, fault).1, order);
  }

  lemma ChildrenAfterCall(k: Key, x: Server, d: Option<GameDef>, was: World, w: World, p: Worker, w': World)
    requires x.key == k && Since(k, x, d, was, w) && Fitting(k, x, d, was, p) && !p.Finished?
    requires Effect(w, NextOp(k, p), w')
    ensures Since(k, x, d, was, w')
    ensures Complete(k, x, d, was, w) ==> Complete(k, x, d, was, w')
  {
    ConfigMapAfterCall(k, x, d, was, w, p, w');
    ClaimAfterCall(k, x, d, was, w, p, w');
    StatefulSetAfterCall(k, x, d, was, w, p, w');
    ServiceAfterCall(k, x, d, was, w, p, w');
    assert Complete(k, x, d, was, w) ==>
      && (x.spec.configFiles != [] ==> Exacted(k, x, w))
      && (ClaimBuilderFor(x, d).Desired().Some? ==> Labelled(k, x, d, w))
      && BuiltThere(k, x, d, w) && ServedThere(k, x, d, w);
  }

  lemma QuietStays(k: Key, x: Server, d: Option<GameDef>, was: World, a: Local, b: Local)
    requires RoughInv(k, x, d, was, a) && QuietStep(k, a, b)
    ensures RoughInv(k, x, d, was, b)
    ensures Complete(k, x, d, was, a.w) ==> Complete(k, x, d, was, b.w)
  {
    QuietStatefulSet(k, x, d, was, a, b);
    QuietService(k, x, d, was, a, b);
  }

  lemma QuietStatefulSet(k: Key, x: Server, d: Option<GameDef>, was: World, a: Local, b: Local)
    requires QuietStep(k, a, b) && StatefulSetSince(x, d, Find(was.statefulSets, k), Find(a.w.statefulSets, k))
    ensures StatefulSetSince(x, d, Find(was.statefulSets, k), Find(b.w.statefulSets, k))
    ensures BuiltThere(k, x, d, a.w) ==> BuiltThere(k, x, d, b.w)
  {
    if BuiltThere(k, x, d, a.w) {
      var order :| Enumerates(order, x.spec.config.Keys) && BuiltStatefulSet(a.w.statefulSets[k], x, d, order);
      assert BuiltStatefulSet(b.w.statefulSets[k], x, d, order);
    }
  }

  lemma QuietService(k: Key, x: Server, d: Option<GameDef>, was: World, a: Local, b: Local)
    requires QuietStep(k, a, b) && ServiceSince(x, d, Find(was.services, k), Find(a.w.services, k))
    ensures ServiceSince(x, d, Find(was.services, k), Find(b.w.services, k))
    ensures ServedThere(k, x, d, a.w) ==> ServedThere(k, x, d, b.w)
  {
  }

  lemma {:induction false} RoughRunStays(k: Key, x: Server, d: Option<GameDef>, was: World, run: seq<Local>, i: int)
    requires RoughRun(k, run) && RoughInv(k, x, d, was, run[0]) && 0 <= i < |run|
    ensures RoughInv(k, x, d, was, run[i])
    ensures Complete(k, x, d, was, run[0].w) ==> Complete(k, x, d, was, run[i].w)
  {
    if i == 0 {
    } else {
      RoughRunStays(k, x, d, was, run, i - 1);
      assert RoughStep(k, run[i - 1], run[(i - 1) + 1]);
      RoughStepStays(k, x, d, was, run[i - 1], run[i]);
    }
  }

  lemma SinceItself(k: Key, x: Server, d: Option<GameDef>, w: World)
    ensures Since(k, x, d, w, w)
  {
    if k in w.services {
      var svc := w.services[k];
      assert svc.(writer := svc.writer) == svc;
    }
  }

  /** No ConfigMap that is asked for is in another controller's hands. */
  predicate Unclaimed(k: Key, x: Server, w: World) {
    x.spec.configFiles != [] && ConfigMapKey(k) in w.configMaps ==>
        !OwnedByAnother(w.configMaps[ConfigMapKey(k)].owner, x)
  }

  lemma CleanRunIsRough(k: Key, clean: seq<Local>)
    requires CleanRun(k, clean)
    ensures RoughRun(k, clean)
  {
    forall i | 0 <= i < |clean| - 1 ensures RoughStep(k, clean[i], clean[i + 1]) {
      CleanIsRough(k, clean, i);
    }
  }

  lemma CleanIsRough(k: Key, clean: seq<Local>, i: int)
    requires CleanRun(k, clean) && 0 <= i < |clean| - 1
    ensures RoughStep(k, clean[i], clean[i + 1])
  {
    var a, b := clean[i], clean[i + 1];
    if CleanStep(k, a, b) {
      var order :| WorkEnabled(a.p, order) && b == Moved(k, a, order);
      assert b == Tried(k, a, NoFault, order);
    } else {
      assert CalmStep(k, a, b);
      assert QuietStep(k, a, b);
    }
  }

  /** A finished clean reconcile of a server under the finalizer completes the children. */
  lemma CleanReconcileCompletes(k: Key, x: Server, d: Option<GameDef>, was: World, clean: seq<Local>)
    requires CleanRun(k, clean) && clean[|clean| - 1].p.Finished? && RoughInv(k, x, d, was, clean[0])
    requires Unclaimed(k, x, was)
    requires FINALIZER in clean[0].w.servers[k].finalizers
    ensures Complete(k, x, d, was, clean[|clean| - 1].w)
  {
    var y := clean[0].w.servers[k];
    FittingBuildsSame(k, x, y, d);
    assert Setting(k, y, d, clean[0].w);
    CleanReconcileConverges(k, y, d, clean);
    CleanRunIsRough(k, clean);
    RoughRunStays(k, x, d, was, clean, |clean| - 1);
    ArrivedIsComplete(k, x, y, d, was, clean[|clean| - 1]);
  }

  lemma ArrivedIsComplete(k: Key, x: Server, y: Server, d: Option<GameDef>, was: World, a: Local)
    requires x.key == k && Fits(k, x, y) && Arrived(k, y, d, a) && Since(k, x, d, was, a.w)
    ensures Complete(k, x, d, was, a.w)
  {
    FittingBuildsSame(k, x, y, d);
  }

  // The first reconcile of a server that lacks the finalizer.

  ghost predicate AddsFinalizer(k: Key, a: Local) {
    && k in a.w.servers && a.w.servers[k].key == k && !a.w.servers[k].deleting
    && match a.p
       case Idle => FINALIZER !in a.w.servers[k].finalizers
       case AddingFinalizer(y) => y == a.w.servers[k] && FINALIZER !in y.finalizers
       case Finished(outcome) => outcome == Requeue && FINALIZER in a.w.servers[k].finalizers
       case _ => false
  }

  lemma FirstReconcileStep(k: Key, a: Local, b: Local)
    requires AddsFinalizer(k, a) && (CleanStep(k, a, b) || CalmStep(k, a, b))
    ensures AddsFinalizer(k, b)
  {
    if CleanStep(k, a, b) {
      var order :| WorkEnabled(a.p, order) && b == Moved(k, a, order);
      if a.p.AddingFinalizer? {
        FirstReconcileAddsFinalizer(k, a.w, order);
      }
    }
  }

  lemma {:induction false} FirstReconcile(k: Key, clean: seq<Local>, i: int)
    requires CleanRun(k, clean) && AddsFinalizer(k, clean[0]) && 0 <= i < |clean|
    ensures AddsFinalizer(k, clean[i])
  {
    if i == 0 {
    } else {
      FirstReconcile(k, clean, i - 1);
      assert CleanStep(k, clean[i - 1], clean[(i - 1) + 1]) || CalmStep(k, clean[i - 1], clean[(i - 1) + 1]);
      FirstReconcileStep(k, clean[i - 1], clean[i]);
    }
  }

  /** Two finished clean reconciles complete the children, and one does once the finalizer is on. */
  lemma TwoCleanReconcilesComplete(k: Key, x: Server, d: Option<GameDef>, was: World, first: seq<Local>,
                                   second: seq<Local>)
    requires CleanRun(k, first) && first[|first| - 1].p.Finished?
    requires RoughInv(k, x, d, was, first[0]) && Unclaimed(k, x, was)
    requires CleanRun(k, second) && second[0].w == first[|first| - 1].w && second[|second| - 1].p.Finished?
    ensures Complete(k, x, d, was, second[|second| - 1].w)
    ensures FINALIZER in first[0].w.servers[k].finalizers ==> Complete(k, x, d, was, first[|first| - 1].w)
  {
    CleanRunIsRough(k, first);
    RoughRunStays(k, x, d, was, first, |first| - 1);
    CleanRunIsRough(k, second);
    RoughRunStays(k, x, d, was, second, |second| - 1);
    if FINALIZER in first[0].w.servers[k].finalizers {
      CleanReconcileCompletes(k, x, d, was, first);
    } else {
      FirstReconcile(k, first, |first| - 1);
      CleanReconcileCompletes(k, x, d, was, second);
    }
  }

  /** From any state of the children, whatever reconciles were cut off wherever: two clean
      reconciles complete every child, and one does once the finalizer is on. */
  lemma CutOffReconcilesRecover(k: Key, x: Server, d: Option<GameDef>, rough: seq<Local>, first: seq<Local>,
                                second: seq<Local>)
    requires RoughRun(k, rough) && rough[0].p == Idle && Fixed(k, x, d, rough[0].w) && Unclaimed(k, x, rough[0].w)
    requires CleanRun(k, first) && first[0].w == rough[|rough| - 1].w && first[|first| - 1].p.Finished?
    requires CleanRun(k, second) && second[0].w == first[|first| - 1].w && second[|second| - 1].p.Finished?
    ensures Complete(k, x, d, rough[0].w, second[|second| - 1].w)
    ensures k in first[0].w.servers && FINALIZER in first[0].w.servers[k].finalizers ==>
              Complete(k, x, d, rough[0].w, first[|first| - 1].w)
  {
    SinceItself(k, x, d, rough[0].w);
    RoughRunStays(k, x, d, rough[0].w, rough, |rough| - 1);
    TwoCleanReconcilesComplete(k, x, d, rough[0].w, first, second);
  }

  // Completed children are determined by what they were at the start.

  /** The same but for what the cluster fills in, and for the order of the secret entries. */
  ghost predicate SameChildren(k: Key, x: Server, v: World, w: World) {
    && SameConfigMap(Find(v.configMaps, ConfigMapKey(k)), Find(w.configMaps, ConfigMapKey(k)))
    && SameClaim(Find(v.claims, ClaimKey(k)), Find(w.claims, ClaimKey(k)))
    && k in v.statefulSets && k in w.statefulSets
    && v.statefulSets[k].labels == w.statefulSets[k].labels && v.statefulSets[k].owner == w.statefulSets[k].owner
    && (SecretEnvs.CollisionsAgree(x.spec.config) ==>
          StatefulSets.SameUpToEnvOrder(v.statefulSets[k].spec, w.statefulSets[k].spec))
    && k in v.services && k in w.services
    && SameService(v.services[k].(writer := w.services[k].writer), w.services[k])
  }

  predicate SameConfigMap(a: Option<ConfigMap>, b: Option<ConfigMap>) {
    match (a, b)
    case (Some(v), Some(w)) => v.(rv := w.rv, writer := w.writer) == w
    case _ => a == b
  }

  predicate SameClaim(a: Option<Claim>, b: Option<Claim>) {
    match (a, b)
    case (Some(v), Some(w)) => v.(rv := w.rv, writer := w.writer) == w
    case _ => a == b
  }

  lemma CompleteConfigMapsAgree(k: Key, x: Server, d: Option<GameDef>, was: World, v: World, w: World)
    requires Complete(k, x, d, was, v) && Complete(k, x, d, was, w)
    ensures SameConfigMap(Find(v.configMaps, ConfigMapKey(k)), Find(w.configMaps, ConfigMapKey(k)))
  {
  }

  lemma CompleteClaimsAgree(k: Key, x: Server, d: Option<GameDef>, was: World, v: World, w: World)
    requires Complete(k, x, d, was, v) && Complete(k, x, d, was, w)
    ensures SameClaim(Find(v.claims, ClaimKey(k)), Find(w.claims, ClaimKey(k)))
  {
    var b := ClaimBuilderFor(x, d);
    assert HasLabels(b.Labels(), b.Labels());
    if ClaimKey(k) in was.claims && b.Desired().Some? {
      assert Labelled(k, x, d, v) && Labelled(k, x, d, w);
    }
  }

  lemma CompleteChildrenAgree(k: Key, x: Server, d: Option<GameDef>, was: World, v: World, w: World)
    requires Complete(k, x, d, was, v) && Complete(k, x, d, was, w)
    ensures SameChildren(k, x, v, w)
  {
    CompleteConfigMapsAgree(k, x, d, was, v, w);
    CompleteClaimsAgree(k, x, d, was, v, w);
    var o :| Enumerates(o, x.spec.config.Keys) && BuiltStatefulSet(v.statefulSets[k], x, d, o);
    var r :| Enumerates(r, x.spec.config.Keys) && BuiltStatefulSet(w.statefulSets[k], x, d, r);
    if SecretEnvs.CollisionsAgree(x.spec.config) {
      StatefulSets.BuildUpToOrder(StatefulSetBuilderFor(x, d), o, r);
    }
  }

  /** Reconciles cut off anywhere and then two clean ones leave the same children as two clean
      ones right from the start, from any state of the children. */
  lemma RecoveredIsClean(k: Key, x: Server, d: Option<GameDef>,
                         rough: seq<Local>, first: seq<Local>, second: seq<Local>,
                         cleanFirst: seq<Local>, cleanSecond: seq<Local>)
    requires RoughRun(k, rough) && rough[0].p == Idle && Fixed(k, x, d, rough[0].w) && Unclaimed(k, x, rough[0].w)
    requires CleanRun(k, first) && first[0].w == rough[|rough| - 1].w && first[|first| - 1].p.Finished?
    requires CleanRun(k, second) && second[0].w == first[|first| - 1].w && second[|second| - 1].p.Finished?
    requires CleanRun(k, cleanFirst) && cleanFirst[0].w == rough[0].w && cleanFirst[|cleanFirst| - 1].p.Finished?
    requires CleanRun(k, cleanSecond) && cleanSecond[0].w == cleanFirst[|cleanFirst| - 1].w
    requires cleanSecond[|cleanSecond| - 1].p.Finished?
    ensures SameChildren(k, x, second[|second| - 1].w, cleanSecond[|cleanSecond| - 1].w)
    ensures FINALIZER in rough[0].w.servers[k].finalizers ==>
              SameChildren(k, x, second[|second| - 1].w, cleanFirst[|cleanFirst| - 1].w)
  {
    var was := rough[0].w;
    CutOffReconcilesRecover(k, x, d, rough, first, second);
    CutOffReconcilesRecover(k, x, d, [rough[0]], cleanFirst, cleanSecond);
    CompleteChildrenAgree(k, x, d, was, second[|second| - 1].w, cleanSecond[|cleanSecond| - 1].w);
    if FINALIZER in was.servers[k].finalizers {
      CompleteChildrenAgree(k, x, d, was, second[|second| - 1].w, cleanFirst[|cleanFirst| - 1].w);
    }
  }

  // Once complete, always complete.

  predicate NoPendingWrite(p: Worker) {
    !p.ConfigMapCreate? && !p.ConfigMapUpdate? && !p.ClaimCreate? && !p.ClaimUpdate?
  }

  lemma PendingCameFrom(p: Worker, reply: Reply, order: seq<string>)
    requires !p.Finished? && NoPendingWrite(p)
    ensures NoPendingWrite(Advance(p, reply, order))
            || (p.ConfigMapGet? && (|| reply == Failed(NotFound)
                                    || (reply.GotConfigMap?
                                          && MutatedConfigMap(p.server, reply.configMap) != reply.configMap)))
            || (p.ClaimGet? && (|| reply == Failed(NotFound)
                                || (reply.GotClaim? && !ClaimLabelled(p.server, p.def, reply.claim))))
  {
  }

  lemma NoWriteNeeded(k: Key, x: Server, d: Option<GameDef>, was: World, w: World, p: Worker, fault: Fault,
                      order: seq<string>)
    requires x.key == k && Complete(k, x, d, was, w) && Fitting(k, x, d, was, p) && NoPendingWrite(p)
    requires WorkEnabled(p, order)
    ensures NoPendingWrite(Advance(p, Call(w, NextOp(k, p), fault).1, order))
  {
    var reply := Call(w, NextOp(k, p), fault).1;
    PendingCameFrom(p, reply, order);
    if p.ConfigMapGet? {
      ConfigMapInOrder(k, x, d, was, w, p, fault);
    } else if p.ClaimGet? {
      ClaimInOrder(k, x, d, was, w, p, fault);
    }
  }

  lemma ConfigMapInOrder(k: Key, x: Server, d: Option<GameDef>, was: World, w: World, p: Worker, fault: Fault)
    requires x.key == k && Complete(k, x, d, was, w) && Fitting(k, x, d, was, p) && p.ConfigMapGet?
    ensures var reply := Call(w, GetConfigMap(ConfigMapKey(k)), fault).1;
            reply == Failed(Unavailable)
                || (reply.GotConfigMap? && MutatedConfigMap(p.server, reply.configMap) == reply.configMap)
  {
    FittingBuildsSame(k, x, p.server, d);
    assert MutatedConfigMap(p.server, w.configMaps[ConfigMapKey(k)]) == w.configMaps[ConfigMapKey(k)];
  }

  lemma ClaimInOrder(k: Key, x: Server, d: Option<GameDef>, was: World, w: World, p: Worker, fault: Fault)
    requires x.key == k && Complete(k, x, d, was, w) && Fitting(k, x, d, was, p) && p.ClaimGet?
    ensures var reply := Call(w, GetClaim(ClaimKey(k)), fault).1;
            reply == Failed(Unavailable) || (reply.GotClaim? && ClaimLabelled(p.server, p.def, reply.claim))
  {
    FittingBuildsSame(k, x, p.server, d);
  }

  /** Once complete, the children stay complete under every further step, rough or not, and
      the ConfigMap and the claim are never written again. */
  lemma CompleteStaysComplete(k: Key, x: Server, d: Option<GameDef>, was: World, run: seq<Local>, i: int)
    requires RoughRun(k, run) && run[0].p == Idle && 0 <= i < |run|
    requires Fixed(k, x, d, run[0].w) && Complete(k, x, d, was, run[0].w)
    ensures Complete(k, x, d, was, run[i].w)
    ensures Find(run[i].w.configMaps, ConfigMapKey(k)) == Find(run[0].w.configMaps, ConfigMapKey(k))
    ensures Find(run[i].w.claims, ClaimKey(k)) == Find(run[0].w.claims, ClaimKey(k))
  {
    StaysUnwritten(k, x, d, was, run, i);
  }

  ghost predicate Quiescent(k: Key, x: Server, d: Option<GameDef>, was: World, a: Local) {
    RoughInv(k, x, d, was, a) && Complete(k, x, d, was, a.w) && NoPendingWrite(a.p)
  }

  lemma {:induction false} StaysUnwritten(k: Key, x: Server, d: Option<GameDef>, was: World, run: seq<Local>, i: int)
    requires RoughRun(k, run) && Quiescent(k, x, d, was, run[0]) && 0 <= i < |run|
    ensures Quiescent(k, x, d, was, run[i])
    ensures Find(run[i].w.configMaps, ConfigMapKey(k)) == Find(run[0].w.configMaps, ConfigMapKey(k))
    ensures Find(run[i].w.claims, ClaimKey(k)) == Find(run[0].w.claims, ClaimKey(k))
  {
    if i == 0 {
    } else {
      StaysUnwritten(k, x, d, was, run, i - 1);
      assert RoughStep(k, run[i - 1], run[(i - 1) + 1]);
      StillUnwritten(k, x, d, was, run[i - 1], run[i]);
    }
  }

  lemma StillUnwritten(k: Key, x: Server, d: Option<GameDef>, was: World, a: Local, b: Local)
    requires Quiescent(k, x, d, was, a) && RoughStep(k, a, b)
    ensures Quiescent(k, x, d, was, b)
    ensures Find(b.w.configMaps, ConfigMapKey(k)) == Find(a.w.configMaps, ConfigMapKey(k))
    ensures Find(b.w.claims, ClaimKey(k)) == Find(a.w.claims, ClaimKey(k))
  {
    RoughStepStays(k, x, d, was, a, b);
    if FaultyStep(k, a, b) {
      var fault, order :| WorkEnabled(a.p, order) && b == Tried(k, a, fault, order);
      NoWriteNeeded(k, x, d, was, a.w, a.p, fault, order);
      CallEffect(a.w, NextOp(k, a.p), fault);
      LeftAlone(k, a.p, a.w, b.w);
    }
  }

  lemma LeftAlone(k: Key, p: Worker, w: World, w': World)
    requires !p.Finished? && NoPendingWrite(p) && Shape(p)
    requires ConfigMapEffect(w, NextOp(k, p), w') && ClaimEffect(w, NextOp(k, p), w')
    ensures w'.configMaps == w.configMaps && w'.claims == w.claims
  {
  }
}
