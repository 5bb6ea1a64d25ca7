/** The standalone / mysql_upgrade / relabel protocol as a state machine: rounds issue their calls
    one at a time, the environment acts between any two, and the operator may stop between any two. */
module Protocol {
  import opened ApiStore
  import opened Status
  import opened PodTemplate
  import opened Round
  import opened RoundFacts
  import opened Sync

  /** `pending` is what the running round has still to issue. */
  datatype Machine = Machine(world: World, pending: seq<ApiCall>)

  // ---- The steps --------------------------------------------------------------------------

  /** Anything but the operator: pods change health, addresses and wsrep answers, pods and claims
      are deleted by users, controllers and nodes, and disappear. */
  ghost predicate Environment(w: World, v: World) {
    && v.prepared == w.prepared
    && (forall s :: s in v.pods ==>
          && s in w.pods
          && v.pods[s].suffix == w.pods[s].suffix && v.pods[s].labels == w.pods[s].labels
          && v.pods[s].clusterInit == w.pods[s].clusterInit && v.pods[s].image == w.pods[s].image)
    && (forall id :: id in v.claims ==>
          && id in w.claims
          && v.claims[id] == w.claims[id].(terminating := v.claims[id].terminating))
  }

  /** A sync starts: it lists the store, with any spec and any answers, and plans its calls. Only a
      prefix may ever be issued: a rejected call or an error ends the round. */
  ghost predicate Begins(a: Machine, b: Machine, y: SyncInput) {
    && a.pending == []
    && Lists(a.world, y.round.pods, y.round.claims)
    && CanDraw(y.round)
    && b == Machine(a.world, SyncPlan(y).calls)
  }

  ghost predicate Issues(a: Machine, b: Machine) {
    && a.pending != [] && Accepts(a.world, a.pending[0])
    && b == Machine(Apply(a.world, a.pending[0]), a.pending[1..])
  }

  /** The operator crashes, or its call is rejected and the round ends in an error. */
  ghost predicate Stops(a: Machine, b: Machine) { b == Machine(a.world, []) }

  ghost predicate Steps(a: Machine, b: Machine) {
    || (exists y :: Begins(a, b, y))
    || Issues(a, b)
    || Stops(a, b)
    || (Environment(a.world, b.world) && b.pending == a.pending)
  }

  const EMPTY := World(map[], map[], map[])

  ghost predicate IsRun(run: seq<Machine>) {
    && run != [] && run[0] == Machine(EMPTY, [])
    && forall i :: 0 <= i < |run| - 1 ==> Steps(run[i], run[i + 1])
  }

  // ---- The invariant ----------------------------------------------------------------------

  function PreparedOf(w: World, s: Suffix): set<Revision> {
    if s in w.prepared then w.prepared[s] else {}
  }

  ghost predicate Keyed(w: World) {
    && (forall s :: s in w.pods ==> w.pods[s].suffix == s)
    && (forall id :: id in w.claims ==> w.claims[id].id == id)
  }

  /** A pod in cluster state runs on a claim of its own revision. */
  ghost predicate ClusterMatches(w: World) {
    forall s :: s in w.pods && w.pods[s].labels.state.Cluster? && DataId(s) in w.claims ==>
      w.claims[DataId(s)].rev == w.pods[s].labels.rev
  }

  /** A claim carries only a revision its data was made ready for. */
  ghost predicate ClaimsReady(w: World) {
    forall s :: DataId(s) in w.claims ==> w.claims[DataId(s)].rev in PreparedOf(w, s)
  }

  /** A pod without backup label has no backup claim of its suffix. */
  ghost predicate BackupsOwned(w: World) {
    forall s :: s in w.pods && BackupId(s) in w.claims ==> IsBackup(w.pods[s])
  }

  ghost predicate Inv(w: World) {
    Keyed(w) && ClusterMatches(w) && ClaimsReady(w) && BackupsOwned(w)
  }

  predicate SameCore(a: Labels, b: Labels) {
    a.state == b.state && a.rev == b.rev && (a.backup == Some(true) <==> b.backup == Some(true))
  }

  /** What must hold when a call is issued. */
  ghost predicate Safe(w: World, c: ApiCall) {
    match c
    case PatchPod(s, l) => s in w.pods ==> SameCore(l, w.pods[s].labels)
    case DeletePod(_) => true
    case DeleteClaim(_) => true
    case CreateClaim(id, _, _) => id.suffix !in w.pods && id !in w.claims
    case CreatePod(p) =>
      && p.suffix !in w.pods
      && (p.labels.state.Cluster? && DataId(p.suffix) in w.claims ==> w.claims[DataId(p.suffix)].rev == p.labels.rev)
      && (BackupId(p.suffix) in w.claims ==> IsBackup(p))
    case MysqlUpgrade(s) => s in w.pods ==> w.pods[s].labels.state.Standalone?
    case PatchClaim(s, r) =>
      && (s in w.pods ==> w.pods[s].labels.state.Standalone?)
      && (DataId(s) in w.claims ==> r in PreparedOf(w, s))
  }

  /** Every pending call will be safe when its turn comes, if the environment stays quiet. */
  ghost predicate AllSafe(w: World, calls: seq<ApiCall>)
    decreases calls
  {
    calls == [] ||
    (Safe(w, calls[0]) && (Accepts(w, calls[0]) ==> AllSafe(Apply(w, calls[0]), calls[1..])))
  }

  /** v is w with objects gone and nothing the protocol relies on changed. */
  ghost predicate Below(v: World, w: World) { PodsBelow(v, w) && ClaimsBelow(v, w) && MoreReady(v, w) }

  ghost predicate PodsBelow(v: World, w: World) {
    forall s :: s in v.pods ==> s in w.pods && SameCore(v.pods[s].labels, w.pods[s].labels)
  }

  ghost predicate ClaimsBelow(v: World, w: World) {
    forall id :: id in v.claims ==> id in w.claims && v.claims[id].rev == w.claims[id].rev
  }

  ghost predicate MoreReady(v: World, w: World) {
    forall s :: DataId(s) in v.claims ==> PreparedOf(w, s) <= PreparedOf(v, s)
  }

  lemma SafeBelow(v: World, w: World, c: ApiCall)
    requires Below(v, w) && Safe(w, c)
    ensures Safe(v, c)
    ensures Accepts(v, c) ==> Accepts(w, c)
  {
  }

  lemma ApplyBelow(v: World, w: World, c: ApiCall)
    requires Below(v, w) && Accepts(v, c) && Accepts(w, c)
    ensures Below(Apply(v, c), Apply(w, c))
  {
    hide PodsBelow, ClaimsBelow, MoreReady;
    ApplyPodsBelow(v, w, c);
    ApplyClaimsBelow(v, w, c);
    ApplyMoreReady(v, w, c);
  }

  lemma ApplyPodsBelow(v: World, w: World, c: ApiCall)
    requires PodsBelow(v, w) && Accepts(v, c) && Accepts(w, c)
    ensures PodsBelow(Apply(v, c), Apply(w, c))
  {
  }

  lemma ApplyClaimsBelow(v: World, w: World, c: ApiCall)
    requires ClaimsBelow(v, w) && Accepts(v, c) && Accepts(w, c)
    ensures ClaimsBelow(Apply(v, c), Apply(w, c))
  {
  }

  lemma ApplyMoreReady(v: World, w: World, c: ApiCall)
    requires PodsBelow(v, w) && MoreReady(v, w) && Accepts(v, c) && Accepts(w, c)
    ensures MoreReady(Apply(v, c), Apply(w, c))
  {
  }

  /** Interference between two calls only removes obligations. */
  lemma {:induction false} AllSafeBelow(v: World, w: World, calls: seq<ApiCall>)
    requires Below(v, w) && AllSafe(w, calls)
    ensures AllSafe(v, calls)
    decreases calls
  {
    if calls != [] {
      SafeBelow(v, w, calls[0]);
      if Accepts(v, calls[0]) {
        ApplyBelow(v, w, calls[0]);
        AllSafeBelow(Apply(v, calls[0]), Apply(w, calls[0]), calls[1..]);
      }
    }
  }

  lemma SafeCallKeepsInv(w: World, c: ApiCall)
    requires Inv(w) && Safe(w, c) && Accepts(w, c)
    ensures Inv(Apply(w, c))
  {
    hide Keyed, ClusterMatches, ClaimsReady, BackupsOwned, Safe, Apply, Accepts;
    CallKeepsKeyed(w, c);
    CallKeepsMatches(w, c);
    CallKeepsReady(w, c);
    CallKeepsOwned(w, c);
  }

  lemma CallKeepsKeyed(w: World, c: ApiCall)
    requires Keyed(w) && Accepts(w, c)
    ensures Keyed(Apply(w, c))
  {
  }

  lemma CallKeepsMatches(w: World, c: ApiCall)
    requires ClusterMatches(w) && Safe(w, c) && Accepts(w, c)
    ensures ClusterMatches(Apply(w, c))
  {
  }

  lemma CallKeepsReady(w: World, c: ApiCall)
    requires ClaimsReady(w) && Safe(w, c) && Accepts(w, c)
    ensures ClaimsReady(Apply(w, c))
  {
  }

  lemma CallKeepsOwned(w: World, c: ApiCall)
    requires BackupsOwned(w) && Safe(w, c) && Accepts(w, c)
    ensures BackupsOwned(Apply(w, c))
  {
  }

  lemma EnvironmentKeepsInv(w: World, v: World)
    requires Inv(w) && Environment(w, v)
    ensures Inv(v) && Below(v, w)
  {
  }

  // ---- Plans are safe ---------------------------------------------------------------------

  /** Calls that cannot hurt: deletions, and patches that keep a pod's state, revision and backup mark. */
  ghost predicate Harmless(w: World, c: ApiCall) {
    (c.PatchPod? || c.DeletePod? || c.DeleteClaim?) && Safe(w, c)
  }

  lemma HarmlessStays(w: World, c: ApiCall, d: ApiCall)
    requires Harmless(w, c) && Accepts(w, c) && Harmless(w, d)
    ensures Harmless(Apply(w, c), d)
    ensures Below(Apply(w, c), w)
  {
  }

  lemma {:induction false} HarmlessThen(w: World, a: seq<ApiCall>, b: seq<ApiCall>)
    requires forall c :: c in a ==> Harmless(w, c)
    requires AllSafe(w, b)
    ensures AllSafe(w, a + b)
    decreases a
  {
    if a == [] {
      assert a + b == b;
    } else {
      assert a[0] in a && (a + b)[1..] == a[1..] + b;
      if Accepts(w, a[0]) {
        var v := Apply(w, a[0]);
        forall d | d in a[1..] ensures Harmless(v, d) {
          assert d in a;
          HarmlessStays(w, a[0], d);
        }
        HarmlessStays(w, a[0], a[0]);
        AllSafeBelow(v, w, b);
        HarmlessThen(v, a[1..], b);
      }
    }
  }

  lemma HarmlessAlone(w: World, a: seq<ApiCall>)
    requires forall c :: c in a ==> Harmless(w, c)
    ensures AllSafe(w, a)
  {
    HarmlessThen(w, a, []);
    assert a + [] == a;
  }

  /** A patch computed from a listed pod. */
  predicate PatchOf(c: ApiCall, p: Pod) {
    c.PatchPod? && c.suffix == p.suffix && SameCore(c.labels, p.labels)
  }

  ghost predicate Tidy(calls: seq<ApiCall>, pods: seq<Pod>) {
    forall c :: c in calls ==> c.DeletePod? || c.DeleteClaim? || exists p :: p in pods && PatchOf(c, p)
  }

  lemma TidyIsHarmless(w: World, x: Input, calls: seq<ApiCall>)
    requires Lists(w, x.pods, x.claims) && Tidy(calls, x.pods)
    ensures forall c :: c in calls ==> Harmless(w, c)
  {
  }

  lemma TidyAppend(a: seq<ApiCall>, b: seq<ApiCall>, pods: seq<Pod>)
    requires Tidy(a, pods) && Tidy(b, pods)
    ensures Tidy(a + b, pods)
  {
  }

  lemma TurnIsTidy(p: Pod, t: Tally, x: Input)
    ensures Tidy(ClassifyPod(p, t, x).calls, [p])
  {
    hide ClassifyPod;
    TurnCalls(p, t, x);
    assert p in [p] && PatchOf(Patch2(p, RemoveRole, AddReader), p);
  }

  lemma {:induction false} ClassifyIsTidy(pods: seq<Pod>, t: Tally, x: Input)
    ensures Tidy(Classify(pods, t, x).calls, pods)
    decreases pods
  {
    if pods != [] {
      TurnIsTidy(pods[0], t, x);
      TidyWider(ClassifyPod(pods[0], t, x).calls, [pods[0]], pods);
      var s := ClassifyPod(pods[0], t, x);
      if s.Go? {
        ClassifyIsTidy(pods[1..], s.tally, x);
        TidyWider(Classify(pods[1..], s.tally, x).calls, pods[1..], pods);
        TidyAppend(s.calls, Classify(pods[1..], s.tally, x).calls, pods);
      }
    }
  }

  lemma TidyWider(calls: seq<ApiCall>, a: seq<Pod>, b: seq<Pod>)
    requires Tidy(calls, a) && forall p :: p in a ==> p in b
    ensures Tidy(calls, b)
  {
  }

  lemma {:induction false} CandidateListed(ready: seq<Pod>, excluded: Option<Suffix>)
    ensures Candidate(ready, excluded).Some? ==> Candidate(ready, excluded).value in ready
  {
    if ready != [] { CandidateListed(ready[1..], excluded); }
  }

  lemma {:induction false} LastBackupListed(ready: seq<Pod>)
    ensures LastBackup(ready).Some? ==> LastBackup(ready).value in ready
  {
    if ready != [] { LastBackupListed(ready[1..]); }
  }

  lemma {:induction false} DropReaderTidy(ready: seq<Pod>, w: Option<Suffix>)
    ensures Tidy(DropReader(ready, w), ready)
  {
    if ready != [] {
      assert ready[0] in ready;
      DropReaderTidy(ready[1..], w);
      TidyWider(DropReader(ready[1..], w), ready[1..], ready);
      assert PatchOf(Patch(ready[0], RemoveReader), ready[0]);
    }
  }

  lemma {:induction false} OthersTidy(ready: seq<Pod>, m: Members)
    ensures Tidy(OthersToBackupWriter(ready, m).calls, ready)
    decreases ready
  {
    if ready != [] {
      var m1 := if m.writer != Some(ready[0].suffix) then m.(backupWriter := Some(ready[0].suffix)) else m;
      OthersTidy(ready[1..], m1);
      TidyWider(OthersToBackupWriter(ready[1..], m1).calls, ready[1..], ready);
      var first := [Patch2(ready[0], AddReader, AddBackupWriter)];
      assert ready[0] in ready && PatchOf(first[0], ready[0]);
      TidyAppend(first, OthersToBackupWriter(ready[1..], m1).calls, ready);
    }
  }

  lemma LabelTwoTidy(ready: seq<Pod>, m: Members)
    requires |ready| == 2
    ensures Tidy(LabelTwo(ready, m).calls, ready)
  {
    LastBackupListed(ready);
    assert ready[0] in ready && ready[1] in ready;
    if m.writer.None? {
      var b := LastBackup(ready);
      var w := if b == Some(ready[0]) then ready[1] else ready[0];
      var other := if b.Some? then b.value else ready[1];
      assert PatchOf(Patch2(w, RemoveReader, AddWriter), w);
      assert PatchOf(Patch2(other, AddReader, AddBackupWriter), other);
    } else {
      OthersTidy(ready, m);
      var l := if m.backupWriter.None? then OthersToBackupWriter(ready, m) else Labelling([], true, m);
      DropReaderTidy(ready, l.members.writer);
      TidyAppend(l.calls, DropReader(ready, l.members.writer), ready);
    }
  }

  lemma LabelManyTidy(ready: seq<Pod>, m: Members)
    ensures Tidy(LabelMany(ready, m).calls, ready)
  {
    var w := Candidate(ready, None);
    CandidateListed(ready, None);
    var c1, m1 := [], m;
    if m.writer.None? && w.Some? {
      c1, m1 := [Patch2(w.value, RemoveReader, AddWriter)], m.(writer := Some(w.value.suffix));
      assert PatchOf(c1[0], w.value);
    }
    var b := Candidate(ready, m1.writer);
    CandidateListed(ready, m1.writer);
    var c2, m2 := [], m1;
    if m1.backupWriter.None? && b.Some? {
      c2, m2 := [Patch2(b.value, AddReader, AddBackupWriter)], m1.(writer := Some(b.value.suffix));
      assert PatchOf(c2[0], b.value);
    }
    DropReaderTidy(ready, m2.writer);
    TidyAppend(c1, c2, ready);
    TidyAppend(c1 + c2, DropReader(ready, m2.writer), ready);
  }

  lemma SetLabelsTidy(ready: seq<Pod>, m: Members)
    ensures Tidy(SetLabels(ready, m).calls, ready)
  {
    if |ready| == 1 {
      assert ready[0] in ready && PatchOf(Patch2(ready[0], AddReader, AddWriter), ready[0]);
    } else if |ready| == 2 {
      LabelTwoTidy(ready, m);
    } else if |ready| > 2 {
      LabelManyTidy(ready, m);
    }
  }

  /** mysql_upgrade, then the deletion, then the relabelling: safe on a standalone pod. */
  lemma UpgradeIsSafe(w: World, x: Input, p: Pod)
    requires Inv(w) && Lists(w, x.pods, x.claims) && p in x.pods
    requires Healthy(p) && NeedsUpgrade(p, x.claims) && !LacksClaims(p, x.claims)
    ensures AllSafe(w, UpgradeNode(p, x.claims).0)
  {
    FindClaimIs(x.claims, DataId(p.suffix));
    var s := p.suffix;
    assert DataId(s) in w.claims by {
      if !IsBackup(p) {
        var c :| c in x.claims && c.id.suffix == s;
        assert c.id in w.claims;
      }
    }
    var c := w.claims[DataId(s)];
    assert c in x.claims && c.id == DataId(s);
    assert FindClaim(x.claims, DataId(s)).value == c;
    assert p.labels.state.Standalone?;
    UpgradeOrder(w, s);
    assert UpgradeNode(p, x.claims).0 == [MysqlUpgrade(s), DeletePod(s), PatchClaim(s, p.labels.rev)];
  }

  lemma UpgradeOrder(w: World, s: Suffix)
    requires s in w.pods && w.pods[s].labels.state.Standalone? && DataId(s) in w.claims
    ensures AllSafe(w, [MysqlUpgrade(s), DeletePod(s), PatchClaim(s, w.pods[s].labels.rev)])
  {
    var a, b, c := MysqlUpgrade(s), DeletePod(s), PatchClaim(s, w.pods[s].labels.rev);
    var up := Apply(w, a);
    var gone := Apply(up, b);
    OneThen(gone, [c], []);
    assert [c] + [] == [c];
    OneThen(up, [b], [c]);
    assert [b] + [c] == [b, c];
    OneThen(w, [a], [b, c]);
    assert [a] + [b, c] == [a, b, c];
  }

  /** Creating a pod under a suffix no pod has, whose claims were looked at. */
  lemma CreationIsSafe(w: World, x: Input, p: Pod, role: Role, spec: ClaimSpec)
    requires Lists(w, x.pods, x.claims)
    requires p.suffix !in w.pods
    requires p.labels == PodLabels(role, p.labels.rev, StateFor(p.suffix, role, p.labels.rev, x.claims))
    requires !role.Backup? ==> BackupId(p.suffix) !in w.claims
    ensures AllSafe(w, CreatePodAndClaim(p, role, spec, x.claims).0)
  {
    hide EnsureClaim, Lists, Safe, PodLabels, StateFor;
    var s := p.suffix;
    var (c1, ok1) := EnsureClaim(DataId(s), p.labels.rev, spec, x.claims);
    var v := Ensured(w, x, w, DataId(s), p.labels.rev, spec);
    var (c2, ok2) := if role.Backup? then EnsureClaim(BackupId(s), p.labels.rev, spec, x.claims) else ([], true);
    var u := v;
    if role.Backup? { u := Ensured(w, x, v, BackupId(s), p.labels.rev, spec); }
    var tail := if ok1 && ok2 then [CreatePod(p)] else [];
    var rest := if ok1 then c2 + tail else [];
    assert CreatePodAndClaim(p, role, spec, x.claims).0 == c1 + rest;
    NewPodIsSafe(w, x, u, p, role);
    TailIsSafe(u, p, tail);
    OneThen(v, c2, tail);
    OneThen(w, c1, rest);
  }

  /** A claim that is looked for and created unless it is there, in world v, which has what w lists. */
  lemma Ensured(w: World, x: Input, v: World, id: ClaimId, rev: Revision, spec: ClaimSpec) returns (u: World)
    requires Lists(w, x.pods, x.claims) && id.suffix !in w.pods && v.pods == w.pods
    requires id in v.claims <==> id in w.claims
    ensures var c := EnsureClaim(id, rev, spec, x.claims).0;
      && |c| <= 1 && (c != [] ==> Safe(v, c[0]) && Accepts(v, c[0]))
      && u == if c != [] then Apply(v, c[0]) else v
    ensures u.pods == w.pods && u.claims == if id in v.claims then v.claims else v.claims[id := Claim(id, rev, spec, false)]
  {
    FindClaimIs(x.claims, id);
    var c := EnsureClaim(id, rev, spec, x.claims).0;
    u := if c != [] then Apply(v, c[0]) else v;
  }

  lemma TailIsSafe(u: World, p: Pod, tail: seq<ApiCall>)
    requires Safe(u, CreatePod(p)) && (tail == [] || tail == [CreatePod(p)])
    ensures AllSafe(u, tail)
  {
    OneThen(u, tail, []);
    assert tail + [] == tail;
  }

  /** The claims being there, the pod matches them. */
  lemma NewPodIsSafe(w: World, x: Input, u: World, p: Pod, role: Role)
    requires Lists(w, x.pods, x.claims) && p.suffix !in u.pods
    requires p.labels == PodLabels(role, p.labels.rev, StateFor(p.suffix, role, p.labels.rev, x.claims))
    requires if DataId(p.suffix) in w.claims
      then DataId(p.suffix) in u.claims && u.claims[DataId(p.suffix)] == w.claims[DataId(p.suffix)]
      else DataId(p.suffix) in u.claims ==> u.claims[DataId(p.suffix)].rev == p.labels.rev
    requires !role.Backup? ==> BackupId(p.suffix) !in u.claims
    ensures Safe(u, CreatePod(p))
  {
    FindClaimIs(x.claims, DataId(p.suffix));
  }

  /** At most one call, and then others. */
  lemma OneThen(w: World, first: seq<ApiCall>, rest: seq<ApiCall>)
    requires |first| <= 1
    requires first != [] ==> Safe(w, first[0])
    requires first != [] && !Accepts(w, first[0]) ==> rest == []
    requires AllSafe(if first != [] && Accepts(w, first[0]) then Apply(w, first[0]) else w, rest)
    ensures AllSafe(w, first + rest)
  {
    hide Safe, Accepts, Apply;
    if first == [] {
      assert first + rest == rest;
    } else {
      assert (first + rest)[1..] == rest;
    }
  }

  lemma DeletePodAndClaimTidy(p: Pod, x: Input)
    ensures Tidy(DeletePodAndClaim(p, x.claims).0, x.pods)
  {
  }

  lemma DeleteForUpgradeTidy(p: Pod, x: Input, spec: ClaimSpec)
    ensures Tidy(DeleteForUpgrade(p, x.claims, spec).0, x.pods)
  {
  }

  lemma {:induction false} DeleteAllTidy(ps: seq<Pod>, pods: seq<Pod>)
    ensures Tidy(DeleteAll(ps), pods)
  {
    if ps != [] { DeleteAllTidy(ps[1..], pods); }
  }

  lemma TerminateTidy(x: Input, st: Summary, ready: seq<Pod>, unready: seq<Pod>, unused: seq<Suffix>)
    ensures Tidy(Terminate(x, st, ready, unready, unused).calls, x.pods)
  {
    DeleteAllTidy(unready, x.pods);
  }

  lemma TidyIsSafe(w: World, x: Input, calls: seq<ApiCall>)
    requires Lists(w, x.pods, x.claims) && Tidy(calls, x.pods)
    ensures AllSafe(w, calls)
  {
    TidyIsHarmless(w, x, calls);
    HarmlessAlone(w, calls);
  }

  /** What a loop over the pods gathers, when no pod is terminating. */
  ghost predicate Surveyed(x: Input, suffixes: seq<Suffix>, backups: seq<Suffix>) {
    && (forall p :: p in x.pods ==> p.suffix in suffixes)
    && (forall s :: s in backups ==> s in suffixes)
  }

  lemma NewSuffixIsSafe(w: World, x: Input, used: seq<Suffix>, backups: seq<Suffix>, spec: ClaimSpec)
    requires Lists(w, x.pods, x.claims) && Surveyed(x, used, backups)
    requires exists d :: d in x.draws && d !in used
    requires !Collect(x.claims, used, backups, spec).operation
    ensures var s := PickSuffix(x, used, Collect(x.claims, used, backups, spec).unused);
      s !in w.pods && BackupId(s) !in w.claims
  {
    CollectsExactly(x.claims, used, backups, spec);
    PickIsFresh(x, x.claims, used);
  }

  lemma CreateOrWaitIsSafe(w: World, x: Input, spec: Template, st: Summary, unready: seq<Pod>, chosen: Revision,
                           role: Role, noAddress: bool, used: seq<Suffix>, backups: seq<Suffix>)
    requires Lists(w, x.pods, x.claims) && Surveyed(x, used, backups)
    requires exists d :: d in x.draws && d !in used
    requires !Collect(x.claims, used, backups, spec.claimSpec).operation
    ensures AllSafe(w, CreateOrWait(x, spec, st, unready, chosen, role, noAddress, used,
                                    Collect(x.claims, used, backups, spec.claimSpec).unused).calls)
  {
    var unused := Collect(x.claims, used, backups, spec.claimSpec).unused;
    match UnreadyGate(unready)
    case Wait =>
    case Replace(p) => TidyIsSafe(w, x, [DeletePod(p.suffix)]);
    case Pass =>
      NewSuffixIsSafe(w, x, used, backups, spec.claimSpec);
      var s := PickSuffix(x, used, unused);
      var init := !st.phase.Restoring? && noAddress;
      var p := NewPod(s, role, chosen, StateFor(s, role, chosen, x.claims), spec.image, spec.env, noAddress, init);
      PodLabelsKeep(role, chosen, StateFor(s, role, chosen, x.claims));
      CreationIsSafe(w, x, p, role, spec.claimSpec);
  }

  lemma PodLabelsKeep(role: Role, rev: Revision, state: State)
    ensures PodLabels(role, rev, state).rev == rev && PodLabels(role, rev, state).state == state
    ensures PodLabels(role, rev, state).backup == Some(true) <==> role.Backup?
  {
  }

  lemma ManageSpecialIsSafe(w: World, x: Input, env: seq<EnvVar>, spec: ClaimSpec, st: Summary, special: Option<Pod>,
                            noAddress: bool, used: seq<Suffix>, backups: seq<Suffix>)
    requires Inv(w) && Lists(w, x.pods, x.claims) && Surveyed(x, used, backups)
    requires exists d :: d in x.draws && d !in used
    requires !Collect(x.claims, used, backups, spec).operation
    requires special.Some? ==> special.value in x.pods
    requires forall p :: p in x.pods && Healthy(p) ==> !LacksClaims(p, x.claims)
    ensures AllSafe(w, ManageSpecial(x, env, spec, st, special, noAddress, used,
                                     Collect(x.claims, used, backups, spec).unused).calls)
  {
    var unused := Collect(x.claims, used, backups, spec).unused;
    match special
    case None =>
      NewSuffixIsSafe(w, x, used, backups, spec);
      var s := PickSuffix(x, used, unused);
      var p := NewPod(s, Special, x.nextRev, StateFor(s, Special, x.nextRev, x.claims), x.next.image, env, noAddress, false);
      PodLabelsKeep(Special, x.nextRev, StateFor(s, Special, x.nextRev, x.claims));
      CreationIsSafe(w, x, p, Special, spec);
    case Some(p) =>
      if p.health.Failed? {
        TidyIsSafe(w, x, [DeletePod(p.suffix)]);
      } else if p.terminating || !p.health.Ready? {
      } else if NeedsUpgrade(p, x.claims) {
        UpgradeIsSafe(w, x, p);
      } else {
        DeleteForUpgradeTidy(p, x, spec);
        TidyIsSafe(w, x, DeleteForUpgrade(p, x.claims, spec).0);
      }
  }

  /** A tally of a snapshot without terminating pods, all of whose healthy pods have their claims. */
  ghost predicate Sound(x: Input, t: Tally) {
    && Surveyed(x, t.suffixes, t.backups)
    && (forall p :: p in t.unready ==> p in x.pods && !p.terminating)
    && (forall p :: p in t.ready ==> p in x.pods)
    && (t.special.Some? ==> t.special.value in x.pods)
    && (forall p :: p in x.pods && Healthy(p) ==> !LacksClaims(p, x.claims))
  }

  lemma {:induction false} FirstToUpgradeIs(unready: seq<Pod>, claims: seq<Claim>)
    ensures var f := FirstToUpgrade(unready, claims);
      f.Some? ==> f.value in unready && NeedsUpgrade(f.value, claims)
    ensures FirstToUpgrade(unready, claims).None? ==> forall p :: p in unready ==> !NeedsUpgrade(p, claims)
  {
    if unready != [] { FirstToUpgradeIs(unready[1..], claims); }
  }

  lemma AfterTerminationIsSafe(w: World, x: Input, t: Tally, st: Summary, noAddress: bool)
    requires Inv(w) && Lists(w, x.pods, x.claims) && Sound(x, t)
    requires exists d :: d in x.draws && d !in t.suffixes
    requires !Collect(x.claims, t.suffixes, t.backups, x.next.claimSpec).operation
    ensures AllSafe(w, AfterTermination(x, t, st, noAddress,
                                        Collect(x.claims, t.suffixes, t.backups, x.next.claimSpec).unused).calls)
  {
    var up := Upgrade(x, x.next.claimSpec, st, t.ready);
    if up.Some? {
      UpgradeTidy(x, x.next.claimSpec, st, t.ready);
      TidyIsSafe(w, x, up.value.calls);
    } else if x.special.Some? {
      ManageSpecialIsSafe(w, x, x.special.value, x.next.claimSpec, st, t.special, noAddress, t.suffixes, t.backups);
    } else if t.special.Some? {
      DeletePodAndClaimTidy(t.special.value, x);
      TidyIsSafe(w, x, DeletePodAndClaim(t.special.value, x.claims).0);
    }
  }

  lemma UpgradeTidy(x: Input, spec: ClaimSpec, st: Summary, ready: seq<Pod>)
    ensures var up := Upgrade(x, spec, st, ready); up.Some? ==> Tidy(up.value.calls, x.pods)
  {
    if x.currentRev != x.nextRev {
      var turn := NextTurn(ready, x.nextRev);
      if turn.TurnOf? {
        DeleteForUpgradeTidy(turn.pod, x, spec);
      }
    }
  }

  lemma ReconcileIsSafe(w: World, x: Input, t: Tally, st: Summary)
    requires Inv(w) && Lists(w, x.pods, x.claims) && Sound(x, t)
    requires exists d :: d in x.draws && d !in t.suffixes
    ensures AllSafe(w, Reconcile(x, t, st).calls)
  {
    var col := Collect(x.claims, t.suffixes, t.backups, x.next.claimSpec);
    CollectDeletes(x.claims, t.suffixes, t.backups, x.next.claimSpec);
    if col.operation {
      TidyIsSafe(w, x, col.calls);
    } else if FirstToUpgrade(t.unready, x.claims).Some? {
      FirstToUpgradeIs(t.unready, x.claims);
      UpgradeIsSafe(w, x, FirstToUpgrade(t.unready, x.claims).value);
    } else if |t.ready| < x.replicas {
      CreateOrWaitIsSafe(w, x, x.next, st, t.unready, if st.phase.Restoring? then x.currentRev else x.nextRev,
                         ChooseRole(st.members), NoAddr(t), t.suffixes, t.backups);
    } else {
      var done := Terminate(x, st, t.ready, t.unready, col.unused);
      TerminateTidy(x, st, t.ready, t.unready, col.unused);
      TidyIsHarmless(w, x, done.calls);
      AfterTerminationIsSafe(w, x, t, done.status, NoAddr(t));
      HarmlessThen(w, done.calls, AfterTermination(x, t, done.status, NoAddr(t), col.unused).calls);
    }
  }

  function NoAddr(t: Tally): bool { Bootstrap.NoAddress(t.ready) }

  lemma SettleIsSafe(w: World, x: Input, t: Tally)
    requires Inv(w) && Lists(w, x.pods, x.claims)
    requires forall p :: p in t.ready ==> p in x.pods
    requires !t.terminating ==> Sound(x, t)
    requires exists d :: d in x.draws && d !in t.suffixes
    ensures AllSafe(w, Settle(x, t).calls)
  {
    var m := t.status.members;
    var l := SetLabels(t.ready, m);
    SetLabelsTidy(t.ready, m);
    TidyWider(l.calls, t.ready, x.pods);
    TidyIsSafe(w, x, l.calls);
    if l.ok && !t.terminating && !MajorityLost(|t.ready|, |t.unready|) {
      var st := Phased(x, t);
      ReconcileIsSafe(w, x, t, st);
      TidyIsHarmless(w, x, l.calls);
      HarmlessThen(w, l.calls, Reconcile(x, t, st).calls);
    }
  }

  lemma TallyIsSound(x: Input)
    requires Classify(x.pods, Start(x), x).Go? && Orphan(x.pods, x.claims).None?
    ensures var t := Classify(x.pods, Start(x), x).tally;
      && (forall p :: p in t.ready ==> p in x.pods)
      && (!t.terminating ==> Sound(x, t))
  {
    var t := Classify(x.pods, Start(x), x).tally;
    ClosedLists(x.pods, Start(x), x);
    InFilter(x.pods, IsListed);
    InFilter(x.pods, IsUnready);
    ClosedTerminating(x.pods, Start(x), x);
    SpecialListed(x.pods, Start(x), x);
    OrphanIs(x.pods, x.claims);
    if !t.terminating {
      TallySuffixes(x);
    }
  }

  lemma TallySuffixes(x: Input)
    requires Classify(x.pods, Start(x), x).Go?
    requires forall p :: p in x.pods ==> !p.terminating
    ensures var t := Classify(x.pods, Start(x), x).tally; Surveyed(x, t.suffixes, t.backups)
  {
    ClosedSuffixes(x.pods, Start(x), x);
    ClosedBackups(x.pods, Start(x), x);
    InFilter(x.pods, IsLive);
    InFilter(x.pods, IsLiveBackup);
    InSuffixes(Filter(x.pods, IsLive));
    InSuffixes(Filter(x.pods, IsLiveBackup));
  }

  lemma RoundIsSafe(w: World, x: Input)
    requires Inv(w) && Lists(w, x.pods, x.claims) && CanDraw(x)
    ensures AllSafe(w, PlanRound(x).calls)
  {
    var o := Orphan(x.pods, x.claims);
    var s := Classify(x.pods, Start(x), x);
    ClassifyIsTidy(x.pods, Start(x), x);
    if o.Some? {
      TidyIsSafe(w, x, [DeletePod(o.value.suffix)]);
    } else if s.Stop? {
      TidyIsSafe(w, x, s.calls);
    } else {
      ClassifySuffixes(x.pods, Start(x), x);
      TallyIsSound(x);
      SettleIsSafe(w, x, s.tally);
      TidyIsHarmless(w, x, s.calls);
      HarmlessThen(w, s.calls, Settle(x, s.tally).calls);
    }
  }

  lemma ScheduleIsSafe(w: World, x: Input)
    requires Lists(w, x.pods, x.claims) && CanDraw(x)
    ensures AllSafe(w, Schedule(x).calls)
  {
    var stranger := FirstStranger(x.pods, x.currentRev);
    var used := SuffixesOf(x.pods);
    var col := Collect(x.claims, used, [], x.current.claimSpec);
    CollectDeletes(x.claims, used, [], x.current.claimSpec);
    if stranger.Some? {
      DeletePodAndClaimTidy(stranger.value, x);
      TidyIsSafe(w, x, DeletePodAndClaim(stranger.value, x.claims).0);
    } else if col.operation {
      TidyIsSafe(w, x, col.calls);
    } else if |RunningOnes(x.pods)| < x.replicas {
      InSuffixes(x.pods);
      CreateOrWaitIsSafe(w, Frozen(x), x.current, CountAll(x), WaitingOnes(x.pods), x.currentRev, Restore, true, used, []);
    } else {
      TerminateTidy(Frozen(x), CountAll(x), RunningOnes(x.pods), WaitingOnes(x.pods), col.unused);
      TidyIsSafe(w, x, Schedule(x).calls);
    }
  }

  lemma SyncIsSafe(w: World, y: SyncInput)
    requires Inv(w) && Lists(w, y.round.pods, y.round.claims) && CanDraw(y.round)
    ensures AllSafe(w, SyncPlan(y).calls)
  {
    SyncCallsAre(y);
    var calls := SyncPlan(y).calls;
    if calls != [] {
      SafePlan(w, Planned(y), calls);
    }
  }

  lemma SafePlan(w: World, x: Input, calls: seq<ApiCall>)
    requires Inv(w) && Lists(w, x.pods, x.claims) && CanDraw(x)
    requires calls == Schedule(x).calls || calls == PlanRound(x).calls
    ensures AllSafe(w, calls)
  {
    ScheduleIsSafe(w, x);
    RoundIsSafe(w, x);
  }

  // ---- The theorems -----------------------------------------------------------------------

  ghost predicate Good(m: Machine) { Inv(m.world) && AllSafe(m.world, m.pending) }

  lemma StepKeepsGood(a: Machine, b: Machine)
    requires Good(a) && Steps(a, b)
    ensures Good(b)
  {
    if exists y :: Begins(a, b, y) {
      var y :| Begins(a, b, y);
      SyncIsSafe(a.world, y);
    } else if Issues(a, b) {
      SafeCallKeepsInv(a.world, a.pending[0]);
    } else if !Stops(a, b) {
      EnvironmentKeepsInv(a.world, b.world);
      AllSafeBelow(b.world, a.world, a.pending);
    }
  }

  /** In every reachable state, whatever the interleaving and wherever the operator crashed: a
      cluster pod runs on a claim of its revision, and a claim carries only a revision it was
      created at or that mysql_upgrade finished for. */
  lemma {:induction false} EveryReachableStateIsGood(run: seq<Machine>, i: nat)
    requires IsRun(run) && i < |run|
    ensures Good(run[i])
  {
    if i > 0 {
      EveryReachableStateIsGood(run, i - 1);
      assert Steps(run[i - 1], run[i - 1 + 1]);
      StepKeepsGood(run[i - 1], run[i]);
    }
  }

  /** mysql_upgrade is only ever run on a standalone pod, never on a member of the cluster. */
  lemma UpgradeOnlyOnStandalonePods(run: seq<Machine>, i: nat)
    requires IsRun(run) && i < |run| - 1 && Issues(run[i], run[i + 1])
    requires run[i].pending[0].MysqlUpgrade?
    ensures run[i].world.pods[run[i].pending[0].suffix].labels.state.Standalone?
  {
    EveryReachableStateIsGood(run, i);
  }

  // ---- Syncs that were cut off ------------------------------------------------------------

  /** The store accepts the calls one after the other. */
  ghost predicate AllAccepted(w: World, calls: seq<ApiCall>)
    decreases calls
  {
    calls == [] || (Accepts(w, calls[0]) && AllAccepted(Apply(w, calls[0]), calls[1..]))
  }

  lemma {:induction false} IssueSome(run: seq<Machine>, calls: seq<ApiCall>, n: nat) returns (longer: seq<Machine>)
    requires IsRun(run) && run[|run| - 1].pending == calls && n <= |calls|
    requires AllAccepted(run[|run| - 1].world, calls[..n])
    ensures IsRun(longer) && longer[|longer| - 1] == Machine(ApplyAll(run[|run| - 1].world, calls[..n]), calls[n..])
    decreases n
  {
    var last := run[|run| - 1];
    longer := run;
    if n == 0 {
      assert calls[..0] == [] && calls[0..] == calls;
    } else {
      assert calls[..n][0] == calls[0] && calls[..n][1..] == calls[1..][..n - 1];
      var next := Machine(Apply(last.world, calls[0]), calls[1..]);
      assert Issues(last, next);
      Extend(run, next);
      longer := IssueSome(run + [next], calls[1..], n - 1);
      assert calls[1..][n - 1..] == calls[n..];
    }
  }

  lemma Extend(run: seq<Machine>, next: Machine)
    requires IsRun(run) && Steps(run[|run| - 1], next)
    ensures IsRun(run + [next])
  {
    hide Steps;
    var longer := run + [next];
    forall i | 0 <= i < |longer| - 1 ensures Steps(longer[i], longer[i + 1]) {
      if i < |run| - 1 { assert Steps(run[i], run[i + 1]); }
    }
  }

  /** Issuing any accepted prefix of a sync's plan and then stopping, which is what the operator does,
      leads from a reachable state to a reachable state. */
  lemma CutOffSyncIsReachable(run: seq<Machine>, y: SyncInput, n: nat) returns (longer: seq<Machine>)
    requires IsRun(run) && run[|run| - 1].pending == []
    requires Lists(run[|run| - 1].world, y.round.pods, y.round.claims) && CanDraw(y.round)
    requires n <= |SyncPlan(y).calls| && AllAccepted(run[|run| - 1].world, SyncPlan(y).calls[..n])
    ensures IsRun(longer) && longer[|longer| - 1] == Machine(ApplyAll(run[|run| - 1].world, SyncPlan(y).calls[..n]), [])
  {
    hide SyncPlan, Lists, ApplyAll, AllAccepted, IsRun;
    RunNotEmpty(run);
    var last := run[|run| - 1];
    var begun := Machine(last.world, SyncPlan(y).calls);
    assert Begins(last, begun, y);
    Extend(run, begun);
    var issued := IssueSome(run + [begun], begun.pending, n);
    RunNotEmpty(issued);
    var stopped := Machine(issued[|issued| - 1].world, []);
    assert Stops(issued[|issued| - 1], stopped);
    Extend(issued, stopped);
    longer := issued + [stopped];
  }

  lemma RunNotEmpty(run: seq<Machine>)
    requires IsRun(run)
    ensures run != []
  {
  }
}
