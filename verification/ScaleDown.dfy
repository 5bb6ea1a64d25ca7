/** Scaling down: with more than the desired number of pods ready and every role held once, rounds
    take away plain readers, their pods and then their claims, until exactly that number is left. */
module ScaleDown {
  import opened ApiStore
  import opened Status
  import opened Round
  import opened RoundFacts
  import opened Disruption
  import opened Calm
  import Bootstrap
  import Protocol
  import R = RollingUpgrade
  import Roles
  import U = UpgradeProgress

  // ---- The pigeonhole ---------------------------------------------------------------------

  predicate HasMark(p: Pod) { p.labels.backup.Some? }

  /** The two pods do not hold the same role, and do not both carry the backup label. */
  predicate Differ(p: Pod, q: Pod) {
    !(HoldsRole(p) && p.labels.role == q.labels.role) && !(HasMark(p) && HasMark(q))
  }

  /** Four ready pods cannot all hold one of three marks that each occur at most once, so a plain
      reader is found; and what is found is never a role or backup holder. */
  lemma PlainReaderIsFound(ready: seq<Pod>)
    requires |ready| > 3
    requires forall p :: p in ready ==> p.labels.role.None? || HoldsRole(p)
    requires forall i, j :: 0 <= i < j < |ready| ==> Differ(ready[i], ready[j])
    ensures var p := FirstPlain(ready); p.Some? && p.value in ready && p.value.labels.role.None? && !HasMark(p.value)
  {
    FirstPlainIs(ready);
    assert ready[0] in ready && ready[1] in ready && ready[2] in ready && ready[3] in ready;
    assert Differ(ready[0], ready[1]) && Differ(ready[0], ready[2]) && Differ(ready[0], ready[3]);
    assert Differ(ready[1], ready[2]) && Differ(ready[1], ready[3]) && Differ(ready[2], ready[3]);
  }

  /** What the termination pass deletes of the ready pods: that reader when too many are ready,
      nobody otherwise. */
  lemma ExcessIsTheReader(x: Input, st: Summary, ready: seq<Pod>)
    requires x.special.None?
    ensures Terminate(x, st, ready, [], []).calls ==
      if |ready| > x.replicas && FirstPlain(ready).Some? then [DeletePod(FirstPlain(ready).value.suffix)] else []
  {
    U.NobodyUnused(x.claims);
  }

  // ---- The states of a scale-down ---------------------------------------------------------

  datatype Stage = Full | Leaving(s: Suffix) | Orphaned(s: Suffix) | Dropping(s: Suffix)

  ghost predicate At(w: World, spec: ClaimSpec, g: Stage) {
    match g
    case Full => true
    case Leaving(s) => s in w.pods && w.pods[s].terminating && BackupId(s) !in w.claims
    case Orphaned(s) => s !in w.pods && R.HasLive(w, DataId(s)) && w.claims[DataId(s)].spec == spec
    case Dropping(s) => s !in w.pods && DataId(s) in w.claims && w.claims[DataId(s)].terminating
  }

  ghost predicate Claimed(w: World, spec: ClaimSpec, g: Stage) {
    && (forall id :: id in w.claims ==>
          && w.claims[id].id == id
          && (id.suffix in w.pods || ((g.Orphaned? || g.Dropping?) && id == DataId(g.s))))
    && (forall s :: s in w.pods ==> R.HasLive(w, DataId(s)) && w.claims[DataId(s)].spec == spec)
  }

  ghost predicate Marked(w: World) { R.Sole(w, HasMark) }

  /** Ready members with both roles held, each mark once, and at most one slot being cleared. */
  ghost predicate Crew(w: World, spec: ClaimSpec, g: Stage) {
    && (forall s :: s in w.pods ==> w.pods[s].suffix == s)
    && Claimed(w, spec, g)
    && (forall s :: s in w.pods && g != Leaving(s) ==> R.Member(w, s))
    && R.OneEach(w) && R.Held(w) && Marked(w)
    && At(w, spec, g)
  }

  ghost function Staff(w: World): set<Suffix> { set s | s in w.pods && !w.pods[s].terminating }

  /** A round that wants n pods, with nothing to upgrade and no special node. */
  predicate Wants(x: Input, n: int, spec: ClaimSpec) {
    x.replicas == n && x.special.None? && x.currentRev == x.nextRev && x.next.claimSpec == spec && CanDraw(x)
  }

  // ---- What a round sees ------------------------------------------------------------------

  lemma PodIsCalm(w: World, spec: ClaimSpec, g: Stage, s: Suffix)
    requires Crew(w, spec, g) && s in w.pods
    ensures CalmPod(w.pods[s]) && w.pods[s].suffix == s
    ensures w.pods[s].terminating <==> g == Leaving(s)
    ensures IsListed(w.pods[s]) <==> g != Leaving(s)
    ensures !IsUnready(w.pods[s])
    ensures w.pods[s].terminating || w.pods[s].labels.role.None? || HoldsRole(w.pods[s])
    ensures Healthy(w.pods[s]) && IsBackup(w.pods[s]) ==> R.HasLive(w, BackupId(s))
  {
    hide R.OneEach, R.Held, Marked;
  }

  lemma CrewIsCalm(w: World, spec: ClaimSpec, g: Stage, x: Input)
    requires Crew(w, spec, g) && Lists(w, x.pods, x.claims)
    ensures CalmPods(x.pods)
    ensures forall p :: p in x.pods && Healthy(p) ==> !LacksClaims(p, x.claims)
  {
    hide IsListed, CalmPod, IsUnready, At, Marked, R.Held, OneReady;
    forall p | p in x.pods
      ensures CalmPod(p)
      ensures Healthy(p) ==> !LacksClaims(p, x.claims)
    {
      PodIsCalm(w, spec, g, p.suffix);
      if Healthy(p) {
        U.ListedClaim(w, x, DataId(p.suffix));
        U.ListedClaim(w, x, BackupId(p.suffix));
      }
    }
    R.OneEachListed(w, x);
  }

  ghost predicate Seen(w: World, x: Input, t: Tally, g: Stage) {
    && Distinct(t.ready) && |t.ready| == |Staff(w)|
    && (forall p :: p in t.ready <==> p in x.pods && !p.terminating)
    && t.unready == []
    && (forall s :: s in t.suffixes <==> s in Staff(w))
    && (forall s :: s in t.backups <==> s in Staff(w) && IsBackup(w.pods[s]))
    && (t.terminating <==> g.Leaving?)
    && t.special.None?
    && (exists d :: d in x.draws && d !in t.suffixes)
    && Roles.Roster(t.ready, t.status.members)
  }

  ghost predicate Looks(w: World, n: int, spec: ClaimSpec, g: Stage, x: Input, t: Tally) {
    && Crew(w, spec, g) && Lists(w, x.pods, x.claims) && Wants(x, n, spec) && 3 <= n <= |Staff(w)|
    && Classify(x.pods, Start(x), x) == Go(t, [])
    && Seen(w, x, t, g)
  }

  lemma SeenLists(w: World, spec: ClaimSpec, g: Stage, x: Input)
    requires Crew(w, spec, g) && Lists(w, x.pods, x.claims)
    ensures Filter(x.pods, IsUnready) == []
    ensures forall p :: p in Filter(x.pods, IsListed) <==> p in x.pods && !p.terminating
    ensures |Filter(x.pods, IsListed)| == |Staff(w)| && Distinct(Filter(x.pods, IsListed))
  {
    hide IsListed, IsUnready, CalmPod, Crew, HoldsRole;
    InFilter(x.pods, IsListed);
    InFilter(x.pods, IsUnready);
    FilterDistinct(x.pods, IsListed);
    forall p | p in x.pods ensures IsListed(p) <==> !p.terminating ensures !IsUnready(p) {
      PodIsCalm(w, spec, g, p.suffix);
    }
    SomebodyIn(Filter(x.pods, IsUnready));
    forall s | s in Staff(w) ensures exists p :: p in Filter(x.pods, IsListed) && p.suffix == s {
      assert w.pods[s] in x.pods && w.pods[s].suffix == s;
    }
    CountBySuffix(Filter(x.pods, IsListed), Staff(w));
  }

  lemma SeenTerminating(w: World, spec: ClaimSpec, g: Stage, x: Input)
    requires Crew(w, spec, g) && Lists(w, x.pods, x.claims) && Classify(x.pods, Start(x), x).Go?
    ensures Classify(x.pods, Start(x), x).tally.terminating <==> g.Leaving?
  {
    hide IsListed, IsUnready, CalmPod, HoldsRole, Classify, Claimed, R.OneEach, R.Held, R.Member, Marked;
    ClosedTerminating(x.pods, Start(x), x);
    forall p | p in x.pods ensures p.terminating <==> g == Leaving(p.suffix) {
      PodIsCalm(w, spec, g, p.suffix);
    }
    if g.Leaving? { assert w.pods[g.s] in x.pods; }
  }

  lemma RoundLooks(w: World, n: int, spec: ClaimSpec, g: Stage, x: Input) returns (t: Tally)
    requires Crew(w, spec, g) && Lists(w, x.pods, x.claims) && Wants(x, n, spec) && 3 <= n <= |Staff(w)|
    ensures Looks(w, n, spec, g, x, t)
    ensures PlanRound(x) == Settle(x, t) && Roles.LabelCalls(x) == SetLabels(t.ready, t.status.members).calls
  {
    hide Classify, Crew, CalmPods, LacksClaims, Roles.Roster, Roles.LabelCalls, PlanRound, Settle,
         SetLabels, IsListed, IsBackup, Lists;
    R.ListsDistinct(w, x);
    CrewIsCalm(w, spec, g, x);
    CalmRound(x);
    R.CalmStarts(x);
    Roles.RosterOf(x);
    R.SeenSuffixes(w, x);
    SeenLists(w, spec, g, x);
    SeenTerminating(w, spec, g, x);
    t := Classify(x.pods, Start(x), x).tally;
  }

  /** The labels have not changed but for the reader label of a role holder. */
  predicate Kept(p: Pod, l: Labels) {
    l.role == p.labels.role && l.backup == p.labels.backup && (HoldsRole(p) || l == p.labels)
  }

  // ---- The labels of a round --------------------------------------------------------------

  /** Both roles are recorded, so the labelling only takes the writer out of the readers. */
  lemma LabelsOfCrew(w: World, n: int, spec: ClaimSpec, g: Stage, x: Input, t: Tally, p: Pod)
    requires Looks(w, n, spec, g, x, t) && p in t.ready
    ensures SetLabels(t.ready, t.status.members).ok
    ensures var l := Roles.Final(p, t.ready, t.status.members); Kept(p, l)
  {
    hide Classify, LabelMany, Roles.Final, Crew, Staff, Lists;
    CrewRecorded(w, n, spec, g, x, t);
    SoleInReady(w, n, spec, g, x, t);
    Roles.ManyKeepHolders(t.ready, t.status.members, p);
    R.KeptOfThree(t.ready, t.status.members, p);
  }

  lemma CrewRecorded(w: World, n: int, spec: ClaimSpec, g: Stage, x: Input, t: Tally)
    requires Looks(w, n, spec, g, x, t)
    ensures t.status.members.writer.Some? && t.status.members.backupWriter.Some?
  {
    hide Classify, Claimed, R.Member, R.OneEach, Marked, At, IsListed;
    var s :| s in w.pods && ReadyWriter(w.pods[s]);
    assert w.pods[s] in t.ready;
    var b :| b in w.pods && ReadyBackupWriter(w.pods[b]);
    assert w.pods[b] in t.ready;
  }

  lemma SoleInReady(w: World, n: int, spec: ClaimSpec, g: Stage, x: Input, t: Tally)
    requires Looks(w, n, spec, g, x, t)
    ensures forall q, r :: q in t.ready && r in t.ready && ReadyWriter(q) && ReadyWriter(r) ==> q.suffix == r.suffix
    ensures forall q, r :: q in t.ready && r in t.ready && ReadyBackupWriter(q) && ReadyBackupWriter(r) ==>
      q.suffix == r.suffix
  {
    hide Classify, Claimed, R.Member, R.Held, Marked, At, Roles.Roster, ReadyPrimary, Staff;
  }

  /** The labels keep the crew. */
  lemma AfterLabels(w: World, n: int, spec: ClaimSpec, g: Stage, x: Input, t: Tally) returns (u: World)
    requires Looks(w, n, spec, g, x, t)
    requires Roles.LabelCalls(x) == SetLabels(t.ready, t.status.members).calls
    ensures u == ApplyAll(w, SetLabels(t.ready, t.status.members).calls)
    ensures Relabelled(w, u) && Crew(u, spec, g) && Staff(u) == Staff(w)
  {
    hide Classify, Crew, SetLabels, Lists, Roles.Final, Roles.LabelCalls, Roles.Roster, ApplyAll, IsListed,
         Relabelled;
    LooksLists(w, n, spec, g, x, t);
    u := ApplyAll(w, Roles.LabelCalls(x));
    LabelsRelabel(w, x);
    forall s | s in w.pods ensures R.PodPatched(w, u, t, s) { R.PodIsPatched(w, x, s); }
    forall p | p in t.ready
      ensures var l := Roles.Final(p, t.ready, t.status.members); Kept(p, l)
    {
      LabelsOfCrew(w, n, spec, g, x, t, p);
    }
    CrewKept(w, u, spec, g, t);
  }

  lemma LooksLists(w: World, n: int, spec: ClaimSpec, g: Stage, x: Input, t: Tally)
    requires Looks(w, n, spec, g, x, t)
    ensures Crew(w, spec, g) && Lists(w, x.pods, x.claims) && Seen(w, x, t, g) && Wants(x, n, spec)
  {
    hide Crew, Lists, Classify, Seen;
  }

  ghost predicate SameRoles(w: World, u: World) {
    Relabelled(w, u) && forall s :: s in w.pods ==> Kept(w.pods[s], u.pods[s].labels)
  }

  lemma CrewKept(w: World, u: World, spec: ClaimSpec, g: Stage, t: Tally)
    requires Crew(w, spec, g) && Relabelled(w, u)
    requires forall s :: s in w.pods ==> R.PodPatched(w, u, t, s)
    requires forall p :: p in t.ready ==> Kept(p, Roles.Final(p, t.ready, t.status.members))
    ensures Crew(u, spec, g) && Staff(u) == Staff(w)
  {
    hide Roles.Final, Crew, IsListed;
    assert SameRoles(w, u);
    SameRolesCrew(w, u, spec, g);
    assert Staff(u) == Staff(w);
  }

  lemma MemberKept(w: World, u: World, s: Suffix)
    requires SameRoles(w, u) && s in w.pods && R.Member(w, s)
    ensures R.Member(u, s)
  {
  }

  lemma PodKept(w: World, u: World, s: Suffix)
    requires SameRoles(w, u) && s in w.pods
    ensures ReadyWriter(u.pods[s]) == ReadyWriter(w.pods[s])
    ensures ReadyBackupWriter(u.pods[s]) == ReadyBackupWriter(w.pods[s])
    ensures ReadyBackup(u.pods[s]) == ReadyBackup(w.pods[s])
    ensures HasMark(u.pods[s]) == HasMark(w.pods[s])
    ensures s in u.pods
  {
  }

  lemma SoleKept(w: World, u: World, f: Pod -> bool)
    requires R.Sole(w, f) && u.pods.Keys == w.pods.Keys && forall s :: s in w.pods ==> f(u.pods[s]) == f(w.pods[s])
    ensures R.Sole(u, f)
  {
  }

  lemma SameRolesSole(w: World, u: World)
    requires SameRoles(w, u) && R.OneEach(w) && R.Held(w) && Marked(w)
    ensures R.OneEach(u) && R.Held(u) && Marked(u)
  {
    hide R.Sole, R.Held, ReadyWriter, ReadyBackupWriter, ReadyBackup, HasMark, Kept, Protocol.SameCore;
    forall s | s in w.pods
      ensures ReadyWriter(u.pods[s]) == ReadyWriter(w.pods[s])
      ensures ReadyBackupWriter(u.pods[s]) == ReadyBackupWriter(w.pods[s])
      ensures ReadyBackup(u.pods[s]) == ReadyBackup(w.pods[s])
      ensures HasMark(u.pods[s]) == HasMark(w.pods[s])
    {
      PodKept(w, u, s);
    }
    SoleKept(w, u, ReadyWriter);
    SoleKept(w, u, ReadyBackupWriter);
    SoleKept(w, u, ReadyBackup);
    SoleKept(w, u, HasMark);
    HeldStays(w, u);
  }

  /** The holders of the two roles are still there. */
  lemma HeldStays(w: World, u: World)
    requires R.Held(w)
    requires forall s :: s in w.pods && ReadyWriter(w.pods[s]) ==> s in u.pods && ReadyWriter(u.pods[s])
    requires forall s :: s in w.pods && ReadyBackupWriter(w.pods[s]) ==> s in u.pods && ReadyBackupWriter(u.pods[s])
    ensures R.Held(u)
  {
    hide ReadyWriter, ReadyBackupWriter;
  }

  /** Nobody new has the property. */
  lemma SoleFewer(w: World, u: World, f: Pod -> bool)
    requires R.Sole(w, f)
    requires forall s :: s in u.pods && f(u.pods[s]) ==> s in w.pods && f(w.pods[s])
    ensures R.Sole(u, f)
  {
  }

  lemma SameRolesCrew(w: World, u: World, spec: ClaimSpec, g: Stage)
    requires Crew(w, spec, g) && SameRoles(w, u)
    ensures Crew(u, spec, g)
  {
    hide R.OneEach, R.Held, R.Member, Marked, Kept, Protocol.SameCore, Claimed;
    SameRolesSole(w, u);
    ClaimedKept(w, u, spec, g);
    forall s | s in u.pods && g != Leaving(s) ensures R.Member(u, s) { MemberKept(w, u, s); }
  }

  lemma ClaimedKept(w: World, u: World, spec: ClaimSpec, g: Stage)
    requires Claimed(w, spec, g) && u.claims == w.claims && u.pods.Keys == w.pods.Keys
    ensures Claimed(u, spec, g)
  {
  }

  // ---- The calls of a round, after the labels ---------------------------------------------

  lemma SlotClaims(w: World, spec: ClaimSpec, g: Stage, cl: Claim)
    requires Crew(w, spec, g) && !g.Leaving? && cl.id in w.claims && w.claims[cl.id] == cl
    ensures cl.terminating <==> g.Dropping? && cl.id == DataId(g.s)
    ensures cl.id.suffix in Staff(w) || ((g.Orphaned? || g.Dropping?) && cl.id == DataId(g.s))
    ensures cl.id.backup ==> IsBackup(w.pods[cl.id.suffix])
    ensures g.Orphaned? || !cl.terminating ==> cl.id.backup || cl.spec == spec
    ensures cl.id.suffix in w.pods ==> cl.id.suffix in Staff(w)
  {
    hide R.OneEach, R.Held, Marked;
    var s := cl.id.suffix;
    assert cl.id == if cl.id.backup then BackupId(s) else DataId(s);
    if s in w.pods { assert R.Member(w, s); }
  }

  lemma ClaimsSeen(w: World, n: int, spec: ClaimSpec, g: Stage, x: Input, t: Tally)
    requires Looks(w, n, spec, g, x, t) && !g.Leaving?
    ensures var col := Collect(x.claims, t.suffixes, t.backups, spec);
      && (col.operation <==> g.Dropping?)
      && (col.operation ==> col.calls == [])
      && (!col.operation ==> col.calls == [] && forall s :: s in col.unused <==> g.Orphaned? && s == g.s)
  {
    hide Crew, Classify, Roles.Roster, Staff;
    forall cl | cl in x.claims ensures Offends(cl, t.suffixes, t.backups, spec) <==> g.Dropping? && cl.id == DataId(g.s) {
      SlotClaims(w, spec, g, cl);
    }
    CollectOffender(x.claims, t.suffixes, t.backups, spec);
    CollectsExactly(x.claims, t.suffixes, t.backups, spec);
    forall s ensures !g.Dropping? ==> (s in UnusedData(x.claims, t.suffixes) <==> g.Orphaned? && s == g.s) {
      UnusedHere(w, n, spec, g, x, t, s);
    }
    if g.Dropping? {
      U.ListedClaim(w, x, DataId(g.s));
      SpareClaim(w, spec, g);
    }
  }

  lemma UnusedHere(w: World, n: int, spec: ClaimSpec, g: Stage, x: Input, t: Tally, s: Suffix)
    requires Looks(w, n, spec, g, x, t) && !g.Leaving?
    ensures !g.Dropping? ==> (s in UnusedData(x.claims, t.suffixes) <==> g.Orphaned? && s == g.s)
  {
    hide Crew, Classify, Roles.Roster, Staff, Lists, UnusedData;
    UnusedAreUnused(x.claims, t.suffixes);
    U.ListedClaim(w, x, DataId(s));
    SpareClaim(w, spec, g);
    if DataId(s) in w.claims {
      CrewKeyed(w, spec, g);
      SlotClaims(w, spec, g, w.claims[DataId(s)]);
    } else {
      DataPresent(w, spec, g, s);
    }
  }

  lemma CrewKeyed(w: World, spec: ClaimSpec, g: Stage)
    requires Crew(w, spec, g)
    ensures forall id :: id in w.claims ==> w.claims[id].id == id
  {
    hide R.OneEach, R.Held, Marked, R.Member;
  }

  lemma DataPresent(w: World, spec: ClaimSpec, g: Stage, s: Suffix)
    requires Crew(w, spec, g)
    ensures s in Staff(w) ==> DataId(s) in w.claims
  {
    hide R.OneEach, R.Held, Marked, R.Member;
  }

  lemma SpareClaim(w: World, spec: ClaimSpec, g: Stage)
    requires Crew(w, spec, g)
    ensures g.Orphaned? || g.Dropping? ==> DataId(g.s) in w.claims && g.s !in Staff(w) && g.s !in w.pods
    ensures g.Dropping? ==> w.claims[DataId(g.s)].terminating && w.claims[DataId(g.s)].id == DataId(g.s)
  {
    hide R.OneEach, R.Held, Marked, R.Member;
  }

  lemma LooksParts(w: World, n: int, spec: ClaimSpec, g: Stage, x: Input, t: Tally)
    requires Looks(w, n, spec, g, x, t)
    ensures Wants(x, n, spec) && (exists d :: d in x.draws && d !in t.suffixes)
    ensures |t.ready| == |Staff(w)| && t.unready == [] && t.special.None? && 3 <= n <= |t.ready|
    ensures t.terminating <==> g.Leaving?
    ensures forall p :: p in t.ready <==> p in x.pods && !p.terminating
  {
    hide Crew, Lists, Classify, Roles.Roster, Staff;
  }

  lemma GoesOn(w: World, n: int, spec: ClaimSpec, g: Stage, x: Input, t: Tally)
    requires Looks(w, n, spec, g, x, t)
    ensures Settle(x, t).calls == SetLabels(t.ready, t.status.members).calls +
      (if g.Leaving? then [] else Reconcile(x, t, Phased(x, t)).calls)
  {
    hide Looks, Reconcile, SetLabels, Phased;
    LooksParts(w, n, spec, g, x, t);
    assert t.ready[0] in t.ready;
    LabelsOfCrew(w, n, spec, g, x, t, t.ready[0]);
  }

  /** Nothing to upgrade and no special node: the round ends with the termination pass. */
  lemma EndsThere(w: World, n: int, spec: ClaimSpec, g: Stage, x: Input, t: Tally)
    requires Looks(w, n, spec, g, x, t) && (g.Full? || g.Orphaned?)
    ensures Reconcile(x, t, Phased(x, t)).calls ==
      Terminate(x, Phased(x, t), t.ready, [], Collect(x.claims, t.suffixes, t.backups, spec).unused).calls
  {
    hide Looks, Collect, SetLabels, Phased, Terminate, Bootstrap.NoAddress, CreateOrWait;
    LooksParts(w, n, spec, g, x, t);
    ClaimsSeen(w, n, spec, g, x, t);
    U.NothingToUpgrade(t, x);
    var calls := Terminate(x, Phased(x, t), t.ready, [], Collect(x.claims, t.suffixes, t.backups, spec).unused).calls;
    assert calls + [] == calls;
  }

  lemma DroppingWaits(w: World, n: int, spec: ClaimSpec, g: Stage, x: Input, t: Tally)
    requires Looks(w, n, spec, g, x, t) && g.Dropping?
    ensures Reconcile(x, t, Phased(x, t)).calls == []
  {
    hide Looks, Collect, SetLabels, Phased;
    LooksParts(w, n, spec, g, x, t);
    ClaimsSeen(w, n, spec, g, x, t);
  }

  lemma {:induction false} UnusedOfOne(claims: seq<Claim>, unused: seq<Suffix>)
    requires forall cl :: cl in claims && cl.id.suffix in unused ==> !cl.id.backup
    ensures FirstUnused(claims, unused).Some? <==> exists cl :: cl in claims && cl.id.suffix in unused
    ensures FirstUnused(claims, unused).Some? ==>
      var cl := FirstUnused(claims, unused).value; cl in claims && cl.id == DataId(cl.id.suffix) && cl.id.suffix in unused
  {
    if claims != [] {
      assert claims[0] in claims;
      assert forall cl :: cl in claims <==> cl == claims[0] || cl in claims[1..];
      UnusedOfOne(claims[1..], unused);
    }
  }

  /** The claim nobody uses goes. */
  lemma OrphanDrops(w: World, n: int, spec: ClaimSpec, g: Stage, x: Input, t: Tally)
    requires Looks(w, n, spec, g, x, t) && g.Orphaned?
    ensures Reconcile(x, t, Phased(x, t)).calls == [DeleteClaim(DataId(g.s))]
  {
    hide Collect, SetLabels, Phased, Crew, Classify, Seen, FirstPlain, DeleteAll;
    EndsThere(w, n, spec, g, x, t);
    ClaimsSeen(w, n, spec, g, x, t);
    var unused := Collect(x.claims, t.suffixes, t.backups, spec).unused;
    SpareClaim(w, spec, g);
    U.ListedClaim(w, x, DataId(g.s));
    forall cl | cl in x.claims && cl.id.suffix in unused ensures !cl.id.backup {
      SlotClaims(w, spec, g, cl);
    }
    UnusedOfOne(x.claims, unused);
  }

  lemma PodsDiffer(w: World, spec: ClaimSpec, g: Stage, p: Pod, q: Pod)
    requires Crew(w, spec, g) && p.suffix in w.pods && q.suffix in w.pods && p.suffix != q.suffix
    requires w.pods[p.suffix] == p && w.pods[q.suffix] == q && !p.terminating && !q.terminating
    ensures Differ(p, q) && (p.labels.role.None? || HoldsRole(p))
  {
    hide R.Held, Claimed;
    assert R.Member(w, p.suffix) && R.Member(w, q.suffix);
  }

  /** With too many ready a plain reader goes; with the desired number, nobody. */
  lemma FullDeletes(w: World, n: int, spec: ClaimSpec, g: Stage, x: Input, t: Tally) returns (p: Option<Pod>)
    requires Looks(w, n, spec, g, x, t) && g.Full?
    ensures p.Some? <==> |Staff(w)| > n
    ensures Reconcile(x, t, Phased(x, t)).calls == if p.Some? then [DeletePod(p.value.suffix)] else []
    ensures p.Some? ==> p.value.suffix in Staff(w) && w.pods[p.value.suffix] == p.value
    ensures p.Some? ==> p.value.labels.role.None? && !HasMark(p.value)
  {
    hide Collect, SetLabels, Phased, Crew, Classify, Terminate, Roles.Roster, HoldsRole, HasMark, Differ;
    LooksParts(w, n, spec, g, x, t);
    EndsThere(w, n, spec, g, x, t);
    ClaimsSeen(w, n, spec, g, x, t);
    var unused := Collect(x.claims, t.suffixes, t.backups, spec).unused;
    SomebodyIn(unused);
    ExcessIsTheReader(x, Phased(x, t), t.ready);
    p := if |t.ready| > n then FirstPlain(t.ready) else None;
    if |t.ready| > n {
      forall i, j | 0 <= i < j < |t.ready| ensures Differ(t.ready[i], t.ready[j]) {
        assert t.ready[i] in t.ready && t.ready[j] in t.ready;
        PodsDiffer(w, spec, g, t.ready[i], t.ready[j]);
      }
      forall q | q in t.ready ensures q.labels.role.None? || HoldsRole(q) {
        PodIsCalm(w, spec, g, q.suffix);
      }
      PlainReaderIsFound(t.ready);
    }
  }

  // ---- The moves --------------------------------------------------------------------------

  /** How far the slot being cleared is. */
  ghost function Clearing(w: World): nat {
    if exists s :: s in w.pods && w.pods[s].terminating then 3
    else if exists id :: id in w.claims && id.suffix !in w.pods && !w.claims[id].terminating then 2
    else if exists id :: id in w.claims && id.suffix !in w.pods then 1
    else 0
  }

  ghost function Measure(w: World): nat { 4 * |Staff(w)| + Clearing(w) }

  lemma ClearingIs(w: World, spec: ClaimSpec, g: Stage)
    requires Crew(w, spec, g)
    ensures Clearing(w) == match g case Full => 0 case Leaving(_) => 3 case Orphaned(_) => 2 case Dropping(_) => 1
  {
    hide R.OneEach, R.Held, Marked, IsListed, Apart;
    if g.Orphaned? || g.Dropping? { assert DataId(g.s) in w.claims; }
    forall s | s in w.pods ensures w.pods[s].terminating <==> g == Leaving(s) {
      PodIsCalm(w, spec, g, s);
    }
  }

  /** The pods that hold a role or the backup. */
  ghost function Holders(w: World): set<Suffix> {
    set s | s in w.pods && !w.pods[s].terminating && (HoldsRole(w.pods[s]) || HasMark(w.pods[s]))
  }

  /** What a step leaves: a crew of at least n with the same holders. */
  ghost predicate Left(w: World, u: World, n: int, spec: ClaimSpec) {
    InScale(u, n, spec) && Holders(u) == Holders(w)
  }

  ghost predicate InScale(w: World, n: int, spec: ClaimSpec) {
    3 <= n <= |Staff(w)| && exists g :: Crew(w, spec, g)
  }

  lemma DeleteMoves(w: World, spec: ClaimSpec, p: Pod)
    requires Crew(w, spec, Full) && p.suffix in Staff(w) && w.pods[p.suffix] == p
    requires p.labels.role.None? && !HasMark(p)
    ensures var u := Apply(w, DeletePod(p.suffix));
      Crew(u, spec, Leaving(p.suffix)) && |Staff(u)| == |Staff(w)| - 1 && Holders(u) == Holders(w)
  {
    hide R.OneEach, R.Held, Marked, R.Member, Claimed, Holders, HasMark;
    var u := Apply(w, DeletePod(p.suffix));
    DeleteCounts(w, u, p);
    PlainHasNoBackup(w, spec, p);
    NobodyPromoted(w, u, p);
    ClaimedLeaving(w, u, spec, p.suffix);
    forall s | s in u.pods && s != p.suffix ensures R.Member(u, s) {
      MemberHere(w, u, s);
    }
  }

  lemma DeleteCounts(w: World, u: World, p: Pod)
    requires p.suffix in Staff(w) && w.pods[p.suffix] == p && p.labels.role.None? && !HasMark(p)
    requires u.pods == w.pods[p.suffix := p.(terminating := true)]
    ensures |Staff(u)| == |Staff(w)| - 1 && Holders(u) == Holders(w)
  {
    hide HasMark;
    assert Staff(u) == Staff(w) - {p.suffix};
  }

  lemma ClaimedLeaving(w: World, u: World, spec: ClaimSpec, s: Suffix)
    requires Claimed(w, spec, Full) && u.claims == w.claims && u.pods.Keys == w.pods.Keys
    ensures Claimed(u, spec, Leaving(s))
  {
  }

  /** The member's pod and the claims are the same. */
  lemma MemberHere(w: World, u: World, s: Suffix)
    requires R.Member(w, s) && s in u.pods && u.pods[s] == w.pods[s] && u.claims == w.claims
    ensures R.Member(u, s)
  {
    MemberInClaims(w, s);
    MemberStays(w, u, s);
  }

  /** A claim that is no pod's changes or goes: the members are the same. */
  lemma MembersElsewhere(w: World, u: World, id: ClaimId)
    requires u.pods == w.pods && id.suffix !in w.pods
    requires forall j :: j != id ==> (j in u.claims <==> j in w.claims) && (j in w.claims ==> u.claims[j] == w.claims[j])
    ensures forall s :: s in w.pods && R.Member(w, s) ==> R.Member(u, s)
  {
    hide R.Member;
    forall s | s in w.pods && R.Member(w, s) ensures R.Member(u, s) {
      assert DataId(s) != id && BackupId(s) != id;
      MemberInClaims(w, s);
      MemberStays(w, u, s);
    }
  }

  lemma SameCounts(w: World, u: World)
    requires u.pods == w.pods
    ensures Staff(u) == Staff(w) && Holders(u) == Holders(w)
  {
  }

  lemma PlainHasNoBackup(w: World, spec: ClaimSpec, p: Pod)
    requires Crew(w, spec, Full) && p.suffix in w.pods && w.pods[p.suffix] == p && !HasMark(p)
    ensures BackupId(p.suffix) !in w.claims
  {
    hide R.OneEach, R.Held, Marked, Claimed;
    assert R.Member(w, p.suffix);
  }

  lemma MemberStays(w: World, u: World, s: Suffix)
    requires R.Member(w, s) && s in u.pods && u.pods[s] == w.pods[s]
    requires DataId(s) in u.claims && u.claims[DataId(s)] == w.claims[DataId(s)]
    requires BackupId(s) in u.claims <==> BackupId(s) in w.claims
    requires BackupId(s) in w.claims ==> u.claims[BackupId(s)] == w.claims[BackupId(s)]
    ensures R.Member(u, s)
  {
    hide IsListed, Apart;
  }

  /** Deleting a plain pod takes no role and gives none. */
  lemma NobodyPromoted(w: World, u: World, p: Pod)
    requires R.OneEach(w) && R.Held(w) && Marked(w)
    requires p.suffix in w.pods && w.pods[p.suffix] == p && p.labels.role.None?
    requires u.pods == w.pods[p.suffix := p.(terminating := true)]
    ensures R.OneEach(u) && R.Held(u) && Marked(u)
  {
    hide R.Sole, R.Held;
    SoleFewer(w, u, ReadyWriter);
    SoleFewer(w, u, ReadyBackupWriter);
    SoleFewer(w, u, ReadyBackup);
    SoleFewer(w, u, HasMark);
    HeldStays(w, u);
  }

  lemma DropMoves(w: World, spec: ClaimSpec, s: Suffix)
    requires Crew(w, spec, Orphaned(s)) && DataId(s) in w.claims
    ensures var u := Apply(w, DeleteClaim(DataId(s)));
      Crew(u, spec, Dropping(s)) && Staff(u) == Staff(w) && Holders(u) == Holders(w)
  {
    hide R.OneEach, R.Held, Marked, R.Member, Claimed, Staff, Holders;
    var u := Apply(w, DeleteClaim(DataId(s)));
    SamePods(w, u);
    SameCounts(w, u);
    MembersElsewhere(w, u, DataId(s));
    ClaimedDropping(w, u, spec, s);
  }

  lemma ClaimedDropping(w: World, u: World, spec: ClaimSpec, s: Suffix)
    requires Claimed(w, spec, Orphaned(s)) && DataId(s) in w.claims && s !in w.pods
    requires u.pods == w.pods && u.claims == w.claims[DataId(s) := w.claims[DataId(s)].(terminating := true)]
    ensures Claimed(u, spec, Dropping(s))
  {
    assert forall q :: q in w.pods ==> DataId(q) != DataId(s);
  }

  lemma MemberInClaims(w: World, s: Suffix)
    requires R.Member(w, s)
    ensures DataId(s) in w.claims
  {
  }

  lemma SamePods(w: World, u: World)
    requires u.pods == w.pods
    ensures R.OneEach(u) == R.OneEach(w) && R.Held(u) == R.Held(w) && Marked(u) == Marked(w)
  {
  }

  /** The environment finishes a deletion. */
  lemma PodGoneMoves(w: World, u: World, spec: ClaimSpec, g: Stage, s: Suffix)
    requires Crew(w, spec, g) && U.PodGone(w, u, s)
    ensures g == Leaving(s) && Crew(u, spec, Orphaned(s)) && Staff(u) == Staff(w) && Holders(u) == Holders(w)
  {
    hide R.OneEach, R.Held, Marked, R.Member, IsListed, IsUnready, CalmPod, Claimed, Staff, Holders;
    PodIsCalm(w, spec, g, s);
    NobodyMissed(w, u, s);
    forall q | q in u.pods ensures R.Member(u, q) {
      assert q != s && R.Member(w, q);
      MemberHere(w, u, q);
    }
    ClaimedOrphaned(w, u, spec, s);
  }

  lemma ClaimedOrphaned(w: World, u: World, spec: ClaimSpec, s: Suffix)
    requires Claimed(w, spec, Leaving(s)) && s in w.pods && BackupId(s) !in w.claims
    requires u.claims == w.claims && u.pods == w.pods - {s}
    ensures Claimed(u, spec, Orphaned(s)) && R.HasLive(u, DataId(s)) && u.claims[DataId(s)].spec == spec
  {
    forall id | id in u.claims ensures id.suffix in u.pods || id == DataId(s) {
      assert id == if id.backup then BackupId(id.suffix) else DataId(id.suffix);
    }
  }

  lemma NobodyMissed(w: World, u: World, s: Suffix)
    requires R.OneEach(w) && R.Held(w) && Marked(w) && U.PodGone(w, u, s)
    ensures R.OneEach(u) && R.Held(u) && Marked(u) && Staff(u) == Staff(w) && Holders(u) == Holders(w)
  {
    hide R.Sole, R.Held, HasMark;
    SoleFewer(w, u, ReadyWriter);
    SoleFewer(w, u, ReadyBackupWriter);
    SoleFewer(w, u, ReadyBackup);
    SoleFewer(w, u, HasMark);
    HeldStays(w, u);
  }

  lemma ClaimGoneMoves(w: World, u: World, spec: ClaimSpec, g: Stage, id: ClaimId)
    requires Crew(w, spec, g) && U.ClaimGone(w, u, id)
    ensures g.Dropping? && Crew(u, spec, Full) && Staff(u) == Staff(w) && Holders(u) == Holders(w)
  {
    hide R.OneEach, R.Held, Marked, R.Member, Claimed, Staff, Holders;
    GoneIsSpare(w, spec, g, id);
    SamePods(w, u);
    SameCounts(w, u);
    MembersElsewhere(w, u, id);
    ClaimedFull(w, u, spec, id.suffix);
  }

  lemma ClaimedFull(w: World, u: World, spec: ClaimSpec, s: Suffix)
    requires Claimed(w, spec, Dropping(s)) && s !in w.pods
    requires u.pods == w.pods && u.claims == w.claims - {DataId(s)}
    ensures Claimed(u, spec, Full)
  {
    assert forall q :: q in w.pods ==> DataId(q) != DataId(s);
  }

  lemma GoneIsSpare(w: World, spec: ClaimSpec, g: Stage, id: ClaimId)
    requires Crew(w, spec, g) && id in w.claims && w.claims[id].terminating
    ensures g.Dropping? && id == DataId(g.s) && g.s !in w.pods
  {
    hide R.OneEach, R.Held, Marked, IsListed, Apart;
    var s := id.suffix;
    assert id == if id.backup then BackupId(s) else DataId(s);
    assert s in w.pods && g != Leaving(s) ==> R.Member(w, s);
  }

  // ---- Steps and runs ---------------------------------------------------------------------

  ghost predicate RoundStep(w: World, u: World, n: int, spec: ClaimSpec) {
    exists x :: Wants(x, n, spec) && Lists(w, x.pods, x.claims) && u == ApplyAll(w, PlanRound(x).calls)
  }

  ghost predicate Finishes(w: World, u: World) {
    (exists s :: U.PodGone(w, u, s)) || exists id :: U.ClaimGone(w, u, id)
  }

  /** The environment has nothing to finish. */
  ghost predicate Quiet(w: World) {
    (forall s :: s in w.pods ==> !w.pods[s].terminating) && forall id :: id in w.claims ==> !w.claims[id].terminating
  }

  lemma RelabelledMeasure(w: World, u: World)
    requires Relabelled(w, u) && Staff(u) == Staff(w)
    ensures Measure(u) == Measure(w)
  {
  }

  lemma HoldersKept(w: World, u: World, n: int, spec: ClaimSpec, g: Stage, x: Input, t: Tally)
    requires Looks(w, n, spec, g, x, t)
    requires Roles.LabelCalls(x) == SetLabels(t.ready, t.status.members).calls
    requires u == ApplyAll(w, SetLabels(t.ready, t.status.members).calls) && Relabelled(w, u)
    ensures Holders(u) == Holders(w)
  {
    hide Classify, Crew, SetLabels, Lists, Roles.Final, Roles.LabelCalls, Roles.Roster, ApplyAll, IsListed,
         HoldsRole, HasMark, Seen, Looks;
    LooksLists(w, n, spec, g, x, t);
    LooksParts(w, n, spec, g, x, t);
    SeenStarts(w, n, spec, g, x, t);
    forall s | s in w.pods
      ensures HoldsRole(u.pods[s]) == HoldsRole(w.pods[s]) && HasMark(u.pods[s]) == HasMark(w.pods[s])
    {
      R.PodIsPatched(w, x, s);
      if IsListed(w.pods[s]) {
        LabelsOfCrew(w, n, spec, g, x, t, w.pods[s]);
        KeptHolds(w.pods[s], u.pods[s]);
      }
    }
  }

  lemma SeenStarts(w: World, n: int, spec: ClaimSpec, g: Stage, x: Input, t: Tally)
    requires Looks(w, n, spec, g, x, t)
    ensures Classify(x.pods, Start(x), x).Go? && Classify(x.pods, Start(x), x).tally == t
  {
    hide Crew, Lists, Classify, Seen;
  }

  lemma KeptHolds(p: Pod, q: Pod)
    requires Kept(p, q.labels)
    ensures HoldsRole(q) == HoldsRole(p) && HasMark(q) == HasMark(p)
  {
  }

  /** Every round keeps crew and holders, and goes on unless it waits or is done. */
  lemma RoundMoves(w: World, u: World, n: int, spec: ClaimSpec)
    requires InScale(w, n, spec) && RoundStep(w, u, n, spec)
    ensures Left(w, u, n, spec) && Measure(u) <= Measure(w)
    ensures Quiet(w) && Measure(w) > 4 * n ==> Measure(u) < Measure(w)
  {
    hide Crew, Looks, PlanRound, Settle, Reconcile, SetLabels, Phased, Lists, Roles.LabelCalls, ApplyAll,
         Relabelled, Staff, Holders, Clearing, HasMark;
    var g :| Crew(w, spec, g);
    var x :| Wants(x, n, spec) && Lists(w, x.pods, x.claims) && u == ApplyAll(w, PlanRound(x).calls);
    var t := RoundLooks(w, n, spec, g, x);
    var l := AfterLabels(w, n, spec, g, x, t);
    HoldersKept(w, l, n, spec, g, x, t);
    GoesOn(w, n, spec, g, x, t);
    LooksParts(w, n, spec, g, x, t);
    var rest := if g.Leaving? then [] else Reconcile(x, t, Phased(x, t)).calls;
    ApplyAllConcat(w, SetLabels(t.ready, t.status.members).calls, rest);
    ApplyNone(l);
    ClearingIs(w, spec, g);
    ClearingIs(l, spec, g);
    StageQuiet(w, spec, g);
    match g
    case Full =>
      var p := FullDeletes(w, n, spec, g, x, t);
      if p.Some? {
        FullMoves(w, l, spec, p.value);
      }
    case Leaving(_) =>
    case Orphaned(s) =>
      OrphanDrops(w, n, spec, g, x, t);
      SpareClaim(l, spec, g);
      ApplyOne(l, DeleteClaim(DataId(s)));
      DropMoves(l, spec, s);
      ClearingIs(u, spec, Dropping(s));
    case Dropping(_) =>
      DroppingWaits(w, n, spec, g, x, t);
  }

  lemma ApplyNone(w: World)
    ensures ApplyAll(w, []) == w
  {
  }

  lemma StageQuiet(w: World, spec: ClaimSpec, g: Stage)
    requires Crew(w, spec, g)
    ensures Quiet(w) ==> g.Full? || g.Orphaned?
  {
    hide R.OneEach, R.Held, Marked, R.Member;
  }

  /** The deletion of the plain reader, from the relabelled world l. */
  lemma FullMoves(w: World, l: World, spec: ClaimSpec, p: Pod)
    requires Relabelled(w, l) && Crew(l, spec, Full) && Staff(l) == Staff(w)
    requires p.suffix in Staff(w) && w.pods[p.suffix] == p && p.labels.role.None? && !HasMark(p) && Holders(l) == Holders(w)
    ensures var u := ApplyAll(l, [DeletePod(p.suffix)]);
      Crew(u, spec, Leaving(p.suffix)) && |Staff(u)| == |Staff(w)| - 1 && Holders(u) == Holders(w) && Clearing(u) == 3
  {
    hide Crew, ApplyAll, Clearing;
    var q := l.pods[p.suffix];
    assert q.suffix == p.suffix;
    assert p.suffix !in Holders(w);
    PodIsCalm(l, spec, Full, p.suffix);
    DeleteMoves(l, spec, q);
    ApplyOne(l, DeletePod(p.suffix));
    ClearingIs(ApplyAll(l, [DeletePod(p.suffix)]), spec, Leaving(p.suffix));
  }

  lemma FinishMoves(w: World, u: World, n: int, spec: ClaimSpec)
    requires InScale(w, n, spec) && Finishes(w, u)
    ensures Left(w, u, n, spec) && Measure(u) < Measure(w)
  {
    hide Crew, Staff, Holders, Clearing;
    var g :| Crew(w, spec, g);
    ClearingIs(w, spec, g);
    if exists s :: U.PodGone(w, u, s) {
      var s :| U.PodGone(w, u, s);
      PodGoneMoves(w, u, spec, g, s);
      ClearingIs(u, spec, Orphaned(s));
    } else {
      var id :| U.ClaimGone(w, u, id);
      ClaimGoneMoves(w, u, spec, g, id);
      ClearingIs(u, spec, Full);
    }
  }

  ghost predicate IsScaleRun(run: seq<World>, n: int, spec: ClaimSpec) {
    && run != [] && InScale(run[0], n, spec)
    && forall i :: 0 <= i < |run| - 1 ==> RoundStep(run[i], run[i + 1], n, spec) || Finishes(run[i], run[i + 1])
  }

  /** A deletion finished, or a round that has none to wait for and is not done. */
  ghost predicate Productive(w: World, u: World, n: int) {
    Finishes(w, u) || (Quiet(w) && Measure(w) > 4 * n)
  }

  ghost function Productives(run: seq<World>, n: int, k: nat): nat
    requires k < |run|
  {
    if k == 0 then 0 else Productives(run, n, k - 1) + (if Productive(run[k - 1], run[k], n) then 1 else 0)
  }

  lemma StepMoves(w: World, u: World, n: int, spec: ClaimSpec)
    requires InScale(w, n, spec) && (RoundStep(w, u, n, spec) || Finishes(w, u))
    ensures Left(w, u, n, spec)
    ensures Measure(u) + (if Productive(w, u, n) then 1 else 0) <= Measure(w)
  {
    hide InScale, RoundStep, Finishes, Measure, Quiet, Left;
    if Finishes(w, u) { FinishMoves(w, u, n, spec); } else { RoundMoves(w, u, n, spec); }
  }

  /** Along every run the role and backup holders stay, at least n ready pods stay, and the
      productive steps are bounded: once they are spent, exactly n pods are left. */
  lemma {:induction false} ScaleDownEnds(run: seq<World>, n: int, spec: ClaimSpec, k: nat)
    requires IsScaleRun(run, n, spec) && k < |run|
    ensures InScale(run[k], n, spec) && Holders(run[k]) == Holders(run[0])
    ensures Measure(run[k]) + Productives(run, n, k) <= Measure(run[0])
    ensures Productives(run, n, k) >= Measure(run[0]) - 4 * n ==> |run[k].pods| == n
  {
    hide RoundStep, Finishes, Measure, Productive, Holders, Crew, Staff;
    if k > 0 {
      ScaleDownEnds(run, n, spec, k - 1);
      assert RoundStep(run[k - 1], run[k - 1 + 1], n, spec) || Finishes(run[k - 1], run[k - 1 + 1]);
      StepMoves(run[k - 1], run[k], n, spec);
    }
    if Productives(run, n, k) >= Measure(run[0]) - 4 * n {
      EndHasExactly(run[k], n, spec);
    }
  }

  lemma EndHasExactly(w: World, n: int, spec: ClaimSpec)
    requires InScale(w, n, spec) && Measure(w) <= 4 * n
    ensures |w.pods| == n
  {
    hide Crew;
    var g :| Crew(w, spec, g);
    assert forall s :: s in w.pods ==> !w.pods[s].terminating;
    assert Staff(w) == w.pods.Keys;
    assert |w.pods| == |w.pods.Keys|;
  }

  /** The bound is reached: while more than n are ready, either a deletion can be finished or every
      round makes progress. */
  lemma NeverStuck(w: World, n: int, spec: ClaimSpec)
    requires InScale(w, n, spec) && Measure(w) > 4 * n
    ensures (exists u :: Finishes(w, u)) || forall u :: RoundStep(w, u, n, spec) ==> Measure(u) < Measure(w)
  {
    hide InScale, RoundStep, Measure;
    if s :| s in w.pods && w.pods[s].terminating {
      assert U.PodGone(w, w.(pods := w.pods - {s}), s) && Finishes(w, w.(pods := w.pods - {s}));
    } else if id :| id in w.claims && w.claims[id].terminating {
      assert U.ClaimGone(w, w.(claims := w.claims - {id}), id) && Finishes(w, w.(claims := w.claims - {id}));
    } else {
      forall u | RoundStep(w, u, n, spec) ensures Measure(u) < Measure(w) { RoundMoves(w, u, n, spec); }
    }
  }

  // ---- A crew -----------------------------------------------------------------------------

  function CrewPod(s: Suffix): Pod {
    var labels :=
      if s == "a" then Labels(Some(Writer), None, Some(false), Cluster, "r")
      else if s == "b" then Labels(Some(BackupWriter), None, Some(true), Cluster, "r")
      else Labels(None, None, Some(true), Cluster, "r");
    Pod(s, labels, Ready, Primary, false, "", false, "")
  }

  const CREW: set<Suffix> := {"a", "b", "c", "d"}

  function CrewWorld(spec: ClaimSpec): World {
    World(map s | s in CREW :: CrewPod(s),
          map id | id in {DataId("a"), DataId("b"), DataId("c"), DataId("d")} :: Claim(id, "r", spec, false),
          map s | s in CREW :: {"r"})
  }

  /** Four ready pods of which three are wanted: the states above are there, and sound in the protocol. */
  lemma CrewOfFour(spec: ClaimSpec)
    ensures InScale(CrewWorld(spec), 3, spec) && |Staff(CrewWorld(spec))| == 4
    ensures Protocol.Inv(CrewWorld(spec))
  {
    hide R.Member, R.OneEach, R.Held, Marked, CrewPod, Protocol.Inv;
    var w := CrewWorld(spec);
    CrewIsSound(spec);
    CrewRoles(spec);
    forall s | s in CREW ensures R.Member(w, s) && CrewPod(s).suffix == s && !CrewPod(s).terminating { CrewMember(spec, s); }
    assert Claimed(w, spec, Full);
    assert Crew(w, spec, Full);
    CrewCount(spec);
  }

  lemma CrewCount(spec: ClaimSpec)
    ensures |Staff(CrewWorld(spec))| == 4
  {
    assert Staff(CrewWorld(spec)) == CREW;
    assert CREW - {"a"} - {"b"} - {"c"} == {"d"};
  }

  lemma CrewIsSound(spec: ClaimSpec)
    ensures Protocol.Inv(CrewWorld(spec))
  {
    var w := CrewWorld(spec);
    assert forall id :: id in w.claims ==> id == DataId(id.suffix) && id.suffix in CREW;
    assert forall s :: s in CREW ==> CrewPod(s).labels.rev == "r" && CrewPod(s).suffix == s;
  }

  lemma CrewMember(spec: ClaimSpec, s: Suffix)
    requires s in CREW
    ensures R.Member(CrewWorld(spec), s) && CrewPod(s).suffix == s && !CrewPod(s).terminating
  {
  }

  lemma CrewRoles(spec: ClaimSpec)
    ensures R.Held(CrewWorld(spec)) && R.OneEach(CrewWorld(spec)) && Marked(CrewWorld(spec))
  {
    var w := CrewWorld(spec);
    assert "a" in w.pods && ReadyWriter(w.pods["a"]) && "b" in w.pods && ReadyBackupWriter(w.pods["b"]);
    assert forall s :: s in w.pods && ReadyWriter(w.pods[s]) ==> s == "a";
    assert forall s :: s in w.pods && ReadyBackupWriter(w.pods[s]) ==> s == "b";
    assert forall s :: s in w.pods ==> !ReadyBackup(w.pods[s]) && !HasMark(w.pods[s]);
  }
}
