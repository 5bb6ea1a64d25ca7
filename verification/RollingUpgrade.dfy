/** The rolling upgrade of a cluster of three: with a fixed spec and an environment that finishes
    deletions and makes created pods ready, every interleaving of rounds and environment steps
    brings every pod to the next revision, which is then promoted. */
module RollingUpgrade {
  import opened ApiStore
  import opened Status
  import opened PodTemplate
  import opened Round
  import opened RoundFacts
  import opened Disruption
  import opened Calm
  import Bootstrap
  import Sync
  import Protocol
  import Roles

  /** The three name slots, the revision being replaced and the one replacing it. */
  datatype Config = Config(a: Suffix, b: Suffix, c: Suffix, oldRev: Revision, newRev: Revision, spec: ClaimSpec) {
    predicate Valid() { a != b && b != c && a != c && oldRev != newRev }

    function Slots(): set<Suffix> { {a, b, c} }
  }

  /** A round of a running cluster of three on this configuration. */
  predicate Fits(c: Config, x: Input) {
    && (x.phase.Running? || x.phase.Backuping?)
    && x.replicas == 3 && x.special.None?
    && x.currentRev == c.oldRev && x.nextRev == c.newRev && x.next.claimSpec == c.spec
    && CanDraw(x)
  }

  // ---- The states of the upgrade ----------------------------------------------------------

  /** Every slot has its data claim; no claim belongs to anyone else. */
  ghost predicate Claimed(c: Config, w: World) {
    && (forall s :: s in c.Slots() ==>
          && DataId(s) in w.claims && !w.claims[DataId(s)].terminating && w.claims[DataId(s)].spec == c.spec
          && (w.claims[DataId(s)].rev == c.oldRev || w.claims[DataId(s)].rev == c.newRev))
    && (forall id :: id in w.claims ==> w.claims[id].id == id && id.suffix in c.Slots())
  }

  ghost predicate HasLive(w: World, id: ClaimId) { id in w.claims && !w.claims[id].terminating }

  /** A ready member of the cluster, at the revision of its claim. */
  ghost predicate Member(w: World, s: Suffix) {
    && s in w.pods
    && IsListed(w.pods[s]) && Apart(w.pods[s].labels) && w.pods[s].labels.state.Cluster?
    && DataId(s) in w.claims && w.claims[DataId(s)].rev == w.pods[s].labels.rev
    && (IsBackup(w.pods[s]) ==> HasLive(w, BackupId(s)))
    && (BackupId(s) in w.claims ==> IsBackup(w.pods[s]))
  }

  ghost predicate Sole(w: World, f: Pod -> bool) {
    forall s, t :: s in w.pods && t in w.pods && f(w.pods[s]) && f(w.pods[t]) ==> s == t
  }

  ghost predicate OneEach(w: World) {
    Sole(w, ReadyWriter) && Sole(w, ReadyBackupWriter) && Sole(w, ReadyBackup)
  }

  ghost predicate Held(w: World) {
    && (exists s :: s in w.pods && ReadyWriter(w.pods[s]))
    && (exists s :: s in w.pods && ReadyBackupWriter(w.pods[s]))
  }

  /** What the slot being worked on looks like. */
  datatype Stage = Whole | Leaving | Vacant | Coming | Standing

  /** A pod created in this upgrade: a plain reader or the backup, standalone until its claim is
      at the next revision. */
  ghost predicate Arriving(c: Config, w: World, v: Suffix) {
    && v in w.pods && DataId(v) in w.claims
    && var p := w.pods[v];
    && !p.terminating && p.labels.rev == c.newRev && p.labels.role.None? && p.labels.reader == Some(true)
    && p.labels.state == (if w.claims[DataId(v)].rev == c.newRev then Cluster else Standalone)
    && (IsBackup(p) ==> HasLive(w, BackupId(v)) && forall s :: s in w.pods ==> !ReadyBackup(w.pods[s]))
    && (!IsBackup(p) ==> BackupId(v) !in w.claims)
  }

  ghost predicate At(c: Config, w: World, v: Suffix, g: Stage) {
    match g
    case Whole => Member(w, v) && Held(w)
    case Leaving => v in w.pods && w.pods[v].terminating && (BackupId(v) in w.claims ==> HasLive(w, BackupId(v)))
    case Vacant => v !in w.pods
    case Coming => Arriving(c, w, v) && Held(w) && (w.pods[v].health.NoPhase? || w.pods[v].health.Starting?)
    case Standing =>
      Arriving(c, w, v) && Held(w) && w.pods[v].health.Ready? && w.pods[v].wsrep.NonPrimary?
      && w.pods[v].labels.state.Standalone?
  }

  /** All slots but v hold members; v is at stage g. */
  ghost predicate Up(c: Config, w: World, v: Suffix, g: Stage) {
    && c.Valid() && v in c.Slots() && Claimed(c, w)
    && w.pods.Keys <= c.Slots() && (forall s :: s in w.pods ==> w.pods[s].suffix == s)
    && (forall s :: s in c.Slots() && s != v ==> Member(w, s))
    && OneEach(w)
    && At(c, w, v, g)
  }

  // ---- What a round sees ------------------------------------------------------------------

  lemma UpPodIsCalm(c: Config, w: World, v: Suffix, g: Stage, s: Suffix)
    requires Up(c, w, v, g) && s in w.pods
    ensures CalmPod(w.pods[s])
    ensures IsListed(w.pods[s]) <==> s != v || g.Whole?
    ensures IsUnready(w.pods[s]) <==> s == v && (g.Coming? || g.Standing?)
    ensures w.pods[s].terminating <==> s == v && g.Leaving?
    ensures Healthy(w.pods[s]) ==> HasLive(w, DataId(s)) && (IsBackup(w.pods[s]) ==> HasLive(w, BackupId(s)))
  {
    assert s in c.Slots();
    if s != v { assert Member(w, s); }
  }

  lemma UpIsCalm(c: Config, w: World, v: Suffix, g: Stage, x: Input)
    requires Up(c, w, v, g) && Lists(w, x.pods, x.claims)
    ensures CalmPods(x.pods)
    ensures forall p :: p in x.pods && Healthy(p) ==> !LacksClaims(p, x.claims)
  {
    forall p | p in x.pods
      ensures CalmPod(p)
      ensures Healthy(p) ==> !LacksClaims(p, x.claims)
    {
      UpPodIsCalm(c, w, v, g, p.suffix);
      if Healthy(p) {
        assert w.claims[DataId(p.suffix)] in x.claims;
        assert w.claims[DataId(p.suffix)].id == DataId(p.suffix);
        if IsBackup(p) {
          assert w.claims[BackupId(p.suffix)] in x.claims;
          assert w.claims[BackupId(p.suffix)].id == BackupId(p.suffix);
        }
      }
    }
    OneEachListed(w, x);
  }

  lemma OneEachListed(w: World, x: Input)
    requires OneEach(w) && Lists(w, x.pods, x.claims)
    ensures OneReady(x.pods, ReadyWriter) && OneReady(x.pods, ReadyBackupWriter) && OneReady(x.pods, ReadyBackup)
  {
    forall i, j | 0 <= i < j < |x.pods|
      ensures !(ReadyWriter(x.pods[i]) && ReadyWriter(x.pods[j]))
      ensures !(ReadyBackupWriter(x.pods[i]) && ReadyBackupWriter(x.pods[j]))
      ensures !(ReadyBackup(x.pods[i]) && ReadyBackup(x.pods[j]))
    {
      assert x.pods[i] in x.pods && x.pods[j] in x.pods;
    }
  }

  /** The tally of a round in such a state. */
  ghost predicate Seen(w: World, x: Input, t: Tally, v: Suffix, g: Stage) {
    && |t.ready| == (if g.Whole? then 3 else 2)
    && (forall p :: p in t.ready <==> p in x.pods && IsListed(p))
    && (forall p :: p in t.unready ==> v in w.pods && p == w.pods[v])
    && (t.unready != [] <==> g.Coming? || g.Standing?)
    && (forall s :: s in t.suffixes <==> s in w.pods && !w.pods[s].terminating)
    && (forall s :: s in t.backups <==> s in w.pods && !w.pods[s].terminating && IsBackup(w.pods[s]))
    && (t.terminating <==> g.Leaving?)
    && t.special.None?
    && (exists d :: d in x.draws && d !in t.suffixes)
    && Roles.Roster(t.ready, t.status.members)
  }

  lemma RoundSees(c: Config, w: World, v: Suffix, g: Stage, x: Input)
    requires Up(c, w, v, g) && Lists(w, x.pods, x.claims) && CanDraw(x)
    ensures Classify(x.pods, Start(x), x).Go? && Classify(x.pods, Start(x), x).calls == []
    ensures var t := Classify(x.pods, Start(x), x).tally;
      Seen(w, x, t, v, g) && PlanRound(x) == Settle(x, t)
        && Roles.LabelCalls(x) == SetLabels(t.ready, t.status.members).calls
  {
    hide Classify, Up, CalmPods, LacksClaims, Roles.Roster, Roles.LabelCalls, PlanRound, Settle, SetLabels,
         IsListed, IsBackup, Lists;
    ListsDistinct(w, x);
    UpIsCalm(c, w, v, g, x);
    CalmRound(x);
    CalmStarts(x);
    Roles.RosterOf(x);
    SeenSuffixes(w, x);
    SeenLists(c, w, v, g, x);
    SeenTerminating(c, w, v, g, x);
  }

  lemma ListsDistinct(w: World, x: Input)
    requires Lists(w, x.pods, x.claims)
    ensures Distinct(x.pods)
  {
  }

  lemma CalmStarts(x: Input)
    requires CalmPods(x.pods)
    ensures Classify(x.pods, Start(x), x).Go? && Classify(x.pods, Start(x), x).calls == []
  {
    hide Classify, CalmPods;
    CalmIsQuiet(x.pods, Start(x), x);
  }

  lemma SeenTerminating(c: Config, w: World, v: Suffix, g: Stage, x: Input)
    requires Up(c, w, v, g) && Lists(w, x.pods, x.claims) && Classify(x.pods, Start(x), x).Go?
    ensures Classify(x.pods, Start(x), x).tally.terminating <==> g.Leaving?
  {
    ClosedTerminating(x.pods, Start(x), x);
    forall p | p in x.pods ensures p.terminating <==> p.suffix == v && g.Leaving? {
      UpPodIsCalm(c, w, v, g, p.suffix);
    }
    if g.Leaving? { assert w.pods[v] in x.pods; }
  }

  lemma SeenSuffixes(w: World, x: Input)
    requires Lists(w, x.pods, x.claims) && Classify(x.pods, Start(x), x).Go?
    ensures var t := Classify(x.pods, Start(x), x).tally;
      && (forall s :: s in t.suffixes <==> s in w.pods && !w.pods[s].terminating)
      && (forall s :: s in t.backups <==> s in w.pods && !w.pods[s].terminating && IsBackup(w.pods[s]))
  {
    ClosedSuffixes(x.pods, Start(x), x);
    ClosedBackups(x.pods, Start(x), x);
    InFilter(x.pods, IsLive);
    InFilter(x.pods, IsLiveBackup);
    InSuffixes(Filter(x.pods, IsLive));
    InSuffixes(Filter(x.pods, IsLiveBackup));
    var t := Classify(x.pods, Start(x), x).tally;
    assert t.suffixes == SuffixesOf(Filter(x.pods, IsLive));
    assert t.backups == SuffixesOf(Filter(x.pods, IsLiveBackup));
    forall s | s in w.pods
      ensures !w.pods[s].terminating ==> s in t.suffixes
      ensures !w.pods[s].terminating && IsBackup(w.pods[s]) ==> s in t.backups
    {
      assert w.pods[s] in x.pods && w.pods[s].suffix == s;
    }
  }

  /** The rounds of a state list as ready the members, and as unready the pod on its way in. */
  lemma SeenPods(c: Config, w: World, v: Suffix, g: Stage, x: Input)
    requires Up(c, w, v, g) && Lists(w, x.pods, x.claims)
    ensures forall p :: p in x.pods && IsListed(p) ==> p.suffix != v || g.Whole?
    ensures forall p :: p in x.pods && (p.suffix != v || g.Whole?) ==> IsListed(p)
    ensures forall p :: p in x.pods && IsUnready(p) ==> p.suffix == v && (g.Coming? || g.Standing?)
    ensures g.Coming? || g.Standing? ==> v in w.pods && w.pods[v] in x.pods && IsUnready(w.pods[v])
  {
    forall p | p in x.pods
      ensures IsListed(p) <==> p.suffix != v || g.Whole?
      ensures IsUnready(p) <==> p.suffix == v && (g.Coming? || g.Standing?)
    {
      UpPodIsCalm(c, w, v, g, p.suffix);
    }
    if g.Coming? || g.Standing? {
      UpPodIsCalm(c, w, v, g, v);
    }
  }

  lemma SeenLists(c: Config, w: World, v: Suffix, g: Stage, x: Input)
    requires Up(c, w, v, g) && Lists(w, x.pods, x.claims)
    ensures var ready, unready := Filter(x.pods, IsListed), Filter(x.pods, IsUnready);
      && |ready| == (if g.Whole? then 3 else 2)
      && (forall p :: p in ready <==> p in x.pods && IsListed(p))
      && (forall p :: p in unready ==> v in w.pods && p == w.pods[v])
      && (unready != [] <==> g.Coming? || g.Standing?)
  {
    hide IsListed, IsUnready, Up;
    InFilter(x.pods, IsListed);
    InFilter(x.pods, IsUnready);
    SeenPods(c, w, v, g, x);
    FilterDistinct(x.pods, IsListed);
    ReadyCount(c, w, v, g, x, Filter(x.pods, IsListed));
    var unready := Filter(x.pods, IsUnready);
    assert unready != [] ==> unready[0] in unready;
    if g.Coming? || g.Standing? {
      assert w.pods[v] in unready;
    }
  }

  lemma ReadyCount(c: Config, w: World, v: Suffix, g: Stage, x: Input, ready: seq<Pod>)
    requires Up(c, w, v, g) && Lists(w, x.pods, x.claims) && Distinct(ready)
    requires forall p :: p in ready <==> p in x.pods && (p.suffix != v || g.Whole?)
    ensures |ready| == if g.Whole? then 3 else 2
  {
    var members := if g.Whole? then c.Slots() else c.Slots() - {v};
    forall s | s in members ensures exists p :: p in ready && p.suffix == s {
      if s != v { assert Member(w, s); }
      assert w.pods[s] in x.pods;
    }
    CountBySuffix(ready, members);
    SlotCount(c, v);
  }

  lemma SlotCount(c: Config, v: Suffix)
    requires c.Valid() && v in c.Slots()
    ensures |c.Slots()| == 3 && |c.Slots() - {v}| == 2
  {
    assert c.Slots() - {c.a} == {c.b, c.c};
    assert c.Slots() == {c.a} + {c.b, c.c};
  }

  // ---- What the labels of a round do ------------------------------------------------------

  /** Two ready pods: both end up with a role. Three, both roles held: only the writer's reader
      label can change. */
  lemma RelabelledPod(w: World, x: Input, t: Tally, v: Suffix, g: Stage, p: Pod)
    requires Seen(w, x, t, v, g) && p in t.ready
    requires g.Whole? ==> Held(w) && OneEach(w) && Lists(w, x.pods, x.claims)
    ensures var l := Roles.Final(p, t.ready, t.status.members);
      if g.Whole?
      then l.role == p.labels.role && (HoldsRole(p) || l == p.labels)
      else l.role == Some(Writer) || l.role == Some(BackupWriter)
  {
    hide Roles.Final;
    if g.Whole? {
      HeldIsRecorded(w, x, t, v, g);
      KeptOfThree(t.ready, t.status.members, p);
    } else {
      Roles.TwoShareTheRoles(t.ready, t.status.members);
      assert p == t.ready[0] || p == t.ready[1];
    }
  }

  /** At most one ready holder of each role, and both are recorded. */
  lemma KeptOfThree(ready: seq<Pod>, m: Members, p: Pod)
    requires Roles.Roster(ready, m) && |ready| >= 3 && m.writer.Some? && m.backupWriter.Some? && p in ready
    requires forall q, r :: q in ready && r in ready && ReadyWriter(q) && ReadyWriter(r) ==> q.suffix == r.suffix
    requires forall q, r :: q in ready && r in ready && ReadyBackupWriter(q) && ReadyBackupWriter(r) ==> q.suffix == r.suffix
    ensures var l := Roles.Final(p, ready, m);
      l.role == p.labels.role && l.backup == p.labels.backup && (HoldsRole(p) || l == p.labels)
  {
    hide LabelMany, DropReader, Candidate, Roles.Final;
    Roles.ManyKeepHolders(ready, m, p);
    Roles.ManyFinal(ready, m, p);
    var q :| q in ready && ReadyWriter(q) && q.suffix == m.writer.value;
    var r :| r in ready && ReadyBackupWriter(r) && r.suffix == m.backupWriter.value;
    assert ReadyWriter(p) ==> p.suffix == q.suffix;
    assert ReadyBackupWriter(p) ==> p.suffix == r.suffix;
  }

  lemma HeldIsRecorded(w: World, x: Input, t: Tally, v: Suffix, g: Stage)
    requires Seen(w, x, t, v, g) && Held(w) && Lists(w, x.pods, x.claims)
    ensures t.status.members.writer.Some? && t.status.members.backupWriter.Some?
  {
    var s :| s in w.pods && ReadyWriter(w.pods[s]);
    assert w.pods[s] in t.ready;
    var b :| b in w.pods && ReadyBackupWriter(w.pods[b]);
    assert w.pods[b] in t.ready;
  }

  /** u is w after the label patches: listed pods have their final labels, the others their own. */
  ghost predicate Patched(w: World, u: World, t: Tally) {
    && Relabelled(w, u)
    && (forall s :: s in w.pods ==> PodPatched(w, u, t, s))
  }

  ghost predicate PodPatched(w: World, u: World, t: Tally, s: Suffix) {
    && s in w.pods && s in u.pods
    && if IsListed(w.pods[s])
       then w.pods[s] in t.ready && u.pods[s].labels == Roles.Final(w.pods[s], t.ready, t.status.members)
       else u.pods[s] == w.pods[s]
  }

  lemma RoundPatches(c: Config, w: World, v: Suffix, g: Stage, x: Input)
    requires Up(c, w, v, g) && Lists(w, x.pods, x.claims) && CanDraw(x)
    ensures Classify(x.pods, Start(x), x).Go?
    ensures Patched(w, ApplyAll(w, Roles.LabelCalls(x)), Classify(x.pods, Start(x), x).tally)
  {
    hide Classify, IsListed, Up, Lists, Roles.Final, Roles.LabelCalls, ApplyAll, Seen, Settle, SetLabels,
         PlanRound, Relabelled;
    RoundSees(c, w, v, g, x);
    LabelsRelabel(w, x);
    forall s | s in w.pods
      ensures PodPatched(w, ApplyAll(w, Roles.LabelCalls(x)), Classify(x.pods, Start(x), x).tally, s)
    {
      PodIsPatched(w, x, s);
    }
    RelabelledKeys(w, ApplyAll(w, Roles.LabelCalls(x)));
  }

  lemma RelabelledKeys(w: World, u: World)
    requires Relabelled(w, u)
    ensures u.claims == w.claims && u.pods.Keys == w.pods.Keys
    ensures forall s :: s in w.pods ==> s in u.pods && u.pods[s].suffix == w.pods[s].suffix
  {
  }

  lemma PodIsPatched(w: World, x: Input, s: Suffix)
    requires Lists(w, x.pods, x.claims) && s in w.pods
    requires Classify(x.pods, Start(x), x).Go?
    requires Relabelled(w, ApplyAll(w, Roles.LabelCalls(x)))
    ensures PodPatched(w, ApplyAll(w, Roles.LabelCalls(x)), Classify(x.pods, Start(x), x).tally, s)
  {
    hide Classify, IsListed, Roles.Final, Roles.LabelCalls, ApplyAll;
    var p := w.pods[s];
    assert p in x.pods && p.suffix == s;
    Roles.FinalIsStored(w, x, p);
    Roles.ListedOrUntouched(x, p);
    var t := Classify(x.pods, Start(x), x).tally;
    ListedAreListed(x);
  }

  lemma ListedAreListed(x: Input)
    requires Classify(x.pods, Start(x), x).Go?
    ensures forall p :: p in Classify(x.pods, Start(x), x).tally.ready <==> p in x.pods && IsListed(p)
  {
    hide Classify, IsListed;
    ClosedLists(x.pods, Start(x), x);
    InFilter(x.pods, IsListed);
    assert [] + Filter(x.pods, IsListed) == Filter(x.pods, IsListed);
  }

  /** The world after the label patches of a round: same stage, and both roles held. */
  lemma LabelsKeepUp(c: Config, w: World, v: Suffix, g: Stage, x: Input) returns (u: World)
    requires Up(c, w, v, g) && Lists(w, x.pods, x.claims) && CanDraw(x)
    ensures Classify(x.pods, Start(x), x).Go? && u == ApplyAll(w, Roles.LabelCalls(x))
    ensures Relabelled(w, u) && Up(c, u, v, g) && Held(u)
  {
    RoundSees(c, w, v, g, x);
    RoundPatches(c, w, v, g, x);
    u := ApplyAll(w, Roles.LabelCalls(x));
    RelabelledUp(c, w, u, v, g, x, Classify(x.pods, Start(x), x).tally);
  }

  /** Both roles end up held, once each. */
  lemma RelabelledHeld(w: World, u: World, x: Input, t: Tally, v: Suffix, g: Stage)
    requires Seen(w, x, t, v, g) && Lists(w, x.pods, x.claims) && Patched(w, u, t)
    requires g.Whole? ==> Held(w) && OneEach(w)
    ensures Held(u)
  {
    hide Roles.Final, Roles.Roster, OneEach, Held;
    if g.Whole? {
      HeldOfThree(w, u, x, t, v, g);
    } else {
      HeldOfTwo(w, u, x, t);
    }
  }

  lemma HeldOfThree(w: World, u: World, x: Input, t: Tally, v: Suffix, g: Stage)
    requires Seen(w, x, t, v, g) && Lists(w, x.pods, x.claims) && Patched(w, u, t)
    requires g.Whole? && Held(w) && OneEach(w)
    ensures Held(u)
  {
    hide Seen, OneEach, Lists, Patched, ReadyPrimary;
    var s :| s in w.pods && ReadyWriter(w.pods[s]);
    HolderStays(w, u, x, t, v, g, s);
    var b :| b in w.pods && ReadyBackupWriter(w.pods[b]);
    HolderStays(w, u, x, t, v, g, b);
  }

  lemma HolderStays(w: World, u: World, x: Input, t: Tally, v: Suffix, g: Stage, s: Suffix)
    requires Seen(w, x, t, v, g) && Lists(w, x.pods, x.claims) && Patched(w, u, t)
    requires g.Whole? && Held(w) && OneEach(w)
    requires s in w.pods && ReadyPrimary(w.pods[s]) && HoldsRole(w.pods[s])
    ensures s in u.pods && ReadyPrimary(u.pods[s]) && u.pods[s].labels.role == w.pods[s].labels.role
  {
    hide Roles.Final, Roles.Roster, OneEach, Held;
    RelabelledPod(w, x, t, v, g, w.pods[s]);
    assert PodPatched(w, u, t, s);
  }

  lemma HeldOfTwo(w: World, u: World, x: Input, t: Tally)
    requires Roles.Roster(t.ready, t.status.members) && |t.ready| == 2 && (forall p :: p in t.ready ==> p in x.pods)
    requires Lists(w, x.pods, x.claims) && Patched(w, u, t)
    ensures Held(u)
  {
    hide Roles.Final, Roles.Roster, IsListed;
    Roles.TwoShareTheRoles(t.ready, t.status.members);
    var k := if Roles.Shared(t.ready, t.status.members, 0) then 0 else 1;
    var p, q := t.ready[k], t.ready[1 - k];
    ReadyStays(w, u, x, t, p);
    ReadyStays(w, u, x, t, q);
  }

  /** A ready pod ends up ready, with its final labels. */
  lemma ReadyStays(w: World, u: World, x: Input, t: Tally, p: Pod)
    requires Roles.Roster(t.ready, t.status.members) && p in t.ready && p in x.pods
    requires Lists(w, x.pods, x.claims) && Patched(w, u, t)
    ensures p.suffix in u.pods && ReadyPrimary(u.pods[p.suffix])
    ensures u.pods[p.suffix].labels == Roles.Final(p, t.ready, t.status.members)
  {
    hide Roles.Final;
    assert w.pods[p.suffix] == p && PodPatched(w, u, t, p.suffix);
  }

  lemma RelabelledSole(w: World, u: World, x: Input, t: Tally, v: Suffix, g: Stage)
    requires Seen(w, x, t, v, g) && Lists(w, x.pods, x.claims) && Patched(w, u, t)
    requires g.Whole? ==> Held(w)
    ensures Sole(u, ReadyWriter) && Sole(u, ReadyBackupWriter)
  {
    hide Roles.Final, LabelMany, Roles.Roster;
    if g.Whole? {
      HeldIsRecorded(w, x, t, v, g);
      Roles.ManyKeepHolders(t.ready, t.status.members, t.ready[0]);
    } else {
      Roles.OthersArePatches(t.ready, t.status.members);
    }
    RolesKeptApart(w, u, t);
  }

  lemma RolesKeptApart(w: World, u: World, t: Tally)
    requires Patched(w, u, t) && (forall s :: s in w.pods ==> w.pods[s].suffix == s)
    requires Roles.Roster(t.ready, t.status.members) && SetLabels(t.ready, t.status.members).ok
    ensures Sole(u, ReadyWriter) && Sole(u, ReadyBackupWriter)
  {
    hide Roles.Final, SetLabels, Roles.Roster;
    Roles.RolesAreUnique(t.ready, t.status.members);
    assert forall s :: s in u.pods && HoldsRole(u.pods[s]) && ReadyPrimary(u.pods[s]) ==> IsListed(w.pods[s]);
  }

  lemma MemberKept(w: World, u: World, x: Input, t: Tally, v: Suffix, g: Stage, s: Suffix)
    requires Seen(w, x, t, v, g) && Patched(w, u, t) && Member(w, s)
    requires g.Whole? ==> Held(w) && OneEach(w) && Lists(w, x.pods, x.claims)
    ensures Member(u, s)
  {
    hide Roles.Final, Roles.Roster;
    RelabelledPod(w, x, t, v, g, w.pods[s]);
  }

  lemma BackupsKept(w: World, u: World)
    requires Relabelled(w, u) && OneEach(w)
    ensures Sole(u, ReadyBackup)
  {
    forall r, s | r in u.pods && s in u.pods && ReadyBackup(u.pods[r]) && ReadyBackup(u.pods[s]) ensures r == s {
      assert ReadyBackup(w.pods[r]) && ReadyBackup(w.pods[s]);
    }
  }

  lemma ArrivingKept(c: Config, w: World, u: World, v: Suffix)
    requires Relabelled(w, u) && Arriving(c, w, v) && u.pods[v] == w.pods[v]
    ensures Arriving(c, u, v)
  {
    forall s | s in u.pods && IsBackup(u.pods[v]) ensures !ReadyBackup(u.pods[s]) {
      assert !ReadyBackup(w.pods[s]);
    }
  }

  lemma RelabelledUp(c: Config, w: World, u: World, v: Suffix, g: Stage, x: Input, t: Tally)
    requires Up(c, w, v, g) && Lists(w, x.pods, x.claims) && Seen(w, x, t, v, g) && Patched(w, u, t)
    ensures Up(c, u, v, g) && Held(u)
  {
    hide *;
    UpParts(c, w, v, g);
    PatchedParts(w, u, t);
    RelabelledHeld(w, u, x, t, v, g);
    RelabelledSole(w, u, x, t, v, g);
    BackupsKept(w, u);
    RelabelledMembers(c, w, u, v, g, x, t);
    RelabelledAt(c, w, u, v, g, x, t);
    UpAgain(c, w, u, v, g);
  }

  lemma RelabelledMembers(c: Config, w: World, u: World, v: Suffix, g: Stage, x: Input, t: Tally)
    requires Up(c, w, v, g) && Lists(w, x.pods, x.claims) && Seen(w, x, t, v, g) && Patched(w, u, t)
    ensures forall s :: s in c.Slots() && (s != v || g.Whole?) ==> Member(u, s)
  {
    hide Roles.Final, Roles.Roster, Seen, IsListed, Patched;
    forall s | s in c.Slots() && (s != v || g.Whole?) ensures Member(u, s) {
      assert Member(w, s);
      MemberKept(w, u, x, t, v, g, s);
    }
  }

  lemma RelabelledAt(c: Config, w: World, u: World, v: Suffix, g: Stage, x: Input, t: Tally)
    requires Up(c, w, v, g) && Lists(w, x.pods, x.claims) && Seen(w, x, t, v, g) && Patched(w, u, t) && Held(u)
    requires g.Whole? ==> Member(u, v)
    ensures At(c, u, v, g)
  {
    hide Roles.Final, Roles.Roster, Seen, IsListed, Held;
    if g.Coming? || g.Standing? {
      UpPodIsCalm(c, w, v, g, v);
      ArrivingKept(c, w, u, v);
    }
  }

  lemma UpParts(c: Config, w: World, v: Suffix, g: Stage)
    requires Up(c, w, v, g)
    ensures OneEach(w) && v in c.Slots() && (g.Whole? ==> Held(w))
  {
    hide Member, OneEach, Held;
  }

  lemma PatchedParts(w: World, u: World, t: Tally)
    requires Patched(w, u, t)
    ensures Relabelled(w, u)
  {
    hide Relabelled;
  }

  lemma UpAgain(c: Config, w: World, u: World, v: Suffix, g: Stage)
    requires Up(c, w, v, g) && Relabelled(w, u) && At(c, u, v, g)
    requires Sole(u, ReadyWriter) && Sole(u, ReadyBackupWriter) && Sole(u, ReadyBackup)
    requires forall s :: s in c.Slots() && (s != v || g.Whole?) ==> Member(u, s)
    ensures Up(c, u, v, g)
  {
    hide Member, Sole, At, Claimed, Config.Slots, Relabelled;
    UpClaims(c, w, v, g);
    RelabelledKeys(w, u);
    ClaimedKept(c, w, u);
  }

  lemma UpClaims(c: Config, w: World, v: Suffix, g: Stage)
    requires Up(c, w, v, g)
    ensures Claimed(c, w)
  {
    hide Claimed, Member, OneEach, At;
  }

  lemma ClaimedKept(c: Config, w: World, u: World)
    requires Claimed(c, w) && u.claims == w.claims
    ensures Claimed(c, u)
  {
  }
}
