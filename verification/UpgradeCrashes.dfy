/** The rolling upgrade when rounds are cut off: every prefix of a round's calls keeps the upgrade at
    one of its stages, and each cut costs a bounded number of steps, so the upgrade still ends after
    finitely many of them. */
module UpgradeCrashes {
  import opened ApiStore
  import opened Status
  import opened Round
  import opened RoundFacts
  import opened Disruption
  import opened Calm
  import opened RollingUpgrade
  import opened UpgradeProgress
  import opened UpgradeRuns
  import Protocol
  import Roles

  // ---- Cut while labels are set -----------------------------------------------------------

  /** A ready pod gets one of the two roles, which no other ready pod has. */
  ghost predicate Grants(w: World, s: Suffix, l: Labels) {
    && s in w.pods && IsListed(w.pods[s])
    && l == w.pods[s].labels.(role := l.role, reader := l.reader)
    && (l.role == Some(Writer) || l.role == Some(BackupWriter))
    && forall q :: q in w.pods && q != s && ReadyPrimary(w.pods[q]) ==> w.pods[q].labels.role != l.role
  }

  lemma GrantKeepsMember(w: World, s: Suffix, l: Labels, q: Suffix)
    requires Grants(w, s, l) && Member(w, q)
    ensures Member(Apply(w, PatchPod(s, l)), q)
  {
  }

  lemma GrantKeepsRoles(w: World, s: Suffix, l: Labels)
    requires Grants(w, s, l) && OneEach(w)
    ensures OneEach(Apply(w, PatchPod(s, l)))
  {
    hide IsListed;
  }

  lemma GrantRelabels(c: Config, w: World, v: Suffix, g: Stage, s: Suffix, l: Labels)
    requires Up(c, w, v, g) && (g.Leaving? || g.Vacant?) && s != v && Grants(w, s, l)
    ensures var u := Apply(w, PatchPod(s, l)); Relabelled(w, u) && At(c, u, v, g)
  {
    hide Up, Grants, Relabelled, At, Apply, Accepts;
    GrantAccepted(w, s, l);
    GrantRelabelled(w, s, l);
    RelabelledAway(c, w, Apply(w, PatchPod(s, l)), v, g);
  }

  lemma GrantRelabelled(w: World, s: Suffix, l: Labels)
    requires Grants(w, s, l) && Accepts(w, PatchPod(s, l))
    ensures Relabelled(w, Apply(w, PatchPod(s, l)))
  {
    hide IsListed;
  }

  /** Labels do not matter to a slot that is being cleared. */
  lemma RelabelledAway(c: Config, w: World, u: World, v: Suffix, g: Stage)
    requires Up(c, w, v, g) && Relabelled(w, u) && (g.Leaving? || g.Vacant?)
    ensures At(c, u, v, g)
  {
    hide Claimed, Member, OneEach, IsListed, Held, Arriving;
  }

  lemma GrantKeepsUp(c: Config, w: World, v: Suffix, g: Stage, s: Suffix, l: Labels)
    requires Up(c, w, v, g) && (g.Leaving? || g.Vacant?) && s != v && Grants(w, s, l)
    ensures Accepts(w, PatchPod(s, l))
    ensures Up(c, Apply(w, PatchPod(s, l)), v, g) && Relabelled(w, Apply(w, PatchPod(s, l)))
  {
    hide Up, Grants, Relabelled, At, Apply, Accepts, Sole, Member;
    GrantAccepted(w, s, l);
    var u := Apply(w, PatchPod(s, l));
    UpParts(c, w, v, g);
    GrantRelabels(c, w, v, g, s, l);
    GrantKeepsRoles(w, s, l);
    forall q | q in c.Slots() && q != v ensures Member(u, q) {
      MemberThere(c, w, v, g, q);
      GrantKeepsMember(w, s, l, q);
    }
    UpAgain(c, w, u, v, g);
  }

  lemma MemberThere(c: Config, w: World, v: Suffix, g: Stage, q: Suffix)
    requires Up(c, w, v, g) && q in c.Slots() && q != v
    ensures Member(w, q)
  {
    hide Claimed, Member, OneEach, At;
  }

  /** With both roles recorded, at most one patch is planned. */
  lemma {:induction false} DropsAtMostOne(ready: seq<Pod>, w: Option<Suffix>)
    ensures |DropReader(ready, w)| <= 1
  {
    if ready != [] { DropsAtMostOne(ready[1..], w); }
  }

  lemma HeldNeedsOnePatch(c: Config, w: World, v: Suffix, g: Stage, x: Input, t: Tally)
    requires Looks(c, w, v, g, x, t) && Held(w)
    ensures |SetLabels(t.ready, t.status.members).calls| <= 1
  {
    hide DropReader, Candidate, Classify, Up, IsListed;
    LooksListed(c, w, v, g, x, t);
    HeldIsRecorded(w, x, t, v, g);
    DropsAtMostOne(t.ready, t.status.members.writer);
  }

  /** Otherwise two pods are ready, at most two patches are planned, and the first is a grant. */
  lemma FirstPatchGrants(c: Config, w: World, v: Suffix, g: Stage, x: Input, t: Tally)
    requires Looks(c, w, v, g, x, t) && !g.Whole? && |SetLabels(t.ready, t.status.members).calls| > 1
    ensures var calls := SetLabels(t.ready, t.status.members).calls;
      |calls| == 2 && calls[0].PatchPod? && calls[0].suffix != v && Grants(w, calls[0].suffix, calls[0].labels)
  {
    hide Looks, Grants, SetLabels, IsListed, Roles.Roster;
    LooksParts(c, w, v, g, x, t);
    var p := FirstPatch(t.ready, t.status.members);
    var calls := SetLabels(t.ready, t.status.members).calls;
    ReadyIsElsewhere(c, w, v, g, x, t, p);
    OthersHoldNot(c, w, v, g, x, t, calls[0].labels.role);
    GrantsOne(w, p, calls[0].labels);
  }

  lemma GrantsOne(w: World, p: Pod, l: Labels)
    requires p.suffix in w.pods && w.pods[p.suffix] == p && IsListed(p)
    requires l == p.labels.(role := l.role, reader := l.reader) && (l.role == Some(Writer) || l.role == Some(BackupWriter))
    requires forall q :: q in w.pods && ReadyPrimary(w.pods[q]) ==> w.pods[q].labels.role != l.role
    ensures Grants(w, p.suffix, l)
  {
    hide IsListed;
  }

  /** Of two patches planned for two ready pods, the first gives one of them a role nobody has. */
  lemma FirstPatch(ready: seq<Pod>, m: Members) returns (p: Pod)
    requires Roles.Roster(ready, m) && |ready| == 2 && |SetLabels(ready, m).calls| > 1
    ensures p in ready && |SetLabels(ready, m).calls| == 2
    ensures var c := SetLabels(ready, m).calls[0];
      && c.PatchPod? && c.suffix == p.suffix && c.labels == p.labels.(role := c.labels.role, reader := c.labels.reader)
      && ((c.labels.role == Some(Writer) && m.writer.None?) || (c.labels.role == Some(BackupWriter) && m.backupWriter.None?))
  {
    hide DropReader, IsListed;
    DropsAtMostOne(ready, m.writer);
    if m.writer.None? {
      Roles.LastOfTwo(ready);
      p := if LastBackup(ready) == Some(ready[0]) then ready[1] else ready[0];
    } else {
      var q :| q in ready && ReadyWriter(q) && q.suffix == m.writer.value;
      var k := if q == ready[0] then 0 else 1;
      Roles.OthersOfTwo(ready, m, k);
      p := ready[1 - k];
    }
  }

  lemma ReadyIsElsewhere(c: Config, w: World, v: Suffix, g: Stage, x: Input, t: Tally, p: Pod)
    requires Looks(c, w, v, g, x, t) && !g.Whole? && p in t.ready
    ensures p.suffix in w.pods && w.pods[p.suffix] == p && IsListed(p) && p.suffix != v
  {
    hide Classify, Roles.Roster, Held, OneEach;
    UpPodIsCalm(c, w, v, g, p.suffix);
  }

  /** A role the tally has not recorded is held by no ready pod. */
  lemma OthersHoldNot(c: Config, w: World, v: Suffix, g: Stage, x: Input, t: Tally, r: Option<Role>)
    requires Looks(c, w, v, g, x, t)
    requires (r == Some(Writer) && t.status.members.writer.None?)
      || (r == Some(BackupWriter) && t.status.members.backupWriter.None?)
    ensures forall q :: q in w.pods && ReadyPrimary(w.pods[q]) ==> w.pods[q].labels.role != r
  {
    hide Classify, Up;
    forall q | q in w.pods && ReadyPrimary(w.pods[q]) ensures w.pods[q].labels.role != r {
      assert w.pods[q] in x.pods;
    }
  }

  /** Whatever part of the labelling was issued, the stage is kept. */
  lemma LabelsCut(c: Config, w: World, v: Suffix, g: Stage, x: Input, t: Tally, n: nat)
    requires Looks(c, w, v, g, x, t) && CanDraw(x) && n <= |SetLabels(t.ready, t.status.members).calls|
    requires Roles.LabelCalls(x) == SetLabels(t.ready, t.status.members).calls
    ensures var u := ApplyAll(w, SetLabels(t.ready, t.status.members).calls[..n]); Up(c, u, v, g) && Relabelled(w, u)
  {
    hide Classify, Up, Seen, Lists, SetLabels, Roles.LabelCalls, Relabelled, Held, ApplyAll, Grants;
    var calls := SetLabels(t.ready, t.status.members).calls;
    LooksListed(c, w, v, g, x, t);
    LooksUp(c, w, v, g, x, t);
    if n == 0 {
      assert calls[..0] == [];
      ApplyNone(w);
      RelabelledSame(w);
    } else if n == |calls| {
      assert calls[..n] == calls;
      var u := LabelsKeepUp(c, w, v, g, x);
    } else {
      HeldWhereWhole(c, w, v, g);
      if Held(w) { HeldNeedsOnePatch(c, w, v, g, x, t); }
      FirstPatchGrants(c, w, v, g, x, t);
      assert calls[..1] == [calls[0]];
      GrantKeepsUp(c, w, v, g, calls[0].suffix, calls[0].labels);
      ApplyOne(w, PatchPod(calls[0].suffix, calls[0].labels));
    }
  }

  lemma GrantAccepted(w: World, s: Suffix, l: Labels)
    requires Grants(w, s, l)
    ensures Accepts(w, PatchPod(s, l))
  {
  }

  lemma HeldWhereWhole(c: Config, w: World, v: Suffix, g: Stage)
    requires Up(c, w, v, g)
    ensures Held(w) || g.Leaving? || g.Vacant?
  {
    hide Held, Member, OneEach, Claimed;
  }

  // ---- Cut after the labels ---------------------------------------------------------------

  /** The claim of the backup is created, its pod is not: the slot has to be cleared again. */
  lemma CreationCut(c: Config, l: World, u: World, v: Suffix)
    requires Up(c, l, v, Vacant) && BackupId(v) !in l.claims
    requires u == l.(claims := l.claims[BackupId(v) := Claim(BackupId(v), c.newRev, c.spec, false)])
    ensures Up(c, u, v, Vacant) && Measure(c, u) == Measure(c, l) + 2
  {
    hide Up, Claimed, Measure, Distance, OnlySlot;
    UpClaimed(c, l, v, Vacant);
    ClaimedBut(c, l, u, BackupId(v));
    ClaimsOnly(l, u, BackupId(v));
    VacantFurther(c, l, u, v);
    SlotMoves(c, l, u, v, Vacant, Vacant);
    MeasureMoves(c, l, u, v);
  }

  lemma VacantFurther(c: Config, l: World, u: World, v: Suffix)
    requires v !in l.pods && BackupId(v) !in l.claims
    requires u == l.(claims := l.claims[BackupId(v) := Claim(BackupId(v), c.newRev, c.spec, false)])
    ensures Distance(c, u, v) == Distance(c, l, v) + 2
  {
    assert BackupId(v) != DataId(v);
  }

  /** mysql_upgrade is done, nothing else: it will be done again. */
  lemma UpgradeCutFirst(c: Config, l: World, v: Suffix)
    requires Up(c, l, v, Standing)
    ensures var u := ApplyAll(l, [MysqlUpgrade(v)]); Up(c, u, v, Standing) && Measure(c, u) == Measure(c, l)
  {
    hide Up, Measure, ApplyAll, At;
    UpClaimed(c, l, v, Standing);
    StandingThere(c, l, v);
    ApplyOne(l, MysqlUpgrade(v));
    SamePodsUp(c, l, ApplyAll(l, [MysqlUpgrade(v)]), v);
  }

  lemma SamePodsUp(c: Config, l: World, u: World, v: Suffix)
    requires Up(c, l, v, Standing) && u.pods == l.pods && u.claims == l.claims
    ensures Up(c, u, v, Standing) && Measure(c, u) == Measure(c, l)
  {
    hide *;
    UpClaimed(c, l, v, Standing);
    UpParts(c, l, v, Standing);
    ClaimedKept(c, l, u);
    SamePodsOneEach(l, u);
    SamePodsAt(c, l, u, v);
    forall s | s in c.Slots() && s != v ensures Member(u, s) {
      MemberThere(c, l, v, Standing, s);
      SamePodsMember(l, u, s);
    }
    SamePodsUpAgain(c, l, u, v);
    SamePodsMeasure(c, l, u);
  }

  lemma SamePodsUpAgain(c: Config, l: World, u: World, v: Suffix)
    requires Up(c, l, v, Standing) && u.pods == l.pods && Claimed(c, u) && OneEach(u) && At(c, u, v, Standing)
    requires forall s :: s in c.Slots() && s != v ==> Member(u, s)
    ensures Up(c, u, v, Standing)
  {
    hide Member, OneEach, Claimed, At, Config.Slots;
  }

  lemma SamePodsMeasure(c: Config, l: World, u: World)
    requires u.pods == l.pods && u.claims == l.claims
    ensures Measure(c, u) == Measure(c, l)
  {
    hide Distance;
    SamePodsDistance(c, l, u, c.a);
    SamePodsDistance(c, l, u, c.b);
    SamePodsDistance(c, l, u, c.c);
  }

  lemma SamePodsDistance(c: Config, l: World, u: World, s: Suffix)
    requires u.pods == l.pods && u.claims == l.claims
    ensures Distance(c, u, s) == Distance(c, l, s)
  {
  }

  lemma SamePodsMember(l: World, u: World, s: Suffix)
    requires Member(l, s) && u.pods == l.pods && u.claims == l.claims
    ensures Member(u, s)
  {
    hide IsListed, Apart;
  }

  lemma SamePodsOneEach(l: World, u: World)
    requires OneEach(l) && u.pods == l.pods
    ensures OneEach(u)
  {
    hide ReadyWriter, ReadyBackupWriter, ReadyBackup;
  }

  lemma SamePodsAt(c: Config, l: World, u: World, v: Suffix)
    requires At(c, l, v, Standing) && u.claims == l.claims && u.pods == l.pods
    ensures At(c, u, v, Standing)
  {
    hide ReadyWriter, ReadyBackupWriter, ReadyBackup;
    assert Held(u);
  }

  /** The pod is deleted, its claim not relabelled: mysql_upgrade has to be done once more. */
  lemma UpgradeCutSecond(c: Config, l: World, v: Suffix)
    requires Up(c, l, v, Standing)
    ensures var u := ApplyAll(l, [MysqlUpgrade(v), DeletePod(v)]); Up(c, u, v, Leaving) && Measure(c, u) == Measure(c, l) + 5
  {
    hide Up, Claimed, Measure, ApplyAll, OnlySlot, At;
    UpClaimed(c, l, v, Standing);
    StandingThere(c, l, v);
    ApplyTwo(l, MysqlUpgrade(v), DeletePod(v));
    var u := ApplyAll(l, [MysqlUpgrade(v), DeletePod(v)]);
    ClaimedKept(c, l, u);
    PodsOnly(l, u, v);
    LeavingAgain(c, l, u, v);
    SlotMoves(c, l, u, v, Standing, Leaving);
    MeasureMoves(c, l, u, v);
  }

  lemma StandingThere(c: Config, l: World, v: Suffix)
    requires At(c, l, v, Standing)
    ensures v in l.pods
  {
    hide Held;
  }

  lemma LeavingAgain(c: Config, l: World, u: World, v: Suffix)
    requires At(c, l, v, Standing) && u.claims == l.claims && v in u.pods && u.pods[v] == l.pods[v].(terminating := true)
    ensures At(c, u, v, Leaving) && Distance(c, u, v) == Distance(c, l, v) + 5
  {
    hide Held, ReadyBackup;
  }

  lemma VacantCut(c: Config, w: World, l: World, v: Suffix, x: Input, t: Tally, k: nat)
    requires Looks(c, w, v, Vacant, x, t) && Relabelled(w, l) && Up(c, l, v, Vacant)
    requires 0 < k < |Reconcile(x, t, Phased(x, t)).calls|
    ensures var u := ApplyAll(l, Reconcile(x, t, Phased(x, t)).calls[..k]);
      InUpgrade(c, u) && Measure(c, u) <= Measure(c, l) + 5
  {
    hide Looks, Up, Reconcile, Phased, ApplyAll, Measure, Newcomer;
    LooksUp(c, w, v, Vacant, x, t);
    LooksParts(c, w, v, Vacant, x, t);
    UpClaimed(c, w, v, Vacant);
    if BackupId(v) in w.claims {
      VacantCollects(c, w, v, x, t);
    } else {
      SlotClaims(c, w, v, Vacant, v);
      VacantCreates(c, w, v, x, t);
      var made := CreateClaim(BackupId(v), c.newRev, c.spec);
      assert Reconcile(x, t, Phased(x, t)).calls[..1] == [made];
      ApplyOne(l, made);
      CreationCut(c, l, Apply(l, made), v);
    }
  }

  lemma StandingCut(c: Config, w: World, l: World, v: Suffix, x: Input, t: Tally, k: nat)
    requires Looks(c, w, v, Standing, x, t) && Up(c, l, v, Standing)
    requires 0 < k < |Reconcile(x, t, Phased(x, t)).calls|
    ensures var u := ApplyAll(l, Reconcile(x, t, Phased(x, t)).calls[..k]);
      InUpgrade(c, u) && Measure(c, u) <= Measure(c, l) + 5
  {
    hide Looks, Up, Reconcile, Phased, ApplyAll, Measure;
    LooksParts(c, w, v, Standing, x, t);
    StandingUpgrades(c, w, v, x, t);
    var a, b, d := MysqlUpgrade(v), DeletePod(v), PatchClaim(v, c.newRev);
    assert [a, b, d][..1] == [a] && [a, b, d][..2] == [a, b];
    if k == 1 { UpgradeCutFirst(c, l, v); } else { UpgradeCutSecond(c, l, v); }
  }

  /** The part of the calls after the labels that was issued. */
  lemma TailCut(c: Config, w: World, l: World, v: Suffix, g: Stage, x: Input, t: Tally, k: nat)
    requires Looks(c, w, v, g, x, t) && Relabelled(w, l) && Up(c, l, v, g) && !g.Leaving?
    requires 0 < k < |Reconcile(x, t, Phased(x, t)).calls|
    ensures var u := ApplyAll(l, Reconcile(x, t, Phased(x, t)).calls[..k]);
      InUpgrade(c, u) && Measure(c, u) <= Measure(c, l) + 5 && Measure(c, l) > 0
  {
    hide Looks, Up, Reconcile, Phased, ApplyAll, Measure, InUpgrade, Relabelled;
    LooksParts(c, w, v, g, x, t);
    BusySlot(c, l, v, g);
    match g
    case Whole =>
      var s := WholeDeletes(c, w, v, x, t);
    case Coming =>
      ComingWaits(c, w, v, x, t);
    case Vacant =>
      VacantCut(c, w, l, v, x, t, k);
    case Standing =>
      StandingCut(c, w, l, v, x, t, k);
  }

  lemma BusySlot(c: Config, l: World, v: Suffix, g: Stage)
    requires Up(c, l, v, g)
    ensures g.Vacant? || g.Standing? ==> Measure(c, l) > 0
  {
    hide Claimed, OneEach, Held, Member;
    if g.Vacant? || g.Standing? { assert Distance(c, l, v) > 0; }
  }

  // ---- Any cut ----------------------------------------------------------------------------

  /** A round of which the first n calls were issued. */
  ghost predicate CutRound(c: Config, w: World, u: World) {
    exists x, n: nat :: Fits(c, x) && Lists(w, x.pods, x.claims) && IssuedOf(w, x, n, u)
  }

  ghost predicate IssuedOf(w: World, x: Input, n: nat, u: World)
    requires CanDraw(x)
  {
    n <= |PlanRound(x).calls| && u == ApplyAll(w, PlanRound(x).calls[..n])
  }

  /** Every prefix of a round's calls keeps the upgrade at one of its stages. It costs at most five
      steps, and none when the upgrade is done. */
  lemma CutMoves(c: Config, w: World, x: Input, n: nat)
    requires InUpgrade(c, w) && Fits(c, x) && Lists(w, x.pods, x.claims) && n <= |PlanRound(x).calls|
    ensures var u := ApplyAll(w, PlanRound(x).calls[..n]);
      InUpgrade(c, u) && Measure(c, u) <= Measure(c, w) + 5 && (Measure(c, w) == 0 ==> Measure(c, u) == 0)
  {
    hide Up, Lists, PlanRound, Settle, Looks, Roles.LabelCalls, SetLabels, ApplyAll, Measure, Reconcile, Phased, Quiet;
    var calls := PlanRound(x).calls;
    if n == |calls| {
      assert calls[..n] == calls;
      RoundMoves(c, w, x);
    } else {
      var v, g :| Up(c, w, v, g);
      var t := RoundLooks(c, w, v, g, x);
      LooksParts(c, w, v, g, x, t);
      GoesOn(c, w, v, g, x, t);
      var labels := SetLabels(t.ready, t.status.members).calls;
      var tail := if g.Leaving? then [] else Reconcile(x, t, Phased(x, t)).calls;
      if n <= |labels| {
        assert calls[..n] == labels[..n];
        LabelsCut(c, w, v, g, x, t, n);
        RelabelledMeasure(c, w, ApplyAll(w, labels[..n]));
      } else {
        var k := n - |labels|;
        assert calls[..n] == labels + tail[..k];
        ApplyAllConcat(w, labels, tail[..k]);
        LabelsCut(c, w, v, g, x, t, |labels|);
        assert labels[..|labels|] == labels;
        var l := ApplyAll(w, labels);
        RelabelledMeasure(c, w, l);
        TailCut(c, w, l, v, g, x, t, k);
      }
    }
  }

  // ---- Runs with cuts ---------------------------------------------------------------------

  ghost predicate IsCutRun(c: Config, run: seq<World>) {
    && run != [] && InUpgrade(c, run[0])
    && forall i :: 0 <= i < |run| - 1 ==> CutRound(c, run[i], run[i + 1]) || EnvironmentStep(run[i], run[i + 1])
  }

  /** Neither a whole round nor a step of the environment. */
  ghost predicate Cut(c: Config, w: World, u: World) { !RoundStep(c, w, u) && !EnvironmentStep(w, u) }

  ghost function Cuts(c: Config, run: seq<World>, n: nat): nat
    requires n < |run|
  {
    if n == 0 then 0 else Cuts(c, run, n - 1) + (if Cut(c, run[n - 1], run[n]) then 1 else 0)
  }

  lemma CutStepMoves(c: Config, w: World, u: World)
    requires InUpgrade(c, w) && (CutRound(c, w, u) || EnvironmentStep(w, u))
    ensures InUpgrade(c, u) && (Measure(c, w) == 0 ==> Measure(c, u) == 0)
    ensures if Cut(c, w, u) then Measure(c, u) <= Measure(c, w) + 5
      else Measure(c, u) + (if Productive(c, w, u) then 1 else 0) <= Measure(c, w)
  {
    hide InUpgrade, Measure, RoundStep, EnvironmentStep, Productive, PlanRound, Lists, ApplyAll;
    if Cut(c, w, u) {
      var x, n: nat :| Fits(c, x) && Lists(w, x.pods, x.claims) && IssuedOf(w, x, n, u);
      CutMoves(c, w, x, n);
    } else {
      StepMoves(c, w, u);
    }
  }

  /** Along any run in which rounds are cut off anywhere, k cuts allow at most 36 + 5k productive steps. */
  lemma {:induction false} CutsCostAtMostFive(c: Config, run: seq<World>, n: nat)
    requires IsCutRun(c, run) && n < |run|
    ensures InUpgrade(c, run[n])
    ensures Measure(c, run[n]) + Productives(c, run, n) <= Measure(c, run[0]) + 6 * Cuts(c, run, n)
  {
    hide InUpgrade, Measure, CutRound, EnvironmentStep, Productive, Cut;
    if n > 0 {
      CutsCostAtMostFive(c, run, n - 1);
      assert CutRound(c, run[n - 1], run[n - 1 + 1]) || EnvironmentStep(run[n - 1], run[n - 1 + 1]);
      CutStepMoves(c, run[n - 1], run[n]);
    }
  }

  /** If every step is productive, cut off, or comes after the end, the upgrade is done as soon as
      there were more than 36 steps besides six for each cut. */
  lemma {:induction false} UpgradeSurvivesCuts(c: Config, run: seq<World>, n: nat)
    requires IsCutRun(c, run) && n < |run|
    requires forall i :: 0 <= i < n ==>
      Productive(c, run[i], run[i + 1]) || Cut(c, run[i], run[i + 1]) || Measure(c, run[i]) == 0
    ensures Measure(c, run[n]) == 0 || n + Measure(c, run[n]) <= 36 + 6 * Cuts(c, run, n)
    ensures n >= 36 + 6 * Cuts(c, run, n) ==> Measure(c, run[n]) == 0
  {
    hide InUpgrade, Measure, CutRound, EnvironmentStep, Productive, Cut;
    if n == 0 {
      MeasureBound(c, run[0]);
    } else {
      UpgradeSurvivesCuts(c, run, n - 1);
      CutsCostAtMostFive(c, run, n - 1);
      assert CutRound(c, run[n - 1], run[n - 1 + 1]) || EnvironmentStep(run[n - 1], run[n - 1 + 1]);
      CutStepMoves(c, run[n - 1], run[n]);
      assert Productive(c, run[n - 1], run[n - 1 + 1]) || Cut(c, run[n - 1], run[n - 1 + 1]) || Measure(c, run[n - 1]) == 0;
    }
  }
}
