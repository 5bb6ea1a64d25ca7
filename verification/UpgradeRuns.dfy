/** Runs of the rolling upgrade: every interleaving of rounds and environment steps stays within
    its stages, has a bounded number of productive steps, and ends with every pod at the next
    revision, which the next sync promotes. */
module UpgradeRuns {
  import opened ApiStore
  import opened Status
  import opened Round
  import opened RoundFacts
  import opened Calm
  import opened Sync
  import opened RollingUpgrade
  import opened UpgradeProgress
  import Bootstrap
  import PodTemplate
  import Promotion
  import Protocol
  import Roles

  ghost predicate InUpgrade(c: Config, w: World) { exists v, g :: Up(c, w, v, g) }

  /** The environment has nothing to finish: nothing is terminating and every pod is ready. */
  ghost predicate Quiet(w: World) {
    && (forall s :: s in w.pods ==> !w.pods[s].terminating && w.pods[s].health.Ready?)
    && (forall id :: id in w.claims ==> !w.claims[id].terminating)
  }

  // ---- One round --------------------------------------------------------------------------

  /** What a round leaves behind. */
  ghost predicate Moved(c: Config, w: World, u: World) {
    InUpgrade(c, u) && Measure(c, u) <= Measure(c, w) && (Quiet(w) && Measure(c, w) > 0 ==> Measure(c, u) < Measure(c, w))
  }

  lemma MovedBy(c: Config, w: World, l: World, u: World, v: Suffix, g: Stage)
    requires Relabelled(w, l) && Up(c, u, v, g)
    requires Measure(c, u) < Measure(c, l) || (u == l && (!Quiet(w) || Measure(c, w) == 0))
    ensures Moved(c, w, u)
  {
    hide Up, Measure, Quiet;
    RelabelledMeasure(c, w, l);
  }

  lemma LeavingMoves(c: Config, w: World, v: Suffix, x: Input, t: Tally)
    requires Looks(c, w, v, Leaving, x, t) && PlanRound(x) == Settle(x, t)
    requires Roles.LabelCalls(x) == SetLabels(t.ready, t.status.members).calls
    ensures Moved(c, w, ApplyAll(w, PlanRound(x).calls))
  {
    hide PlanRound, Settle, Roles.LabelCalls, SetLabels, Moved, Measure, Relabelled, Classify, Seen, Lists,
         Held, OneEach;
    var l := AfterLabels(c, w, v, Leaving, x, t);
    assert !Quiet(w);
    MovedBy(c, w, l, l, v, Leaving);
  }

  lemma VacantMoves(c: Config, w: World, v: Suffix, x: Input, t: Tally)
    requires Looks(c, w, v, Vacant, x, t) && PlanRound(x) == Settle(x, t)
    requires Roles.LabelCalls(x) == SetLabels(t.ready, t.status.members).calls
    ensures Moved(c, w, ApplyAll(w, PlanRound(x).calls))
  {
    hide PlanRound, Settle, Reconcile, Phased, Roles.LabelCalls, SetLabels, Moved, Measure, Classify, Seen,
         Lists, Held, Up, ApplyAll, Distance;
    var l := AfterLabels(c, w, v, Vacant, x, t);
    LooksUp(c, w, v, Vacant, x, t);
    UpClaimed(c, w, v, Vacant);
    if BackupId(v) in w.claims {
      VacantCollects(c, w, v, x, t);
      if w.claims[BackupId(v)].terminating {
        ApplyNone(l);
        MovedBy(c, w, l, l, v, Vacant);
      } else {
        ApplyOne(l, DeleteClaim(BackupId(v)));
        DeleteClaimMoves(c, l, v);
        MovedBy(c, w, l, Apply(l, DeleteClaim(BackupId(v))), v, Vacant);
      }
    } else {
      SlotClaims(c, w, v, Vacant, v);
      VacantCreates(c, w, v, x, t);
      var p := Newcomer(c, w, v, x, t);
      NewcomerFits(c, w, l, v, x, t);
      CreateMoves(c, l, v, p, NewRole(t));
      MovedBy(c, w, l, Created(c, l, v, p, NewRole(t)), v, Coming);
    }
  }

  /** The newcomer is a reader, or the backup when no ready pod is. */
  lemma NewcomerFits(c: Config, w: World, l: World, v: Suffix, x: Input, t: Tally)
    requires Looks(c, w, v, Vacant, x, t) && Relabelled(w, l) && DataId(v) in w.claims
    ensures var p := Newcomer(c, w, v, x, t);
      && p.suffix == v && p.health.NoPhase? && !p.terminating
      && p.labels == PodTemplate.PodLabels(NewRole(t), c.newRev,
        if l.claims[DataId(v)].rev == c.newRev then Cluster else Standalone)
    ensures NewRole(t) == Reader || (NewRole(t) == Backup && forall s :: s in l.pods ==> !ReadyBackup(l.pods[s]))
  {
    hide Classify, Up, Seen;
    ClosedMembers(x.pods, Start(x), x);
    Roles.FirstIs(x.pods, ReadyBackup);
    LooksListed(c, w, v, Vacant, x, t);
    if NewRole(t).Backup? {
      forall s | s in l.pods ensures !ReadyBackup(l.pods[s]) {
        assert w.pods[s] in x.pods;
      }
    }
  }

  lemma ComingMoves(c: Config, w: World, v: Suffix, x: Input, t: Tally)
    requires Looks(c, w, v, Coming, x, t) && PlanRound(x) == Settle(x, t)
    requires Roles.LabelCalls(x) == SetLabels(t.ready, t.status.members).calls
    ensures Moved(c, w, ApplyAll(w, PlanRound(x).calls))
  {
    hide PlanRound, Settle, Reconcile, Phased, Roles.LabelCalls, SetLabels, Moved, Measure, Relabelled,
         Classify, Seen, Lists, Held, Up;
    var l := AfterLabels(c, w, v, Coming, x, t);
    ComingWaits(c, w, v, x, t);
    ComingPod(c, w, v, x, t);
    assert !Quiet(w);
    MovedBy(c, w, l, l, v, Coming);
  }

  lemma StandingMoves(c: Config, w: World, v: Suffix, x: Input, t: Tally)
    requires Looks(c, w, v, Standing, x, t) && PlanRound(x) == Settle(x, t)
    requires Roles.LabelCalls(x) == SetLabels(t.ready, t.status.members).calls
    ensures Moved(c, w, ApplyAll(w, PlanRound(x).calls))
  {
    hide PlanRound, Settle, Reconcile, Phased, Roles.LabelCalls, SetLabels, Moved, Measure, Relabelled,
         Classify, Seen, Lists, Held, Up, Quiet, ApplyAll;
    var l := AfterLabels(c, w, v, Standing, x, t);
    StandingUpgrades(c, w, v, x, t);
    UpgradeMoves(c, l, v);
    MovedBy(c, w, l, Upgraded(c, l, v), v, Leaving);
  }

  lemma WholeMoves(c: Config, w: World, v: Suffix, x: Input, t: Tally)
    requires Looks(c, w, v, Whole, x, t) && PlanRound(x) == Settle(x, t)
    requires Roles.LabelCalls(x) == SetLabels(t.ready, t.status.members).calls
    ensures Moved(c, w, ApplyAll(w, PlanRound(x).calls))
  {
    hide PlanRound, Settle, Reconcile, Phased, Roles.LabelCalls, SetLabels, Moved, Measure, Classify, Seen,
         Lists, Held, Up, Quiet, ApplyAll, Distance;
    var l := AfterLabels(c, w, v, Whole, x, t);
    var s := WholeDeletes(c, w, v, x, t);
    LooksUp(c, w, v, Whole, x, t);
    if s.Some? {
      SlotsOnly(c, l, v, Whole);
      WholeAnywhere(c, l, v, s.value);
      DeletePodMoves(c, l, s.value);
      ApplyOne(l, DeletePod(s.value));
      MovedBy(c, w, l, Apply(l, DeletePod(s.value)), s.value, Leaving);
    } else {
      AllNewIsDone(c, w, v);
      ApplyNone(l);
      MovedBy(c, w, l, l, v, Whole);
    }
  }

  lemma ApplyNone(w: World)
    ensures ApplyAll(w, []) == w
  {
  }

  /** A whole state does not depend on the slot looked at. */
  lemma WholeAnywhere(c: Config, w: World, v: Suffix, s: Suffix)
    requires Up(c, w, v, Whole) && s in c.Slots()
    ensures Up(c, w, s, Whole)
  {
    hide Claimed, OneEach, Member, Held;
  }

  lemma AllNewIsDone(c: Config, w: World, v: Suffix)
    requires Up(c, w, v, Whole) && forall q :: q in w.pods ==> w.pods[q].labels.rev == c.newRev
    ensures Measure(c, w) == 0
  {
    hide Claimed, OneEach, Held;
    forall s | s in c.Slots() ensures Distance(c, w, s) == 0 {
      assert Member(w, s);
    }
  }

  /** Every round keeps the upgrade going, and brings it closer unless it waits for the environment. */
  lemma RoundMoves(c: Config, w: World, x: Input)
    requires InUpgrade(c, w) && Fits(c, x) && Lists(w, x.pods, x.claims)
    ensures Moved(c, w, ApplyAll(w, PlanRound(x).calls))
  {
    hide Moved, Up, Lists, PlanRound, Settle, Looks, Roles.LabelCalls, SetLabels, ApplyAll;
    var v, g :| Up(c, w, v, g);
    var t := RoundLooks(c, w, v, g, x);
    match g
    case Whole => WholeMoves(c, w, v, x, t);
    case Leaving => LeavingMoves(c, w, v, x, t);
    case Vacant => VacantMoves(c, w, v, x, t);
    case Coming => ComingMoves(c, w, v, x, t);
    case Standing => StandingMoves(c, w, v, x, t);
  }

  lemma EnvironmentMoves(c: Config, w: World, u: World)
    requires InUpgrade(c, w) && EnvironmentStep(w, u)
    ensures InUpgrade(c, u) && Measure(c, u) < Measure(c, w)
  {
    hide Up, Measure;
    var v, g :| Up(c, w, v, g);
    if exists s :: PodGone(w, u, s) {
      var s :| PodGone(w, u, s);
      PodGoneMoves(c, w, u, v, g, s);
    } else if exists id :: ClaimGone(w, u, id) {
      var id :| ClaimGone(w, u, id);
      ClaimGoneMoves(c, w, u, v, g, id);
    } else {
      var s, ip :| PodReady(w, u, s, ip);
      PodReadyMoves(c, w, u, v, g, s, ip);
    }
  }

  /** Whoever waits for the environment can be served. */
  lemma EnvironmentCanAct(w: World)
    requires !Quiet(w)
    ensures exists u :: EnvironmentStep(w, u)
  {
    if id :| id in w.claims && w.claims[id].terminating {
      var u := w.(claims := w.claims - {id});
      assert ClaimGone(w, u, id) && EnvironmentStep(w, u);
    } else if s :| s in w.pods && w.pods[s].terminating {
      var u := w.(pods := w.pods - {s});
      assert PodGone(w, u, s) && EnvironmentStep(w, u);
    } else {
      var s :| s in w.pods && !w.pods[s].health.Ready?;
      var u := w.(pods := w.pods[s := w.pods[s].(
        health := Ready, ip := "", wsrep := if w.pods[s].labels.state.Cluster? then Primary else NonPrimary)]);
      assert PodReady(w, u, s, "") && EnvironmentStep(w, u);
    }
  }

  // ---- Runs -------------------------------------------------------------------------------

  ghost predicate RoundStep(c: Config, w: World, u: World) {
    exists x :: Fits(c, x) && Lists(w, x.pods, x.claims) && u == ApplyAll(w, PlanRound(x).calls)
  }

  ghost predicate IsUpgradeRun(c: Config, run: seq<World>) {
    && run != [] && InUpgrade(c, run[0])
    && forall i :: 0 <= i < |run| - 1 ==> RoundStep(c, run[i], run[i + 1]) || EnvironmentStep(run[i], run[i + 1])
  }

  /** A step of the environment, or a round that does not have to wait for it, before the end. */
  ghost predicate Productive(c: Config, w: World, u: World) {
    EnvironmentStep(w, u) || (Quiet(w) && Measure(c, w) > 0)
  }

  ghost function Productives(c: Config, run: seq<World>, n: nat): nat
    requires n < |run|
  {
    if n == 0 then 0 else Productives(c, run, n - 1) + (if Productive(c, run[n - 1], run[n]) then 1 else 0)
  }

  lemma StepMoves(c: Config, w: World, u: World)
    requires InUpgrade(c, w) && (RoundStep(c, w, u) || EnvironmentStep(w, u))
    ensures InUpgrade(c, u)
    ensures Measure(c, u) + (if Productive(c, w, u) then 1 else 0) <= Measure(c, w)
  {
    hide Up, Measure, Quiet, Lists, PlanRound, ApplyAll, PodGone, ClaimGone, PodReady;
    if EnvironmentStep(w, u) {
      EnvironmentMoves(c, w, u);
    } else {
      var x :| Fits(c, x) && Lists(w, x.pods, x.claims) && u == ApplyAll(w, PlanRound(x).calls);
      RoundMoves(c, w, x);
    }
  }

  lemma {:induction false} RunMoves(c: Config, run: seq<World>, n: nat)
    requires IsUpgradeRun(c, run) && n < |run|
    ensures InUpgrade(c, run[n]) && Measure(c, run[n]) + Productives(c, run, n) <= Measure(c, run[0])
  {
    hide InUpgrade, Measure, RoundStep, EnvironmentStep, Productive;
    if n > 0 {
      RunMoves(c, run, n - 1);
      assert RoundStep(c, run[n - 1], run[n - 1 + 1]) || EnvironmentStep(run[n - 1], run[n - 1 + 1]);
      StepMoves(c, run[n - 1], run[n]);
    }
  }

  lemma MeasureBound(c: Config, w: World)
    ensures Measure(c, w) <= 36
  {
    forall s ensures Distance(c, w, s) <= 12 { }
  }

  /** No run of the upgrade has more than 36 productive steps, however rounds and environment are
      interleaved, and after a run that spends its whole measure every pod is at the next revision. */
  lemma UpgradeEnds(c: Config, run: seq<World>, n: nat)
    requires IsUpgradeRun(c, run) && n < |run|
    ensures Productives(c, run, n) <= Measure(c, run[0]) <= 36
    ensures Productives(c, run, n) == Measure(c, run[0]) ==> Measure(c, run[n]) == 0
  {
    hide InUpgrade, Measure, IsUpgradeRun, Productives;
    RunMoves(c, run, n);
    MeasureBound(c, run[0]);
  }

  /** If every step is productive until the upgrade is done, it is done after 36 steps. */
  lemma FairRunFinishes(c: Config, run: seq<World>)
    requires IsUpgradeRun(c, run) && |run| > 36
    requires forall i :: 0 <= i < 36 ==> Productive(c, run[i], run[i + 1]) || Measure(c, run[i]) == 0
    ensures Measure(c, run[36]) == 0
  {
    hide InUpgrade, Measure, IsUpgradeRun, Productive;
    FairPrefix(c, run, 36);
    MeasureBound(c, run[0]);
  }

  lemma {:induction false} FairPrefix(c: Config, run: seq<World>, n: nat)
    requires IsUpgradeRun(c, run) && n < |run|
    requires forall i :: 0 <= i < n ==> Productive(c, run[i], run[i + 1]) || Measure(c, run[i]) == 0
    ensures Measure(c, run[n]) == 0 || Measure(c, run[n]) + n <= Measure(c, run[0])
  {
    hide InUpgrade, Measure, RoundStep, EnvironmentStep, Productive;
    if n > 0 {
      FairPrefix(c, run, n - 1);
      RunMoves(c, run, n - 1);
      assert RoundStep(c, run[n - 1], run[n - 1 + 1]) || EnvironmentStep(run[n - 1], run[n - 1 + 1]);
      StepMoves(c, run[n - 1], run[n]);
      assert Productive(c, run[n - 1], run[n - 1 + 1]) || Measure(c, run[n - 1]) == 0;
    }
  }

  // ---- The start and the end --------------------------------------------------------------

  /** The measure is zero exactly when every slot holds a ready member of the cluster, pod and data
      at the next revision. */
  lemma DoneIsNew(c: Config, w: World)
    requires InUpgrade(c, w)
    ensures Measure(c, w) == 0 <==> forall s :: s in c.Slots() ==>
      Member(w, s) && w.pods[s].labels.rev == c.newRev && w.claims[DataId(s)].rev == c.newRev
  {
    hide OneEach, Held, Up, IsListed;
    var v, g :| Up(c, w, v, g);
    SlotsOnly(c, w, v, g);
    if Measure(c, w) == 0 {
      DoneIsWhole(c, w);
      forall s | s in c.Slots()
        ensures Member(w, s) && w.pods[s].labels.rev == c.newRev && w.claims[DataId(s)].rev == c.newRev
      {
        AtZero(c, w, s);
      }
    }
    if forall s :: s in c.Slots() ==>
        Member(w, s) && w.pods[s].labels.rev == c.newRev && w.claims[DataId(s)].rev == c.newRev {
      MemberIsZero(c, w, c.a);
      MemberIsZero(c, w, c.b);
      MemberIsZero(c, w, c.c);
    }
  }

  lemma MemberIsZero(c: Config, w: World, s: Suffix)
    requires Member(w, s) && w.claims[DataId(s)].rev == c.newRev
    ensures Distance(c, w, s) == 0
  {
  }

  lemma MemberPlays(w: World, s: Suffix)
    requires Member(w, s)
    ensures s in w.pods && IsListed(w.pods[s]) && (w.pods[s].labels.role.None? || HoldsRole(w.pods[s]))
  {
  }

  lemma AtZero(c: Config, w: World, s: Suffix)
    requires Up(c, w, c.a, Whole) && s in c.Slots() && Measure(c, w) == 0
    ensures Member(w, s) && w.pods[s].labels.rev == c.newRev && w.claims[DataId(s)].rev == c.newRev
  {
    hide OneEach, Held, Claimed;
    assert Distance(c, w, s) == 0;
    assert s != c.a ==> Member(w, s);
  }

  lemma TurnCountsNew(p: Pod, t: Tally, x: Input)
    requires ClassifyPod(p, t, x).Go? && t.special.None?
    requires IsListed(p) && p.labels.rev == x.nextRev && (p.labels.role.None? || HoldsRole(p))
    ensures var a := t.status; var b := ClassifyPod(p, t, x).tally;
      b.special.None? && b.status.replicas == a.replicas + 1 && b.status.nextReplicas == a.nextReplicas + 1
  {
    hide DeletePodAndClaim, Patch2, ByRole;
    var t0 := t.(status := t.status.(replicas := t.status.replicas + 1));
    RoleFacts(p, t0);
    RoleMembers(p, t0);
  }

  lemma {:induction false} CountsNew(pods: seq<Pod>, t: Tally, x: Input)
    requires Classify(pods, t, x).Go? && t.special.None?
    requires forall p :: p in pods ==> IsListed(p) && p.labels.rev == x.nextRev && (p.labels.role.None? || HoldsRole(p))
    ensures var a := t.status; var b := Classify(pods, t, x).tally.status;
      b.replicas == a.replicas + |pods| && b.nextReplicas == a.nextReplicas + |pods|
    decreases pods
  {
    hide ClassifyPod, IsListed, HoldsRole;
    if pods != [] {
      assert pods[0] in pods;
      TurnCountsNew(pods[0], t, x);
      CountsNew(pods[1..], ClassifyPod(pods[0], t, x).tally, x);
    }
  }

  /** The round of a finished upgrade counts three pods, all ready and all at the next revision. */
  lemma DoneIsComplete(c: Config, w: World, x: Input)
    requires InUpgrade(c, w) && Fits(c, x) && Lists(w, x.pods, x.claims) && Measure(c, w) == 0
    ensures PlanRound(x).ok && Complete(PlanRound(x).status, x.replicas)
  {
    hide Up, PlanRound, Settle, Roles.LabelCalls, SetLabels, Classify, Lists, Seen, Measure, Reconcile,
         IsListed, Phased;
    DoneIsWhole(c, w);
    var t := RoundLooks(c, w, c.a, Whole, x);
    GoesOn(c, w, c.a, Whole, x, t);
    var s := WholeDeletes(c, w, c.a, x, t);
    LooksParts(c, w, c.a, Whole, x, t);
    DoneIsNew(c, w);
    SlotsOnly(c, w, c.a, Whole);
    DoneCounts(c, w, x, t);
    PhasedCounts(x, t);
  }

  lemma DoneIsWhole(c: Config, w: World)
    requires InUpgrade(c, w) && Measure(c, w) == 0
    ensures Up(c, w, c.a, Whole) && c.Valid()
  {
    hide OneEach, Held, Member, Claimed;
    var v, g :| Up(c, w, v, g);
    assert Distance(c, w, v) == 0;
  }

  lemma PhasedCounts(x: Input, t: Tally)
    ensures var st := Phased(x, t);
      st.replicas == t.status.replicas && st.nextReplicas == t.status.nextReplicas && |st.members.ready| == |t.ready|
  {
    hide SetLabels;
    InSuffixes(t.ready);
  }

  lemma DoneCounts(c: Config, w: World, x: Input, t: Tally)
    requires Looks(c, w, c.a, Whole, x, t)
    requires forall s :: s in c.Slots() ==> Member(w, s) && w.pods[s].labels.rev == c.newRev
    ensures t.status.replicas == 3 && t.status.nextReplicas == 3
  {
    hide Seen, Up, IsListed, PlanRound, Member, HoldsRole, Classify;
    LooksListed(c, w, c.a, Whole, x, t);
    LooksUp(c, w, c.a, Whole, x, t);
    SlotsOnly(c, w, c.a, Whole);
    forall p | p in x.pods
      ensures IsListed(p) && p.labels.rev == x.nextRev && (p.labels.role.None? || HoldsRole(p))
    {
      MemberPlays(w, p.suffix);
    }
    CountsNew(x.pods, Start(x), x);
    forall s | s in c.Slots() ensures exists p :: p in x.pods && p.suffix == s {
      MemberPlays(w, s);
      assert w.pods[s] in x.pods;
    }
    CountBySuffix(x.pods, c.Slots());
    SlotCount(c, c.a);
  }

  /** After the upgrade, the next sync makes the next revision the current one. */
  lemma UpgradeIsPromoted(c: Config, w: World, was: Stored, y: SyncInput, generation: int)
    requires InUpgrade(c, w) && Measure(c, w) == 0
    requires CanDraw(y.round) && Fits(c, Planned(y)) && Lists(w, y.round.pods, y.round.claims)
    requires !y.deleting && y.credentials && !y.permit.Errored?
    requires was.currentRev == c.oldRev
    ensures Store(was, y, generation).currentRev == c.newRev
  {
    hide PlanRound, Lists, Measure, Up;
    DoneIsWhole(c, w);
    SlotsOnly(c, w, c.a, Whole);
    DoneIsComplete(c, w, Planned(y));
  }

  /** Nor does a refusal of the version keep the revision from being promoted: its pods, created from
      the current template, carry the next revision's label. */
  lemma RefusedUpgradeIsPromoted(c: Config, w: World, was: Stored, y: SyncInput, generation: int)
    requires InUpgrade(c, w) && Measure(c, w) == 0
    requires CanDraw(y.round) && Fits(c, Planned(y)) && Lists(w, y.round.pods, y.round.claims)
    requires !y.deleting && y.credentials && y.permit.Refused? && Lookup(y.round.conditions, IsUpgradingKind).None?
    requires was.currentRev == c.oldRev
    ensures Planned(y).next == y.round.current && Store(was, y, generation).currentRev == c.newRev
  {
    hide Store, Up, Measure, Lists, Fits;
    UpgradeIsPromoted(c, w, was, y, generation);
  }

  /** Three ready pods at the old revision, with both roles held and their claims: the state an
      upgrade starts from, 36 productive steps away from its end. */
  lemma UpgradeStart(c: Config, w: World)
    requires Up(c, w, c.a, Whole) && forall s :: s in c.Slots() ==> w.claims[DataId(s)].rev == c.oldRev
    ensures InUpgrade(c, w) && Measure(c, w) == 36
  {
    hide OneEach, Held;
    forall s | s in c.Slots() ensures Distance(c, w, s) == 12 {
      assert Member(w, s);
    }
  }

  // ---- A start ----------------------------------------------------------------------------

  function StartPod(c: Config, s: Suffix): Pod {
    var labels :=
      if s == c.a then Labels(Some(Writer), None, Some(false), Cluster, c.oldRev)
      else if s == c.b then Labels(Some(BackupWriter), None, Some(true), Cluster, c.oldRev)
      else Labels(None, None, Some(true), Cluster, c.oldRev);
    Pod(s, labels, Ready, Primary, false, "", false, "")
  }

  function StartClaim(c: Config, s: Suffix): Claim { Claim(DataId(s), c.oldRev, c.spec, false) }

  function StartWorld(c: Config): World {
    World(map s | s in c.Slots() :: StartPod(c, s),
          map id | id in {DataId(c.a), DataId(c.b), DataId(c.c)} :: StartClaim(c, id.suffix),
          map s | s in c.Slots() :: {c.oldRev})
  }

  lemma StartMember(c: Config, s: Suffix)
    requires c.Valid() && s in c.Slots()
    ensures Member(StartWorld(c), s)
  {
  }

  lemma StartRoles(c: Config)
    requires c.Valid()
    ensures Held(StartWorld(c)) && OneEach(StartWorld(c))
  {
    var w := StartWorld(c);
    assert c.a in w.pods && ReadyWriter(w.pods[c.a]);
    assert c.b in w.pods && ReadyBackupWriter(w.pods[c.b]);
    assert forall s :: s in w.pods && ReadyWriter(w.pods[s]) ==> s == c.a;
    assert forall s :: s in w.pods && ReadyBackupWriter(w.pods[s]) ==> s == c.b;
    assert forall s :: s in w.pods ==> !ReadyBackup(w.pods[s]);
  }

  lemma StartIsUp(c: Config)
    requires c.Valid()
    ensures Up(c, StartWorld(c), c.a, Whole)
  {
    hide Member, OneEach, Held, StartPod;
    StartRoles(c);
    forall s | s in c.Slots() ensures Member(StartWorld(c), s) { StartMember(c, s); }
    forall s | s in c.Slots() ensures StartWorld(c).pods[s].suffix == s { StartSuffix(c, s); }
    assert Claimed(c, StartWorld(c));
  }

  lemma StartSuffix(c: Config, s: Suffix)
    ensures StartPod(c, s).suffix == s
  {
  }

  function StartInput(c: Config, env: seq<PodTemplate.EnvVar>): Input {
    var t := Template("", c.spec, env);
    Input(Running, [], 3, None, t, t, c.oldRev, c.newRev,
          [StartPod(c, c.a), StartPod(c, c.b), StartPod(c, c.c)],
          [StartClaim(c, c.a), StartClaim(c, c.b), StartClaim(c, c.c)], [c.a + c.b + c.c + "x"])
  }

  lemma StartIsListed(c: Config, env: seq<PodTemplate.EnvVar>)
    requires c.Valid()
    ensures var x := StartInput(c, env); Lists(StartWorld(c), x.pods, x.claims)
  {
    hide StartWorld, StartInput;
    StartPodsListed(c, env);
    StartClaimsListed(c, env);
  }

  lemma StartPodsListed(c: Config, env: seq<PodTemplate.EnvVar>)
    requires c.Valid()
    ensures var w, pods := StartWorld(c), StartInput(c, env).pods;
      && (forall p :: p in pods ==> p.suffix in w.pods && w.pods[p.suffix] == p)
      && (forall s :: s in w.pods ==> w.pods[s].suffix == s && w.pods[s] in pods)
      && Distinct(pods)
  {
    hide StartPod;
    var pods := StartInput(c, env).pods;
    forall s ensures StartPod(c, s).suffix == s { StartSuffix(c, s); }
    assert pods[0] in pods && pods[1] in pods && pods[2] in pods;
  }

  lemma StartClaimsListed(c: Config, env: seq<PodTemplate.EnvVar>)
    requires c.Valid()
    ensures var w, claims := StartWorld(c), StartInput(c, env).claims;
      && (forall cl :: cl in claims ==> cl.id in w.claims && w.claims[cl.id] == cl)
      && (forall id :: id in w.claims ==> w.claims[id].id == id && w.claims[id] in claims)
      && DistinctClaims(claims)
  {
    hide StartPod;
    var claims := StartInput(c, env).claims;
    assert claims[0] in claims && claims[1] in claims && claims[2] in claims;
  }

  lemma ThreeSuffixes(a: Pod, b: Pod, d: Pod)
    ensures SuffixesOf([a, b, d]) == [a.suffix, b.suffix, d.suffix]
  {
    assert [a, b, d][1..] == [b, d] && [b, d][1..] == [d] && [d][1..] == [];
    assert SuffixesOf([d]) == [d.suffix] && SuffixesOf([b, d]) == [b.suffix, d.suffix];
  }

  lemma StartFits(c: Config, env: seq<PodTemplate.EnvVar>)
    ensures Fits(c, StartInput(c, env))
  {
    hide StartPod;
    StartSuffix(c, c.a);
    StartSuffix(c, c.b);
    StartSuffix(c, c.c);
    ThreeSuffixes(StartPod(c, c.a), StartPod(c, c.b), StartPod(c, c.c));
    var d := c.a + c.b + c.c + "x";
    assert d in StartInput(c, env).draws;
    assert |d| > |c.a| && |d| > |c.b| && |d| > |c.c|;
  }

  /** The start keeps the invariant of the protocol's reachable states. */
  lemma StartIsSound(c: Config)
    requires c.Valid()
    ensures Protocol.Inv(StartWorld(c))
  {
    var w := StartWorld(c);
    assert forall id :: id in w.claims ==> id == DataId(id.suffix) && id.suffix in c.Slots();
    assert forall s :: s in c.Slots() ==> StartPod(c, s).labels.rev == c.oldRev && StartPod(c, s).suffix == s;
  }

  /** Every configuration has such a start, sound in the protocol, and a round that fits it. */
  lemma UpgradeHasAStart(c: Config, env: seq<PodTemplate.EnvVar>) returns (w: World, x: Input)
    requires c.Valid()
    ensures InUpgrade(c, w) && Measure(c, w) == 36 && Protocol.Inv(w)
    ensures Fits(c, x) && Lists(w, x.pods, x.claims)
  {
    hide Up, Fits, Lists, Measure, Protocol.Inv;
    w, x := StartWorld(c), StartInput(c, env);
    StartIsUp(c);
    UpgradeStart(c, w);
    StartIsListed(c, env);
    StartFits(c, env);
    StartIsSound(c);
  }
}
