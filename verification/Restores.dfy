/** What a sync does in the phases of a restore and in those that only move on, in terms of its
    snapshot: which pods and claims go, whom it creates, and when the next phase begins. */
module Restores {
  import opened ApiStore
  import opened Status
  import opened PodTemplate
  import opened Round
  import opened RoundFacts
  import opened Sync
  import opened Decisions
  import opened Endings
  import Disruption

  // ---- The pods of the schedule -----------------------------------------------------------

  /** A pod made for the restore, at the current revision. */
  predicate Restorer(x: Input, p: Pod) { p.labels.role == Some(Restore) && p.labels.rev == x.currentRev }

  lemma {:induction false} StrangerAt(pods: seq<Pod>, x: Input, i: nat)
    requires i < |pods| && !Restorer(x, pods[i]) && forall j :: 0 <= j < i ==> Restorer(x, pods[j])
    ensures FirstStranger(pods, x.currentRev) == Some(pods[i]) && BeforeStranger(pods, x.currentRev) == i
  {
    if i > 0 { StrangerAt(pods[1..], x, i - 1); }
  }

  lemma {:induction false} NoStranger(pods: seq<Pod>, x: Input)
    requires forall p :: p in pods ==> Restorer(x, p)
    ensures FirstStranger(pods, x.currentRev).None?
  {
    if pods != [] {
      assert pods[0] in pods;
      NoStranger(pods[1..], x);
    }
  }

  predicate Running(p: Pod) { p.health.Ready? }

  predicate Waiting(p: Pod) { !p.health.Ready? }

  lemma {:induction false} RunningIs(pods: seq<Pod>)
    ensures RunningOnes(pods) == Filter(pods, Running) && WaitingOnes(pods) == Filter(pods, Waiting)
  {
    if pods != [] { RunningIs(pods[1..]); }
  }

  /** The first pod that is none goes with its claims; so far one pod more is counted than were met
      before it. */
  lemma StrangerGoes(x: Input, i: nat)
    requires CanDraw(x) && i < |x.pods| && !Restorer(x, x.pods[i]) && forall j :: 0 <= j < i ==> Restorer(x, x.pods[j])
    ensures var plan := Schedule(x);
      GoneWithClaims(x.pods[i], x.claims, plan.calls, plan.ok)
        && plan.status.replicas == i + 1 && plan.status.currentReplicas == i && plan.status.members.ready == []
  {
    hide GoneWithClaims, DeletePodAndClaim;
    StrangerAt(x.pods, x, i);
    DeletesWithClaims(x.pods[i], x.claims);
  }

  // ---- Claims -----------------------------------------------------------------------------

  /** A claim to be left alone: a data claim of a pod, or one of the current spec. */
  ghost predicate Stays(x: Input, c: Claim) {
    !c.terminating && !c.id.backup && (HasPod(x.pods, c.id.suffix) || c.spec == x.current.claimSpec)
  }

  lemma StaysIs(x: Input, c: Claim)
    ensures Offends(c, SuffixesOf(x.pods), [], x.current.claimSpec) <==> !Stays(x, c)
  {
    hide HasPod;
    InNames(x.pods, c.id.suffix);
  }

  ghost predicate AllRestorers(x: Input) { CanDraw(x) && forall p :: p in x.pods ==> Restorer(x, p) }

  /** With restore pods only, the first claim that cannot stay is deleted, unless it is on its way. */
  lemma ScheduleCollects(x: Input, i: nat)
    requires AllRestorers(x) && i < |x.claims| && !Stays(x, x.claims[i]) && forall j :: 0 <= j < i ==> Stays(x, x.claims[j])
    ensures var plan, c := Schedule(x), x.claims[i];
      plan.calls == (if c.terminating then [] else [DeleteClaim(c.id)]) && plan.ok && Counts(x, plan.status, 0, 0)
  {
    hide Stays, Offends, Collect, CountAll, Counts;
    CountsAll(x);
    NoStranger(x.pods, x);
    forall j | 0 <= j <= i ensures Offends(x.claims[j], SuffixesOf(x.pods), [], x.current.claimSpec) <==> !Stays(x, x.claims[j]) {
      StaysIs(x, x.claims[j]);
    }
    CollectAt(x.claims, SuffixesOf(x.pods), [], x.current.claimSpec, i);
  }

  /** With every claim in its place as well. */
  ghost predicate Scheduled(x: Input) { AllRestorers(x) && forall c :: c in x.claims ==> Stays(x, c) }

  lemma ScheduledTo(x: Input)
    requires Scheduled(x)
    ensures FirstStranger(x.pods, x.currentRev).None?
    ensures var used := SuffixesOf(x.pods); var col := Collect(x.claims, used, [], x.current.claimSpec);
      !col.operation && col.unused == UnusedData(x.claims, used)
    ensures RunningOnes(x.pods) == Filter(x.pods, Running) && WaitingOnes(x.pods) == Filter(x.pods, Waiting)
  {
    hide Stays, Collect, Filter, UnusedData;
    NoStranger(x.pods, x);
    RunningIs(x.pods);
    forall c | c in x.claims ensures !Offends(c, SuffixesOf(x.pods), [], x.current.claimSpec) { StaysIs(x, c); }
    CollectsExactly(x.claims, SuffixesOf(x.pods), [], x.current.claimSpec);
  }

  /** Every pod is counted, as a current one, and the members are listed by whether they are running. */
  ghost predicate Counts(x: Input, st: Summary, more: int, less: int) {
    && st.replicas == |x.pods| + more && st.currentReplicas == |x.pods| + more - less && st.nextReplicas == -less
    && st.members == NOBODY.(ready := SuffixesOf(Filter(x.pods, Running)), unready := SuffixesOf(Filter(x.pods, Waiting)))
  }

  lemma CountsAll(x: Input)
    ensures Counts(x, CountAll(x), 0, 0)
  {
    RunningIs(x.pods);
  }

  // ---- Too few are running ----------------------------------------------------------------

  lemma {:induction false} WaitingGate(pods: seq<Pod>, i: nat)
    requires i < |pods| && Waiting(pods[i]) && forall j :: 0 <= j < i ==> !Waiting(pods[j])
    ensures UnreadyGate(Filter(pods, Waiting)) == if pods[i].health.Failed? then Replace(pods[i]) else Wait
  {
    var rest := Filter(pods[1..], Waiting);
    if i > 0 {
      WaitingGate(pods[1..], i - 1);
      assert [] + rest == rest;
    } else {
      assert ([pods[0]] + rest)[0] == pods[0] && ([pods[0]] + rest)[1..] == rest;
    }
  }

  lemma {:induction false} NobodyWaits(pods: seq<Pod>)
    requires forall p :: p in pods ==> !Waiting(p)
    ensures Filter(pods, Waiting) == []
  {
    if pods != [] {
      assert pods[0] in pods;
      NobodyWaits(pods[1..]);
    }
  }

  /** The first pod that is not running and ready is waited for, or deleted when it has failed. */
  lemma ScheduleWaits(x: Input, i: nat)
    requires Scheduled(x) && |Filter(x.pods, Running)| < x.replicas
    requires i < |x.pods| && Waiting(x.pods[i]) && forall j :: 0 <= j < i ==> !Waiting(x.pods[j])
    ensures var plan, p := Schedule(x), x.pods[i];
      plan.calls == (if p.health.Failed? then [DeletePod(p.suffix)] else []) && plan.ok
        && Counts(x, plan.status, 0, if p.health.Failed? then 1 else 0)
  {
    CountsAll(x);
    ItsRevision(x, i);
    hide Scheduled, Filter, Collect, CountAll, UnreadyGate, FirstStranger;
    ScheduledTo(x);
    WaitingGate(x.pods, i);
    InNamesAll(x);
  }

  lemma ItsRevision(x: Input, i: nat)
    requires Scheduled(x) && i < |x.pods|
    ensures x.pods[i].labels.rev == x.currentRev
  {
    hide Stays, CanDraw;
    assert x.pods[i] in x.pods;
  }

  lemma InNamesAll(x: Input)
    requires Scheduled(x)
    ensures CanDraw(x) && exists d :: d in x.draws && d !in SuffixesOf(x.pods)
  {
    hide Stays;
  }

  /** A pod made for the restore: standalone, without any other label of a member. */
  ghost predicate NewRestorer(x: Input, p: Pod) {
    && NewSuffix(x, p.suffix)
    && p.labels == Labels(Some(Restore), None, None, Standalone, x.currentRev)
    && p == Pod(p.suffix, p.labels, NoPhase, NonPrimary, false, "", !x.phase.Restoring?, x.current.image)
  }

  /** When all are running and more are wanted, one is created, with its data claim unless it is there. */
  lemma ScheduleCreates(x: Input) returns (p: Pod)
    requires Scheduled(x) && |Filter(x.pods, Running)| < x.replicas && forall q :: q in x.pods ==> !Waiting(q)
    ensures NewRestorer(x, p)
    ensures var plan := Schedule(x);
      && plan.calls == (if Spare(x, p.suffix) then [] else [CreateClaim(DataId(p.suffix), x.currentRev, x.current.claimSpec)]) + [CreatePod(p)]
      && plan.ok && Counts(x, plan.status, 1, 0)
  {
    CountsAll(x);
    hide Scheduled, Filter, Collect, UnreadyGate, FirstStranger, PickSuffix, RunningOnes, WaitingOnes, Spare,
        UnusedData, HasPod, NewSuffix, GaleraEnv,
         HasClusterInit;
    ScheduledTo(x);
    NobodyWaits(x.pods);
    InNamesAll(x);
    var used := SuffixesOf(x.pods);
    var s := PickSuffix(x, used, UnusedData(x.claims, used));
    RestorerSuffix(x, s);
    GateOfNone();
    RestorerClaims(x, s);
    var init := !CountAll(Frozen(x)).phase.Restoring?;
    p := NewPod(s, Restore, x.currentRev, Standalone, x.current.image, x.current.env, true, init);
    OnlyOperatorBootstraps(x.current.env, true, init);
    assert PickSuffix(Frozen(x), used, UnusedData(x.claims, used)) == s by { SameDraws(x, used, UnusedData(x.claims, used)); }
  }

  lemma SameDraws(x: Input, used: seq<Suffix>, unused: seq<Suffix>)
    requires exists d :: d in x.draws && d !in used
    ensures PickSuffix(Frozen(x), used, unused) == PickSuffix(x, used, unused)
  {
  }

  lemma GateOfNone()
    ensures UnreadyGate([]) == Pass
  {
  }

  lemma RestorerSuffix(x: Input, s: Suffix)
    requires exists d :: d in x.draws && d !in SuffixesOf(x.pods)
    requires s == PickSuffix(x, SuffixesOf(x.pods), UnusedData(x.claims, SuffixesOf(x.pods)))
    ensures NewSuffix(x, s) && !HasPod(x.pods, s)
  {
    hide NewSuffix;
    PickIsNew(x);
    FreeSuffix(x, s);
  }

  lemma RestorerClaims(x: Input, s: Suffix)
    requires Scheduled(x) && !HasPod(x.pods, s)
    ensures EnsureClaim(DataId(s), x.currentRev, x.current.claimSpec, x.claims)
      == (if Spare(x, s) then [] else [CreateClaim(DataId(s), x.currentRev, x.current.claimSpec)], true)
  {
    hide HasPod;
    FindClaimIs(x.claims, DataId(s));
  }

  // ---- Enough are running -----------------------------------------------------------------

  /** The first idle claim goes; if there is none, the pods that are not running do. While a special node
      is wanted nothing goes, and no restore pod is ever trimmed. */
  ghost predicate Clears(x: Input, calls: seq<ApiCall>) {
    if x.special.Some? then calls == []
    else if exists c :: c in x.claims && Idle(x, c)
    then exists i :: 0 <= i < |x.claims| && IdleFirst(x, i) && calls == [DeleteClaim(x.claims[i].id)]
    else calls == DeleteEach(Filter(x.pods, Waiting))
  }

  lemma UnusedAreIdle(x: Input)
    requires Scheduled(x)
    ensures forall c :: c in x.claims ==> (c.id.suffix in UnusedData(x.claims, SuffixesOf(x.pods)) <==> Idle(x, c))
  {
    hide HasPod;
    UnusedAreUnused(x.claims, SuffixesOf(x.pods));
    forall c | c in x.claims ensures c.id.suffix in UnusedData(x.claims, SuffixesOf(x.pods)) <==> Idle(x, c) {
      InNames(x.pods, c.id.suffix);
      assert Stays(x, c) && c.id == DataId(c.id.suffix);
    }
  }

  lemma {:induction false} NobodyPlain(pods: seq<Pod>, f: Pod -> bool)
    requires forall p :: p in pods ==> p.labels.role.Some?
    ensures FirstPlain(Filter(pods, f)).None?
  {
    InFilter(pods, f);
    Disruption.FirstPlainIs(Filter(pods, f));
  }

  lemma ScheduleClears(x: Input)
    requires Scheduled(x) && |Filter(x.pods, Running)| >= x.replicas
    ensures var plan := Schedule(x); Clears(x, plan.calls) && plan.ok && Counts(x, plan.status, 0, 0)
  {
    CountsAll(x);
    hide Scheduled, Filter, Collect, FirstStranger, UnusedData, Idle, Waiting, Running, FirstUnused, FirstPlain, DeleteAll,
         DeleteEach;
    ScheduledTo(x);
    InNamesAll(x);
    UnusedAreIdle(x);
    var unused := UnusedData(x.claims, SuffixesOf(x.pods));
    RestorersHaveRoles(x);
    NobodyPlain(x.pods, Running);
    DeleteAllIs(Filter(x.pods, Waiting));
    if exists c :: c in x.claims && Idle(x, c) {
      var i := FirstIndex(x.claims, (c: Claim) => c.id.suffix in unused);
      FirstUnusedAt(x.claims, unused, i);
    } else {
      NoneUnused(x.claims, unused);
    }
  }

  lemma RestorersHaveRoles(x: Input)
    requires Scheduled(x)
    ensures forall p :: p in x.pods ==> p.labels.role.Some?
  {
    hide Stays, CanDraw;
  }

  // ---- The phases -------------------------------------------------------------------------

  /** The sync gets to its phase: nobody deletes the cluster, there are credentials, and the upgrade
      check is no error, or not heard. */
  predicate GetsToPhase(y: SyncInput) {
    !y.deleting && y.credentials && !(y.permit.Errored? && Lookup(y.round.conditions, IsUpgradingKind).None?)
  }

  /** A schedule of restore pods never ends in an error. */
  lemma ScheduleSucceeds(x: Input)
    requires AllRestorers(x)
    ensures Schedule(x).ok && |Schedule(x).status.members.ready| == |Filter(x.pods, Running)|
  {
    hide Schedule, Stays, Filter, NewRestorer, Clears;
    ScheduleLists(x);
    if exists c :: c in x.claims && !Stays(x, c) {
      var i := FirstIndex(x.claims, (c: Claim) => !Stays(x, c));
      ScheduleCollects(x, i);
    } else if |Filter(x.pods, Running)| >= x.replicas {
      ScheduleClears(x);
    } else if exists p :: p in x.pods && Waiting(p) {
      var i := FirstIndex(x.pods, Waiting);
      ScheduleWaits(x, i);
    } else {
      var p := ScheduleCreates(x);
    }
  }

  lemma ScheduleLists(x: Input)
    requires AllRestorers(x)
    ensures |Schedule(x).status.members.ready| == |Filter(x.pods, Running)|
  {
    hide Collect, Filter, UnreadyGate, PickSuffix, StateFor, NewPod, DeleteAll, FirstUnused, FirstPlain, CreatePodAndClaim,
         RunningOnes, WaitingOnes;
    NoStranger(x.pods, x);
    RunningIs(x.pods);
    InSuffixes(Filter(x.pods, Running));
  }

  /** The schedule goes on to the copy exactly when all pods are restore pods and as many as wanted are
      running and ready, claims or not; or when no pod is wanted and a stranger could be deleted. */
  lemma CopyBeginsExactly(y: SyncInput)
    requires CanDraw(y.round) && GetsToPhase(y) && y.round.phase.ScheduleRestore?
    ensures var x := Planned(y); var now := SyncPlan(y).status.phase;
      && (now == CopyRestore || now == ScheduleRestore)
      && (now == CopyRestore <==>
            if forall p :: p in x.pods ==> Restorer(x, p) then |Filter(x.pods, Running)| == x.replicas
            else x.replicas == 0 && SyncPlan(y).ok)
  {
    hide Schedule, Filter, Lookup;
    var x := Planned(y);
    if forall p :: p in x.pods ==> Restorer(x, p) {
      ScheduleSucceeds(x);
      Sync.ScheduleKeepsPhase(x);
    } else {
      var i := FirstIndex(x.pods, (p: Pod) => !Restorer(x, p));
      StrangerGoes(x, i);
      Sync.ScheduleKeepsPhase(x);
    }
  }

  /** Phases in which a sync issues nothing. */
  predicate Idles(p: Phase) { p.Unset? || p.CopyRestore? || p.FailedPhase? || p.UnknownPhase? }

  /** A sync that does not get to its phase, or whose phase has no rounds, issues nothing. It is an error
      unless the cluster is being deleted, when phase and conditions come back empty, or the phase is one
      to move on from. */
  lemma PhasesWithoutRounds(y: SyncInput)
    requires CanDraw(y.round) && (!GetsToPhase(y) || Idles(y.round.phase))
    ensures var plan := SyncPlan(y);
      && plan.calls == []
      && (plan.ok <==> y.deleting || (GetsToPhase(y) && !y.round.phase.FailedPhase?))
      && (y.deleting ==> plan.status.phase == Unset && plan.status.conditions == [])
      && (!y.deleting && !y.credentials ==> plan.status.phase == FailedPhase && plan.status.conditions == [])
      && (!y.deleting && y.credentials && (!GetsToPhase(y) || y.round.phase.FailedPhase?) ==>
            plan.status.phase == y.round.phase && plan.status.conditions == y.round.conditions)
  {
    hide PlanRound, Schedule, Lookup;
  }

  ghost function AfterCopy(x: Input): Phase {
    if x.pods == [] then Restoring else if exists c :: c in x.claims && !c.id.backup then CopyRestore else FailedPhase
  }

  /** A new cluster is created, or restored when a backup is named; the copy watches until a data claim
      is missing, and until no pod is left; an unknown phase is a failure. */
  lemma NextPhases(y: SyncInput)
    requires CanDraw(y.round) && GetsToPhase(y)
    ensures var x, now := Planned(y), SyncPlan(y).status;
      && (x.phase.Unset? ==> now.phase == if y.restore.None? then Creating else ScheduleRestore)
      && (x.phase.CopyRestore? ==> now.phase == AfterCopy(x))
      && (x.phase.UnknownPhase? ==> now.phase == FailedPhase)
      && (x.phase.CopyRestore? ==> Counts(x, now, 0, 0))
      && (x.phase.Unset? || x.phase.UnknownPhase? ==>
            now.replicas == now.currentReplicas == now.nextReplicas == 0 && now.members == NOBODY)
    ensures y.round.phase.Unset? && y.restore.None? ==>
      Lookup(SyncPlan(y).status.conditions, IsScalingKind)
        == Some(Condition(IsScalingKind, "Scaling up", SizeChange(0, y.round.replicas)))
    ensures y.round.phase.Unset? && y.restore.Some? ==>
      Lookup(SyncPlan(y).status.conditions, IsRestoringKind)
        == Some(Condition(IsRestoringKind, "Restoring cluster", Text("restoring from " + y.restore.value)))
  {
    hide PlanRound, Schedule, Lookup, SetCondition;
    var x := Planned(y);
    CountsAll(x);
    SetFinds(x.conditions, ScalingUp(0, x.replicas), IsScalingKind);
    if y.restore.Some? { SetFinds(x.conditions, RestoringFrom(y.restore.value), IsRestoringKind); }
  }

  // ---- What is stored ---------------------------------------------------------------------

  /** Generations and revisions, counters, and how many pods are ready and not. */
  predicate LooksLike(a: Stored, b: Stored) {
    && a.currentRev == b.currentRev && a.nextRev == b.nextRev
    && a.summary.replicas == b.summary.replicas && a.summary.currentReplicas == b.summary.currentReplicas
    && a.summary.nextReplicas == b.summary.nextReplicas
    && |a.summary.members.ready| == |b.summary.members.ready| && |a.summary.members.unready| == |b.summary.members.unready|
    && a.summary.members.special == b.summary.members.special
  }

  /** After a sync without error the stored status looks like the returned one, its generation is not
      behind, and it is either the old status or the returned one; after an error it is the old one. With
      every pod at the next revision, that revision is the current one, and its pods are counted for it. */
  lemma StoredLooksReturned(was: Stored, y: SyncInput, generation: int)
    requires CanDraw(y.round)
    ensures var plan, now := SyncPlan(y), Store(was, y, generation);
      var done := plan.status.nextReplicas == plan.status.replicas == y.round.replicas == |plan.status.members.ready|;
      var returned := Stored(
        generation, if done then y.round.nextRev else y.round.currentRev, if done then "" else y.round.nextRev,
        if done then plan.status.(currentReplicas := plan.status.nextReplicas, nextReplicas := 0) else plan.status);
      && (now == was || now == returned)
      && (!plan.ok ==> now == was)
      && (plan.ok ==> LooksLike(now, returned) && now.generation >= generation)
      && (LooksLike(was, returned) && was.generation >= generation ==> now == was)
  {
    hide SyncPlan;
  }

  // ---- Labels and what becomes of them ----------------------------------------------------

  /** The labels a pod is created with are those by which it is recognised: once it is ready in the
      cluster, the classification of a tally that has nobody for its role yet records it for that role;
      writer, backup writer, backup and reader are listed as ready, the special node is set aside, and
      a restore pod has no place in a running cluster. */
  lemma CreatedRoleIsRecognised(p: Pod, role: Role, rev: Revision, state: State, t: Tally, x: Input)
    requires p.labels == PodLabels(role, rev, state) && ReadyPrimary(p) && t.status.members == NOBODY
    ensures var s := ClassifyPod(p, t, x); match role
      case Writer => s.Go? && s.tally.ready == t.ready + [p] && s.tally.status.members == NOBODY.(writer := Some(p.suffix))
      case BackupWriter => s.Go? && s.tally.ready == t.ready + [p]
        && s.tally.status.members == NOBODY.(backupWriter := Some(p.suffix))
      case Backup => s.Go? && s.tally.ready == t.ready + [p] && s.tally.status.members == NOBODY.(backup := Some(p.suffix))
      case Reader => s.Go? && s.tally.ready == t.ready + [p] && s.tally.status.members == NOBODY
      case Special => s.Go? && s.tally.ready == t.ready && s.tally.special == Some(p)
        && s.tally.status.members == NOBODY.(special := Some(p.suffix))
      case Restore => s.Stop? && Restorer(x.(currentRev := rev), p)
      case Unknown => s.Go? && s.tally.ready == t.ready
    ensures p.labels.rev == rev && p.labels.state == state
    ensures role.BackupWriter? || role.Backup? || role.Reader? <==> p.labels.reader == Some(true)
  {
    hide DeletePodAndClaim;
    if role.Unknown? { assert t.ready + [] == t.ready; }
  }
}
