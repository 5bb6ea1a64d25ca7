/** What pods' labels look like in every reachable state, and what the properties of single rounds
    then say about whole runs. */
module LabelRuns {
  import opened ApiStore
  import opened Status
  import opened PodTemplate
  import opened Round
  import opened RoundFacts
  import opened Disruption
  import opened Protocol
  import opened Sync
  import Bootstrap
  import Claims
  import Creation
  import Promotion
  import Roles

  ghost predicate ApartCall(c: ApiCall) {
    (c.PatchPod? ==> Apart(c.labels)) && (c.CreatePod? ==> Apart(c.pod.labels))
  }

  ghost predicate ApartCalls(calls: seq<ApiCall>) { forall c :: c in calls ==> ApartCall(c) }

  ghost predicate ApartPods(pods: seq<Pod>) { forall p :: p in pods ==> Apart(p.labels) }

  ghost predicate ApartWorld(w: World) { forall s :: s in w.pods ==> Apart(w.pods[s].labels) }

  // ---- Plans ------------------------------------------------------------------------------

  lemma TurnApart(p: Pod, t: Tally, x: Input)
    ensures ApartCalls(ClassifyPod(p, t, x).calls)
  {
    hide ClassifyPod;
    TurnCalls(p, t, x);
  }

  lemma {:induction false} ClassifyApart(pods: seq<Pod>, t: Tally, x: Input)
    ensures ApartCalls(Classify(pods, t, x).calls)
    decreases pods
  {
    hide ClassifyPod, ApartCall;
    if pods != [] {
      TurnApart(pods[0], t, x);
      var s := ClassifyPod(pods[0], t, x);
      if s.Go? { ClassifyApart(pods[1..], s.tally, x); }
    }
  }

  lemma {:induction false} DropReaderApart(ready: seq<Pod>, w: Option<Suffix>)
    requires ApartPods(ready)
    ensures ApartCalls(DropReader(ready, w))
  {
    if ready != [] {
      assert ready[0] in ready;
      DropReaderApart(ready[1..], w);
    }
  }

  lemma {:induction false} OthersApart(ready: seq<Pod>, m: Members)
    ensures ApartCalls(OthersToBackupWriter(ready, m).calls)
    decreases ready
  {
    if ready != [] {
      OthersApart(ready[1..], if m.writer != Some(ready[0].suffix) then m.(backupWriter := Some(ready[0].suffix)) else m);
    }
  }

  lemma SetLabelsApart(ready: seq<Pod>, m: Members)
    requires ApartPods(ready)
    ensures ApartCalls(SetLabels(ready, m).calls)
  {
    hide DropReader, OthersToBackupWriter, Candidate, LastBackup;
    forall w ensures ApartCalls(DropReader(ready, w)) { DropReaderApart(ready, w); }
    OthersApart(ready, m);
  }

  lemma PodLabelsApart(role: Role, rev: Revision, state: State)
    ensures Apart(PodLabels(role, rev, state))
  {
  }

  /** After the labelling, no call patches a pod. */
  ghost predicate NoPatch(calls: seq<ApiCall>) { forall c :: c in calls ==> !c.PatchPod? }

  lemma {:induction false} DeleteAllNoPatch(ps: seq<Pod>)
    ensures NoPatch(DeleteAll(ps))
  {
    if ps != [] { DeleteAllNoPatch(ps[1..]); }
  }

  lemma TerminateNoPatch(x: Input, st: Summary, ready: seq<Pod>, unready: seq<Pod>, unused: seq<Suffix>)
    ensures NoPatch(Terminate(x, st, ready, unready, unused).calls)
  {
    hide FirstUnused, FirstPlain;
    DeleteAllNoPatch(unready);
  }

  lemma CreateNoPatch(x: Input, spec: Template, st: Summary, unready: seq<Pod>, chosen: Revision, role: Role,
                      noAddress: bool, used: seq<Suffix>, unused: seq<Suffix>)
    requires exists d :: d in x.draws && d !in used
    ensures NoPatch(CreateOrWait(x, spec, st, unready, chosen, role, noAddress, used, unused).calls)
  {
    hide PickSuffix, StateFor, NewPod, UnreadyGate;
  }

  lemma AfterTerminationNoPatch(x: Input, t: Tally, st: Summary, noAddress: bool, unused: seq<Suffix>)
    requires exists d :: d in x.draws && d !in t.suffixes
    ensures NoPatch(AfterTermination(x, t, st, noAddress, unused).calls)
  {
    hide PickSuffix, StateFor, NewPod, NextTurn;
  }

  lemma ReconcileNoPatch(x: Input, t: Tally, st: Summary)
    requires exists d :: d in x.draws && d !in t.suffixes
    ensures NoPatch(Reconcile(x, t, st).calls)
  {
    hide Collect, CreateOrWait, Terminate, AfterTermination, Bootstrap.NoAddress, FirstToUpgrade;
    var col := Collect(x.claims, t.suffixes, t.backups, x.next.claimSpec);
    var noAddress := Bootstrap.NoAddress(t.ready);
    CollectDeletes(x.claims, t.suffixes, t.backups, x.next.claimSpec);
    if col.operation || FirstToUpgrade(t.unready, x.claims).Some? {
    } else if |t.ready| < x.replicas {
      CreateNoPatch(x, x.next, st, t.unready, if st.phase.Restoring? then x.currentRev else x.nextRev,
                    ChooseRole(st.members), noAddress, t.suffixes, col.unused);
    } else {
      var done := Terminate(x, st, t.ready, t.unready, col.unused);
      TerminateNoPatch(x, st, t.ready, t.unready, col.unused);
      AfterTerminationNoPatch(x, t, done.status, noAddress, col.unused);
    }
  }

  lemma RoundPatchesApart(x: Input)
    requires CanDraw(x) && ApartPods(x.pods)
    ensures forall c :: c in PlanRound(x).calls && c.PatchPod? ==> ApartCall(c)
  {
    hide Classify, Reconcile, SetLabels, Phased, Orphan, Apart, IsListed;
    ClassifyApart(x.pods, Start(x), x);
    var s := Classify(x.pods, Start(x), x);
    if Orphan(x.pods, x.claims).None? && s.Go? {
      ClassifySuffixes(x.pods, Start(x), x);
      var t := s.tally;
      ListedAreListed(x);
      SetLabelsApart(t.ready, t.status.members);
      ReconcileNoPatch(x, t, Phased(x, t));
    }
  }

  lemma ListedAreListed(x: Input)
    requires Classify(x.pods, Start(x), x).Go?
    ensures forall p :: p in Classify(x.pods, Start(x), x).tally.ready ==> p in x.pods
  {
    hide Classify, IsListed;
    TallyServes(x);
    InFilter(x.pods, IsListed);
  }

  lemma RoundApart(x: Input)
    requires CanDraw(x) && ApartPods(x.pods)
    ensures ApartCalls(PlanRound(x).calls)
  {
    hide PlanRound, Apart, Classify, Phased, UnusedData;
    RoundPatchesApart(x);
    forall c | c in PlanRound(x).calls ensures ApartCall(c) {
      if c.CreatePod? {
        var t, role := Creation.RoundMakes(x, c.pod);
        PodLabelsApart(role, c.pod.labels.rev, StateFor(c.pod.suffix, role, c.pod.labels.rev, x.claims));
      }
    }
  }

  lemma RestorePodApart(x: Input, st: Summary, unready: seq<Pod>, used: seq<Suffix>, unused: seq<Suffix>)
    requires exists d :: d in x.draws && d !in used
    ensures ApartCalls(CreateOrWait(x, x.current, st, unready, x.currentRev, Restore, true, used, unused).calls)
  {
    hide PickSuffix, PodLabels, Apart, UnreadyGate, GaleraEnv, HasClusterInit, StateFor;
    forall rev, state ensures Apart(PodLabels(Restore, rev, state)) { PodLabelsApart(Restore, rev, state); }
  }

  lemma ScheduleApart(x: Input)
    requires CanDraw(x)
    ensures ApartCalls(Schedule(x).calls)
  {
    hide Collect, Terminate, FirstStranger, CreateOrWait, Apart, RunningOnes, WaitingOnes;
    var used := SuffixesOf(x.pods);
    var col := Collect(x.claims, used, [], x.current.claimSpec);
    CollectDeletes(x.claims, used, [], x.current.claimSpec);
    TerminateNoPatch(Frozen(x), CountAll(x), RunningOnes(x.pods), WaitingOnes(x.pods), col.unused);
    Creation.TerminateMakes(Frozen(x), CountAll(x), RunningOnes(x.pods), WaitingOnes(x.pods), col.unused);
    RestorePodApart(Frozen(x), CountAll(x), WaitingOnes(x.pods), used, col.unused);
  }

  lemma SyncApart(y: SyncInput)
    requires CanDraw(y.round) && ApartPods(y.round.pods)
    ensures ApartCalls(SyncPlan(y).calls)
  {
    hide PlanRound, Schedule, ApartCall, Apart;
    SyncCallsAre(y);
    RoundApart(Planned(y));
    ScheduleApart(Planned(y));
  }

  // ---- Runs -------------------------------------------------------------------------------

  ghost predicate ApartMachine(m: Machine) { ApartWorld(m.world) && ApartCalls(m.pending) }

  lemma StepKeepsApart(a: Machine, b: Machine)
    requires ApartMachine(a) && Steps(a, b)
    ensures ApartMachine(b)
  {
    hide SyncPlan, Apart;
    if exists y :: Begins(a, b, y) {
      var y :| Begins(a, b, y);
      SyncApart(y);
    } else if Issues(a, b) {
      assert a.pending[0] in a.pending;
    }
  }

  lemma {:induction false} ReachableLabelsAreApart(run: seq<Machine>, i: nat)
    requires IsRun(run) && i < |run|
    ensures ApartMachine(run[i])
  {
    hide Steps, ApartMachine;
    if i == 0 {
      EmptyIsApart();
    } else {
      ReachableLabelsAreApart(run, i - 1);
      assert Steps(run[i - 1], run[i - 1 + 1]);
      StepKeepsApart(run[i - 1], run[i]);
    }
  }

  lemma EmptyIsApart()
    ensures ApartMachine(Machine(EMPTY, []))
  {
  }

  lemma ReachableSnapshot(run: seq<Machine>, i: nat, x: Input)
    requires IsRun(run) && i < |run| && Lists(run[i].world, x.pods, x.claims)
    ensures Distinct(x.pods) && ApartPods(x.pods)
  {
    hide IsRun, Apart;
    ReachableLabelsAreApart(run, i);
  }

  /** In every reachable state: a round, cut off anywhere, leaves all but one of the desired number
      of ready primary pods undeleted. */
  lemma ReachableDisruptionBound(run: seq<Machine>, i: nat, x: Input, issued: nat)
    requires IsRun(run) && i < |run| && Lists(run[i].world, x.pods, x.claims)
    requires CanDraw(x) && issued <= |PlanRound(x).calls|
    ensures var ps := ServingSet(x.pods); var gone := Deleted(PlanRound(x).calls[..issued]);
      |ps - gone| >= (if |ps| < x.replicas then |ps| else x.replicas) - 1
  {
    hide PlanRound, IsRun, Apart;
    ReachableSnapshot(run, i, x);
    DisruptionBound(x, issued);
  }

  /** In every reachable state: a claim a sync deletes is mounted by no pod that stays. */
  lemma ReachableClaimSafety(run: seq<Machine>, i: nat, y: SyncInput)
    requires IsRun(run) && i < |run| && Lists(run[i].world, y.round.pods, y.round.claims) && CanDraw(y.round)
    ensures Claims.SafeDeletions(SyncPlan(y).calls, y.round.pods)
  {
    hide SyncPlan, IsRun, Apart;
    ReachableSnapshot(run, i, y.round);
    Claims.SyncDeletesSafely(y);
  }

  /** In every reachable state: from the revision stored and the one found to be current, the current
      revision moves only to the next one, and only when exactly the desired number of pods is counted,
      all ready, serving and at that revision. */
  lemma ReachablePromotionIsSound(run: seq<Machine>, i: nat, was: Stored, y: SyncInput, generation: int)
    requires IsRun(run) && i < |run| && Lists(run[i].world, y.round.pods, y.round.claims)
    requires CanDraw(y.round) && y.round.replicas >= 1
    requires Store(was, y, generation).currentRev !in {was.currentRev, y.round.currentRev}
    ensures Store(was, y, generation).currentRev == y.round.nextRev
    ensures |Filter(y.round.pods, Promotion.Counted)| == y.round.replicas
    ensures forall p :: p in y.round.pods && Promotion.Counted(p) ==>
      IsListed(p) && Serving(p) && p.labels.rev == y.round.nextRev
  {
    hide Store, IsRun, Apart, IsListed;
    ReachableSnapshot(run, i, y.round);
    Promotion.RevisionMovesOnlyWhenComplete(was, y, generation);
  }

  /** In every reachable state: deleting a restore pod with its claims fails before anything is
      deleted, because the backup claim asked for first exists only for backups. */
  lemma RestorePodsCannotBeDeleted(run: seq<Machine>, i: nat, x: Input, p: Pod)
    requires IsRun(run) && i < |run| && Lists(run[i].world, x.pods, x.claims)
    requires p in x.pods && p.labels.role == Some(Restore)
    ensures DeletePodAndClaim(p, x.claims) == ([], false)
  {
    hide IsRun, AllSafe;
    ReachableSnapshot(run, i, x);
    EveryReachableStateIsGood(run, i);
    FindClaimIs(x.claims, BackupId(p.suffix));
    assert !IsBackup(p);
  }

  // ---- Losing every node ------------------------------------------------------------------

  /** Without a pod for the ready list nobody is demoted. */
  lemma {:induction false} NobodyDemoted(pods: seq<Pod>, t: Tally, x: Input)
    requires Classify(pods, t, x).Go? && Filter(pods, IsListed) == []
    ensures Classify(pods, t, x).calls == []
    decreases pods
  {
    hide ClassifyPod;
    if pods != [] {
      Roles.TurnPatches(pods[0], t, x);
      NobodyDemoted(pods[1..], ClassifyPod(pods[0], t, x).tally, x);
    }
  }

  /** A round that gets past the classification and finds no ready member but several other pods ends
      in an error: it issues no call, and although it has computed the failed phase, the stored status
      stays as it was. */
  lemma LossIsNeverStored(was: Stored, y: SyncInput, generation: int)
    requires CanDraw(y.round) && !y.deleting && y.credentials && y.round.phase in {Creating, Backuping, Restoring, Running}
    requires var x := Planned(y);
      && Orphan(x.pods, x.claims).None? && Classify(x.pods, Start(x), x).Go?
      && Filter(x.pods, IsListed) == [] && |Filter(x.pods, IsUnready)| > 1
      && forall p :: p in x.pods ==> !p.terminating
    ensures SyncPlan(y).calls == [] && !SyncPlan(y).ok
    ensures !(y.permit.Errored? && Lookup(y.round.conditions, IsUpgradingKind).None?) ==>
      SyncPlan(y).status.phase.FailedPhase?
    ensures Store(was, y, generation) == was
  {
    hide Classify, Reconcile, Filter, IsListed, IsUnready, Orphan, Phased;
    var x := Planned(y);
    var t := Classify(x.pods, Start(x), x).tally;
    NobodyDemoted(x.pods, Start(x), x);
    ClosedLists(x.pods, Start(x), x);
    ClosedTerminating(x.pods, Start(x), x);
    ClassifySuffixes(x.pods, Start(x), x);
    assert [] + Filter(x.pods, IsUnready) == Filter(x.pods, IsUnready);
    assert t.ready == [] && |t.unready| > 1;
    assert Settle(x, t).calls == [] && !Settle(x, t).ok && Settle(x, t).status.phase.FailedPhase?;
  }
}
