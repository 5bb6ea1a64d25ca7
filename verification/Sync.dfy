/** The sync of one cluster: the phase switch around the round, the restore schedule, and what of
    the resulting status is kept. */
module Sync {
  import opened ApiStore
  import opened Status
  import opened Round

  /** The answer of the upgrade check. */
  datatype Permit = Allowed | Refused | Errored

  datatype SyncInput = SyncInput(
    round: Input,
    deleting: bool,
    credentials: bool,
    permit: Permit,
    restore: Option<string>)

  // ---- First step of a restore ------------------------------------------------------------

  /** A restore pod of the revision: every other pod is deleted with its claims. */
  predicate RestorePod(p: Pod, rev: Revision) { p.labels.role == Some(Restore) && p.labels.rev == rev }

  function FirstStranger(pods: seq<Pod>, rev: Revision): Option<Pod> {
    if pods == [] then None
    else if !RestorePod(pods[0], rev) then Some(pods[0])
    else FirstStranger(pods[1..], rev)
  }

  /** How many restore pods are met before it. */
  function BeforeStranger(pods: seq<Pod>, rev: Revision): nat {
    if pods == [] || !RestorePod(pods[0], rev) then 0 else BeforeStranger(pods[1..], rev) + 1
  }

  function RunningOnes(pods: seq<Pod>): seq<Pod> {
    if pods == [] then [] else (if pods[0].health.Ready? then [pods[0]] else []) + RunningOnes(pods[1..])
  }

  function WaitingOnes(pods: seq<Pod>): seq<Pod> {
    if pods == [] then [] else (if pods[0].health.Ready? then [] else [pods[0]]) + WaitingOnes(pods[1..])
  }

  /** The rounds of this step know one revision and one template only: the current ones. */
  function Frozen(x: Input): Input { x.(next := x.current, nextRev := x.currentRev) }

  /** All the pods are counted, as replicas and as current replicas. */
  function CountAll(x: Input): Summary {
    var n := |x.pods|;
    Summary(x.phase, x.conditions, n, n, 0,
            NOBODY.(ready := SuffixesOf(RunningOnes(x.pods)), unready := SuffixesOf(WaitingOnes(x.pods))))
  }

  function Schedule(x: Input): Plan
    requires CanDraw(x)
  {
    match FirstStranger(x.pods, x.currentRev)
    case Some(p) =>
      var (calls, ok) := DeletePodAndClaim(p, x.claims);
      var n := BeforeStranger(x.pods, x.currentRev);
      Plan(calls, ok, Fresh(x).(replicas := n + 1, currentReplicas := n))
    case None =>
      var st := CountAll(x);
      var used := SuffixesOf(x.pods);
      var col := Collect(x.claims, used, [], x.current.claimSpec);
      if col.operation then Plan(col.calls, true, st)
      else if |RunningOnes(x.pods)| < x.replicas then
        CreateOrWait(Frozen(x), x.current, st, WaitingOnes(x.pods), x.currentRev, Restore, true, used, col.unused)
      else Terminate(Frozen(x), st, RunningOnes(x.pods), WaitingOnes(x.pods), col.unused)
  }

  // ---- The phase switch -------------------------------------------------------------------

  function Planned(y: SyncInput): Input {
    if Lookup(y.round.conditions, IsUpgradingKind).None? && y.permit.Refused?
    then y.round.(next := y.round.current)
    else y.round
  }

  function SyncPlan(y: SyncInput): Plan
    requires CanDraw(y.round)
  {
    var x := Planned(y);
    if y.deleting then Plan([], true, Fresh(x).(phase := Unset, conditions := []))
    else if !y.credentials then Plan([], false, Fresh(x).(phase := FailedPhase, conditions := []))
    else if Lookup(x.conditions, IsUpgradingKind).None? && y.permit.Errored? then Plan([], false, Fresh(x))
    else match x.phase
      case Unset =>
        Plan([], true,
             if y.restore.None?
             then Fresh(x).(phase := Creating, conditions := SetCondition(x.conditions, ScalingUp(0, x.replicas)))
             else Fresh(x).(phase := ScheduleRestore,
                            conditions := SetCondition(x.conditions, RestoringFrom(y.restore.value))))
      case FailedPhase => Plan([], false, Fresh(x))
      case ScheduleRestore =>
        var p := Schedule(x);
        if p.ok && |p.status.members.ready| == x.replicas
        then p.(status := p.status.(phase := CopyRestore))
        else p
      case CopyRestore =>
        var st := CountAll(x);
        Plan([], true,
             if x.pods == [] then st.(phase := Restoring)
             else if forall c :: c in x.claims ==> c.id.backup then st.(phase := FailedPhase)
             else st)
      case Creating | Backuping | Restoring | Running => PlanRound(x)
      case UnknownPhase => Plan([], true, Fresh(x).(phase := FailedPhase))
  }

  /** Whose calls a sync issues. */
  lemma SyncCallsAre(y: SyncInput)
    requires CanDraw(y.round)
    ensures var x := Planned(y); var calls := SyncPlan(y).calls;
      || calls == []
      || (x.phase.ScheduleRestore? && calls == Schedule(x).calls)
      || (x.phase in {Creating, Backuping, Restoring, Running} && calls == PlanRound(x).calls)
  {
  }

  // ---- The stored status ------------------------------------------------------------------

  datatype Stored = Stored(generation: int, currentRev: Revision, nextRev: Revision, summary: Summary)

  predicate Complete(st: Summary, replicas: int) {
    st.nextReplicas == st.replicas && |st.members.ready| == st.replicas && replicas == st.replicas
  }

  /** completeRollingUpdate. */
  function CompleteRollingUpdate(s: Stored, replicas: int): Stored {
    if Complete(s.summary, replicas)
    then s.(currentRev := s.nextRev, nextRev := "",
            summary := s.summary.(currentReplicas := s.summary.nextReplicas, nextReplicas := 0))
    else s
  }

  /** inconsistentStatus: neither the phase nor the conditions are compared. */
  predicate Inconsistent(was: Stored, now: Stored) {
    var a, b := was.summary, now.summary;
    || now.generation > was.generation
    || a.replicas != b.replicas
    || a.currentReplicas != b.currentReplicas
    || |a.members.ready| != |b.members.ready|
    || |a.members.unready| != |b.members.unready|
    || a.members.special != b.members.special
    || a.nextReplicas != b.nextReplicas
    || was.currentRev != now.currentRev
    || was.nextRev != now.nextRev
  }

  /** What the sync leaves in the status: an error, or a status that looks the same, leaves it. */
  function Store(was: Stored, y: SyncInput, generation: int): Stored
    requires CanDraw(y.round)
  {
    var p := SyncPlan(y);
    var now := CompleteRollingUpdate(
      Stored(generation, y.round.currentRev, y.round.nextRev, p.status), y.round.replicas);
    if p.ok && Inconsistent(was, now) then now else was
  }

  // ---- Phases over runs -------------------------------------------------------------------

  /** The order in which a cluster goes through its phases. */
  function Rank(p: Phase): int {
    match p
    case Unset => 0
    case UnknownPhase => 0
    case Creating | ScheduleRestore => 1
    case CopyRestore => 2
    case Restoring => 3
    case Running | Backuping => 4
    case FailedPhase => 5
  }

  predicate Forward(a: Phase, b: Phase) {
    a == b || Rank(a) < Rank(b)
  }

  lemma TurnKeepsPhase(p: Pod, t: Tally, x: Input)
    ensures var s := ClassifyPod(p, t, x);
      var now := if s.Go? then s.tally.status
          else s.status; now.phase == t.status.phase && now.conditions == t.status.conditions
  {
    hide DeletePodAndClaim, Patch2;
  }

  lemma {:induction false} ClassifyKeepsPhase(pods: seq<Pod>, t: Tally, x: Input)
    ensures var s := Classify(pods, t, x);
      var now := if s.Go? then s.tally.status
          else s.status; now.phase == t.status.phase && now.conditions == t.status.conditions
    decreases pods
  {
    hide ClassifyPod;
    if pods != [] {
      TurnKeepsPhase(pods[0], t, x);
      var s := ClassifyPod(pods[0], t, x);
      if s.Go? {
        ClassifyKeepsPhase(pods[1..], s.tally, x);
      }
    }
  }

  lemma ReconcileKeepsPhase(x: Input, t: Tally, st: Summary)
    requires exists d :: d in x.draws && d !in t.suffixes
    ensures var now := Reconcile(x, t, st).status; now.phase == st.phase && now.conditions == st.conditions
  {
    hide Collect, UpgradeNode, CreatePodAndClaim, DeleteForUpgrade, DeletePodAndClaim, FirstUnused,
         FirstPlain, DeleteAll, NewPod, PickSuffix, UnreadyGate, NextTurn, FirstToUpgrade;
  }

  lemma RunMovesForward(x: Input)
    requires CanDraw(x)
    ensures Forward(x.phase, PlanRound(x).status.phase)
  {
    ClassifyKeepsPhase(x.pods, Start(x), x);
    var s := Classify(x.pods, Start(x), x);
    if Orphan(x.pods, x.claims).None? && s.Go? {
      ClassifySuffixes(x.pods, Start(x), x);
      SettleMovesForward(x, s.tally);
    }
  }

  lemma SettleMovesForward(x: Input, t: Tally)
    requires exists d :: d in x.draws && d !in t.suffixes
    ensures Forward(t.status.phase, Settle(x, t).status.phase)
  {
    ReconcileKeepsPhase(x, t, Phased(x, t));
  }

  lemma ScheduleKeepsPhase(x: Input)
    requires CanDraw(x)
    ensures Schedule(x).status.phase == x.phase
  {
  }

  /** The phase returned by a sync that ends without error moves forward, exactly unless the
      cluster object is being deleted: then the phase comes back empty. */
  lemma PhaseMovesForwardExactly(y: SyncInput)
    requires CanDraw(y.round) && SyncPlan(y).ok
    ensures Forward(y.round.phase, SyncPlan(y).status.phase) <==> !y.deleting || y.round.phase.Unset?
  {
    hide PlanRound, Schedule;
    if !y.deleting {
      var x := Planned(y);
      if x.phase.ScheduleRestore? {
        ScheduleKeepsPhase(x);
      } else if x.phase in {Creating, Backuping, Restoring, Running} {
        RunMovesForward(x);
      }
    }
  }

  /** A copy that lost every claim is failed only while pods are left: without pods the cluster
      goes on to Restoring, claims or not. */
  lemma CopyWithoutClaims(y: SyncInput)
    requires CanDraw(y.round) && y.round.phase.CopyRestore? && !y.deleting && y.credentials && !y.permit.Errored?
    requires forall c :: c in y.round.claims ==> c.id.backup
    ensures SyncPlan(y).ok && SyncPlan(y).calls == []
    ensures SyncPlan(y).status.phase == if y.round.pods == [] then Restoring else FailedPhase
  {
  }

  /** A run of syncs, each on whatever the world then shows, on the status the last one left. */
  ghost predicate SyncRun(stored: seq<Stored>, ys: seq<SyncInput>) {
    && |stored| == |ys| + 1
    && forall i :: 0 <= i < |ys| ==>
         && CanDraw(ys[i].round)
         && ys[i].round.phase == stored[i].summary.phase
         && exists generation: int :: stored[i + 1] == Store(stored[i], ys[i], generation)
  }

  /** The sync of a cluster object that is being deleted wrote an empty phase over another one. */
  predicate Resets(was: Stored, y: SyncInput, now: Stored) {
    y.deleting && !was.summary.phase.Unset? && now != was
  }

  /** One sync stores a phase that moves forward exactly unless it resets the phase. */
  lemma StoreMovesForwardExactly(was: Stored, y: SyncInput, generation: int)
    requires CanDraw(y.round) && y.round.phase == was.summary.phase
    ensures var now := Store(was, y, generation);
      Forward(was.summary.phase, now.summary.phase) <==> !Resets(was, y, now)
  {
    hide PlanRound, Schedule;
    if SyncPlan(y).ok {
      PhaseMovesForwardExactly(y);
    }
  }

  lemma StepForward(stored: seq<Stored>, ys: seq<SyncInput>, k: nat)
    requires SyncRun(stored, ys) && k < |ys|
    ensures Forward(stored[k].summary.phase, stored[k + 1].summary.phase) <==> !Resets(stored[k], ys[k], stored[k + 1])
  {
    hide Store, Forward, Resets;
    var generation: int :| stored[k + 1] == Store(stored[k], ys[k], generation);
    StoreMovesForwardExactly(stored[k], ys[k], generation);
  }

  /** Along any run the stored phase moves forward from one sync to any later one, unless a sync of a
      cluster being deleted has reset it in between. */
  lemma {:induction false} PhasesMoveForward(stored: seq<Stored>, ys: seq<SyncInput>, i: nat, j: nat)
    requires SyncRun(stored, ys) && i <= j < |stored|
    ensures Forward(stored[i].summary.phase, stored[j].summary.phase)
      || exists k :: i <= k < j && Resets(stored[k], ys[k], stored[k + 1])
    decreases j
  {
    hide Resets, SyncRun, Forward;
    RunParts(stored, ys);
    if i == j {
      ForwardSame(stored[i].summary.phase);
    } else {
      PhasesMoveForward(stored, ys, i, j - 1);
      StepForward(stored, ys, j - 1);
      ForwardChain(stored[i].summary.phase, stored[j - 1].summary.phase, stored[j].summary.phase);
    }
  }

  lemma ForwardSame(a: Phase)
    ensures Forward(a, a)
  {
  }

  lemma ForwardChain(a: Phase, b: Phase, c: Phase)
    ensures Forward(a, b) && Forward(b, c) ==> Forward(a, c)
  {
  }

  /** A failed cluster stays failed, with the status it failed with, and gets no call in any later
      sync, unless a sync of a cluster being deleted resets it. */
  lemma {:induction false} FailedIsForever(stored: seq<Stored>, ys: seq<SyncInput>, i: nat, j: nat)
    requires SyncRun(stored, ys) && i <= j < |stored| && stored[i].summary.phase.FailedPhase?
    requires forall k :: i <= k < j ==> !Resets(stored[k], ys[k], stored[k + 1])
    ensures stored[j] == stored[i]
    ensures forall k :: i <= k < j ==> SyncPlan(ys[k]).calls == []
    decreases j
  {
    hide SyncRun, Resets, SyncPlan, CanDraw;
    RunParts(stored, ys);
    if i < j {
      FailedIsForever(stored, ys, i, j - 1);
      FailedAt(stored, ys, j - 1);
    }
  }

  lemma RunParts(stored: seq<Stored>, ys: seq<SyncInput>)
    requires SyncRun(stored, ys)
    ensures |stored| == |ys| + 1 && forall k :: 0 <= k < |ys| ==> CanDraw(ys[k].round)
  {
    hide Store, CanDraw;
  }

  lemma FailedAt(stored: seq<Stored>, ys: seq<SyncInput>, k: nat)
    requires SyncRun(stored, ys) && k < |ys| && stored[k].summary.phase.FailedPhase?
    requires !Resets(stored[k], ys[k], stored[k + 1])
    ensures stored[k + 1] == stored[k] && SyncPlan(ys[k]).calls == []
  {
    hide SyncPlan, Store, Resets;
    var generation: int :| stored[k + 1] == Store(stored[k], ys[k], generation);
    FailedStep(stored[k], ys[k], generation);
  }

  lemma FailedStep(was: Stored, y: SyncInput, generation: int)
    requires CanDraw(y.round) && y.round.phase.FailedPhase? && was.summary.phase.FailedPhase?
    ensures SyncPlan(y).calls == []
    ensures Resets(was, y, Store(was, y, generation)) || Store(was, y, generation) == was
  {
  }
}
