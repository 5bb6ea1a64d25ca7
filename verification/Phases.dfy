/** The phase and the conditions a round returns, in terms of the pods of its snapshot. */
module Phases {
  import opened ApiStore
  import opened Status
  import opened Round
  import opened RoundFacts
  import Promotion
  import Sync

  // ---- The outcome ------------------------------------------------------------------------

  /** Phase and conditions after a round that counted some members and wants others. A cluster being
      created or restored is running as soon as the numbers agree, and then ready and no longer being
      restored; scaling is announced exactly while they differ; a running cluster is upgrading exactly
      while the images differ. */
  ghost predicate Moved(was: Phase, before: seq<Condition>, counted: int, wanted: int, image: Image, newImage: bool,
                        now: Phase, after: seq<Condition>)
  {
    var arrives := (was.Creating? || was.Restoring?) && counted == wanted;
    var serves := was.Running? || was.Backuping?;
    && now == (if arrives then Running else was)
    && Finds(after, IsScalingKind,
             if counted < wanted then Some(Condition(IsScalingKind, "Scaling up", SizeChange(counted, wanted)))
             else if counted > wanted then Some(Condition(IsScalingKind, "Scaling down", SizeChange(counted, wanted)))
             else None, before)
    && (if serves
        then Finds(after, IsUpgradingKind,
                   if newImage then Some(Condition(IsUpgradingKind, "Cluster upgrading", Text("upgrading to " + image))) else None, before)
        else Lookup(after, IsUpgradingKind) == Lookup(before, IsUpgradingKind))
    && (if arrives
        then Lookup(after, IsReadyKind) == Some(Condition(IsReadyKind, "Cluster ready", Text("")))
             && Finds(after, IsRestoringKind, None, before)
        else Lookup(after, IsReadyKind) == Lookup(before, IsReadyKind)
             && Lookup(after, IsRestoringKind) == Lookup(before, IsRestoringKind))
    && Lookup(after, IsFailedKind) == Lookup(before, IsFailedKind)
    && (OnePerKind(before) ==> OnePerKind(after))
  }

  /** The list has this condition of the kind, or none of it if there was at most one before. */
  ghost predicate Finds(after: seq<Condition>, k: Kind, c: Option<Condition>, before: seq<Condition>) {
    c.Some? || OnePerKind(before) ==> Lookup(after, k) == c
  }

  /** Phase and conditions of a cluster that lost its last member. */
  ghost predicate GivenUp(before: seq<Condition>, now: Phase, after: seq<Condition>) {
    && now.FailedPhase?
    && Lookup(after, IsFailedKind) ==
       Some(Condition(IsFailedKind, "Disaster recovery", Text("Majority is down. Recovering from backup")))
    && Finds(after, IsReadyKind, None, before) && Finds(after, IsScalingKind, None, before)
    && Finds(after, IsUpgradingKind, None, before)
    && Lookup(after, IsRestoringKind) == Lookup(before, IsRestoringKind)
  }

  // ---- The specification meets it ---------------------------------------------------------

  lemma SetKind(before: seq<Condition>, c: Condition)
    ensures forall k :: Lookup(SetCondition(before, c), k) == if k == c.kind then Some(c) else Lookup(before, k)
    ensures OnePerKind(before) ==> OnePerKind(SetCondition(before, c))
  {
    hide Lookup, SetCondition, OnePerKind;
    forall k ensures Lookup(SetCondition(before, c), k) == if k == c.kind then Some(c) else Lookup(before, k) {
      SetFinds(before, c, k);
    }
    if OnePerKind(before) { SetLaw(before, c, c.kind); }
  }

  lemma ClearKind(before: seq<Condition>, c: Kind)
    ensures forall k :: k != c ==> Lookup(ClearCondition(before, c), k) == Lookup(before, k)
    ensures OnePerKind(before) ==> OnePerKind(ClearCondition(before, c)) && Lookup(ClearCondition(before, c), c).None?
  {
    hide Lookup, ClearCondition, OnePerKind;
    forall k | k != c ensures Lookup(ClearCondition(before, c), k) == Lookup(before, k) { ClearFinds(before, c, k); }
    if OnePerKind(before) { ClearLaw(before, c, c); }
  }

  function Scaled(cs: seq<Condition>, counted: int, wanted: int): seq<Condition> {
    if counted < wanted then SetCondition(cs, ScalingUp(counted, wanted))
    else if counted > wanted then SetCondition(cs, ScalingDown(counted, wanted))
    else ClearCondition(cs, IsScalingKind)
  }

  /** What the switch over the phases does to the conditions. */
  lemma SetPhaseMoves(st: Summary, wanted: int, image: Image, newImage: bool)
    ensures var now := SetPhase(st, wanted, image, newImage);
      && Moved(st.phase, st.conditions, st.replicas, wanted, image, newImage, now.phase, now.conditions)
      && now == st.(phase := now.phase, conditions := now.conditions)
  {
    hide Lookup, SetCondition, ClearCondition, OnePerKind;
    var cs := st.conditions;
    SetKind(cs, ScalingUp(st.replicas, wanted));
    SetKind(cs, ScalingDown(st.replicas, wanted));
    ClearKind(cs, IsScalingKind);
    var scaled := Scaled(cs, st.replicas, wanted);
    ClearKind(scaled, IsRestoringKind);
    SetKind(ClearCondition(scaled, IsRestoringKind), READY);
    SetKind(scaled, UpgradingTo(image));
    ClearKind(scaled, IsUpgradingKind);
  }

  lemma LostGivesUp(st: Summary)
    ensures GivenUp(st.conditions, Lost(st).phase, Lost(st).conditions)
  {
    hide Lookup, SetCondition, ClearCondition, OnePerKind;
    var failed := SetCondition(st.conditions, DISASTER);
    SetKind(st.conditions, DISASTER);
    ClearKind(failed, IsReadyKind);
    ClearKind(ClearCondition(failed, IsReadyKind), IsScalingKind);
    ClearKind(ClearCondition(ClearCondition(failed, IsReadyKind), IsScalingKind), IsUpgradingKind);
  }

  // ---- Rounds -----------------------------------------------------------------------------

  /** The round gets past its early returns up to the labels, and no pod is terminating. */
  predicate Settles(x: Input) {
    && Orphan(x.pods, x.claims).None? && Classify(x.pods, Start(x), x).Go?
    && (var t := Classify(x.pods, Start(x), x).tally; SetLabels(t.ready, t.status.members).ok)
    && forall p :: p in x.pods ==> !p.terminating
  }

  /** Members counted: the pods of the snapshot but a ready special node. */
  function MemberCount(x: Input): int { |Filter(x.pods, Promotion.Counted)| }

  /** Phase and conditions of every round: the old ones when it ends early, those of a lost cluster
      when nobody is ready and several pods are not, and otherwise those of the numbers. */
  lemma RoundPhase(x: Input)
    requires CanDraw(x)
    ensures var now := PlanRound(x).status;
      if !Settles(x) then now.phase == x.phase && now.conditions == x.conditions
      else if Filter(x.pods, IsListed) == [] && |Filter(x.pods, IsUnready)| > 1
      then GivenUp(x.conditions, now.phase, now.conditions)
      else Moved(x.phase, x.conditions, MemberCount(x), x.replicas, x.next.image, x.current.image != x.next.image,
                 now.phase, now.conditions)
  {
    hide Orphan, Classify, SetLabels, SetPhase, Reconcile, Moved, GivenUp, Lost, Filter;
    Sync.ClassifyKeepsPhase(x.pods, Start(x), x);
    if Orphan(x.pods, x.claims).None? && Classify(x.pods, Start(x), x).Go? {
      var t := Classify(x.pods, Start(x), x).tally;
      ClassifySuffixes(x.pods, Start(x), x);
      ClosedTerminating(x.pods, Start(x), x);
      ClosedLists(x.pods, Start(x), x);
      Promotion.CountsAre(x.pods, Start(x), x);
      assert [] + Filter(x.pods, IsListed) == Filter(x.pods, IsListed);
      assert [] + Filter(x.pods, IsUnready) == Filter(x.pods, IsUnready);
      SetPhaseMoves(Listed(t), x.replicas, x.next.image, x.current.image != x.next.image);
      LostGivesUp(Listed(t));
      Sync.ReconcileKeepsPhase(x, t, Phased(x, t));
    }
  }
}
