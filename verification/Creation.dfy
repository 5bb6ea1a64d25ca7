/** The pods a round creates: their names and claims are nobody's, and they are told to start a new
    cluster only when there is nobody to join. */
module Creation {
  import opened ApiStore
  import opened Status
  import opened PodTemplate
  import opened Round
  import opened RoundFacts
  import opened Disruption
  import Bootstrap
  import Protocol
  import Roles
  import Sync

  /** The calls create p and nothing else, with its data claim unless that exists. */
  ghost predicate Makes(calls: seq<ApiCall>, p: Pod, claims: seq<Claim>) {
    && CreatePod(p) in calls
    && (forall q :: CreatePod(q) in calls ==> q == p)
    && ((forall c :: c in claims ==> c.id != DataId(p.suffix)) ==>
          exists spec :: CreateClaim(DataId(p.suffix), p.labels.rev, spec) in calls)
  }

  ghost predicate MakesNothing(calls: seq<ApiCall>) { forall q :: CreatePod(q) !in calls }

  lemma CreatePodAndClaimMakes(p: Pod, role: Role, spec: ClaimSpec, claims: seq<Claim>)
    ensures var (calls, ok) := CreatePodAndClaim(p, role, spec, claims);
      if ok then Makes(calls, p, claims) else MakesNothing(calls)
  {
    FindClaimIs(claims, DataId(p.suffix));
    var (calls, ok) := CreatePodAndClaim(p, role, spec, claims);
    if ok {
      assert calls[|calls| - 1] == CreatePod(p);
      if FindClaim(claims, DataId(p.suffix)).None? {
        assert calls[0] == CreateClaim(DataId(p.suffix), p.labels.rev, spec);
      }
    }
  }

  /** A pod the round can create: for role, in a round with the tally t and the status st. */
  predicate Fitting(x: Input, t: Tally, st: Summary, unused: seq<Suffix>, role: Role, p: Pod)
    requires exists d :: d in x.draws && d !in t.suffixes
  {
    && p.suffix == PickSuffix(x, t.suffixes, unused)
    && !role.Restore?
    && p.image == x.next.image
    && p.labels.rev == (if st.phase.Restoring? && !role.Special? then x.currentRev else x.nextRev)
    && p.labels == PodLabels(role, p.labels.rev, StateFor(p.suffix, role, p.labels.rev, x.claims))
    && (p.clusterInit <==> !role.Special? && !st.phase.Restoring? && Bootstrap.NoAddress(t.ready))
  }

  /** At most one pod is created, and it fits. */
  ghost predicate MakesFitting(calls: seq<ApiCall>, x: Input, t: Tally, st: Summary, unused: seq<Suffix>)
    requires exists d :: d in x.draws && d !in t.suffixes
  {
    MakesNothing(calls) || exists role, p :: Makes(calls, p, x.claims) && Fitting(x, t, st, unused, role, p)
  }

  lemma CreateOrWaitMakes(x: Input, t: Tally, st: Summary, unused: seq<Suffix>)
    requires exists d :: d in x.draws && d !in t.suffixes
    ensures MakesFitting(
      CreateOrWait(x, x.next, st, t.unready, if st.phase.Restoring? then x.currentRev else x.nextRev,
                   ChooseRole(st.members), Bootstrap.NoAddress(t.ready), t.suffixes, unused).calls, x, t, st, unused)
  {
    hide CreatePodAndClaim, PickSuffix, StateFor, Bootstrap.NoAddress, PodLabels, GaleraEnv, HasClusterInit;
    var chosen := if st.phase.Restoring? then x.currentRev else x.nextRev;
    var role := ChooseRole(st.members);
    var noAddress := Bootstrap.NoAddress(t.ready);
    if UnreadyGate(t.unready).Pass? {
      var s := PickSuffix(x, t.suffixes, unused);
      var init := !st.phase.Restoring? && noAddress;
      var p := NewPod(s, role, chosen, StateFor(s, role, chosen, x.claims), x.next.image, x.next.env, noAddress, init);
      OnlyOperatorBootstraps(x.next.env, noAddress, init);
      LabelsRev(role, chosen, StateFor(s, role, chosen, x.claims));
      CreatePodAndClaimMakes(p, role, x.next.claimSpec, x.claims);
      assert Fitting(x, t, st, unused, role, p);
    }
  }

  lemma LabelsRev(role: Role, rev: Revision, state: State)
    ensures PodLabels(role, rev, state).rev == rev && PodLabels(role, rev, state).state == state
  {
  }

  lemma ManageSpecialMakes(x: Input, t: Tally, st: Summary, st1: Summary, env: seq<EnvVar>, unused: seq<Suffix>)
    requires exists d :: d in x.draws && d !in t.suffixes
    ensures MakesFitting(
      ManageSpecial(x, env, x.next.claimSpec, st1, t.special, Bootstrap.NoAddress(t.ready), t.suffixes, unused).calls,
      x, t, st, unused)
  {
    hide CreatePodAndClaim, PickSuffix, StateFor, Bootstrap.NoAddress, PodLabels, GaleraEnv, HasClusterInit;
    if t.special.None? {
      var noAddress := Bootstrap.NoAddress(t.ready);
      var s := PickSuffix(x, t.suffixes, unused);
      var p := NewPod(s, Special, x.nextRev, StateFor(s, Special, x.nextRev, x.claims), x.next.image, env, noAddress, false);
      OnlyOperatorBootstraps(env, noAddress, false);
      LabelsRev(Special, x.nextRev, StateFor(s, Special, x.nextRev, x.claims));
      CreatePodAndClaimMakes(p, Special, x.next.claimSpec, x.claims);
      assert Fitting(x, t, st, unused, Special, p);
    }
  }

  lemma {:induction false} DeleteAllMakes(ps: seq<Pod>)
    ensures MakesNothing(DeleteAll(ps))
  {
    if ps != [] { DeleteAllMakes(ps[1..]); }
  }

  lemma MakesAfter(a: seq<ApiCall>, calls: seq<ApiCall>, x: Input, t: Tally, st: Summary, unused: seq<Suffix>)
    requires exists d :: d in x.draws && d !in t.suffixes
    requires MakesNothing(a) && MakesFitting(calls, x, t, st, unused)
    ensures MakesFitting(a + calls, x, t, st, unused)
  {
    hide Fitting;
    if !MakesNothing(calls) {
      var role, p :| Makes(calls, p, x.claims) && Fitting(x, t, st, unused, role, p);
      assert Makes(a + calls, p, x.claims) by {
        if forall c :: c in x.claims ==> c.id != DataId(p.suffix) {
          var spec :| CreateClaim(DataId(p.suffix), p.labels.rev, spec) in calls;
          assert CreateClaim(DataId(p.suffix), p.labels.rev, spec) in a + calls;
        }
      }
    }
  }

  lemma AfterTerminationMakes(x: Input, t: Tally, st: Summary, st1: Summary, unused: seq<Suffix>)
    requires exists d :: d in x.draws && d !in t.suffixes
    ensures MakesFitting(AfterTermination(x, t, st1, Bootstrap.NoAddress(t.ready), unused).calls, x, t, st, unused)
  {
    hide ManageSpecial, Fitting, Bootstrap.NoAddress, NextTurn;
    if x.special.Some? {
      ManageSpecialMakes(x, t, st, st1, x.special.value, unused);
    }
  }

  lemma TerminateMakes(x: Input, st: Summary, ready: seq<Pod>, unready: seq<Pod>, unused: seq<Suffix>)
    ensures MakesNothing(Terminate(x, st, ready, unready, unused).calls)
  {
    hide FirstUnused, FirstPlain;
    DeleteAllMakes(unready);
  }

  lemma ReconcileMakes(x: Input, t: Tally, st: Summary)
    requires exists d :: d in x.draws && d !in t.suffixes
    ensures MakesFitting(Reconcile(x, t, st).calls, x, t, st, UnusedData(x.claims, t.suffixes))
  {
    hide Collect, CreateOrWait, Terminate, AfterTermination, Fitting, Bootstrap.NoAddress, FirstToUpgrade;
    var unused := UnusedData(x.claims, t.suffixes);
    CollectsExactly(x.claims, t.suffixes, t.backups, x.next.claimSpec);
    CollectDeletes(x.claims, t.suffixes, t.backups, x.next.claimSpec);
    if Collect(x.claims, t.suffixes, t.backups, x.next.claimSpec).operation || FirstToUpgrade(t.unready, x.claims).Some? {
    } else if |t.ready| < x.replicas {
      CreateOrWaitMakes(x, t, st, unused);
    } else {
      var done := Terminate(x, st, t.ready, t.unready, unused);
      TerminateMakes(x, st, t.ready, t.unready, unused);
      AfterTerminationMakes(x, t, st, done.status, unused);
      MakesAfter(done.calls, AfterTermination(x, t, done.status, Bootstrap.NoAddress(t.ready), unused).calls, x, t, st,
          unused);
    }
  }

  lemma TurnMakes(p: Pod, t: Tally, x: Input)
    ensures MakesNothing(ClassifyPod(p, t, x).calls)
  {
    hide ClassifyPod;
    TurnCalls(p, t, x);
  }

  lemma {:induction false} ClassifyMakes(pods: seq<Pod>, t: Tally, x: Input)
    ensures MakesNothing(Classify(pods, t, x).calls)
    decreases pods
  {
    hide ClassifyPod;
    if pods != [] {
      TurnMakes(pods[0], t, x);
      var s := ClassifyPod(pods[0], t, x);
      if s.Go? { ClassifyMakes(pods[1..], s.tally, x); }
    }
  }

  /** A round that creates a pod has classified all of them, none of them terminating, and creates
      one that fits. */
  lemma RoundMakes(x: Input, p: Pod) returns (t: Tally, role: Role)
    requires CanDraw(x) && CreatePod(p) in PlanRound(x).calls
    ensures Classify(x.pods, Start(x), x).Go? && t == Classify(x.pods, Start(x), x).tally && !t.terminating
    ensures (exists d :: d in x.draws && d !in t.suffixes)
    ensures Makes(PlanRound(x).calls, p, x.claims)
    ensures Fitting(x, t, Phased(x, t), UnusedData(x.claims, t.suffixes), role, p)
  {
    hide Classify, ClassifyPod, Reconcile, SetLabels, Phased, Fitting, Orphan;
    ClassifyMakes(x.pods, Start(x), x);
    ClassifySuffixes(x.pods, Start(x), x);
    t := Classify(x.pods, Start(x), x).tally;
    var unused := UnusedData(x.claims, t.suffixes);
    var first, second := Classify(x.pods, Start(x), x).calls, SetLabels(t.ready, t.status.members).calls;
    Roles.SetLabelsArePatches(t.ready, t.status.members);
    ReconcileMakes(x, t, Phased(x, t));
    var rest := Reconcile(x, t, Phased(x, t)).calls;
    MakesAfter(second, rest, x, t, Phased(x, t), unused);
    MakesAfter(first, second + rest, x, t, Phased(x, t), unused);
    assert PlanRound(x).calls == first + (second + rest);
    var r, q :| Makes(PlanRound(x).calls, q, x.claims) && Fitting(x, t, Phased(x, t), unused, r, q);
    role := r;
  }

  // ---- Fresh names ------------------------------------------------------------------------

  /** The pod a round creates shares its name with no pod of the snapshot. When no unused claim was
      on offer, no data claim has that name either: the pod is a member of the cluster from the
      start, on a claim created in the same round at its own revision. */
  lemma CreatedPodIsFresh(x: Input, p: Pod)
    requires CanDraw(x) && CreatePod(p) in PlanRound(x).calls
    ensures forall q :: q in x.pods ==> q.suffix != p.suffix
    ensures forall q :: CreatePod(q) in PlanRound(x).calls ==> q == p
    ensures UnusedData(x.claims, SuffixesOf(x.pods)) == [] ==>
      && (forall c :: c in x.claims ==> c.id != DataId(p.suffix))
      && p.labels.state.Cluster?
      && exists spec :: CreateClaim(DataId(p.suffix), p.labels.rev, spec) in PlanRound(x).calls
  {
    hide PlanRound, Classify, Phased, Bootstrap.NoAddress, UnusedData, PodLabels;
    var t, role := RoundMakes(x, p);
    NothingTerminating(x, t);
    PickIsFresh(x, x.claims, t.suffixes);
    FindClaimIs(x.claims, DataId(p.suffix));
    LabelsRev(role, p.labels.rev, StateFor(p.suffix, role, p.labels.rev, x.claims));
  }

  lemma NothingTerminating(x: Input, t: Tally)
    requires Classify(x.pods, Start(x), x).Go? && t == Classify(x.pods, Start(x), x).tally && !t.terminating
    ensures t.suffixes == SuffixesOf(x.pods)
    ensures forall q :: q in x.pods ==> q.suffix in t.suffixes
  {
    hide Classify, IsLive;
    ClosedTerminating(x.pods, Start(x), x);
    ClosedSuffixes(x.pods, Start(x), x);
    AllLive(x.pods);
    InSuffixes(x.pods);
    assert [] + SuffixesOf(x.pods) == SuffixesOf(x.pods);
  }

  lemma {:induction false} AllLive(pods: seq<Pod>)
    requires forall p :: p in pods ==> !p.terminating
    ensures Filter(pods, IsLive) == pods
  {
    if pods != [] {
      assert pods[0] in pods;
      AllLive(pods[1..]);
    }
  }

  // ---- Bootstrap --------------------------------------------------------------------------

  lemma PhasedPhase(x: Input, t: Tally)
    requires x.phase.Creating? || x.phase.Running? || x.phase.Backuping?
    requires Classify(x.pods, Start(x), x).Go? && t == Classify(x.pods, Start(x), x).tally
    ensures !Phased(x, t).phase.Restoring?
  {
    hide Classify, SetLabels;
    Sync.ClassifyKeepsPhase(x.pods, Start(x), x);
  }

  /** While a cluster is created or running, a created pod that is not the special node is told to
      start a new cluster exactly when the ready pods of the snapshot yield no address. */
  lemma InitExactly(x: Input, p: Pod)
    requires CanDraw(x) && CreatePod(p) in PlanRound(x).calls
    requires x.phase.Creating? || x.phase.Running? || x.phase.Backuping?
    ensures p.clusterInit <==> p.labels.role != Some(Special) && Bootstrap.NoAddress(Filter(x.pods, IsListed))
  {
    hide PlanRound, Classify, Phased, Bootstrap.NoAddress, UnusedData, IsListed, PickSuffix, StateFor;
    var t, role := RoundMakes(x, p);
    PhasedPhase(x, t);
    TallyServes(x);
  }

  /** No second bootstrap: with at most one ready holder of each role and an address on every ready
      pod, a pod is told to start a new cluster only when no pod is ready. */
  lemma NoSecondBootstrap(x: Input, p: Pod)
    requires CanDraw(x) && CreatePod(p) in PlanRound(x).calls
    requires x.phase.Creating? || x.phase.Running? || x.phase.Backuping?
    requires forall q :: q in x.pods ==> Apart(q.labels) && (IsListed(q) ==> q.ip != "")
    requires Bootstrap.AtMostOne(Filter(x.pods, IsListed), Writer)
      && Bootstrap.AtMostOne(Filter(x.pods, IsListed), BackupWriter)
    ensures p.clusterInit ==> forall q :: q in x.pods ==> !IsListed(q)
  {
    hide PlanRound, Bootstrap.NoAddress, Bootstrap.AtMostOne;
    InitExactly(x, p);
    InFilter(x.pods, IsListed);
    Bootstrap.AddressWheneverReady(Filter(x.pods, IsListed));
  }

  /** And exactly these snapshots, whose ready pods have addresses, order a bootstrap. */
  lemma BootstrapExactly(x: Input, p: Pod)
    requires CanDraw(x) && CreatePod(p) in PlanRound(x).calls && p.labels.role != Some(Special)
    requires x.phase.Creating? || x.phase.Running? || x.phase.Backuping?
    requires forall q :: q in x.pods ==> Apart(q.labels) && (IsListed(q) ==> q.ip != "")
    ensures var ready := Filter(x.pods, IsListed);
      p.clusterInit <==>
        || ready == []
        || (|ready| > 1 && Bootstrap.AllHold(ready, Writer))
        || (|ready| > 1 && |Bootstrap.Without(ready, Writer)| > 1
            && Bootstrap.AllHold(Bootstrap.Without(ready, Writer), BackupWriter))
  {
    hide PlanRound, Bootstrap.Donors, Bootstrap.AllHold, Bootstrap.Without;
    var ready := Filter(x.pods, IsListed);
    InitExactly(x, p);
    InFilter(x.pods, IsListed);
    Bootstrap.NoDonorsExactly(ready);
    Bootstrap.DonorsAreReady(ready);
    if Bootstrap.Donors(ready) != [] {
      assert Bootstrap.Donors(ready)[0] in ready;
    }
  }

  // ---- A refused change of version --------------------------------------------------------

  /** The upgrade check refuses the change and is heard: no upgrade is under way. */
  predicate Heeded(y: Sync.SyncInput) {
    y.permit.Refused? && Lookup(y.round.conditions, IsUpgradingKind).None?
  }

  /** A refused change of version keeps the image but not the revision: a pod created in a cluster that
      is being created or running always carries the next revision, and it runs that revision's image
      exactly unless the change was refused, no upgrade was under way and the images differ. */
  lemma RefusedChangeIsLabelledNext(y: Sync.SyncInput, p: Pod)
    requires CanDraw(y.round) && CreatePod(p) in Sync.SyncPlan(y).calls
    requires y.round.phase.Creating? || y.round.phase.Running? || y.round.phase.Backuping?
    ensures p.labels.rev == y.round.nextRev
    ensures p.image == y.round.next.image <==> !Heeded(y) || y.round.current.image == y.round.next.image
  {
    hide PlanRound, Classify, Phased, Bootstrap.NoAddress, UnusedData, PickSuffix, StateFor;
    Sync.SyncCallsAre(y);
    var x := Sync.Planned(y);
    var t, role := RoundMakes(x, p);
    PhasedPhase(x, t);
  }
}
