/** Which claims a sync deletes, and which suffix and claim a created pod gets. */
module Claims {
  import opened ApiStore
  import opened Status
  import opened PodTemplate
  import opened Round
  import opened RoundFacts
  import opened Sync
  import opened Disruption
  import Bootstrap
  import Protocol
  import Roles

  /** The pod's volumes include the claim. */
  predicate Mounts(p: Pod, id: ClaimId) { p.suffix == id.suffix && (id.backup ==> IsBackup(p)) }

  /** Every claim the calls delete is mounted by nobody or goes with its pod. */
  ghost predicate SafeDeletions(calls: seq<ApiCall>, pods: seq<Pod>) {
    forall id :: DeleteClaim(id) in calls ==>
      DeletePod(id.suffix) in calls || forall p :: p in pods ==> !Mounts(p, id)
  }

  lemma SafeDeletionsConcat(a: seq<ApiCall>, b: seq<ApiCall>, pods: seq<Pod>)
    requires SafeDeletions(a, pods) && SafeDeletions(b, pods)
    ensures SafeDeletions(a + b, pods)
  {
    assert forall c :: c in a || c in b ==> c in a + b;
    forall id | DeleteClaim(id) in a + b
      ensures DeletePod(id.suffix) in a + b || forall p :: p in pods ==> !Mounts(p, id)
    {
      assert DeleteClaim(id) in a || DeleteClaim(id) in b;
    }
  }

  lemma NoDeletions(calls: seq<ApiCall>, pods: seq<Pod>)
    requires forall c :: c in calls ==> !c.DeleteClaim?
    ensures SafeDeletions(calls, pods)
  {
  }

  /** The pod goes with its claims; a pod with another role has no backup claim to lose. */
  lemma PodAndClaimSafe(p: Pod, x: Input)
    requires Distinct(x.pods) && p in x.pods && Apart(p.labels)
    ensures SafeDeletions(DeletePodAndClaim(p, x.claims).0, x.pods)
  {
    var (calls, ok) := DeletePodAndClaim(p, x.claims);
    if ok {
      assert DeletePod(p.suffix) == calls[|calls| - 1];
    } else {
      assert forall q :: q in x.pods && q.suffix == p.suffix ==> q == p;
    }
  }

  lemma ForUpgradeSafe(p: Pod, x: Input, spec: ClaimSpec)
    ensures SafeDeletions(DeleteForUpgrade(p, x.claims, spec).0, x.pods)
  {
    var (calls, ok) := DeleteForUpgrade(p, x.claims, spec);
    FindClaimIs(x.claims, DataId(p.suffix));
    if ok {
      assert DeletePod(p.suffix) == calls[|calls| - 1];
    }
  }

  /** The suffixes gathered cover the pods, and the backup suffixes the backup pods. */
  ghost predicate Covers(x: Input, used: seq<Suffix>, backups: seq<Suffix>) {
    forall p :: p in x.pods ==> p.suffix in used && (IsBackup(p) ==> p.suffix in backups)
  }

  lemma CollectSafe(x: Input, used: seq<Suffix>, backups: seq<Suffix>, spec: ClaimSpec)
    requires Covers(x, used, backups)
    ensures SafeDeletions(Collect(x.claims, used, backups, spec).calls, x.pods)
  {
    CollectDeletes(x.claims, used, backups, spec);
  }

  lemma {:induction false} FirstUnusedIs(claims: seq<Claim>, unused: seq<Suffix>)
    ensures FirstUnused(claims, unused).Some? ==>
      FirstUnused(claims, unused).value in claims && FirstUnused(claims, unused).value.id.suffix in unused
  {
    if claims != [] { FirstUnusedIs(claims[1..], unused); }
  }

  lemma {:induction false} DeleteAllKeepsClaims(ps: seq<Pod>)
    ensures forall c :: c in DeleteAll(ps) ==> c.DeletePod?
  {
    if ps != [] { DeleteAllKeepsClaims(ps[1..]); }
  }

  lemma TerminateSafe(x: Input, st: Summary, ready: seq<Pod>, unready: seq<Pod>, used: seq<Suffix>)
    requires forall p :: p in x.pods ==> p.suffix in used
    ensures SafeDeletions(Terminate(x, st, ready, unready, UnusedData(x.claims, used)).calls, x.pods)
  {
    var unused := UnusedData(x.claims, used);
    FirstUnusedIs(x.claims, unused);
    UnusedAreUnused(x.claims, used);
    DeleteAllKeepsClaims(unready);
  }

  lemma CreateOrWaitSafe(x: Input, spec: Template, st: Summary, unready: seq<Pod>, chosen: Revision, role: Role,
                         noAddress: bool, used: seq<Suffix>, unused: seq<Suffix>)
    requires exists d :: d in x.draws && d !in used
    ensures SafeDeletions(CreateOrWait(x, spec, st, unready, chosen, role, noAddress, used, unused).calls, x.pods)
  {
    NoDeletions(CreateOrWait(x, spec, st, unready, chosen, role, noAddress, used, unused).calls, x.pods);
  }

  lemma AfterTerminationSafe(x: Input, t: Tally, st: Summary, noAddress: bool, unused: seq<Suffix>)
    requires exists d :: d in x.draws && d !in t.suffixes
    requires Distinct(x.pods) && (t.special.Some? ==> t.special.value in x.pods && Apart(t.special.value.labels))
    ensures SafeDeletions(AfterTermination(x, t, st, noAddress, unused).calls, x.pods)
  {
    hide PickSuffix, StateFor, NewPod, DeletePodAndClaim, DeleteForUpgrade, Distinct;
    var turn := NextTurn(t.ready, x.nextRev);
    if x.currentRev != x.nextRev && !turn.NobodysTurn? {
      if turn.TurnOf? { ForUpgradeSafe(turn.pod, x, x.next.claimSpec); }
    } else if x.special.Some? {
      if t.special.Some? {
        ForUpgradeSafe(t.special.value, x, x.next.claimSpec);
      }
    } else if t.special.Some? {
      PodAndClaimSafe(t.special.value, x);
    }
  }

  lemma ReconcileSafe(x: Input, t: Tally, st: Summary)
    requires exists d :: d in x.draws && d !in t.suffixes
    requires Distinct(x.pods) && Covers(x, t.suffixes, t.backups)
    requires t.special.Some? ==> t.special.value in x.pods && Apart(t.special.value.labels)
    ensures SafeDeletions(Reconcile(x, t, st).calls, x.pods)
  {
    var col := Collect(x.claims, t.suffixes, t.backups, x.next.claimSpec);
    CollectSafe(x, t.suffixes, t.backups, x.next.claimSpec);
    CollectsExactly(x.claims, t.suffixes, t.backups, x.next.claimSpec);
    var noAddress := Bootstrap.NoAddress(t.ready);
    if col.operation || FirstToUpgrade(t.unready, x.claims).Some? {
    } else if |t.ready| < x.replicas {
      CreateOrWaitSafe(x, x.next, st, t.unready, if st.phase.Restoring? then x.currentRev else x.nextRev,
                       ChooseRole(st.members), noAddress, t.suffixes, col.unused);
    } else {
      var done := Terminate(x, st, t.ready, t.unready, col.unused);
      TerminateSafe(x, st, t.ready, t.unready, t.suffixes);
      AfterTerminationSafe(x, t, done.status, noAddress, col.unused);
      SafeDeletionsConcat(done.calls, AfterTermination(x, t, done.status, noAddress, col.unused).calls, x.pods);
    }
  }

  /** A classification that stops the round deletes a pod with its claims, or nothing. */
  lemma {:induction false} StopSafe(pods: seq<Pod>, t: Tally, x: Input)
    requires Classify(pods, t, x).Stop? && Distinct(x.pods)
    requires forall p :: p in pods ==> p in x.pods && Apart(p.labels)
    ensures SafeDeletions(Classify(pods, t, x).calls, x.pods)
    decreases pods
  {
    var s := ClassifyPod(pods[0], t, x);
    assert pods[0] in pods;
    if s.Stop? {
      TurnStopSafe(pods[0], t, x);
    } else {
      StopSafe(pods[1..], s.tally, x);
      Roles.TurnPatches(pods[0], t, x);
      NoDeletions(s.calls, x.pods);
      SafeDeletionsConcat(s.calls, Classify(pods[1..], s.tally, x).calls, x.pods);
    }
  }

  lemma TurnStopSafe(p: Pod, t: Tally, x: Input)
    requires ClassifyPod(p, t, x).Stop? && Distinct(x.pods) && p in x.pods && Apart(p.labels)
    ensures SafeDeletions(ClassifyPod(p, t, x).calls, x.pods)
  {
    hide ClassifyPod, DeletePodAndClaim, SafeDeletions;
    TurnCalls(p, t, x);
    PodAndClaimSafe(p, x);
    var (calls, ok) := DeletePodAndClaim(p, x.claims);
    NoDeletions([], x.pods);
    var patches := [Patch2(p, RemoveRole, AddReader)];
    NoDeletions(patches, x.pods);
    SafeDeletionsConcat(patches, calls, x.pods);
    assert [] + calls == calls;
  }

  lemma TallyCovers(x: Input)
    requires Classify(x.pods, Start(x), x).Go?
    ensures var t := Classify(x.pods, Start(x), x).tally; !t.terminating ==> Covers(x, t.suffixes, t.backups)
  {
    ClosedSuffixes(x.pods, Start(x), x);
    ClosedBackups(x.pods, Start(x), x);
    ClosedTerminating(x.pods, Start(x), x);
    InFilter(x.pods, IsLive);
    InFilter(x.pods, IsLiveBackup);
    InSuffixes(Filter(x.pods, IsLive));
    InSuffixes(Filter(x.pods, IsLiveBackup));
  }

  lemma RoundDeletesSafely(x: Input)
    requires CanDraw(x) && Distinct(x.pods) && forall p :: p in x.pods ==> Apart(p.labels)
    ensures SafeDeletions(PlanRound(x).calls, x.pods)
  {
    var s := Classify(x.pods, Start(x), x);
    if Orphan(x.pods, x.claims).None? {
      if s.Stop? {
        StopSafe(x.pods, Start(x), x);
      } else {
        ClassifySuffixes(x.pods, Start(x), x);
        TallyCovers(x);
        SpecialListed(x.pods, Start(x), x);
        Roles.ClassifyPatches(x.pods, Start(x), x);
        NoDeletions(s.calls, x.pods);
        SettleDeletesSafely(x, s.tally);
        SafeDeletionsConcat(s.calls, Settle(x, s.tally).calls, x.pods);
      }
    }
  }

  lemma SettleDeletesSafely(x: Input, t: Tally)
    requires exists d :: d in x.draws && d !in t.suffixes
    requires Distinct(x.pods) && (!t.terminating ==> Covers(x, t.suffixes, t.backups))
    requires t.special.Some? ==> t.special.value in x.pods && Apart(t.special.value.labels)
    ensures SafeDeletions(Settle(x, t).calls, x.pods)
  {
    var m := t.status.members;
    var l := SetLabels(t.ready, m);
    Roles.SetLabelsArePatches(t.ready, m);
    NoDeletions(l.calls, x.pods);
    if l.ok && !t.terminating && !MajorityLost(|t.ready|, |t.unready|) {
      var st := Phased(x, t);
      ReconcileSafe(x, t, st);
      SafeDeletionsConcat(l.calls, Reconcile(x, t, st).calls, x.pods);
    }
  }

  lemma {:induction false} FirstStrangerIs(pods: seq<Pod>, rev: Revision)
    ensures FirstStranger(pods, rev).Some? ==> FirstStranger(pods, rev).value in pods
    ensures FirstStranger(pods, rev).None? ==> forall p :: p in pods ==> RestorePod(p, rev)
  {
    if pods != [] { FirstStrangerIs(pods[1..], rev); }
  }

  lemma ScheduleDeletesSafely(x: Input)
    requires CanDraw(x) && Distinct(x.pods) && forall p :: p in x.pods ==> Apart(p.labels)
    ensures SafeDeletions(Schedule(x).calls, x.pods)
  {
    FirstStrangerIs(x.pods, x.currentRev);
    var stranger := FirstStranger(x.pods, x.currentRev);
    var used := SuffixesOf(x.pods);
    InSuffixes(x.pods);
    if stranger.Some? {
      PodAndClaimSafe(stranger.value, x);
    } else {
      CollectSafe(x, used, [], x.current.claimSpec);
      CollectsExactly(x.claims, used, [], x.current.claimSpec);
      var col := Collect(x.claims, used, [], x.current.claimSpec);
      if !col.operation {
        if |RunningOnes(x.pods)| < x.replicas {
          CreateOrWaitSafe(Frozen(x), x.current, CountAll(x), WaitingOnes(x.pods), x.currentRev, Restore, true, used,
              col.unused);
        } else {
          TerminateSafe(Frozen(x), CountAll(x), RunningOnes(x.pods), WaitingOnes(x.pods), used);
        }
      }
    }
  }

  /** Claim safety of a whole sync: a claim it deletes is mounted by no pod that stays. */
  lemma SyncDeletesSafely(y: SyncInput)
    requires CanDraw(y.round) && Distinct(y.round.pods) && forall p :: p in y.round.pods ==> Apart(p.labels)
    ensures SafeDeletions(SyncPlan(y).calls, y.round.pods)
  {
    SyncCallsAre(y);
    var x := Planned(y);
    ScheduleDeletesSafely(x);
    RoundDeletesSafely(x);
  }
}
