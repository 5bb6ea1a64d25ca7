/** When the next revision becomes the current one. */
module Promotion {
  import opened ApiStore
  import opened Status
  import opened Round
  import opened RoundFacts
  import opened Sync
  import opened Disruption
  import Bootstrap

  predicate Counted(p: Pod) { !ReadySpecial(p) }

  predicate LiveAt(p: Pod, rev: Revision) { !p.terminating && p.labels.role != Some(Special) && p.labels.rev == rev }

  lemma TurnCounts(p: Pod, t: Tally, x: Input)
    requires ClassifyPod(p, t, x).Go?
    ensures var a := t.status; var b := ClassifyPod(p, t, x).tally.status;
      && b.replicas == a.replicas + (if Counted(p) then 1 else 0)
      && b.nextReplicas <= a.nextReplicas + (if LiveAt(p, x.nextRev) then 1 else 0)
      && b.members.ready == a.members.ready
  {
    hide DeletePodAndClaim, Patch2, ByRole;
    if ReadyPrimary(p) {
      var t0 := t.(status := t.status.(replicas := t.status.replicas + 1));
      RoleFacts(p, t0);
      RoleMembers(p, t0);
    }
  }

  lemma {:induction false} CountsAre(pods: seq<Pod>, t: Tally, x: Input)
    requires Classify(pods, t, x).Go?
    ensures var a := t.status; var b := Classify(pods, t, x).tally.status;
      && b.replicas == a.replicas + |Filter(pods, Counted)|
      && b.nextReplicas <= a.nextReplicas + |Filter(pods, p => LiveAt(p, x.nextRev))|
    decreases pods
  {
    if pods != [] {
      TurnCounts(pods[0], t, x);
      CountsAre(pods[1..], ClassifyPod(pods[0], t, x).tally, x);
    }
  }

  /** If f implies g and f holds as often as g, they agree on the list. */
  lemma {:induction false} SameCount(pods: seq<Pod>, f: Pod -> bool, g: Pod -> bool)
    requires forall p :: p in pods && f(p) ==> g(p)
    ensures |Filter(pods, f)| <= |Filter(pods, g)|
    ensures |Filter(pods, f)| == |Filter(pods, g)| ==> forall p :: p in pods && g(p) ==> f(p)
  {
    if pods != [] {
      assert pods[0] in pods;
      SameCount(pods[1..], f, g);
    }
  }

  lemma TurnStopsUnlisted(p: Pod, t: Tally, x: Input)
    requires ClassifyPod(p, t, x).Stop?
    ensures ClassifyPod(p, t, x).status.members.ready == t.status.members.ready
  {
  }

  lemma {:induction false} StopsUnlisted(pods: seq<Pod>, t: Tally, x: Input)
    ensures var s := Classify(pods, t, x);
      (if s.Go? then s.tally.status else s.status).members.ready == t.status.members.ready
    decreases pods
  {
    if pods != [] {
      var s := ClassifyPod(pods[0], t, x);
      if s.Go? {
        TurnCounts(pods[0], t, x);
        StopsUnlisted(pods[1..], s.tally, x);
      } else {
        TurnStopsUnlisted(pods[0], t, x);
      }
    }
  }

  /** The fields that decide on promotion. */
  predicate SameCounts(a: Summary, b: Summary) {
    a.replicas == b.replicas && a.nextReplicas == b.nextReplicas && a.members.ready == b.members.ready
  }

  lemma AfterTerminationKeepsCounts(x: Input, t: Tally, st: Summary, noAddress: bool, unused: seq<Suffix>)
    requires exists d :: d in x.draws && d !in t.suffixes
    ensures SameCounts(AfterTermination(x, t, st, noAddress, unused).status, st)
  {
  }

  lemma TerminateKeepsCounts(x: Input, st: Summary, ready: seq<Pod>, unready: seq<Pod>, unused: seq<Suffix>)
    ensures var st1 := Terminate(x, st, ready, unready, unused).status;
      SameCounts(st1, st) || (|ready| > x.replicas && st1.members.ready == st.members.ready)
  {
  }

  lemma CreateOrWaitKeepsList(x: Input, spec: Template, st: Summary, unready: seq<Pod>, chosen: Revision, role: Role,
                              noAddress: bool, used: seq<Suffix>, unused: seq<Suffix>)
    requires exists d :: d in x.draws && d !in used
    ensures CreateOrWait(x, spec, st, unready, chosen, role, noAddress, used, unused).status.members.ready == st.members.ready
  {
  }

  /** After the labelling those fields only move on paths where the number of ready pods differs from
      the desired one. */
  lemma ReconcileKeepsCounts(x: Input, t: Tally, st: Summary)
    requires exists d :: d in x.draws && d !in t.suffixes
    requires |st.members.ready| == |t.ready|
    ensures var st1 := Reconcile(x, t, st).status;
      Complete(st1, x.replicas) ==> Complete(st, x.replicas)
  {
    var col := Collect(x.claims, t.suffixes, t.backups, x.next.claimSpec);
    var noAddress := Bootstrap.NoAddress(t.ready);
    if col.operation || FirstToUpgrade(t.unready, x.claims).Some? {
    } else if |t.ready| < x.replicas {
      CreateOrWaitKeepsList(x, x.next, st, t.unready, if st.phase.Restoring? then x.currentRev else x.nextRev,
                            ChooseRole(st.members), noAddress, t.suffixes, col.unused);
    } else {
      var done := Terminate(x, st, t.ready, t.unready, col.unused);
      TerminateKeepsCounts(x, st, t.ready, t.unready, col.unused);
      AfterTerminationKeepsCounts(x, t, done.status, noAddress, col.unused);
    }
  }

  lemma SettleKeepsCounts(x: Input, t: Tally)
    requires exists d :: d in x.draws && d !in t.suffixes
    ensures Settle(x, t).ok && Complete(Settle(x, t).status, x.replicas) ==>
      |t.ready| == t.status.replicas == t.status.nextReplicas == x.replicas
  {
    InSuffixes(t.ready);
    ReconcileKeepsCounts(x, t, Phased(x, t));
  }

  /** A round whose status is complete saw exactly the desired number of pods, the ready special
      node aside, and every one of them ready, primary, serving and labelled with the next revision. */
  lemma PromotionIsSound(x: Input)
    requires CanDraw(x) && x.replicas >= 1
    requires forall p :: p in x.pods ==> Apart(p.labels)
    requires PlanRound(x).ok && Complete(PlanRound(x).status, x.replicas)
    ensures |Filter(x.pods, Counted)| == x.replicas
    ensures forall p :: p in x.pods && Counted(p) ==> IsListed(p) && Serving(p) && p.labels.rev == x.nextRev
  {
    var s := Classify(x.pods, Start(x), x);
    StopsUnlisted(x.pods, Start(x), x);
    if Orphan(x.pods, x.claims).None? && s.Go? {
      ClassifySuffixes(x.pods, Start(x), x);
      var t := s.tally;
      SettleKeepsCounts(x, t);
      CountsAre(x.pods, Start(x), x);
      TallyServes(x);
      var live := p => LiveAt(p, x.nextRev);
      SameCount(x.pods, IsListed, Counted);
      SameCount(x.pods, live, Counted);
    }
  }

  /** A restore schedule counts no pod as upgraded. */
  lemma ScheduleCountsNoUpgrade(x: Input)
    requires CanDraw(x)
    ensures Schedule(x).status.nextReplicas <= 0
  {
  }

  /** In terms of what is stored, in any phase: the current revision stays, becomes the one the sync
      found to be current, or moves to the next one, and this last only then. */
  lemma RevisionMovesOnlyWhenComplete(was: Stored, y: SyncInput, generation: int)
    requires CanDraw(y.round) && y.round.replicas >= 1
    requires forall p :: p in y.round.pods ==> Apart(p.labels)
    requires Store(was, y, generation).currentRev !in {was.currentRev, y.round.currentRev}
    ensures Store(was, y, generation).currentRev == y.round.nextRev
    ensures |Filter(y.round.pods, Counted)| == y.round.replicas
    ensures forall p :: p in y.round.pods && Counted(p) ==> IsListed(p) && Serving(p) && p.labels.rev == y.round.nextRev
  {
    hide PlanRound, Schedule, IsListed;
    var x := Planned(y);
    if y.deleting || x.phase !in {Creating, Restoring, Running, Backuping} {
      ScheduleCountsNoUpgrade(x);
    } else {
      PromotionIsSound(x);
    }
  }
}
