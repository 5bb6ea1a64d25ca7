/** What a round does, case by case, in terms of the pods and claims of its snapshot: how it may end
    early, which claim it collects, which pod it upgrades, and whom it creates or replaces. Label
    patches aside, every round is one of these cases or one of module Endings. */
module Decisions {
  import opened ApiStore
  import opened Status
  import opened PodTemplate
  import opened Round
  import opened RoundFacts
  import opened Phases
  import Bootstrap
  import Creation
  import LabelRuns
  import Promotion
  import Protocol
  import Roles
  import Sync

  /** The calls but the label patches. */
  function Deeds(calls: seq<ApiCall>): seq<ApiCall> {
    if calls == [] then [] else (if calls[0].PatchPod? then [] else [calls[0]]) + Deeds(calls[1..])
  }

  lemma {:induction false} DeedsConcat(a: seq<ApiCall>, b: seq<ApiCall>)
    ensures Deeds(a + b) == Deeds(a) + Deeds(b)
  {
    if a == [] {
      assert a + b == b;
    } else {
      assert (a + b)[1..] == a[1..] + b;
      DeedsConcat(a[1..], b);
    }
  }

  lemma {:induction false} OnlyPatches(calls: seq<ApiCall>)
    requires forall c :: c in calls ==> c.PatchPod?
    ensures Deeds(calls) == []
  {
    if calls != [] {
      assert calls[0] in calls;
      OnlyPatches(calls[1..]);
    }
  }

  lemma {:induction false} NoPatches(calls: seq<ApiCall>)
    requires forall c :: c in calls ==> !c.PatchPod?
    ensures Deeds(calls) == calls
  {
    if calls != [] {
      assert calls[0] in calls;
      NoPatches(calls[1..]);
      assert calls == [calls[0]] + calls[1..];
    }
  }

  ghost predicate HasClaim(claims: seq<Claim>, id: ClaimId) { exists c :: c in claims && c.id == id }

  // ---- A pod without its claims -----------------------------------------------------------

  /** Running and ready, and a claim it needs is missing: of a backup either one, of any other pod all. */
  ghost predicate Bare(p: Pod, claims: seq<Claim>) {
    && !p.terminating && p.health.Ready?
    && if p.labels.backup == Some(true)
       then !HasClaim(claims, DataId(p.suffix)) || !HasClaim(claims, BackupId(p.suffix))
       else !HasClaim(claims, DataId(p.suffix)) && !HasClaim(claims, BackupId(p.suffix))
  }

  lemma BareIs(p: Pod, claims: seq<Claim>)
    ensures Bare(p, claims) <==> Healthy(p) && LacksClaims(p, claims)
  {
    assert forall c :: c in claims && c.id.suffix == p.suffix ==> c.id == DataId(p.suffix) || c.id == BackupId(p.suffix);
  }

  lemma {:induction false} OrphanAt(pods: seq<Pod>, claims: seq<Claim>, i: nat)
    requires i < |pods| && Bare(pods[i], claims) && forall j :: 0 <= j < i ==> !Bare(pods[j], claims)
    ensures Orphan(pods, claims) == Some(pods[i])
  {
    hide Bare, LacksClaims;
    BareIs(pods[0], claims);
    if i > 0 { OrphanAt(pods[1..], claims, i - 1); }
  }

  /** The first such pod is deleted, and the round ends. */
  lemma BarePodGoes(x: Input, i: nat)
    requires CanDraw(x) && i < |x.pods| && Bare(x.pods[i], x.claims)
    requires forall j :: 0 <= j < i ==> !Bare(x.pods[j], x.claims)
    ensures PlanRound(x) == Plan([DeletePod(x.pods[i].suffix)], true, Summary(x.phase, x.conditions, 0, 0, 0, NOBODY))
  {
    hide Classify, Settle, Orphan;
    OrphanAt(x.pods, x.claims, i);
  }

  // ---- A pod the classification stops at --------------------------------------------------

  predicate KnownRole(r: Option<Role>) {
    r == None || r == Some(Writer) || r == Some(BackupWriter) || r == Some(Special)
  }

  /** A running pod that does not answer, or a member of the cluster with an unknown role, or a second
      special node or backup. */
  ghost predicate Stops(pods: seq<Pod>, i: nat)
    requires i < |pods|
  {
    var p := pods[i];
    && !p.terminating && p.health.Ready?
    && (|| p.wsrep.Unreachable?
        || (p.wsrep.Primary?
            && (|| !KnownRole(p.labels.role)
                || (p.labels.role == Some(Special) && exists j :: 0 <= j < i && ReadySpecial(pods[j]))
                || (p.labels.backup == Some(true) && exists j :: 0 <= j < i && ReadyBackup(pods[j])))))
  }

  /** What one turn stops at, given the members recorded so far. */
  predicate TurnStops(p: Pod, m: Members) {
    && !p.terminating && p.health.Ready?
    && (|| p.wsrep.Unreachable?
        || (p.wsrep.Primary?
            && (|| !KnownRole(p.labels.role)
                || (p.labels.role == Some(Special) && m.special.Some?)
                || (p.labels.backup == Some(true) && m.backup.Some?))))
  }

  lemma TurnStopsExactly(p: Pod, t: Tally, x: Input)
    ensures ClassifyPod(p, t, x).Stop? <==> TurnStops(p, t.status.members)
  {
    hide DeletePodAndClaim, Patch2;
  }

  /** Deleting a pod with its claims: the backup claim of a pod with the role restore or backup first.
      A claim that is missing is an error, after what was deleted so far. */
  ghost predicate GoneWithClaims(p: Pod, claims: seq<Claim>, calls: seq<ApiCall>, ok: bool) {
    var both := p.labels.role == Some(Restore) || p.labels.role == Some(Backup);
    var first := if both then [DeleteClaim(BackupId(p.suffix))] else [];
    if both && !HasClaim(claims, BackupId(p.suffix)) then calls == [] && !ok
    else if !HasClaim(claims, DataId(p.suffix)) then calls == first && !ok
    else calls == first + [DeleteClaim(DataId(p.suffix)), DeletePod(p.suffix)] && ok
  }

  lemma DeletesWithClaims(p: Pod, claims: seq<Claim>)
    ensures var (calls, ok) := DeletePodAndClaim(p, claims);
      GoneWithClaims(p, claims, calls, ok) && forall c :: c in calls ==> !c.PatchPod?
  {
    FindClaimIs(claims, DataId(p.suffix));
    FindClaimIs(claims, BackupId(p.suffix));
  }

  /** A turn that ends the round: no answer, or a pod that goes with its claims, after a demotion perhaps. */
  lemma TurnEnds(p: Pod, t: Tally, x: Input)
    requires ClassifyPod(p, t, x).Stop?
    ensures var s := ClassifyPod(p, t, x); var (deletion, ok) := DeletePodAndClaim(p, x.claims);
      if p.wsrep.Unreachable? then s.calls == [] && !s.ok
      else s.ok == ok && s.calls == (if Extra(p, t.status.members) then [Demotion(p)] else []) + deletion
  {
    hide DeletePodAndClaim, Count, IsBackup;
    var deletion := DeletePodAndClaim(p, x.claims).0;
    assert [] + deletion == deletion;
  }

  /** A ready pod with a role that a recorded one holds. */
  predicate Extra(p: Pod, m: Members) {
    (ReadyWriter(p) && m.writer.Some?) || (ReadyBackupWriter(p) && m.backupWriter.Some?)
  }

  /** It becomes a plain reader. */
  function Demotion(p: Pod): ApiCall { PatchPod(p.suffix, p.labels.(role := None, reader := Some(true))) }

  lemma TurnStopsWith(p: Pod, t: Tally, x: Input)
    requires ClassifyPod(p, t, x).Stop?
    ensures var s := ClassifyPod(p, t, x);
      if p.wsrep.Unreachable? then s.calls == [] && !s.ok else GoneWithClaims(p, x.claims, Deeds(s.calls), s.ok)
  {
    hide GoneWithClaims, DeletePodAndClaim, ClassifyPod, Deeds;
    TurnEnds(p, t, x);
    DeletesWithClaims(p, x.claims);
    var demotion := if Extra(p, t.status.members) then [Demotion(p)] else [];
    var deletion := DeletePodAndClaim(p, x.claims).0;
    OnlyPatches(demotion);
    NoPatches(deletion);
    DeedsConcat(demotion, deletion);
    assert [] + deletion == deletion;
  }

  lemma TurnStopsAfter(p: Pod, t: Tally, x: Input)
    requires ClassifyPod(p, t, x).Stop?
    ensures var s := ClassifyPod(p, t, x);
      s.calls == (if Extra(p, t.status.members) then [Demotion(p)] else []) + Deeds(s.calls)
  {
    hide DeletePodAndClaim, ClassifyPod, Deeds, GoneWithClaims;
    TurnEnds(p, t, x);
    DeletesWithClaims(p, x.claims);
    var demotion := if Extra(p, t.status.members) then [Demotion(p)] else [];
    var deletion := DeletePodAndClaim(p, x.claims).0;
    OnlyPatches(demotion);
    NoPatches(deletion);
    DeedsConcat(demotion, deletion);
    OnlyPatches([]);
    assert [] + deletion == deletion;
  }

  lemma TurnGoesQuietly(p: Pod, t: Tally, x: Input)
    requires ClassifyPod(p, t, x).Go?
    ensures Deeds(ClassifyPod(p, t, x).calls) == []
  {
    hide ClassifyPod;
    Roles.TurnPatches(p, t, x);
    OnlyPatches(ClassifyPod(p, t, x).calls);
  }

  /** The classification gets through exactly when it stops at nobody. */
  lemma {:induction false} ClassifyGoes(all: seq<Pod>, k: nat, t: Tally, x: Input)
    requires k <= |all| && Noted(all, k, t.status.members)
    ensures var s := Classify(all[k..], t, x);
      (s.Go? <==> forall i :: k <= i < |all| ==> !Stops(all, i)) && (s.Go? ==> Deeds(s.calls) == [])
    decreases |all| - k
  {
    hide ClassifyPod, Noted, Stops;
    if k < |all| {
      var p := all[k];
      assert all[k..][0] == p && all[k..][1..] == all[k + 1..];
      TurnStopsExactly(p, t, x);
      StopsHere(all, k, t.status.members);
      var s := ClassifyPod(p, t, x);
      if s.Go? {
        NotedNext(all, k, t, x);
        TurnGoesQuietly(p, t, x);
        ClassifyGoes(all, k + 1, s.tally, x);
        DeedsConcat(s.calls, Classify(all[k + 1..], s.tally, x).calls);
      }
    }
  }

  /** Otherwise it ends at the first it stops at. */
  lemma {:induction false} ClassifyEnds(all: seq<Pod>, k: nat, t: Tally, x: Input, i: nat)
    requires k <= i < |all| && Noted(all, k, t.status.members)
    requires Stops(all, i) && forall j :: k <= j < i ==> !Stops(all, j)
    ensures var s := Classify(all[k..], t, x);
      && s.Stop?
      && if all[i].wsrep.Unreachable? then Deeds(s.calls) == [] && !s.ok
        else GoneWithClaims(all[i], x.claims, Deeds(s.calls), s.ok)
    decreases i - k
  {
    hide ClassifyPod, GoneWithClaims, Noted, Stops;
    var p := all[k];
    assert all[k..][0] == p && all[k..][1..] == all[k + 1..];
    TurnStopsExactly(p, t, x);
    StopsHere(all, k, t.status.members);
    var s := ClassifyPod(p, t, x);
    if k < i {
      NotedNext(all, k, t, x);
      TurnGoesQuietly(p, t, x);
      ClassifyEnds(all, k + 1, s.tally, x, i);
      DeedsConcat(s.calls, Classify(all[k + 1..], s.tally, x).calls);
      var rest := Deeds(Classify(all[k + 1..], s.tally, x).calls);
      assert [] + rest == rest;
    } else {
      TurnStopsWith(p, t, x);
    }
  }

  /** The special node and the backup met so far are recorded. */
  ghost predicate Noted(all: seq<Pod>, k: nat, m: Members)
    requires k <= |all|
  {
    && (m.special.Some? <==> exists j :: 0 <= j < k && ReadySpecial(all[j]))
    && (m.backup.Some? <==> exists j :: 0 <= j < k && ReadyBackup(all[j]))
    && (m.writer.Some? <==> exists j :: 0 <= j < k && ReadyWriter(all[j]))
    && (m.backupWriter.Some? <==> exists j :: 0 <= j < k && ReadyBackupWriter(all[j]))
  }

  lemma NotedNext(all: seq<Pod>, k: nat, t: Tally, x: Input)
    requires k < |all| && Noted(all, k, t.status.members) && ClassifyPod(all[k], t, x).Go?
    ensures Noted(all, k + 1, ClassifyPod(all[k], t, x).tally.status.members)
  {
    hide ClassifyPod, ReadySpecial, ReadyBackup, ReadyWriter, ReadyBackupWriter;
    TurnMembers(all[k], t, x);
  }

  lemma StopsHere(all: seq<Pod>, k: nat, m: Members)
    requires k < |all| && Noted(all, k, m)
    ensures Stops(all, k) <==> TurnStops(all[k], m)
  {
    hide ReadySpecial, ReadyBackup;
  }

  /** A round without a bare pod gets through its classification exactly when it stops at nobody. */
  lemma RoundGoesOn(x: Input)
    ensures Orphan(x.pods, x.claims).None? <==> forall p :: p in x.pods ==> !Bare(p, x.claims)
    ensures Classify(x.pods, Start(x), x).Go? <==> forall i :: 0 <= i < |x.pods| ==> !Stops(x.pods, i)
    ensures Classify(x.pods, Start(x), x).Go? ==> Deeds(Classify(x.pods, Start(x), x).calls) == []
  {
    hide Bare, LacksClaims, Stops, Classify;
    OrphanIs(x.pods, x.claims);
    forall p | p in x.pods ensures Bare(p, x.claims) <==> Healthy(p) && LacksClaims(p, x.claims) { BareIs(p, x.claims); }
    assert x.pods[0..] == x.pods;
    ClassifyGoes(x.pods, 0, Start(x), x);
  }

  /** The first pod it stops at ends it: an error when it does not answer, its deletion otherwise. */
  lemma StrangerEndsRound(x: Input, i: nat)
    requires CanDraw(x) && (forall p :: p in x.pods ==> !Bare(p, x.claims))
    requires i < |x.pods| && Stops(x.pods, i) && forall j :: 0 <= j < i ==> !Stops(x.pods, j)
    ensures var plan := PlanRound(x);
      if x.pods[i].wsrep.Unreachable? then Deeds(plan.calls) == [] && !plan.ok
      else GoneWithClaims(x.pods[i], x.claims, Deeds(plan.calls), plan.ok)
    ensures PlanRound(x).calls == Demotions(x.pods, 0, i) + Deeds(PlanRound(x).calls)
    ensures CountedUpTo(x.pods, 0, i, Fresh(x), PlanRound(x).status, x)
  {
    hide Bare, Stops, Classify, Settle, GoneWithClaims, Orphan, CountedUpTo, Demotions;
    RoundGoesOn(x);
    assert x.pods[0..] == x.pods;
    ClassifyEnds(x.pods, 0, Start(x), x, i);
    StopCounts(x.pods, 0, Start(x), x, i);
    StopDemotes(x.pods, 0, Start(x), x, i);
  }

  /** A ready pod with a role that one before it holds. */
  ghost predicate Repeats(pods: seq<Pod>, i: nat)
    requires i < |pods|
  {
    || (ReadyWriter(pods[i]) && exists j :: 0 <= j < i && ReadyWriter(pods[j]))
    || (ReadyBackupWriter(pods[i]) && exists j :: 0 <= j < i && ReadyBackupWriter(pods[j]))
  }

  /** The patches for those from k up to i. */
  ghost function Demotions(pods: seq<Pod>, k: nat, i: nat): seq<ApiCall>
    requires i < |pods|
    decreases i + 1 - k
  {
    if k > i then [] else (if Repeats(pods, k) then [Demotion(pods[k])] else []) + Demotions(pods, k + 1, i)
  }

  lemma RepeatsIs(all: seq<Pod>, k: nat, m: Members)
    requires k < |all| && Noted(all, k, m)
    ensures Repeats(all, k) <==> Extra(all[k], m)
  {
    hide ReadyWriter, ReadyBackupWriter;
  }

  lemma TurnDemotes(p: Pod, t: Tally, x: Input)
    requires ClassifyPod(p, t, x).Go?
    ensures ClassifyPod(p, t, x).calls == if Extra(p, t.status.members) then [Demotion(p)] else []
  {
    hide ClassifyPod;
    Roles.TurnPatches(p, t, x);
  }

  lemma {:induction false} StopDemotes(all: seq<Pod>, k: nat, t: Tally, x: Input, i: nat)
    requires k <= i < |all| && Noted(all, k, t.status.members)
    requires Stops(all, i) && forall j :: k <= j < i ==> !Stops(all, j)
    ensures Classify(all[k..], t, x).calls == Demotions(all, k, i) + Deeds(Classify(all[k..], t, x).calls)
    decreases i - k
  {
    hide ClassifyPod, Noted, Stops, Extra, Demotion, Repeats, Deeds;
    var p := all[k];
    assert all[k..][0] == p && all[k..][1..] == all[k + 1..];
    TurnStopsExactly(p, t, x);
    StopsHere(all, k, t.status.members);
    RepeatsIs(all, k, t.status.members);
    var s := ClassifyPod(p, t, x);
    if k < i {
      NotedNext(all, k, t, x);
      TurnDemotes(p, t, x);
      TurnGoesQuietly(p, t, x);
      StopDemotes(all, k + 1, s.tally, x, i);
      var rest := Classify(all[k + 1..], s.tally, x).calls;
      DeedsConcat(s.calls, rest);
      assert [] + Deeds(rest) == Deeds(rest);
      Regroup(s.calls, Demotions(all, k + 1, i), Deeds(rest));
    } else {
      TurnStopsAfter(p, t, x);
      LastDemotion(all, i);
    }
  }

  lemma LastDemotion(pods: seq<Pod>, i: nat)
    requires i < |pods|
    ensures Demotions(pods, i, i) == if Repeats(pods, i) then [Demotion(pods[i])] else []
  {
    hide Repeats, Demotion;
    var d := if Repeats(pods, i) then [Demotion(pods[i])] else [];
    assert Demotions(pods, i + 1, i) == [];
    assert d + [] == d;
  }

  /** The status counts the pods up to the one that ends the round, and that one as a replica only;
      nobody is listed as ready or unready yet. */
  ghost predicate CountedUpTo(pods: seq<Pod>, k: nat, i: nat, before: Summary, st: Summary, x: Input)
    requires k <= i < |pods|
  {
    && st.replicas == before.replicas + |Filter(pods[k..i + 1], Promotion.Counted)|
    && st.currentReplicas == before.currentReplicas + CountFor(pods[k..i], x.currentRev)
    && st.nextReplicas == before.nextReplicas + CountFor(pods[k..i], x.nextRev)
    && st.members.ready == before.members.ready && st.members.unready == before.members.unready
  }

  lemma TurnStopCounts(p: Pod, t: Tally, x: Input)
    requires ClassifyPod(p, t, x).Stop?
    ensures var a, b := t.status, ClassifyPod(p, t, x).status;
      && b.replicas == a.replicas + (if Promotion.Counted(p) then 1 else 0)
      && b.currentReplicas == a.currentReplicas && b.nextReplicas == a.nextReplicas
      && b.members.ready == a.members.ready && b.members.unready == a.members.unready
  {
    hide DeletePodAndClaim, Patch2, Count, IsBackup, ByRole;
    if ReadyPrimary(p) {
      var t0 := t.(status := t.status.(replicas := t.status.replicas + 1));
      RoleCounts(p, t0);
      RoleListsNobody(p, t0);
    }
  }

  lemma RoleCounts(p: Pod, t: Tally)
    ensures var a, b := t.status, ByRole(p, t).tally.status;
      && b.replicas == a.replicas - (if p.labels.role == Some(Special) then 1 else 0)
      && b.currentReplicas == a.currentReplicas && b.nextReplicas == a.nextReplicas
  {
    hide Patch2;
  }

  lemma TurnListsNobody(p: Pod, t: Tally, x: Input)
    requires ClassifyPod(p, t, x).Go?
    ensures var a, b := t.status.members, ClassifyPod(p, t, x).tally.status.members;
      b.ready == a.ready && b.unready == a.unready
  {
    hide DeletePodAndClaim, Patch2, IsBackup, ByRole, Count;
    if ReadyPrimary(p) {
      var t0 := t.(status := t.status.(replicas := t.status.replicas + 1));
      RoleListsNobody(p, t0);
    }
    forall u ensures Count(p, u, x.currentRev, x.nextRev).status.members == u.status.members {
      CountingKeepsMembers(p, u, x.currentRev, x.nextRev);
    }
  }

  lemma RoleListsNobody(p: Pod, t: Tally)
    ensures var m := ByRole(p, t).tally.status.members;
      m.ready == t.status.members.ready && m.unready == t.status.members.unready
  {
    hide Patch2;
  }

  lemma CountingKeepsMembers(p: Pod, t: Tally, currentRev: Revision, nextRev: Revision)
    ensures Count(p, t, currentRev, nextRev).status.members == t.status.members
  {
  }

  lemma {:induction false} StopCounts(all: seq<Pod>, k: nat, t: Tally, x: Input, i: nat)
    requires k <= i < |all| && Noted(all, k, t.status.members)
      && (t.special.Some? ==> t.special.value.labels.role == Some(Special))
    requires Stops(all, i) && forall j :: k <= j < i ==> !Stops(all, j)
    ensures Classify(all[k..], t, x).Stop? && CountedUpTo(all, k, i, t.status, Classify(all[k..], t, x).status, x)
    decreases i - k
  {
    hide ClassifyPod, Noted, Stops, CountsFor, Promotion.Counted;
    var p := all[k];
    assert all[k..][0] == p && all[k..][1..] == all[k + 1..];
    TurnStopsExactly(p, t, x);
    StopsHere(all, k, t.status.members);
    var s := ClassifyPod(p, t, x);
    assert all[k..i + 1][0] == p && all[k..i + 1][1..] == all[k + 1..i + 1];
    if k < i {
      assert all[k..i][0] == p && all[k..i][1..] == all[k + 1..i];
      NotedNext(all, k, t, x);
      TurnFacts(p, t, x);
      TurnCounts(p, t, x);
      Promotion.TurnCounts(p, t, x);
      TurnListsNobody(p, t, x);
      StopCounts(all, k + 1, s.tally, x, i);
    } else {
      TurnStopCounts(p, t, x);
    }
  }

  // ---- The labelling ----------------------------------------------------------------------

  /** A pod that could be given a role. */
  predicate Unmarked(p: Pod) { p.labels.role.None? && p.labels.backup.None? }

  /** The first ready pod that could be given a role, but for the one excluded. */
  predicate FirstOther(ready: seq<Pod>, excluded: Option<Suffix>, i: nat)
    requires i < |ready|
  {
    && Unmarked(ready[i]) && excluded != Some(ready[i].suffix)
    && forall j :: 0 <= j < i ==> !(Unmarked(ready[j]) && excluded != Some(ready[j].suffix))
  }

  /** It is the candidate for the role. */
  lemma {:induction false} CandidateIsFirst(ready: seq<Pod>, excluded: Option<Suffix>, i: nat)
    requires i < |ready| && FirstOther(ready, excluded, i)
    ensures Candidate(ready, excluded) == Some(ready[i])
  {
    if i > 0 {
      assert !(Unmarked(ready[0]) && excluded != Some(ready[0].suffix));
      CandidateIsFirst(ready[1..], excluded, i - 1);
    }
  }

  lemma {:induction false} CandidateIs(ready: seq<Pod>, excluded: Option<Suffix>)
    ensures Candidate(ready, excluded).Some? <==> exists p :: p in ready && Unmarked(p) && excluded != Some(p.suffix)
    ensures Candidate(ready, excluded).Some? ==>
      var c := Candidate(ready, excluded).value; c in ready && Unmarked(c) && excluded != Some(c.suffix)
  {
    if ready != [] { CandidateIs(ready[1..], excluded); }
  }

  /** Of pods with different names somebody else is left exactly when there are more than the one. */
  lemma OthersLeft(pods: seq<Pod>, excluded: Option<Suffix>)
    requires Distinct(pods)
    ensures (exists p :: p in pods && excluded != Some(p.suffix)) <==>
      |pods| > if exists p :: p in pods && excluded == Some(p.suffix) then 1 else 0
  {
    if |pods| == 1 {
      assert pods[0] in pods && forall p :: p in pods ==> p == pods[0];
    } else if |pods| > 1 {
      assert pods[0] in pods && pods[1] in pods && pods[0].suffix != pods[1].suffix;
    }
  }

  lemma CandidateExactly(ready: seq<Pod>, excluded: Option<Suffix>)
    requires Distinct(ready)
    ensures var n := |Filter(ready, Unmarked)|;
      var taken := exists p :: p in ready && Unmarked(p) && excluded == Some(p.suffix);
      Candidate(ready, excluded).Some? <==> n > (if taken then 1 else 0)
    ensures Candidate(ready, excluded).Some? ==>
      var c := Candidate(ready, excluded).value; c in ready && Unmarked(c) && excluded != Some(c.suffix)
  {
    hide Filter, Unmarked, Distinct;
    CandidateIs(ready, excluded);
    InFilter(ready, Unmarked);
    FilterDistinct(ready, Unmarked);
    OthersLeft(Filter(ready, Unmarked), excluded);
  }

  /** It fails exactly when three or more pods are ready and fewer of them are without role and backup
      label than there are roles that nobody holds. */
  lemma LabelsFailExactly(ready: seq<Pod>, m: Members)
    requires Roles.Roster(ready, m)
    ensures SetLabels(ready, m).ok <==>
      |ready| < 3 || |Filter(ready, Unmarked)| >= (if m.writer.None? then 1 else 0) + (if m.backupWriter.None? then 1 else 0)
  {
    hide DropReader, Candidate, Unmarked, Filter;
    if |ready| == 2 && m.writer.Some? && m.backupWriter.None? {
      Roles.OthersArePatches(ready, m);
    } else if |ready| >= 3 {
      var w := Candidate(ready, None);
      CandidateExactly(ready, None);
      CandidateExactly(ready, if m.writer.None? && w.Some? then Some(w.value.suffix) else m.writer);
      WriterIsMarked(ready, m);
    }
  }

  lemma WriterIsMarked(ready: seq<Pod>, m: Members)
    requires Roles.Roster(ready, m)
    ensures forall p :: p in ready && m.writer == Some(p.suffix) ==> !Unmarked(p)
  {
  }

  /** When they cannot be set, when a pod is terminating or when the last member is lost, the round ends
      with the label patches: in the first and the last case with an error. */
  lemma EndsAtLabels(x: Input)
    requires CanDraw(x) && (forall p :: p in x.pods ==> !Bare(p, x.claims)) && forall i :: 0 <= i < |x.pods| ==>
      !Stops(x.pods, i)
    requires !LabelsSet(x) || (exists p :: p in x.pods && p.terminating)
      || (|Filter(x.pods, IsListed)| == 0 && |Filter(x.pods, IsUnready)| > 1)
    requires Distinct(x.pods)
    ensures Deeds(PlanRound(x).calls) == []
    ensures PlanRound(x).ok <==> (exists p :: p in x.pods && p.terminating) && LabelsSet(x)
    ensures Reports(x, PlanRound(x).status, 0, 0, 0)
  {
    hide Bare, Stops, Classify, Orphan, SetLabels, Reconcile, Filter, IsListed, IsUnready, LabelsSet;
    RoundGoesOn(x);
    SetIs(x);
    var c := Classify(x.pods, Start(x), x);
    var t := c.tally;
    ClosedLists(x.pods, Start(x), x);
    ClosedTerminating(x.pods, Start(x), x);
    ClassifySuffixes(x.pods, Start(x), x);
    assert [] + Filter(x.pods, IsListed) == Filter(x.pods, IsListed);
    assert [] + Filter(x.pods, IsUnready) == Filter(x.pods, IsUnready);
    var labels := SetLabels(t.ready, t.status.members).calls;
    Roles.SetLabelsArePatches(t.ready, t.status.members);
    OnlyPatches(labels);
    DeedsConcat(c.calls, labels);
    ListedReports(x, t);
  }

  lemma SetIs(x: Input)
    requires Distinct(x.pods) && Classify(x.pods, Start(x), x).Go?
    ensures var t := Classify(x.pods, Start(x), x).tally; SetLabels(t.ready, t.status.members).ok <==> LabelsSet(x)
  {
    hide Classify, SetLabels, Filter, Unmarked;
    var t := Classify(x.pods, Start(x), x).tally;
    ClosedLists(x.pods, Start(x), x);
    assert [] + Filter(x.pods, IsListed) == Filter(x.pods, IsListed);
    Roles.RosterOf(x);
    LabelsFailExactly(t.ready, t.status.members);
    BackupWriterHolds(t.ready, t.status.members);
  }

  /** Fewer than three pods are ready, or enough of them can be given the roles nobody holds. */
  ghost predicate LabelsSet(x: Input) {
    var ready := Filter(x.pods, IsListed);
    |ready| < 3 || |Filter(ready, Unmarked)| >= (if HasWriter(ready) then 0 else 1)
        + (if HasBackupWriter(ready) then 0 else 1)
  }

  ghost predicate HasWriter(ready: seq<Pod>) { exists p :: p in ready && ReadyWriter(p) }

  /** The calls of a round that gets to the labels: the patches of the classification, those of the
      labels, and then no patch any more. */
  lemma PlanShape(x: Input) returns (rest: seq<ApiCall>)
    requires CanDraw(x) && Orphan(x.pods, x.claims).None? && Classify(x.pods, Start(x), x).Go?
    ensures PlanRound(x).calls == Roles.LabelCalls(x) + rest && LabelRuns.NoPatch(rest)
  {
    hide Orphan, Classify, SetLabels, Reconcile, Phased;
    ClassifySuffixes(x.pods, Start(x), x);
    var s := Classify(x.pods, Start(x), x);
    var l := SetLabels(s.tally.ready, s.tally.status.members);
    if !l.ok || s.tally.terminating || MajorityLost(|s.tally.ready|, |s.tally.unready|) {
      rest := [];
    } else {
      rest := Reconcile(x, s.tally, Phased(x, s.tally)).calls;
      LabelRuns.ReconcileNoPatch(x, s.tally, Phased(x, s.tally));
      Regroup(s.calls, l.calls, rest);
    }
  }

  /** Once the calls of such a round are applied, every pod of the snapshot has its final labels. */
  lemma RoundSetsLabels(w: World, x: Input, p: Pod)
    requires Lists(w, x.pods, x.claims) && CanDraw(x) && p in x.pods
    requires (forall q :: q in x.pods ==> !Bare(q, x.claims)) && forall i :: 0 <= i < |x.pods| ==> !Stops(x.pods, i)
    ensures var v, s := ApplyAll(w, PlanRound(x).calls), Classify(x.pods, Start(x), x);
      s.Go? && p.suffix in v.pods && v.pods[p.suffix].labels == Roles.Final(p, s.tally.ready, s.tally.status.members)
  {
    hide Bare, Stops, Orphan, Classify, SetLabels, PlanRound, Roles.Final;
    RoundGoesOn(x);
    var rest := PlanShape(x);
    var s := p.suffix;
    var final := Roles.LabelsAfter(Roles.LabelCalls(x), s, p.labels);
    Roles.FinalIsStored(w, x, p);
    Roles.LabelsAfterIsApplied(w, Roles.LabelCalls(x), s);
    Roles.LabelsAfterIsApplied(w, PlanRound(x).calls, s);
    Roles.LabelsAfterConcat(Roles.LabelCalls(x), rest, s, p.labels);
    Roles.Untouched(rest, s, final);
  }

  // ---- Past the labels --------------------------------------------------------------------

  /** No early return up to the labels, nobody terminating, and not all members lost. */
  ghost predicate Proceeds(x: Input) {
    CanDraw(x) && Settles(x) && (|Filter(x.pods, IsListed)| > 0 || |Filter(x.pods, IsUnready)| <= 1)
  }

  /** Which rounds these are. */
  lemma ProceedsExactly(x: Input)
    requires CanDraw(x) && Distinct(x.pods)
    ensures Proceeds(x) <==>
      && (forall p :: p in x.pods ==> !p.terminating && !Bare(p, x.claims))
      && (forall i :: 0 <= i < |x.pods| ==> !Stops(x.pods, i))
      && LabelsSet(x)
      && (|Filter(x.pods, IsListed)| > 0 || |Filter(x.pods, IsUnready)| <= 1)
  {
    hide Bare, Stops, Classify, Orphan, SetLabels, Filter, LabelsSet, IsListed, IsUnready;
    RoundGoesOn(x);
    if Classify(x.pods, Start(x), x).Go? { SetIs(x); }
  }

  /** The tally of such a round in closed form. */
  ghost predicate Tallied(x: Input, t: Tally) {
    && t.ready == Filter(x.pods, IsListed) && t.unready == Filter(x.pods, IsUnready)
    && t.suffixes == SuffixesOf(x.pods) && t.backups == SuffixesOf(Filter(x.pods, IsLiveBackup))
    && (exists d :: d in x.draws && d !in t.suffixes)
    && Classify(x.pods, Start(x), x).Go? && t == Classify(x.pods, Start(x), x).tally
  }

  lemma ProceedsTo(x: Input) returns (t: Tally)
    requires Proceeds(x)
    ensures Tallied(x, t)
    ensures var plan, rest := PlanRound(x), Reconcile(x, t, Phased(x, t));
      Deeds(plan.calls) == Deeds(rest.calls) && plan.ok == rest.ok && plan.status == rest.status
  {
    hide Classify, Orphan, SetLabels, Reconcile, Filter, IsLive, Phased;
    var c := Classify(x.pods, Start(x), x);
    t := c.tally;
    RoundGoesOn(x);
    ClosedLists(x.pods, Start(x), x);
    ClosedBackups(x.pods, Start(x), x);
    ClosedTerminating(x.pods, Start(x), x);
    Creation.NothingTerminating(x, t);
    ClassifySuffixes(x.pods, Start(x), x);
    assert [] + Filter(x.pods, IsListed) == Filter(x.pods, IsListed);
    assert [] + Filter(x.pods, IsUnready) == Filter(x.pods, IsUnready);
    assert [] + SuffixesOf(Filter(x.pods, IsLiveBackup)) == SuffixesOf(Filter(x.pods, IsLiveBackup));
    var labels, rest := SetLabels(t.ready, t.status.members).calls, Reconcile(x, t, Phased(x, t)).calls;
    Roles.SetLabelsArePatches(t.ready, t.status.members);
    OnlyPatches(labels);
    DeedsConcat(labels, rest);
    DeedsConcat(c.calls, labels + rest);
    assert [] + Deeds(rest) == Deeds(rest);
  }

  // ---- What is reported -------------------------------------------------------------------

  /** A pod counted for a revision: created, staying, and not the special node. */
  predicate CountsFor(p: Pod, rev: Revision) {
    !p.terminating && !p.health.NoPhase? && p.labels.role != Some(Special) && p.labels.rev == rev
  }

  function CountFor(pods: seq<Pod>, rev: Revision): int {
    if pods == [] then 0 else (if CountsFor(pods[0], rev) then 1 else 0) + CountFor(pods[1..], rev)
  }

  lemma TurnCounts(p: Pod, t: Tally, x: Input)
    requires ClassifyPod(p, t, x).Go? && (t.special.Some? ==> t.special.value.labels.role == Some(Special))
    ensures var a, b := t.status, ClassifyPod(p, t, x).tally.status;
      && b.currentReplicas == a.currentReplicas + (if CountsFor(p, x.currentRev) then 1 else 0)
      && b.nextReplicas == a.nextReplicas + (if CountsFor(p, x.nextRev) then 1 else 0)
  {
    hide DeletePodAndClaim, Patch2, ByRole;
    if ReadyPrimary(p) {
      var t0 := t.(status := t.status.(replicas := t.status.replicas + 1));
      RoleFacts(p, t0);
      RoleMembers(p, t0);
    }
  }

  lemma {:induction false} ClosedCounters(pods: seq<Pod>, t: Tally, x: Input)
    requires Classify(pods, t, x).Go? && (t.special.Some? ==> t.special.value.labels.role == Some(Special))
    ensures var a, b := t.status, Classify(pods, t, x).tally.status;
      && b.currentReplicas == a.currentReplicas + CountFor(pods, x.currentRev)
      && b.nextReplicas == a.nextReplicas + CountFor(pods, x.nextRev)
    decreases pods
  {
    hide ClassifyPod, CountsFor;
    if pods != [] {
      TurnCounts(pods[0], t, x);
      TurnFacts(pods[0], t, x);
      ClosedCounters(pods[1..], ClassifyPod(pods[0], t, x).tally, x);
    }
  }

  /** The status reports the pods of the snapshot, with these differences in its counters. */
  ghost predicate Reports(x: Input, st: Summary, more: int, current: int, next: int) {
    && st.replicas == MemberCount(x) + more
    && st.currentReplicas == CountFor(x.pods, x.currentRev) + current
    && st.nextReplicas == CountFor(x.pods, x.nextRev) + next
    && st.members.ready == SuffixesOf(Filter(x.pods, IsListed)) && st.members.unready == SuffixesOf(Filter(x.pods, IsUnready))
    && st.members.special == First(x.pods, ReadySpecial) && st.members.backup == First(x.pods, ReadyBackup)
  }

  lemma LabelsKeepOthers(ready: seq<Pod>, m: Members)
    ensures SetLabels(ready, m).members.special == m.special && SetLabels(ready, m).members.backup == m.backup
  {
    hide DropReader, Candidate, LastBackup;
    if |ready| == 2 { OthersKeepOthers(ready, m); }
  }

  lemma {:induction false} OthersKeepOthers(ready: seq<Pod>, m: Members)
    ensures var l := OthersToBackupWriter(ready, m).members; l.special == m.special && l.backup == m.backup
    decreases ready
  {
    if ready != [] {
      OthersKeepOthers(ready[1..],
          if m.writer != Some(ready[0].suffix) then m.(backupWriter := Some(ready[0].suffix)) else m);
    }
  }

  /** The status once the members are listed. */
  lemma ListedReports(x: Input, t: Tally)
    requires Classify(x.pods, Start(x), x).Go? && t == Classify(x.pods, Start(x), x).tally
    ensures Reports(x, Listed(t), 0, 0, 0) && Reports(x, Lost(Listed(t)), 0, 0, 0)
  {
    hide Classify, SetLabels, IsListed, IsUnready, Filter, ReadySpecial, ReadyBackup, SetCondition, ClearCondition;
    Promotion.CountsAre(x.pods, Start(x), x);
    ClosedCounters(x.pods, Start(x), x);
    ClosedMembers(x.pods, Start(x), x);
    ClosedLists(x.pods, Start(x), x);
    LabelsKeepOthers(t.ready, t.status.members);
    assert [] + Filter(x.pods, IsListed) == Filter(x.pods, IsListed);
    assert [] + Filter(x.pods, IsUnready) == Filter(x.pods, IsUnready);
  }

  /** The status with the phase set: the cluster is still being restored while the numbers differ. */
  lemma PhaseThen(x: Input, t: Tally)
    requires Tallied(x, t)
    ensures Phased(x, t).phase.Restoring? <==> x.phase.Restoring? && MemberCount(x) != x.replicas
    ensures Phased(x, t).members == SetLabels(t.ready, t.status.members).members.(
      ready := SuffixesOf(t.ready), unready := SuffixesOf(t.unready))
    ensures Reports(x, Phased(x, t), 0, 0, 0)
  {
    hide Classify, SetLabels, SetPhase, Filter, Reports, Moved;
    ListedReports(x, t);
    ListedKeeps(x, t);
    var st, newImage := Listed(t), x.current.image != x.next.image;
    SetPhaseMoves(st, x.replicas, x.next.image, newImage);
    var now := SetPhase(st, x.replicas, x.next.image, newImage);
    MovedPhase(st, x.replicas, x.next.image, newImage, now);
    ReportsSame(x, st, now);
  }

  lemma ListedKeeps(x: Input, t: Tally)
    requires Classify(x.pods, Start(x), x).Go? && t == Classify(x.pods, Start(x), x).tally
    ensures Listed(t).phase == x.phase && Listed(t).replicas == MemberCount(x)
  {
    hide Classify, SetLabels, Filter;
    Sync.ClassifyKeepsPhase(x.pods, Start(x), x);
    Promotion.CountsAre(x.pods, Start(x), x);
  }

  lemma MovedPhase(st: Summary, wanted: int, image: Image, newImage: bool, now: Summary)
    requires Moved(st.phase, st.conditions, st.replicas, wanted, image, newImage, now.phase, now.conditions)
    ensures now.phase.Restoring? <==> st.phase.Restoring? && st.replicas != wanted
  {
    hide Finds, Lookup, OnePerKind;
  }

  lemma ReportsSame(x: Input, st: Summary, now: Summary)
    requires Reports(x, st, 0, 0, 0) && now == st.(phase := now.phase, conditions := now.conditions)
    ensures Reports(x, now, 0, 0, 0)
  {
    hide Filter;
  }

  // ---- Claims -----------------------------------------------------------------------------

  ghost predicate HasPod(pods: seq<Pod>, s: Suffix) { exists p :: p in pods && p.suffix == s }

  ghost predicate HasBackup(pods: seq<Pod>, s: Suffix) {
    exists p :: p in pods && p.suffix == s && p.labels.backup == Some(true)
  }

  /** A claim to be left alone: a backup's backup claim, a pod's data claim, or one that can be used again. */
  ghost predicate Kept(x: Input, c: Claim) {
    && !c.terminating
    && if c.id.backup then HasBackup(x.pods, c.id.suffix) else HasPod(x.pods, c.id.suffix) || c.spec == x.next.claimSpec
  }

  lemma InNames(pods: seq<Pod>, s: Suffix)
    ensures s in SuffixesOf(pods) <==> HasPod(pods, s)
  {
    InSuffixes(pods);
  }

  lemma InBackups(pods: seq<Pod>, s: Suffix)
    requires forall p :: p in pods ==> !p.terminating
    ensures s in SuffixesOf(Filter(pods, IsLiveBackup)) <==> HasBackup(pods, s)
  {
    InSuffixes(Filter(pods, IsLiveBackup));
    InFilter(pods, IsLiveBackup);
  }

  lemma KeptIs(x: Input, t: Tally, c: Claim)
    requires Tallied(x, t) && (forall p :: p in x.pods ==> !p.terminating)
    ensures Offends(c, t.suffixes, t.backups, x.next.claimSpec) <==> !Kept(x, c)
  {
    hide HasPod, HasBackup, IsListed, IsUnready, Classify, Filter;
    InNames(x.pods, c.id.suffix);
    InBackups(x.pods, c.id.suffix);
  }

  lemma {:induction false} CollectAt(claims: seq<Claim>, used: seq<Suffix>, backups: seq<Suffix>, spec: ClaimSpec, i: nat)
    requires i < |claims| && Offends(claims[i], used, backups, spec)
    requires forall j :: 0 <= j < i ==> !Offends(claims[j], used, backups, spec)
    ensures var col := Collect(claims, used, backups, spec);
      col.operation && col.calls == if claims[i].terminating then [] else [DeleteClaim(claims[i].id)]
  {
    if i > 0 { CollectAt(claims[1..], used, backups, spec, i - 1); }
  }

  /** The first claim that cannot stay is deleted, unless it is on its way, and the round ends. */
  lemma ClaimIsCollected(x: Input, i: nat)
    requires Proceeds(x) && i < |x.claims| && !Kept(x, x.claims[i]) && forall j :: 0 <= j < i ==> Kept(x, x.claims[j])
    ensures var plan, c := PlanRound(x), x.claims[i];
      Deeds(plan.calls) == (if c.terminating then [] else [DeleteClaim(c.id)]) && plan.ok && Reports(x, plan.status, 0, 0, 0)
  {
    hide Kept, Classify, Orphan, SetLabels, Offends, Collect, Phased, Tallied, PlanRound;
    var t := ProceedsTo(x);
    TalliedDraws(x, t);
    PhaseThen(x, t);
    forall j | 0 <= j <= i ensures Offends(x.claims[j], t.suffixes, t.backups, x.next.claimSpec) <==> !Kept(x, x.claims[j]) {
      KeptIs(x, t, x.claims[j]);
    }
    CollectAt(x.claims, t.suffixes, t.backups, x.next.claimSpec, i);
    NoPatches(Collect(x.claims, t.suffixes, t.backups, x.next.claimSpec).calls);
  }

  lemma TalliedDraws(x: Input, t: Tally)
    requires Tallied(x, t)
    ensures exists d :: d in x.draws && d !in t.suffixes
    ensures t.ready == Filter(x.pods, IsListed) && t.unready == Filter(x.pods, IsUnready)
  {
    hide Classify, Filter;
  }

  // ---- mysql_upgrade ----------------------------------------------------------------------

  /** The round goes on past the claims: each of them stays. Objects of one kind have distinct names. */
  ghost predicate Orderly(x: Input) {
    Proceeds(x) && (forall c :: c in x.claims ==> Kept(x, c)) && Distinct(x.pods) && DistinctClaims(x.claims)
  }

  lemma OrderlyTo(x: Input) returns (t: Tally)
    requires Orderly(x)
    ensures Tallied(x, t) && !Collect(x.claims, t.suffixes, t.backups, x.next.claimSpec).operation
    ensures Collect(x.claims, t.suffixes, t.backups, x.next.claimSpec).unused == UnusedData(x.claims, t.suffixes)
    ensures (forall p :: p in x.pods ==> !p.terminating && !Bare(p, x.claims)) && Proceeds(x)
    ensures var plan, rest := PlanRound(x), Reconcile(x, t, Phased(x, t));
      Deeds(plan.calls) == Deeds(rest.calls) && plan.ok == rest.ok && plan.status == rest.status
  {
    hide Kept, Classify, Orphan, SetLabels, Collect, Phased, PlanRound, Reconcile, Filter, Bare, Distinct, DistinctClaims,
         IsListed, IsUnready;
    RoundGoesOn(x);
    t := ProceedsTo(x);
    forall c | c in x.claims ensures !Offends(c, t.suffixes, t.backups, x.next.claimSpec) { KeptIs(x, t, c); }
    CollectsExactly(x.claims, t.suffixes, t.backups, x.next.claimSpec);
  }

  ghost predicate IsData(claims: seq<Claim>, s: Suffix, c: Claim) { c in claims && c.id == DataId(s) }

  /** A claim that is listed is the one found. */
  lemma FoundIs(claims: seq<Claim>, s: Suffix, c: Claim)
    requires DistinctClaims(claims) && IsData(claims, s, c)
    ensures FindClaim(claims, DataId(s)) == Some(c)
  {
    FindClaimIs(claims, DataId(s));
    var i :| 0 <= i < |claims| && claims[i] == c;
    var f := FindClaim(claims, DataId(s)).value;
    var j :| 0 <= j < |claims| && claims[j] == f;
  }

  /** A backup claim that stays is the backup's own, so whoever lacks no claim has a data claim. */
  lemma HasItsData(x: Input, p: Pod)
    requires Distinct(x.pods) && (forall c :: c in x.claims ==> Kept(x, c)) && p in x.pods
    requires !p.terminating && p.health.Ready? && !Bare(p, x.claims)
    ensures HasClaim(x.claims, DataId(p.suffix))
  {
    if b :| b in x.claims && b.id == BackupId(p.suffix) {
      var q :| q in x.pods && q.suffix == p.suffix && q.labels.backup == Some(true);
      assert q == p;
    }
  }

  /** Whoever is running and ready has a data claim. */
  lemma RunsOnClaim(x: Input, p: Pod) returns (c: Claim)
    requires Orderly(x) && p in x.pods && p.health.Ready?
    ensures IsData(x.claims, p.suffix, c) && FindClaim(x.claims, DataId(p.suffix)) == Some(c)
  {
    hide Proceeds, Tallied, Kept, Bare, Distinct, DistinctClaims;
    var t := OrderlyTo(x);
    HasItsData(x, p);
    c :| c in x.claims && c.id == DataId(p.suffix);
    FoundIs(x.claims, p.suffix, c);
  }

  /** Running and ready outside the cluster, on a claim of another revision. */
  ghost predicate Behind(x: Input, p: Pod) {
    IsUnready(p) && p.health.Ready? && exists c :: IsData(x.claims, p.suffix, c) && c.rev != p.labels.rev
  }

  lemma BehindIs(x: Input, p: Pod)
    requires Orderly(x) && p in x.pods
    ensures Behind(x, p) <==> IsUnready(p) && NeedsUpgrade(p, x.claims)
  {
    hide IsUnready, Orderly, IsData;
    if p.health.Ready? {
      var c := RunsOnClaim(x, p);
      if Behind(x, p) {
        var d :| IsData(x.claims, p.suffix, d) && d.rev != p.labels.rev;
        SameClaim(x, p.suffix, d);
      }
    }
  }

  lemma SameClaim(x: Input, s: Suffix, c: Claim)
    requires Orderly(x) && IsData(x.claims, s, c)
    ensures FindClaim(x.claims, DataId(s)) == Some(c)
  {
    hide Proceeds, Kept;
    FoundIs(x.claims, s, c);
  }

  lemma {:induction false} FirstToUpgradeAt(pods: seq<Pod>, claims: seq<Claim>, i: nat)
    requires i < |pods| && IsUnready(pods[i]) && NeedsUpgrade(pods[i], claims)
    requires forall j :: 0 <= j < i ==> !(IsUnready(pods[j]) && NeedsUpgrade(pods[j], claims))
    ensures FirstToUpgrade(Filter(pods, IsUnready), claims) == Some(pods[i])
  {
    hide IsUnready, NeedsUpgrade;
    var rest := Filter(pods[1..], IsUnready);
    if i > 0 { FirstToUpgradeAt(pods[1..], claims, i - 1); }
    if IsUnready(pods[0]) {
      assert ([pods[0]] + rest)[0] == pods[0] && ([pods[0]] + rest)[1..] == rest;
    } else {
      assert [] + rest == rest;
    }
  }

  /** The first pod that is behind its claim gets mysql_upgrade and is deleted, and then its claim gets
      the pod's revision. */
  lemma PodIsUpgraded(x: Input, i: nat)
    requires Orderly(x) && i < |x.pods| && Behind(x, x.pods[i]) && forall j :: 0 <= j < i ==> !Behind(x, x.pods[j])
    ensures var plan, p := PlanRound(x), x.pods[i];
      Deeds(plan.calls) == [MysqlUpgrade(p.suffix), DeletePod(p.suffix), PatchClaim(p.suffix, p.labels.rev)] && plan.ok
        && Reports(x, plan.status, 0, 0, 0)
  {
    hide Orderly, Collect, Phased, PlanRound, FirstToUpgrade, Filter, IsUnready, IsListed, NeedsUpgrade;
    var t := OrderlyTo(x);
    TalliedDraws(x, t);
    PhaseThen(x, t);
    forall j | 0 <= j <= i ensures Behind(x, x.pods[j]) <==> IsUnready(x.pods[j]) && NeedsUpgrade(x.pods[j], x.claims) {
      BehindIs(x, x.pods[j]);
    }
    FirstToUpgradeAt(x.pods, x.claims, i);
    var c := RunsOnClaim(x, x.pods[i]);
    NoPatches(UpgradeNode(x.pods[i], x.claims).0);
  }

  lemma NobodyBehind(x: Input, t: Tally)
    requires Orderly(x) && Tallied(x, t) && forall p :: p in x.pods ==> !Behind(x, p)
    ensures FirstToUpgrade(t.unready, x.claims).None?
  {
    hide Orderly, Behind, IsUnready, NeedsUpgrade, Classify;
    Protocol.FirstToUpgradeIs(t.unready, x.claims);
    InFilter(x.pods, IsUnready);
    if FirstToUpgrade(t.unready, x.claims).Some? {
      BehindIs(x, FirstToUpgrade(t.unready, x.claims).value);
    }
  }

  // ---- Too few are ready ------------------------------------------------------------------

  /** An unready pod that is not running and ready yet. */
  predicate Blocks(p: Pod) { IsUnready(p) && !p.health.Ready? }

  lemma {:induction false} GateAt(pods: seq<Pod>, i: nat)
    requires i < |pods| && Blocks(pods[i]) && forall j :: 0 <= j < i ==> !Blocks(pods[j])
    ensures UnreadyGate(Filter(pods, IsUnready)) == if pods[i].health.Failed? then Replace(pods[i]) else Wait
  {
    var rest := Filter(pods[1..], IsUnready);
    if i > 0 { GateAt(pods[1..], i - 1); }
    if IsUnready(pods[0]) {
      assert ([pods[0]] + rest)[0] == pods[0] && ([pods[0]] + rest)[1..] == rest;
    } else {
      assert [] + rest == rest;
    }
  }

  lemma {:induction false} GateOpen(pods: seq<Pod>)
    requires forall p :: p in pods ==> !Blocks(p)
    ensures UnreadyGate(Filter(pods, IsUnready)) == Pass
  {
    if pods != [] {
      assert pods[0] in pods;
      var rest := Filter(pods[1..], IsUnready);
      GateOpen(pods[1..]);
      if IsUnready(pods[0]) {
        assert ([pods[0]] + rest)[0] == pods[0] && ([pods[0]] + rest)[1..] == rest;
      } else {
        assert [] + rest == rest;
      }
    }
  }

  /** While an unready pod is not running and ready, nobody is created: the first of them is deleted if
      it has failed, and waited for otherwise. */
  lemma UnreadyPodBlocks(x: Input, i: nat)
    requires Orderly(x) && (forall p :: p in x.pods ==> !Behind(x, p)) && |Filter(x.pods, IsListed)| < x.replicas
    requires i < |x.pods| && Blocks(x.pods[i]) && forall j :: 0 <= j < i ==> !Blocks(x.pods[j])
    ensures var plan, p := PlanRound(x), x.pods[i];
      Deeds(plan.calls) == (if p.health.Failed? then [DeletePod(p.suffix)] else []) && plan.ok
        && Reports(x, plan.status, 0, if p.health.Failed? && p.labels.rev == x.currentRev then -1 else 0,
                   if p.health.Failed? && p.labels.rev == x.nextRev then -1 else 0)
  {
    hide Orderly, Collect, Phased, PlanRound, FirstToUpgrade, Filter, Blocks, IsListed, IsUnready, Behind, UnreadyGate,
         Bootstrap.NoAddress;
    var t := OrderlyTo(x);
    TalliedDraws(x, t);
    NobodyBehind(x, t);
    GateAt(x.pods, i);
    PhaseThen(x, t);
    NoPatches(if x.pods[i].health.Failed? then [DeletePod(x.pods[i].suffix)] else []);
  }

  /** Whom a cluster with these ready pods needs next: a writer, a backup writer, a backup, readers. With
      two ready pods both roles are taken, whoever held them before; with three or more, the writer's. */
  ghost predicate Due(role: Role, ready: seq<Pod>) {
    if ready == [] then role == Writer
    else if |ready| == 1 then role == if ReadyWriter(ready[0]) then BackupWriter else Writer
    else if |ready| >= 3 && !HasBackupWriter(ready) then role == BackupWriter
    else role == if HasReadyBackup(ready) then Reader else Backup
  }

  ghost predicate HasBackupWriter(ready: seq<Pod>) { exists p :: p in ready && ReadyBackupWriter(p) }

  ghost predicate HasReadyBackup(ready: seq<Pod>) { exists p :: p in ready && ReadyBackup(p) }

  lemma RoleIsDue(ready: seq<Pod>, m: Members)
    requires Roles.Roster(ready, m) && SetLabels(ready, m).ok && (m.backup.Some? <==> HasReadyBackup(ready))
    ensures Due(ChooseRole(SetLabels(ready, m).members), ready)
  {
    hide DropReader, ReadyWriter, ReadyBackupWriter, ReadyBackup, LabelTwo, LabelMany;
    if |ready| == 1 {
      OneRecorded(ready, m);
    } else if |ready| == 2 {
      Roles.TwoRecorded(ready, m);
    } else if |ready| >= 3 {
      ManyRecorded(ready, m);
      BackupWriterHolds(ready, m);
    }
  }

  lemma OneRecorded(ready: seq<Pod>, m: Members)
    requires Roles.Roster(ready, m) && |ready| == 1
    ensures if ReadyWriter(ready[0]) then m.writer.Some? && m.backupWriter.None? else m.writer.None?
  {
    assert ready[0] in ready && forall p :: p in ready ==> p == ready[0];
  }

  lemma BackupWriterHolds(ready: seq<Pod>, m: Members)
    requires Roles.Roster(ready, m)
    ensures m.backupWriter.Some? <==> HasBackupWriter(ready)
  {
  }

  lemma ManyRecorded(ready: seq<Pod>, m: Members)
    requires LabelMany(ready, m).ok
    ensures var l := LabelMany(ready, m).members;
      l.writer.Some? && l.backupWriter == m.backupWriter && l.backup == m.backup
  {
  }

  /** The members recorded for a round: its backup is a ready one. */
  lemma BackupIsReady(x: Input, t: Tally)
    requires Tallied(x, t)
    ensures t.status.members.backup.Some? <==> HasReadyBackup(t.ready)
  {
    hide Classify, IsUnready, IsLiveBackup;
    ClosedMembers(x.pods, Start(x), x);
    Roles.FirstIs(x.pods, ReadyBackup);
    InFilter(x.pods, IsListed);
  }

  /** A data claim nobody uses. */
  ghost predicate Spare(x: Input, s: Suffix) { HasClaim(x.claims, DataId(s)) && !HasPod(x.pods, s) }

  /** A data claim no pod has. */
  ghost predicate Idle(x: Input, c: Claim) { !c.id.backup && !HasPod(x.pods, c.id.suffix) }

  ghost predicate IdleFirst(x: Input, i: nat)
    requires i < |x.claims|
  {
    Idle(x, x.claims[i]) && forall j :: 0 <= j < i ==> !Idle(x, x.claims[j])
  }

  ghost predicate FreeFirst(x: Input, i: nat)
    requires i < |x.draws|
  {
    !HasPod(x.pods, x.draws[i]) && forall j :: 0 <= j < i ==> HasPod(x.pods, x.draws[j])
  }

  /** A new pod's suffix: that of the first idle claim, or without one the first drawn that no pod has. */
  ghost predicate NewSuffix(x: Input, s: Suffix) {
    if exists c :: c in x.claims && Idle(x, c)
    then exists i :: 0 <= i < |x.claims| && IdleFirst(x, i) && s == x.claims[i].id.suffix
    else exists i :: 0 <= i < |x.draws| && FreeFirst(x, i) && s == x.draws[i]
  }

  /** Standalone exactly on a spare claim of another revision. */
  ghost predicate NewState(x: Input, s: Suffix, rev: Revision, state: State) {
    state == Standalone <==> exists c :: IsData(x.claims, s, c) && c.rev != rev
  }

  lemma {:induction false} FirstOfUnused(claims: seq<Claim>, used: seq<Suffix>) returns (i: nat)
    requires UnusedData(claims, used) != []
    ensures i < |claims| && !claims[i].id.backup && claims[i].id.suffix !in used
    ensures UnusedData(claims, used)[0] == claims[i].id.suffix
    ensures forall j :: 0 <= j < i ==> claims[j].id.backup || claims[j].id.suffix in used
  {
    if !claims[0].id.backup && claims[0].id.suffix !in used {
      i := 0;
    } else {
      assert UnusedData(claims, used) == UnusedData(claims[1..], used);
      var k := FirstOfUnused(claims[1..], used);
      i := k + 1;
    }
  }

  lemma {:induction false} FirstOfDraws(draws: seq<Suffix>, existing: seq<Suffix>) returns (i: nat)
    requires exists d :: d in draws && d !in existing
    ensures i < |draws| && FirstFresh(draws, existing) == draws[i] && draws[i] !in existing
    ensures forall j :: 0 <= j < i ==> draws[j] in existing
  {
    if draws[0] !in existing {
      i := 0;
    } else {
      var k := FirstOfDraws(draws[1..], existing);
      i := k + 1;
    }
  }

  lemma PickIsNew(x: Input)
    requires CanDraw(x)
    ensures var used := SuffixesOf(x.pods); NewSuffix(x, PickSuffix(x, used, UnusedData(x.claims, used)))
  {
    hide HasPod, UnusedData;
    var used := SuffixesOf(x.pods);
    forall s ensures s in used <==> HasPod(x.pods, s) { InNames(x.pods, s); }
    if UnusedData(x.claims, used) != [] {
      var i := FirstOfUnused(x.claims, used);
      assert x.claims[i] in x.claims && IdleFirst(x, i);
    } else {
      UnusedAreUnused(x.claims, used);
      forall c | c in x.claims ensures !Idle(x, c) {
        if !c.id.backup { assert c.id == DataId(c.id.suffix); }
      }
      var i := FirstOfDraws(x.draws, used);
      assert FreeFirst(x, i);
    }
  }

  lemma SuffixIsNew(x: Input, t: Tally)
    requires Orderly(x) && Tallied(x, t)
    ensures CanDraw(x) && NewSuffix(x, PickSuffix(x, t.suffixes, UnusedData(x.claims, t.suffixes)))
  {
    hide Classify, Filter, IsListed, IsUnready, HasPod, NewSuffix, PickSuffix, Kept, Settles;
    PickIsNew(x);
  }

  lemma StateIsNew(x: Input, s: Suffix, role: Role, rev: Revision)
    requires DistinctClaims(x.claims) && !role.Restore?
    ensures NewState(x, s, rev, StateFor(s, role, rev, x.claims))
  {
    FindClaimIs(x.claims, DataId(s));
    if FindClaim(x.claims, DataId(s)).Some? {
      assert IsData(x.claims, s, FindClaim(x.claims, DataId(s)).value);
    }
    forall c | IsData(x.claims, s, c) ensures FindClaim(x.claims, DataId(s)) == Some(c) { FoundIs(x.claims, s, c); }
  }

  /** Creating a pod and the claims it lacks. */
  function CreationCalls(x: Input, p: Pod, role: Role, spec: ClaimSpec, spare: bool): seq<ApiCall> {
    (if spare then [] else [CreateClaim(DataId(p.suffix), p.labels.rev, spec)])
    + (if role.Backup? then [CreateClaim(BackupId(p.suffix), p.labels.rev, spec)] else [])
    + [CreatePod(p)]
  }

  /** Nothing stands in the way of creating a pod: no claim is on its way out, and nobody else's backup
      claim has its suffix. */
  lemma CreationIs(x: Input, p: Pod, role: Role, spec: ClaimSpec)
    requires Orderly(x) && !HasPod(x.pods, p.suffix)
    ensures CreatePodAndClaim(p, role, spec, x.claims)
      == (CreationCalls(x, p, role, spec, HasClaim(x.claims, DataId(p.suffix))), true)
  {
    hide Proceeds, Distinct, DistinctClaims;
    FindClaimIs(x.claims, DataId(p.suffix));
    FindClaimIs(x.claims, BackupId(p.suffix));
    assert forall c :: c in x.claims ==> Kept(x, c);
    var data := if HasClaim(x.claims, DataId(p.suffix)) then [] else [CreateClaim(DataId(p.suffix), p.labels.rev, spec)];
    assert data + [] == data;
  }

  lemma CreatingIsDeeds(x: Input, p: Pod, role: Role, spec: ClaimSpec, spare: bool)
    ensures Deeds(CreationCalls(x, p, role, spec, spare)) == CreationCalls(x, p, role, spec, spare)
  {
    NoPatches(CreationCalls(x, p, role, spec, spare));
  }

  /** With too few ready pods and nobody in the way, one pod is created: under a suffix that is free,
      with the claims it lacks, for the role that is due, at the next revision unless the cluster is
      still being restored. */
  lemma MemberIsCreated(x: Input) returns (p: Pod, role: Role)
    requires Orderly(x) && (forall q :: q in x.pods ==> !Behind(x, q) && !Blocks(q))
      && |Filter(x.pods, IsListed)| < x.replicas
    ensures Due(role, Filter(x.pods, IsListed)) && NewSuffix(x, p.suffix)
    ensures p.labels.rev == if x.phase.Restoring? && MemberCount(x) != x.replicas then x.currentRev else x.nextRev
    ensures NewState(x, p.suffix, p.labels.rev, p.labels.state)
    ensures p.labels == PodLabels(role, p.labels.rev, p.labels.state)
    ensures p == Pod(p.suffix, p.labels, NoPhase, NonPrimary, false, "", p.clusterInit, x.next.image)
    ensures p.clusterInit <==>
      !(x.phase.Restoring? && MemberCount(x) != x.replicas) && Bootstrap.NoAddress(Filter(x.pods, IsListed))
    ensures var plan := PlanRound(x);
      && Deeds(plan.calls) == CreationCalls(x, p, role, x.next.claimSpec, Spare(x, p.suffix)) && plan.ok
      && Reports(x, plan.status, 1, if p.labels.rev == x.currentRev then 1 else 0,
        if p.labels.rev == x.currentRev then 0 else 1)
  {
    hide Orderly, Classify, Collect, SetLabels, PlanRound, FirstToUpgrade, Filter, Blocks, IsListed, IsUnready, Behind,
        UnreadyGate,
         Bootstrap.NoAddress, PickSuffix, StateFor, PodLabels, CreatePodAndClaim, ChooseRole, Due, NewSuffix, NewState,
         HasClusterInit, GaleraEnv, Phased, Deeds, CreationCalls;
    var t := OrderlyTo(x);
    TalliedDraws(x, t);
    NobodyBehind(x, t);
    GateOpen(x.pods);
    PhaseThen(x, t);
    var st := Phased(x, t);
    role := RoleAtLast(x, t);
    var chosen := if st.phase.Restoring? then x.currentRev else x.nextRev;
    var s := PickSuffix(x, t.suffixes, UnusedData(x.claims, t.suffixes));
    SuffixIsNew(x, t);
    OrderlyClaims(x);
    StateIsNew(x, s, role, chosen);
    var noAddress := Bootstrap.NoAddress(t.ready);
    p := NewPod(s, role, chosen, StateFor(s, role, chosen, x.claims), x.next.image, x.next.env, noAddress,
        !st.phase.Restoring? && noAddress);
    OnlyOperatorBootstraps(x.next.env, noAddress, !st.phase.Restoring? && noAddress);
    Creation.LabelsRev(role, chosen, StateFor(s, role, chosen, x.claims));
    FreeSuffix(x, s);
    CreationIs(x, p, role, x.next.claimSpec);
    CreatingIsDeeds(x, p, role, x.next.claimSpec, Spare(x, s));
  }

  lemma FreeSuffix(x: Input, s: Suffix)
    requires NewSuffix(x, s)
    ensures !HasPod(x.pods, s) && (Spare(x, s) <==> HasClaim(x.claims, DataId(s)))
  {
    hide HasPod, HasClaim;
  }

  lemma OrderlyClaims(x: Input)
    requires Orderly(x)
    ensures DistinctClaims(x.claims) && Distinct(x.pods) && Proceeds(x) && (forall c :: c in x.claims ==> Kept(x, c))
  {
    hide Proceeds, Kept, Distinct, DistinctClaims;
  }

  /** The role chosen once the labels are set. */
  lemma RoleAtLast(x: Input, t: Tally) returns (role: Role)
    requires Orderly(x) && Tallied(x, t)
    ensures role == ChooseRole(Phased(x, t).members) && Due(role, t.ready) && !role.Restore?
  {
    hide Classify, SetLabels, IsListed, IsUnready, Filter, Due, Roles.Roster, Phased, Kept;
    PhaseThen(x, t);
    Roles.RosterOf(x);
    BackupIsReady(x, t);
    var m := SetLabels(t.ready, t.status.members).members;
    role := ChooseRole(m);
    RoleIsDue(t.ready, t.status.members);
  }
}
