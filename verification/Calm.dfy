/** Snapshots on which the classification has nothing to correct: no pod is unreachable, each role
    has at most one ready holder and there is no special node. */
module Calm {
  import opened ApiStore
  import opened Status
  import opened Round
  import opened RoundFacts
  import Protocol
  import Roles

  /** Terminating, or listed as ready, or unready without being the special node. */
  predicate CalmPod(p: Pod) {
    || p.terminating
    || (IsListed(p) && (p.labels.role.None? || HoldsRole(p)))
    || (!p.terminating && (!p.health.Ready? || p.wsrep.NonPrimary?) && p.labels.role != Some(Special))
  }

  ghost predicate OneReady(pods: seq<Pod>, f: Pod -> bool) {
    forall i, j :: 0 <= i < j < |pods| ==> !(f(pods[i]) && f(pods[j]))
  }

  ghost predicate CalmPods(pods: seq<Pod>) {
    && (forall p :: p in pods ==> CalmPod(p))
    && OneReady(pods, ReadyWriter) && OneReady(pods, ReadyBackupWriter) && OneReady(pods, ReadyBackup)
  }

  /** A role recorded already has no further ready holder in the list. */
  ghost predicate Open(pods: seq<Pod>, m: Members) {
    && (m.writer.Some? ==> forall p :: p in pods ==> !ReadyWriter(p))
    && (m.backupWriter.Some? ==> forall p :: p in pods ==> !ReadyBackupWriter(p))
    && (m.backup.Some? ==> forall p :: p in pods ==> !ReadyBackup(p))
  }

  lemma TurnIsQuiet(p: Pod, t: Tally, x: Input)
    requires CalmPod(p) && Open([p], t.status.members)
    ensures ClassifyPod(p, t, x).Go? && ClassifyPod(p, t, x).calls == []
  {
    assert p in [p];
  }

  lemma {:induction false} CalmIsQuiet(pods: seq<Pod>, t: Tally, x: Input)
    requires CalmPods(pods) && Open(pods, t.status.members)
    ensures Classify(pods, t, x).Go? && Classify(pods, t, x).calls == []
    decreases pods
  {
    if pods != [] {
      assert pods[0] in pods;
      assert forall p :: p in [pods[0]] ==> p == pods[0];
      TurnIsQuiet(pods[0], t, x);
      TurnMembers(pods[0], t, x);
      var t1 := ClassifyPod(pods[0], t, x).tally;
      assert forall i :: 0 <= i < |pods[1..]| ==> pods[1..][i] == pods[i + 1];
      CalmIsQuiet(pods[1..], t1, x);
    }
  }

  /** The round of a calm snapshot whose healthy pods have their claims goes straight to the labels. */
  lemma CalmRound(x: Input)
    requires CanDraw(x) && CalmPods(x.pods)
    requires forall p :: p in x.pods && Healthy(p) ==> !LacksClaims(p, x.claims)
    ensures Classify(x.pods, Start(x), x).Go?
    ensures var t := Classify(x.pods, Start(x), x).tally;
      && (exists d :: d in x.draws && d !in t.suffixes)
      && PlanRound(x) == Settle(x, t)
      && Roles.LabelCalls(x) == SetLabels(t.ready, t.status.members).calls
      && t.special.None?
      && t.ready == Filter(x.pods, IsListed)
      && t.unready == Filter(x.pods, IsUnready)
  {
    hide ClassifyPod, LacksClaims, Settle;
    CalmIsQuiet(x.pods, Start(x), x);
    OrphanIs(x.pods, x.claims);
    ClassifySuffixes(x.pods, Start(x), x);
    SpecialListed(x.pods, Start(x), x);
    ClosedLists(x.pods, Start(x), x);
    var t := Classify(x.pods, Start(x), x).tally;
    var d :| d in x.draws && d !in SuffixesOf(x.pods);
    assert d !in t.suffixes;
    NothingFirst(Settle(x, t));
    NothingFirst(Plan(SetLabels(t.ready, t.status.members).calls, true, t.status));
    assert [] + t.ready == t.ready && [] + t.unready == t.unready;
  }

  lemma NothingFirst(p: Plan)
    ensures After([], p) == p && [] + p.calls == p.calls
  {
    assert [] + p.calls == p.calls;
  }

  // ---- What label patches leave alone -----------------------------------------------------

  /** v is w but for role and reader labels. */
  ghost predicate Relabelled(w: World, v: World) {
    && v.claims == w.claims && v.prepared == w.prepared && v.pods.Keys == w.pods.Keys
    && forall s :: s in w.pods ==>
         v.pods[s] == w.pods[s].(labels := v.pods[s].labels) && Protocol.SameCore(v.pods[s].labels, w.pods[s].labels)
  }

  lemma {:induction false} PatchesRelabel(w: World, calls: seq<ApiCall>, pods: seq<Pod>)
    requires forall c :: c in calls ==> c.PatchPod?
    requires Protocol.Tidy(calls, pods)
    requires forall p :: p in pods && p.suffix in w.pods ==> Protocol.SameCore(p.labels, w.pods[p.suffix].labels)
    ensures Relabelled(w, ApplyAll(w, calls))
    decreases calls
  {
    hide Relabelled, Protocol.SameCore, Protocol.PatchOf;
    if calls == [] {
      RelabelledSame(w);
    } else {
      assert calls[0] in calls && Protocol.Tidy(calls[1..], pods);
      var v := PatchRelabels(w, calls[0], pods);
      PatchesRelabel(v, calls[1..], pods);
      RelabelledTwice(w, v, ApplyAll(w, calls));
    }
  }

  lemma PatchRelabels(w: World, c: ApiCall, pods: seq<Pod>) returns (v: World)
    requires c.PatchPod? && exists p :: p in pods && Protocol.PatchOf(c, p)
    requires forall p :: p in pods && p.suffix in w.pods ==> Protocol.SameCore(p.labels, w.pods[p.suffix].labels)
    ensures v == (if Accepts(w, c) then Apply(w, c) else w) && Relabelled(w, v)
    ensures forall p :: p in pods && p.suffix in v.pods ==> Protocol.SameCore(p.labels, v.pods[p.suffix].labels)
  {
    v := if Accepts(w, c) then Apply(w, c) else w;
  }

  lemma RelabelledSame(w: World)
    ensures Relabelled(w, w)
  {
  }

  lemma RelabelledTwice(w: World, v: World, u: World)
    requires Relabelled(w, v) && Relabelled(v, u)
    ensures Relabelled(w, u)
  {
  }

  lemma LabelsRelabel(w: World, x: Input)
    requires Lists(w, x.pods, x.claims)
    requires Classify(x.pods, Start(x), x).Go?
    requires Classify(x.pods, Start(x), x).calls == []
    ensures Relabelled(w, ApplyAll(w, Roles.LabelCalls(x)))
  {
    var t := Classify(x.pods, Start(x), x).tally;
    ClosedLists(x.pods, Start(x), x);
    InFilter(x.pods, IsListed);
    Roles.SetLabelsArePatches(t.ready, t.status.members);
    Protocol.SetLabelsTidy(t.ready, t.status.members);
    Protocol.TidyWider(SetLabels(t.ready, t.status.members).calls, t.ready, x.pods);
    var calls := SetLabels(t.ready, t.status.members).calls;
    assert [] + calls == calls;
    PatchesRelabel(w, calls, x.pods);
  }

  // ---- Counting the ready pods ------------------------------------------------------------

  lemma {:induction false} CountBySuffix(pods: seq<Pod>, s: set<Suffix>)
    requires Distinct(pods)
    requires forall p :: p in pods ==> p.suffix in s
    requires forall f :: f in s ==> exists p :: p in pods && p.suffix == f
    ensures |pods| == |s|
  {
    if pods == [] {
      assert s == {};
    } else {
      var rest := s - {pods[0].suffix};
      assert forall p :: p in pods[1..] ==> p.suffix != pods[0].suffix;
      forall f | f in rest ensures exists p :: p in pods[1..] && p.suffix == f {
        var p :| p in pods && p.suffix == f;
        assert p in pods[1..];
      }
      CountBySuffix(pods[1..], rest);
    }
  }
}
