/** Who holds the writer and backup-writer labels once a round has classified the pods and set the
    labels. Every patch is computed from the snapshot, so a later patch of the same round undoes an
    earlier one. */
module Roles {
  import opened ApiStore
  import opened Status
  import opened Round
  import opened RoundFacts
  import Protocol

  /** The labels of pod s after the calls, if they were l before. */
  function LabelsAfter(calls: seq<ApiCall>, s: Suffix, l: Labels): Labels
    decreases calls
  {
    if calls == [] then l
    else LabelsAfter(calls[1..], s, if calls[0].PatchPod? && calls[0].suffix == s then calls[0].labels else l)
  }

  lemma {:induction false} LabelsAfterIsApplied(w: World, calls: seq<ApiCall>, s: Suffix)
    requires s in w.pods
    ensures s in ApplyAll(w, calls).pods
    ensures ApplyAll(w, calls).pods[s].labels == LabelsAfter(calls, s, w.pods[s].labels)
    decreases calls
  {
    if calls != [] {
      LabelsAfterIsApplied(if Accepts(w, calls[0]) then Apply(w, calls[0]) else w, calls[1..], s);
    }
  }

  lemma {:induction false} LabelsAfterConcat(a: seq<ApiCall>, b: seq<ApiCall>, s: Suffix, l: Labels)
    ensures LabelsAfter(a + b, s, l) == LabelsAfter(b, s, LabelsAfter(a, s, l))
    decreases a
  {
    if a == [] {
      assert a + b == b;
    } else {
      assert (a + b)[1..] == a[1..] + b;
      LabelsAfterConcat(a[1..], b, s, if a[0].PatchPod? && a[0].suffix == s then a[0].labels else l);
    }
  }

  /** The calls are patches, and only of pods of the list. */
  ghost predicate PatchesOnly(calls: seq<ApiCall>, pods: seq<Pod>) {
    forall c :: c in calls ==> c.PatchPod? && exists p :: p in pods && p.suffix == c.suffix
  }

  lemma {:induction false} Untouched(calls: seq<ApiCall>, s: Suffix, l: Labels)
    requires forall c :: c in calls && c.PatchPod? ==> c.suffix != s
    ensures LabelsAfter(calls, s, l) == l
    decreases calls
  {
    if calls != [] {
      assert calls[0] in calls;
      Untouched(calls[1..], s, l);
    }
  }

  // ---- Classification ---------------------------------------------------------------------

  /** The second holder of a role met by the loop is turned into a plain reader. */
  predicate Demoted(p: Pod, m: Members) {
    || (ReadyWriter(p) && m.writer != Some(p.suffix))
    || (ReadyBackupWriter(p) && m.backupWriter != Some(p.suffix))
  }

  function Classified(p: Pod, m: Members): Labels {
    if Demoted(p, m) then p.labels.(role := None, reader := Some(true)) else p.labels
  }

  lemma TurnPatches(p: Pod, t: Tally, x: Input)
    requires ClassifyPod(p, t, x).Go?
    ensures ClassifyPod(p, t, x).calls ==
      if (ReadyWriter(p) && t.status.members.writer.Some?) || (ReadyBackupWriter(p) && t.status.members.backupWriter.Some?)
      then [Patch2(p, RemoveRole, AddReader)] else []
  {
  }

  lemma {:induction false} ClassifyPatches(pods: seq<Pod>, t: Tally, x: Input)
    requires Classify(pods, t, x).Go?
    ensures PatchesOnly(Classify(pods, t, x).calls, pods)
    decreases pods
  {
    if pods != [] {
      TurnPatches(pods[0], t, x);
      assert pods[0] in pods;
      ClassifyPatches(pods[1..], ClassifyPod(pods[0], t, x).tally, x);
    }
  }

  lemma {:induction false} ClassifiedLabels(pods: seq<Pod>, t: Tally, x: Input, p: Pod)
    requires Classify(pods, t, x).Go? && Distinct(pods) && p in pods
    requires forall q :: q in pods ==> Kept(q, t.status.members)
    ensures var s := Classify(pods, t, x);
      LabelsAfter(s.calls, p.suffix, p.labels) == Classified(p, s.tally.status.members)
    decreases pods
  {
    hide ClassifyPod, Classified;
    var first := ClassifyPod(pods[0], t, x);
    var rest := Classify(pods[1..], first.tally, x);
    if p == pods[0] {
      ClassifiedFirst(pods, t, x);
    } else {
      TurnPatches(pods[0], t, x);
      TurnMembers(pods[0], t, x);
      LabelsAfterConcat(first.calls, rest.calls, p.suffix, p.labels);
      assert forall q :: q in pods[1..] ==> q in pods && q.suffix != pods[0].suffix;
      assert p in pods[1..] && Distinct(pods[1..]);
      Untouched(first.calls, p.suffix, p.labels);
      ClassifiedLabels(pods[1..], first.tally, x, p);
    }
  }

  /** The same for the first pod. */
  lemma ClassifiedFirst(pods: seq<Pod>, t: Tally, x: Input)
    requires pods != [] && Classify(pods, t, x).Go? && Distinct(pods) && Kept(pods[0], t.status.members)
    ensures var s := Classify(pods, t, x);
      LabelsAfter(s.calls, pods[0].suffix, pods[0].labels) == Classified(pods[0], s.tally.status.members)
  {
    hide ClassifyPod;
    var p := pods[0];
    var first := ClassifyPod(p, t, x);
    var rest := Classify(pods[1..], first.tally, x);
    TurnPatches(p, t, x);
    TurnMembers(p, t, x);
    ClassifyPatches(pods[1..], first.tally, x);
    ClosedMembers(pods[1..], first.tally, x);
    LabelsAfterConcat(first.calls, rest.calls, p.suffix, p.labels);
    assert forall q :: q in pods[1..] ==> q.suffix != p.suffix;
    FirstIs(pods[1..], ReadyWriter);
    FirstIs(pods[1..], ReadyBackupWriter);
    Untouched(rest.calls, p.suffix, LabelsAfter(first.calls, p.suffix, p.labels));
  }

  /** A recorded holder is not this pod: it was met earlier. */
  predicate Kept(p: Pod, m: Members) {
    m.writer != Some(p.suffix) && m.backupWriter != Some(p.suffix)
  }

  lemma {:induction false} FirstIs(pods: seq<Pod>, f: Pod -> bool)
    ensures First(pods, f).None? ==> forall p :: p in pods ==> !f(p)
    ensures First(pods, f).Some? ==> exists p :: p in pods && f(p) && p.suffix == First(pods, f).value
  {
    if pods != [] {
      FirstIs(pods[1..], f);
      if f(pods[0]) {
        assert pods[0] in pods;
      } else if First(pods, f).Some? {
        var p :| p in pods[1..] && f(p) && p.suffix == First(pods[1..], f).value;
        assert p in pods;
      }
    }
  }

  // ---- Labelling --------------------------------------------------------------------------

  /** The ready list and the holders a classified snapshot hands to the labelling. */
  ghost predicate Roster(ready: seq<Pod>, m: Members) {
    && Distinct(ready)
    && (forall p :: p in ready ==> IsListed(p))
    && (m.writer.None? ==> forall p :: p in ready ==> !ReadyWriter(p))
    && (m.writer.Some? ==> exists p :: p in ready && ReadyWriter(p) && p.suffix == m.writer.value)
    && (m.backupWriter.None? ==> forall p :: p in ready ==> !ReadyBackupWriter(p))
    && (m.backupWriter.Some? ==> exists p :: p in ready && ReadyBackupWriter(p) && p.suffix == m.backupWriter.value)
  }

  lemma RosterOf(x: Input)
    requires Classify(x.pods, Start(x), x).Go? && Distinct(x.pods)
    ensures var t := Classify(x.pods, Start(x), x).tally; Roster(t.ready, t.status.members)
  {
    ClosedLists(x.pods, Start(x), x);
    ClosedMembers(x.pods, Start(x), x);
    InFilter(x.pods, IsListed);
    FilterDistinct(x.pods, IsListed);
    FirstIs(x.pods, ReadyWriter);
    FirstIs(x.pods, ReadyBackupWriter);
  }

  /** The labels a ready pod ends up with. */
  function Final(p: Pod, ready: seq<Pod>, m: Members): Labels {
    LabelsAfter(SetLabels(ready, m).calls, p.suffix, Classified(p, m))
  }

  lemma {:induction false} DropReaderEffect(ready: seq<Pod>, writer: Option<Suffix>, s: Suffix, l: Labels)
    requires Distinct(ready)
    ensures LabelsAfter(DropReader(ready, writer), s, l) == l
      || exists p :: p in ready && p.suffix == s && writer == Some(s) && p.labels.reader == Some(true)
           && LabelsAfter(DropReader(ready, writer), s, l) == p.labels.(reader := Some(false))
    ensures writer == Some(s) ==> forall p :: p in ready && p.suffix == s ==>
      LabelsAfter(DropReader(ready, writer), s, l)
        == if p.labels.reader == Some(true) then p.labels.(reader := Some(false)) else l
  {
    if ready != [] {
      DropReaderEffect(ready[1..], writer, s, l);
      assert ready[0] in ready;
      assert forall p :: p in ready[1..] ==> p in ready && p.suffix != ready[0].suffix;
    }
  }

  lemma OnePatch(c: ApiCall, s: Suffix, l: Labels)
    requires c.PatchPod?
    ensures LabelsAfter([c], s, l) == if s == c.suffix then c.labels else l
  {
    assert [c][1..] == [];
  }

  lemma PairPatches(a: ApiCall, b: ApiCall, s: Suffix, l: Labels)
    requires a.PatchPod? && b.PatchPod? && a.suffix != b.suffix
    ensures LabelsAfter([a, b], s, l) == if s == a.suffix then a.labels else if s == b.suffix then b.labels else l
  {
    assert [a, b] == [a] + [b];
    LabelsAfterConcat([a], [b], s, l);
    OnePatch(a, s, l);
    OnePatch(b, s, LabelsAfter([a], s, l));
  }

  lemma OneIsWriterAndReader(ready: seq<Pod>, m: Members)
    requires |ready| == 1
    ensures var l := Final(ready[0], ready, m); l.role == Some(Writer) && l.reader == Some(true)
  {
    OnePatch(Patch2(ready[0], AddReader, AddWriter), ready[0].suffix, Classified(ready[0], m));
  }

  /** Pod w of the two ends up as writer and not a reader, the other as backup writer. */
  predicate Shared(ready: seq<Pod>, m: Members, w: nat)
    requires |ready| == 2 && w < 2
  {
    && Final(ready[w], ready, m).role == Some(Writer) && Final(ready[w], ready, m).reader != Some(true)
    && Final(ready[1 - w], ready, m).role == Some(BackupWriter)
  }

  lemma LastOfTwo(ready: seq<Pod>)
    requires |ready| == 2
    ensures LastBackup(ready) ==
      if ready[1].labels.backup.Some? then Some(ready[1])
      else if ready[0].labels.backup.Some? then Some(ready[0]) else None
  {
    assert ready[1..][1..] == [];
    assert LastBackup(ready[1..]) == if ready[1].labels.backup.Some? then Some(ready[1]) else None;
  }

  /** The one of two ready pods to be writer: the recorded one, or else the one that is no backup. */
  function WriterOfTwo(ready: seq<Pod>, m: Members): (w: nat)
    requires |ready| == 2
    ensures w < 2
  {
    if m.writer.Some? then (if m.writer == Some(ready[0].suffix) then 0 else 1)
    else if ready[0].labels.backup.Some? && ready[1].labels.backup.None? then 1
    else 0
  }

  /** With two ready pods, that one ends up as writer and the other as backup writer, as a reader too
      if it was not that before. */
  lemma TwoShareTheRoles(ready: seq<Pod>, m: Members)
    requires Roster(ready, m) && |ready| == 2
    ensures var w := WriterOfTwo(ready, m);
      && Shared(ready, m, w)
      && (m.writer.None? || m.backupWriter.None? ==> Final(ready[1 - w], ready, m).reader == Some(true))
  {
    var a, z := ready[0], ready[1];
    assert a in ready && z in ready && a.suffix != z.suffix;
    if m.writer.None? {
      LastOfTwo(ready);
      var w, b := if LastBackup(ready) == Some(a) then z else a, if LastBackup(ready) == Some(a) then a else z;
      var c1, c2 := Patch2(w, RemoveReader, AddWriter), Patch2(b, AddReader, AddBackupWriter);
      assert SetLabels(ready, m).calls == [c1, c2];
      PairPatches(c1, c2, a.suffix, Classified(a, m));
      PairPatches(c1, c2, z.suffix, Classified(z, m));
    } else {
      TwoWithWriter(ready, m, if m.writer == Some(a.suffix) then 0 else 1);
    }
  }

  lemma TwoWithWriter(ready: seq<Pod>, m: Members, w: nat)
    requires Roster(ready, m) && |ready| == 2 && w < 2 && m.writer == Some(ready[w].suffix)
    ensures Shared(ready, m, w) && (m.backupWriter.None? ==> Final(ready[1 - w], ready, m).reader == Some(true))
  {
    var p, q := ready[w], ready[1 - w];
    assert p in ready && q in ready && p.suffix != q.suffix;
    assert forall r :: r in ready ==> r == p || r == q;
    assert ReadyWriter(p);
    var l := if m.backupWriter.None? then OthersToBackupWriter(ready, m) else Labelling([], true, m);
    OthersOfTwo(ready, m, w);
    LabelsAfterConcat(l.calls, DropReader(ready, m.writer), p.suffix, Classified(p, m));
    LabelsAfterConcat(l.calls, DropReader(ready, m.writer), q.suffix, Classified(q, m));
    Untouched(l.calls, p.suffix, Classified(p, m));
    DropReaderEffect(ready, m.writer, p.suffix, Classified(p, m));
    DropReaderEffect(ready, m.writer, q.suffix, LabelsAfter(l.calls, q.suffix, Classified(q, m)));
    if m.backupWriter.None? {
      OnePatch(Patch2(q, AddReader, AddBackupWriter), q.suffix, Classified(q, m));
    }
  }

  lemma OthersOfTwo(ready: seq<Pod>, m: Members, w: nat)
    requires Distinct(ready) && |ready| == 2 && w < 2 && m.writer == Some(ready[w].suffix)
    ensures var l := OthersToBackupWriter(ready, m);
      && l.members == m.(backupWriter := Some(ready[1 - w].suffix))
      && l.calls == [Patch2(ready[1 - w], AddReader, AddBackupWriter)]
  {
    assert ready[1..] == [ready[1]];
    OthersOfOne(ready[1], if w == 0 then m else m.(backupWriter := Some(ready[0].suffix)));
  }

  lemma OthersOfOne(p: Pod, m: Members)
    ensures OthersToBackupWriter([p], m) ==
      if m.writer == Some(p.suffix) then Labelling([], true, m)
      else Labelling([Patch2(p, AddReader, AddBackupWriter)], true, m.(backupWriter := Some(p.suffix)))
  {
    assert [p][1..] == [];
    assert OthersToBackupWriter([], m.(backupWriter := Some(p.suffix))).calls == [];
    assert OthersToBackupWriter([], m) == Labelling([], true, m);
  }

  /** With two ready pods both roles end up recorded, and the backup as it was. */
  lemma TwoRecorded(ready: seq<Pod>, m: Members)
    requires Roster(ready, m) && |ready| == 2
    ensures var l := SetLabels(ready, m);
      l.ok && l.members.writer.Some? && l.members.backupWriter.Some? && l.members.backup == m.backup
  {
    if m.writer.Some? {
      var p :| p in ready && ReadyWriter(p) && p.suffix == m.writer.value;
      OthersOfTwo(ready, m, if p == ready[0] then 0 else 1);
      OthersArePatches(ready, m);
    }
  }

  /** The status names the two holders. */
  lemma TwoAreNamed(ready: seq<Pod>, m: Members, w: nat)
    requires Roster(ready, m) && |ready| == 2 && w < 2 && Shared(ready, m, w)
    ensures var l := SetLabels(ready, m).members;
      l.writer == Some(ready[w].suffix) && l.backupWriter == Some(ready[1 - w].suffix)
  {
    var a, z := ready[0], ready[1];
    assert a in ready && z in ready && a.suffix != z.suffix;
    if m.writer.None? {
      LastOfTwo(ready);
      var v, b := if LastBackup(ready) == Some(a) then z else a, if LastBackup(ready) == Some(a) then a else z;
      var c1, c2 := Patch2(v, RemoveReader, AddWriter), Patch2(b, AddReader, AddBackupWriter);
      assert SetLabels(ready, m).calls == [c1, c2];
      PairPatches(c1, c2, ready[w].suffix, Classified(ready[w], m));
    } else {
      var k := if m.writer == Some(a.suffix) then 0 else 1;
      TwoWithWriter(ready, m, k);
      OthersOfTwo(ready, m, k);
    }
  }

  // ---- Three or more ready pods -----------------------------------------------------------

  lemma {:induction false} CandidateIs(ready: seq<Pod>, excluded: Option<Suffix>)
    ensures var c := Candidate(ready, excluded);
      c.Some? ==> c.value in ready && c.value.labels.backup.None? && c.value.labels.role.None?
                  && excluded != Some(c.value.suffix)
  {
    if ready != [] { CandidateIs(ready[1..], excluded); }
  }

  /** The candidates picked for the roles nobody holds. */
  function NewWriter(ready: seq<Pod>, m: Members): Option<Pod> {
    if m.writer.None? then Candidate(ready, None) else None
  }

  function NewBackupWriter(ready: seq<Pod>, m: Members): Option<Pod> {
    var w := NewWriter(ready, m);
    if m.backupWriter.None? then Candidate(ready, if w.Some? then Some(w.value.suffix) else m.writer) else None
  }

  function GrantWriter(p: Pod): ApiCall { Patch2(p, RemoveReader, AddWriter) }

  function GrantBackupWriter(p: Pod): ApiCall { Patch2(p, AddReader, AddBackupWriter) }

  /** The pod recorded as writer when the last loop runs. */
  function Recorded(ready: seq<Pod>, m: Members): Option<Suffix> {
    var w, b := NewWriter(ready, m), NewBackupWriter(ready, m);
    if b.Some? then Some(b.value.suffix) else if w.Some? then Some(w.value.suffix) else m.writer
  }

  lemma ManyCalls(ready: seq<Pod>, m: Members)
    requires LabelMany(ready, m).ok
    ensures m.writer.None? ==> NewWriter(ready, m).Some?
    ensures m.backupWriter.None? ==> NewBackupWriter(ready, m).Some?
    ensures var w, b := NewWriter(ready, m), NewBackupWriter(ready, m);
      LabelMany(ready, m).calls ==
        (if w.Some? then [GrantWriter(w.value)] else []) +
        (if b.Some? then [GrantBackupWriter(b.value)] else []) +
        DropReader(ready, Recorded(ready, m))
  {
  }

  /** What three or more ready pods end up with: every role granted in this round is taken back by
      the last patch, except a writer granted together with a backup writer. */
  lemma ManyFinal(ready: seq<Pod>, m: Members, p: Pod)
    requires Roster(ready, m) && |ready| >= 3 && LabelMany(ready, m).ok && p in ready
    ensures var w, b := NewWriter(ready, m), NewBackupWriter(ready, m);
      Final(p, ready, m) ==
        if b == Some(p) then p.labels.(reader := Some(false))
        else if w == Some(p) then (if b.Some? then p.labels.(reader := Some(false), role := Some(Writer)) else p.labels.(reader := Some(false)))
        else if Recorded(ready, m) == Some(p.suffix) && p.labels.reader == Some(true) then p.labels.(reader := Some(false))
        else Classified(p, m)
  {
    hide LabelMany, DropReader, Classified;
    ManyCalls(ready, m);
    var w, b := NewWriter(ready, m), NewBackupWriter(ready, m);
    CandidateIs(ready, None);
    CandidateIs(ready, if w.Some? then Some(w.value.suffix) else m.writer);
    var c1 := if w.Some? then [GrantWriter(w.value)] else [];
    var c2 := if b.Some? then [GrantBackupWriter(b.value)] else [];
    var c3 := DropReader(ready, Recorded(ready, m));
    var l0 := Classified(p, m);
    assert forall q :: q in ready && q.suffix == p.suffix ==> q == p;
    LabelsAfterConcat(c1 + c2, c3, p.suffix, l0);
    LabelsAfterConcat(c1, c2, p.suffix, l0);
    DropReaderEffect(ready, Recorded(ready, m), p.suffix, LabelsAfter(c1 + c2, p.suffix, l0));
  }

  /** With both roles held, the holders are kept and the writer is taken out of the readers. */
  lemma ManyKeepHolders(ready: seq<Pod>, m: Members, p: Pod)
    requires Roster(ready, m) && |ready| >= 3 && m.writer.Some? && m.backupWriter.Some? && p in ready
    ensures LabelMany(ready, m).ok
    ensures Final(p, ready, m).role == Some(Writer) <==> m.writer == Some(p.suffix)
    ensures Final(p, ready, m).role == Some(BackupWriter) <==> m.backupWriter == Some(p.suffix)
    ensures m.writer == Some(p.suffix) ==> Final(p, ready, m).reader != Some(true)
    ensures var l := SetLabels(ready, m).members; l.writer == m.writer && l.backupWriter == m.backupWriter
  {
    ManyFinal(ready, m, p);
    assert forall q :: q in ready && q.suffix == p.suffix ==> q == p;
  }

  /** With three or more ready pods the roles end up held exactly so: the backup-writer role only if
      it was held before, the writer role if it was held or if both were missing. A role granted to
      fill a single gap is gone again, and its pod, no longer a reader either, drops out of the
      ready pods. */
  lemma ManyGrantNothing(ready: seq<Pod>, m: Members)
    requires Roster(ready, m) && |ready| >= 3 && LabelMany(ready, m).ok
    ensures (exists p :: p in ready && Final(p, ready, m).role == Some(BackupWriter)) <==> m.backupWriter.Some?
    ensures (exists p :: p in ready && Final(p, ready, m).role == Some(Writer)) <==> m.writer.Some? || m.backupWriter.None?
    ensures m.writer.None? || m.backupWriter.None? ==>
      exists p :: p in ready && !IsListed(p.(labels := Final(p, ready, m)))
  {
    hide Final, LabelMany, Recorded;
    ManyCalls(ready, m);
    var w, b := NewWriter(ready, m), NewBackupWriter(ready, m);
    CandidateIs(ready, None);
    CandidateIs(ready, if w.Some? then Some(w.value.suffix) else m.writer);
    forall p | p in ready
      ensures Final(p, ready, m).role == Some(BackupWriter) ==> m.backupWriter.Some?
      ensures Final(p, ready, m).role == Some(Writer) ==> m.writer.Some? || m.backupWriter.None?
    {
      ManyFinal(ready, m, p);
    }
    if m.backupWriter.Some? {
      RecordedKeeps(ready, m, BackupWriter);
    } else {
      ManyFinal(ready, m, b.value);
    }
    if m.writer.Some? {
      RecordedKeeps(ready, m, Writer);
    } else {
      ManyFinal(ready, m, w.value);
    }
  }

  /** A recorded holder keeps its role. */
  lemma RecordedKeeps(ready: seq<Pod>, m: Members, r: Role)
    requires Roster(ready, m) && |ready| >= 3 && LabelMany(ready, m).ok
    requires (r == Writer && m.writer.Some?) || (r == BackupWriter && m.backupWriter.Some?)
    ensures exists p :: p in ready && Final(p, ready, m).role == Some(r)
  {
    hide Final, LabelMany;
    var q :| q in ready && (if r == Writer then ReadyWriter(q) && q.suffix == m.writer.value
                            else ReadyBackupWriter(q) && q.suffix == m.backupWriter.value);
    ManyFinal(ready, m, q);
    CandidateIs(ready, None);
    var w := NewWriter(ready, m);
    CandidateIs(ready, if w.Some? then Some(w.value.suffix) else m.writer);
  }

  // ---- The theorem ------------------------------------------------------------------------

  /** Among the ready pods, at most one ends up with the role. */
  ghost predicate Unique(ready: seq<Pod>, m: Members, r: Role) {
    forall p, q :: p in ready && q in ready && Final(p, ready, m).role == Some(r) == Final(q, ready, m).role ==>
      p.suffix == q.suffix
  }

  lemma ManyUnique(ready: seq<Pod>, m: Members, p: Pod, q: Pod)
    requires Roster(ready, m) && |ready| >= 3 && LabelMany(ready, m).ok && p in ready && q in ready
    ensures Final(p, ready, m).role == Some(Writer) == Final(q, ready, m).role ==> p.suffix == q.suffix
    ensures Final(p, ready, m).role == Some(BackupWriter) == Final(q, ready, m).role ==> p.suffix == q.suffix
  {
    hide Final, LabelMany;
    ManyCalls(ready, m);
    var w := NewWriter(ready, m);
    CandidateIs(ready, None);
    CandidateIs(ready, if w.Some? then Some(w.value.suffix) else m.writer);
    ManyFinal(ready, m, p);
    ManyFinal(ready, m, q);
  }

  /** However many pods are ready, the labelling that ends without error leaves at most one writer
      and at most one backup writer among them. */
  lemma RolesAreUnique(ready: seq<Pod>, m: Members)
    requires Roster(ready, m) && SetLabels(ready, m).ok
    ensures Unique(ready, m, Writer) && Unique(ready, m, BackupWriter)
  {
    hide LabelTwo, LabelMany;
    if |ready| == 2 {
      TwoShareTheRoles(ready, m);
    } else if |ready| >= 3 {
      forall p, q | p in ready && q in ready
        ensures Final(p, ready, m).role == Some(Writer) == Final(q, ready, m).role ==> p.suffix == q.suffix
        ensures Final(p, ready, m).role == Some(BackupWriter) == Final(q, ready, m).role ==> p.suffix == q.suffix
      {
        ManyUnique(ready, m, p, q);
      }
    }
  }

  // ---- In the store -----------------------------------------------------------------------

  /** The calls of a round up to and including the labelling. */
  function LabelCalls(x: Input): seq<ApiCall>
    requires Classify(x.pods, Start(x), x).Go?
  {
    var s := Classify(x.pods, Start(x), x);
    s.calls + SetLabels(s.tally.ready, s.tally.status.members).calls
  }

  /** The labels `Final` speaks of are those the store holds once the calls are applied to the world
      the round listed; ready pods outside the list keep their labels and hold no role. */
  lemma FinalIsStored(w: World, x: Input, p: Pod)
    requires Lists(w, x.pods, x.claims) && Classify(x.pods, Start(x), x).Go? && p in x.pods
    ensures var t := Classify(x.pods, Start(x), x).tally;
      && p.suffix in ApplyAll(w, LabelCalls(x)).pods
      && ApplyAll(w, LabelCalls(x)).pods[p.suffix].labels == Final(p, t.ready, t.status.members)
      && (ReadyPrimary(p) && !IsListed(p) ==> !HoldsRole(p))
  {
    var s := Classify(x.pods, Start(x), x);
    var calls2 := SetLabels(s.tally.ready, s.tally.status.members).calls;
    ClassifyPatches(x.pods, Start(x), x);
    SetLabelsArePatches(s.tally.ready, s.tally.status.members);
    LabelsAfterIsApplied(w, LabelCalls(x), p.suffix);
    LabelsAfterConcat(s.calls, calls2, p.suffix, p.labels);
    ClassifiedLabels(x.pods, Start(x), x, p);
  }

  lemma {:induction false} OthersArePatches(ready: seq<Pod>, m: Members)
    ensures forall c :: c in OthersToBackupWriter(ready, m).calls ==> c.PatchPod?
    ensures OthersToBackupWriter(ready, m).ok
    decreases ready
  {
    if ready != [] {
      OthersArePatches(ready[1..],
          if m.writer != Some(ready[0].suffix) then m.(backupWriter := Some(ready[0].suffix)) else m);
    }
  }

  lemma {:induction false} DropReaderPatches(ready: seq<Pod>, writer: Option<Suffix>)
    ensures forall c :: c in DropReader(ready, writer) ==> c.PatchPod?
  {
    if ready != [] { DropReaderPatches(ready[1..], writer); }
  }

  lemma SetLabelsArePatches(ready: seq<Pod>, m: Members)
    ensures forall c :: c in SetLabels(ready, m).calls ==> c.PatchPod?
  {
    OthersArePatches(ready, m);
    if |ready| == 2 {
      DropReaderPatches(ready, LabelTwo(ready, m).members.writer);
      DropReaderPatches(ready, m.writer);
      var l := if m.backupWriter.None? then OthersToBackupWriter(ready, m) else Labelling([], true, m);
      DropReaderPatches(ready, l.members.writer);
    } else if |ready| >= 3 {
      ManyArePatches(ready, m);
    }
  }

  lemma ManyArePatches(ready: seq<Pod>, m: Members)
    ensures forall c :: c in LabelMany(ready, m).calls ==> c.PatchPod?
  {
    var w := Candidate(ready, None);
    var m1 := if m.writer.None? && w.Some? then m.(writer := Some(w.value.suffix)) else m;
    var b := Candidate(ready, m1.writer);
    DropReaderPatches(ready, if m1.backupWriter.None? && b.Some? then Some(b.value.suffix) else m1.writer);
  }

  /** The store after the labelling of a round: at most one ready pod is writer and at most one is
      backup writer. */
  lemma StoredRolesAreUnique(w: World, x: Input, r: Role)
    requires Lists(w, x.pods, x.claims) && Classify(x.pods, Start(x), x).Go?
    requires var t := Classify(x.pods, Start(x), x).tally; SetLabels(t.ready, t.status.members).ok
    requires r == Writer || r == BackupWriter
    ensures var v := ApplyAll(w, LabelCalls(x));
      && (forall p :: p in x.pods ==> p.suffix in v.pods)
      && (forall p, q ::
            (p in x.pods && q in x.pods && ReadyPrimary(p) && ReadyPrimary(q) &&
             v.pods[p.suffix].labels.role == Some(r) == v.pods[q.suffix].labels.role) ==> p == q)
  {
    var t := Classify(x.pods, Start(x), x).tally;
    RosterOf(x);
    RolesAreUnique(t.ready, t.status.members);
    forall p | p in x.pods
      ensures p.suffix in ApplyAll(w, LabelCalls(x)).pods
      ensures ApplyAll(w, LabelCalls(x)).pods[p.suffix].labels == Final(p, t.ready, t.status.members)
      ensures ReadyPrimary(p) && Final(p, t.ready, t.status.members).role == Some(r) ==> p in t.ready
    {
      FinalIsStored(w, x, p);
      if ReadyPrimary(p) {
        ListedOrUntouched(x, p);
      }
    }
  }

  /** A pod outside the ready list is not touched. */
  lemma ListedOrUntouched(x: Input, p: Pod)
    requires Classify(x.pods, Start(x), x).Go? && Distinct(x.pods) && p in x.pods
    ensures var t := Classify(x.pods, Start(x), x).tally;
      p in t.ready || (Final(p, t.ready, t.status.members) == p.labels && !(ReadyPrimary(p) && HoldsRole(p)))
  {
    var t := Classify(x.pods, Start(x), x).tally;
    ClosedLists(x.pods, Start(x), x);
    InFilter(x.pods, IsListed);
    if p !in t.ready {
      var calls := SetLabels(t.ready, t.status.members).calls;
      Protocol.SetLabelsTidy(t.ready, t.status.members);
      assert forall q :: q in t.ready ==> q in x.pods && q != p;
      assert forall q :: q in t.ready ==> q.suffix != p.suffix;
      Untouched(calls, p.suffix, Classified(p, t.status.members));
    }
  }
}
