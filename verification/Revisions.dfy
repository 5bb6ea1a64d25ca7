/** The revision store: which stored revision the current spec gets, and which ones the history
    limit removes. A revision's content is opaque, and compared by equality. */
module Revisions {
  import opened ApiStore

  type Content = string

  datatype Stored = Stored(name: Revision, number: int, content: Content)

  const DEFAULT_HISTORY_LIMIT := 10

  // ---- The lists the operator works on ----------------------------------------------------

  ghost predicate SortedByNumber(revs: seq<Stored>) {
    forall i, j :: 0 <= i < j < |revs| ==> revs[i].number <= revs[j].number
  }

  ghost predicate DistinctNames(revs: seq<Stored>) {
    forall i, j :: 0 <= i < j < |revs| ==> revs[i].name != revs[j].name
  }

  /** revs lists the store, each revision once. */
  ghost predicate ListsRevisions(store: map<Revision, Stored>, revs: seq<Stored>) {
    && (forall r :: r in revs ==> r.name in store && store[r.name] == r)
    && (forall n :: n in store ==> store[n].name == n && store[n] in revs)
    && DistinctNames(revs)
  }

  /** newNextRevision. */
  function NextNumber(revs: seq<Stored>): int {
    if revs == [] then 1 else revs[|revs| - 1].number + 1
  }

  function Equals(revs: seq<Stored>, content: Content): seq<Stored> {
    if revs == [] then []
    else (if revs[0].content == content then [revs[0]] else []) + Equals(revs[1..], content)
  }

  /** The revision for the spec: the last one as it is, an older one renumbered, or a new one
      under an unused name. */
  function Choose(revs: seq<Stored>, spec: Content, unused: Revision): Stored {
    var equals := Equals(revs, spec);
    if equals == [] then Stored(unused, NextNumber(revs), spec)
    else if revs != [] && revs[|revs| - 1].content == equals[|equals| - 1].content then revs[|revs| - 1]
    else equals[|equals| - 1].(number := NextNumber(revs))
  }

  /** The revision the status names, or the next one. */
  function CurrentOf(revs: seq<Stored>, name: Revision, next: Stored): Stored {
    if revs == [] then next
    else if revs[|revs| - 1].name == name then revs[|revs| - 1]
    else CurrentOf(revs[..|revs| - 1], name, next)
  }

  function History(revs: seq<Stored>, live: set<Revision>): seq<Stored> {
    if revs == [] then []
    else (if revs[0].name in live then [] else [revs[0]]) + History(revs[1..], live)
  }

  /** The revisions the limit removes, lowest numbers first. */
  function Doomed(revs: seq<Stored>, live: set<Revision>, limit: nat): seq<Stored> {
    var h := History(revs, live);
    if |h| <= limit then [] else h[..|h| - limit]
  }

  // ---- Facts about them -------------------------------------------------------------------

  lemma {:induction false} EqualsAre(revs: seq<Stored>, content: Content)
    ensures forall r :: r in Equals(revs, content) <==> r in revs && r.content == content
  {
    if revs != [] {
      assert forall r :: r in revs <==> r == revs[0] || r in revs[1..];
      EqualsAre(revs[1..], content);
    }
  }

  lemma {:induction false} EqualsConcat(a: seq<Stored>, b: seq<Stored>, content: Content)
    ensures Equals(a + b, content) == Equals(a, content) + Equals(b, content)
  {
    if a == [] {
      assert a + b == b;
    } else {
      assert (a + b)[1..] == a[1..] + b;
      EqualsConcat(a[1..], b, content);
      Regroup(if a[0].content == content then [a[0]] else [], Equals(a[1..], content), Equals(b, content));
    }
  }

  lemma {:induction false} HistoryIs(revs: seq<Stored>, live: set<Revision>)
    ensures forall r :: r in History(revs, live) <==> r in revs && r.name !in live
    ensures SortedByNumber(revs) ==> SortedByNumber(History(revs, live))
  {
    if revs != [] {
      assert forall r :: r in revs <==> r == revs[0] || r in revs[1..];
      HistoryIs(revs[1..], live);
      var rest := History(revs[1..], live);
      if SortedByNumber(revs) {
        assert SortedByNumber(revs[1..]);
        forall j | 0 <= j < |rest| ensures revs[0].number <= rest[j].number {
          assert rest[j] in revs[1..];
          var k :| 0 <= k < |revs[1..]| && revs[1..][k] == rest[j];
          assert revs[k + 1] == rest[j];
        }
      }
    }
  }

  lemma {:induction false} HistoryConcat(a: seq<Stored>, b: seq<Stored>, live: set<Revision>)
    ensures History(a + b, live) == History(a, live) + History(b, live)
  {
    if a == [] {
      assert a + b == b;
    } else {
      assert (a + b)[1..] == a[1..] + b;
      HistoryConcat(a[1..], b, live);
      Regroup(if a[0].name in live then [] else [a[0]], History(a[1..], live), History(b, live));
    }
  }

  lemma {:induction false} CurrentIs(revs: seq<Stored>, name: Revision, next: Stored)
    ensures var c := CurrentOf(revs, name, next);
      (c in revs && c.name == name) || (c == next && forall r :: r in revs ==> r.name != name)
  {
    if revs != [] {
      var last := |revs| - 1;
      assert revs[last] in revs;
      assert forall r :: r in revs <==> r == revs[last] || r in revs[..last];
      CurrentIs(revs[..last], name, next);
    }
  }

  lemma LastIsGreatest(revs: seq<Stored>)
    requires SortedByNumber(revs)
    ensures forall r :: r in revs ==> r.number < NextNumber(revs)
  {
    forall r | r in revs ensures r.number < NextNumber(revs) {
      var i :| 0 <= i < |revs| && revs[i] == r;
      assert i < |revs| - 1 ==> revs[i].number <= revs[|revs| - 1].number;
    }
  }

  // ---- One sync ---------------------------------------------------------------------------

  ghost predicate DistinctRevisions(store: map<Revision, Stored>) {
    && (forall n :: n in store ==> store[n].name == n)
    && (forall m, n :: m in store && n in store && m != n ==>
          store[m].content != store[n].content && store[m].number != store[n].number)
  }

  /** The revision chosen holds the spec and has the greatest number of all that are then stored;
      a stored revision with that content is reused, under a larger number unless it was last;
      and contents and numbers stay pairwise distinct. */
  lemma ChooseIsRight(store: map<Revision, Stored>, revs: seq<Stored>, spec: Content, unused: Revision)
    requires DistinctRevisions(store) && ListsRevisions(store, revs) && SortedByNumber(revs) && unused !in store
    ensures var next := Choose(revs, spec, unused); var after := store[next.name := next];
      && next.content == spec
      && (forall n :: n in after && n != next.name ==> after[n].number < next.number)
      && DistinctRevisions(after)
      && (forall n :: n in store && store[n].content == spec ==>
            next.name == n && after.Keys == store.Keys && next.number >= store[n].number
            && (next.number == store[n].number <==> store[n] == revs[|revs| - 1]))
      && ((forall n :: n in store ==> store[n].content != spec) ==> next.name == unused)
      && (next !in revs ==> next.number == 1 || exists n :: n in store && next.number == store[n].number + 1)
  {
    EqualsAre(revs, spec);
    LastIsGreatest(revs);
    var equals := Equals(revs, spec);
    SomebodyIn(equals);
    SomebodyIn(revs);
    if equals != [] {
      var r := equals[|equals| - 1];
      assert r in equals;
      assert revs[|revs| - 1] in revs;
      OnlyOne(store, revs, spec, r);
      LastBelow(store, revs);
    } else {
      assert forall n :: n in store ==> store[n] in revs && store[n] !in equals;
    }
  }

  lemma OnlyOne(store: map<Revision, Stored>, revs: seq<Stored>, spec: Content, r: Stored)
    requires DistinctRevisions(store) && ListsRevisions(store, revs) && r in revs && r.content == spec
    ensures forall n :: n in store && store[n].content == spec ==> n == r.name
  {
  }

  lemma LastBelow(store: map<Revision, Stored>, revs: seq<Stored>)
    requires DistinctRevisions(store) && ListsRevisions(store, revs) && SortedByNumber(revs) && revs != []
    ensures forall n :: n in store && store[n] != revs[|revs| - 1] ==> store[n].number < revs[|revs| - 1].number
  {
    var last := revs[|revs| - 1];
    assert last in revs;
    forall n | n in store && store[n] != last ensures store[n].number < last.number {
      assert store[n] in revs;
      var i :| 0 <= i < |revs| && revs[i] == store[n];
      assert revs[i].number <= last.number;
    }
  }

  // ---- The history limit ------------------------------------------------------------------

  /** Removing revisions: none that is live; afterwards at most `limit` of the others are left, and
      none if there was no need; and each one removed has a number no greater than any other left. */
  lemma TruncationIsRight(revs: seq<Stored>, live: set<Revision>, limit: nat)
    requires SortedByNumber(revs)
    ensures var h := History(revs, live); var gone := Doomed(revs, live, limit);
      && gone <= h
      && |h| - |gone| == (if |h| <= limit then |h| else limit)
      && (forall r :: r in gone ==> r in revs && r.name !in live)
      && (forall r, s :: r in gone && s in h[|gone|..] ==> r.number <= s.number)
  {
    hide History, SortedByNumber;
    HistoryIs(revs, live);
    var h := History(revs, live);
    CutIsLowest(h, if |h| <= limit then 0 else |h| - limit);
    assert h[..0] == [];
  }

  /** The first k of a sorted list are the ones with the lowest numbers. */
  lemma CutIsLowest(h: seq<Stored>, k: nat)
    requires SortedByNumber(h) && k <= |h|
    ensures forall r :: r in h[..k] ==> r in h
    ensures forall r, s :: r in h[..k] && s in h[k..] ==> r.number <= s.number
  {
    forall r, s | r in h[..k] && s in h[k..] ensures r.number <= s.number {
      var i :| 0 <= i < k && h[i] == r;
      var j :| k <= j < |h| && h[j] == s;
    }
  }

  // ---- The store object -------------------------------------------------------------------

  /** The API's store of revisions. `budget` is the number of further writes it accepts. */
  class RevisionStore {
    var store: map<Revision, Stored>
    var budget: nat

    constructor (store: map<Revision, Stored>, budget: nat)
      ensures this.store == store && this.budget == budget
    {
      this.store, this.budget := store, budget;
    }

    /** Creates a revision, or renumbers one: either way the revision is stored under its name. */
    method Put(r: Stored) returns (ok: bool)
      modifies this
      ensures ok == (old(budget) > 0)
      ensures store == if ok then old(store)[r.name := r] else old(store)
      ensures budget == if ok then old(budget) - 1 else 0
    {
      ok := budget > 0;
      if ok {
        store := store[r.name := r];
        budget := budget - 1;
      }
    }

    method Delete(name: Revision) returns (ok: bool)
      modifies this
      ensures ok == (old(budget) > 0 && name in old(store))
      ensures store == if ok then old(store) - {name} else old(store)
      ensures budget == if ok then old(budget) - 1 else old(budget)
    {
      ok := budget > 0 && name in store;
      if ok {
        store := store - {name};
        budget := budget - 1;
      }
    }

    /** The revisions with that content, in the order of the list. */
    static method FindEqual(revs: seq<Stored>, content: Content) returns (equals: seq<Stored>)
      ensures equals == Equals(revs, content)
    {
      equals := [];
      for i := 0 to |revs|
        invariant equals == Equals(revs[..i], content)
      {
        EqualsConcat(revs[..i], [revs[i]], content);
        assert revs[..i + 1] == revs[..i] + [revs[i]];
        assert [revs[i]][1..] == [];
        if revs[i].content == content {
          equals := equals + [revs[i]];
        }
      }
      assert revs[..|revs|] == revs;
    }

    /** getGaleraRevisions. */
    method GetRevisions(spec: Content, status: Revision, revs: seq<Stored>, unused: Revision)
      returns (current: Stored, next: Stored, ok: bool)
      modifies this
      ensures next == Choose(revs, spec, unused)
      ensures var same := revs != [] && next == revs[|revs| - 1];
        && ok == (same || old(budget) > 0)
        && store == (if same || !ok then old(store) else old(store)[next.name := next])
      ensures current == CurrentOf(revs, status, next)
    {
      var count := |revs|;
      next := Stored(unused, NextNumber(revs), spec);
      var equals := FindEqual(revs, spec);
      SomebodyIsEqual(revs, spec);
      ok := true;
      if |equals| > 0 && revs[count - 1].content == equals[|equals| - 1].content {
        next := revs[count - 1];
      } else {
        NotLast(revs, spec, unused);
        if |equals| > 0 {
          next := equals[|equals| - 1].(number := next.number);
        }
        ok := Put(next);
      }
      current := next;
      for i := 0 to count
        invariant current == CurrentOf(revs[..i], status, next)
      {
        assert revs[..i + 1][..i] == revs[..i] && revs[..i + 1][i] == revs[i];
        if revs[i].name == status {
          current := revs[i];
        }
      }
      assert revs[..count] == revs;
    }

    /** The revisions that are not live, in the order of the list. */
    static method FindHistory(revs: seq<Stored>, live: set<Revision>) returns (history: seq<Stored>)
      ensures history == History(revs, live)
    {
      history := [];
      for i := 0 to |revs|
        invariant history == History(revs[..i], live)
      {
        HistoryConcat(revs[..i], [revs[i]], live);
        assert revs[..i + 1] == revs[..i] + [revs[i]];
        assert [revs[i]][1..] == [];
        if revs[i].name !in live {
          history := history + [revs[i]];
        }
      }
      assert revs[..|revs|] == revs;
    }

    /** The names of the current and next revisions and of those on the pods. */
    static method MarkLive(pods: seq<Revision>, current: Revision, next: Revision) returns (live: set<Revision>)
      ensures forall n :: n in live <==> Used(n, pods, current, next)
      ensures live == Live(pods, current, next)
    {
      live := {current, next};
      for i := 0 to |pods|
        invariant live == Live(pods[..i], current, next)
      {
        live := live + {pods[i]};
        assert pods[..i + 1] == pods[..i] + [pods[i]];
      }
      assert pods[..|pods|] == pods;
    }

    /** Deletes the revisions one after the other; the first refusal ends it. */
    method DeleteAll(doomed: seq<Stored>) returns (ok: bool)
      requires DistinctNames(doomed)
      requires forall r :: r in doomed ==> r.name in store
      modifies this
      ensures ok == (|doomed| <= old(budget)) && store == Remaining(old(store), doomed, old(budget))
    {
      var i := 0;
      ok := true;
      while i < |doomed|
        invariant 0 <= i <= |doomed| && budget == old(budget) - i && ok
        invariant store == old(store) - Names(doomed[..i])
      {
        assert doomed[i] in doomed && doomed[..i + 1] == doomed[..i] + [doomed[i]];
        assert Names(doomed[..i + 1]) == Names(doomed[..i]) + {doomed[i].name};
        ok := Delete(doomed[i].name);
        if !ok {
          return;
        }
        i := i + 1;
      }
    }

    /** truncateHistory. A negative limit slices beyond the list: the program ends there, either at
        once or, while the list of revisions has room, after the whole history is deleted. */
    method TruncateHistory(revs: seq<Stored>, pods: seq<Revision>, current: Revision, next: Revision, limit: Option<int>)
      returns (outcome: Outcome)
      requires DistinctNames(revs)
      requires forall r :: r in revs ==> r.name in store
      modifies this
      ensures Untouched(old(store), store, pods, current, next)
      ensures SortedByNumber(revs) ==> OldestFirst(revs, store, pods, current, next)
      ensures outcome.Done? ==> KeepsAtMost(revs, store, pods, current, next, if limit.Some? then limit.value else 10)
      ensures limit.Some? && limit.value < 0 ==>
        !outcome.Done? && EndsBadly(revs, old(store), store, Spare(revs, pods, current, next), limit.value, outcome)
      ensures var live := Live(pods, current, next);
        var most := if limit.Some? then limit.value else DEFAULT_HISTORY_LIMIT;
        var gone := if most >= 0 then Doomed(revs, live, most) else if Overruns(revs, live, most) then []
            else History(revs, live);
        && store == Remaining(old(store), gone, old(budget))
        && outcome == if |gone| > old(budget) then Refused else if most >= 0 then Done else Panicked
    {
      hide History, Remaining, DistinctNames, SortedByNumber, Live, Names, Untouched, OldestFirst,
           KeepsAtMost, Spare;
      var live := MarkLive(pods, current, next);
      var history := FindHistory(revs, live);
      var most := if limit.Some? then limit.value else DEFAULT_HISTORY_LIMIT;
      ghost var gone := if most >= 0 then Doomed(revs, live, most) else if Overruns(revs, live, most) then [] else history;
      TruncationSpares(store, revs, pods, current, next, gone, budget);
      if SortedByNumber(revs) { TruncationOrders(store, revs, pods, current, next, gone, budget); }
      if most >= 0 {
        TruncationFits(store, revs, pods, current, next, most, budget);
      } else {
        NothingLeft(store, revs, pods, current, next, budget);
      }
      if |history| <= most {
        NoneRemoved(store, budget);
        return Done;
      }
      var cut := |history| - most;
      if cut > |revs| {
        NoneRemoved(store, budget);
        CutWithin(revs, live, most);
        return Panicked;
      }
      HistoryDoomed(revs, live);
      DoomedNames(revs, live, if most >= 0 then most else 0);
      var ok := DeleteAll(if cut <= |history| then history[..cut] else history);
      CutWithin(revs, live, most);
      outcome := if !ok then Refused else if cut > |history| then Panicked else Done;
    }
  }

  /** A revision that is current, next or a pod's. */
  predicate Used(n: Revision, pods: seq<Revision>, current: Revision, next: Revision) {
    n == current || n == next || n in pods
  }

  /** The store has lost revisions at most, and none that is used. */
  ghost predicate Untouched(was: map<Revision, Stored>, now: map<Revision, Stored>, pods: seq<Revision>,
                            current: Revision, next: Revision)
  {
    && (forall n :: n in now ==> n in was && now[n] == was[n])
    && (forall n :: n in was && Used(n, pods, current, next) ==> n in now)
  }

  function Spare(revs: seq<Stored>, pods: seq<Revision>, current: Revision, next: Revision): set<Revision> {
    set r | r in revs && !Used(r.name, pods, current, next) :: r.name
  }

  /** With a negative limit: at once when the slice is longer than the list was made for, and otherwise
      after everything that is spare is gone. */
  ghost predicate EndsBadly(revs: seq<Stored>, was: map<Revision, Stored>, now: map<Revision, Stored>,
                            spare: set<Revision>, limit: int, outcome: Outcome)
  {
    if |spare| - limit > |revs| then outcome.Panicked? && now == was
    else outcome.Panicked? ==> forall n :: n in spare ==> n !in now
  }

  lemma SpareCount(revs: seq<Stored>, pods: seq<Revision>, current: Revision, next: Revision)
    requires DistinctNames(revs)
    ensures var h, spare := History(revs, Live(pods, current, next)), Spare(revs, pods, current, next);
      DistinctNames(h) && Names(h) == spare && |h| == |spare|
  {
    hide Live, History, Used, Names, DistinctNames;
    var live := Live(pods, current, next);
    LiveIsUsed(pods, current, next);
    HistoryIs(revs, live);
    HistoryNames(revs, live);
    NamesAre(History(revs, live));
    NamesCount(History(revs, live));
  }

  lemma NothingLeft(store: map<Revision, Stored>, revs: seq<Stored>, pods: seq<Revision>, current: Revision,
                    next: Revision, budget: nat)
    requires DistinctNames(revs)
    ensures var h, spare := History(revs, Live(pods, current, next)), Spare(revs, pods, current, next);
      && |h| == |spare|
      && (|h| <= budget ==> forall n :: n in spare ==> n !in Remaining(store, h, budget))
  {
    hide Live, History, Used, Names, Spare;
    SpareCount(revs, pods, current, next);
    var h := History(revs, Live(pods, current, next));
    assert h[..|h|] == h;
  }

  /** Of the listed revisions that are not used, `limit` are left, or all if they are no more. */
  ghost predicate KeepsAtMost(revs: seq<Stored>, now: map<Revision, Stored>, pods: seq<Revision>,
                              current: Revision, next: Revision, limit: int)
  {
    var spare := Spare(revs, pods, current, next);
    |spare * now.Keys| == if |spare| <= limit then |spare| else limit
  }

  /** And none that is gone has a number above one that is left. */
  ghost predicate OldestFirst(revs: seq<Stored>, now: map<Revision, Stored>, pods: seq<Revision>,
                              current: Revision, next: Revision)
  {
    forall r, s ::
      (r in revs && s in revs && !Used(r.name, pods, current, next) && !Used(s.name, pods, current, next)
       && r.name !in now && s.name in now) ==> r.number <= s.number
  }

  lemma LiveIsUsed(pods: seq<Revision>, current: Revision, next: Revision)
    ensures forall n :: n in Live(pods, current, next) <==> Used(n, pods, current, next)
  {
  }

  lemma TruncationSpares(store: map<Revision, Stored>, revs: seq<Stored>, pods: seq<Revision>, current: Revision,
                         next: Revision, gone: seq<Stored>, budget: nat)
    requires gone <= History(revs, Live(pods, current, next))
    ensures Untouched(store, Remaining(store, gone, budget), pods, current, next)
  {
    hide Live, History, Used;
    var live := Live(pods, current, next);
    LiveIsUsed(pods, current, next);
    HistoryIs(revs, live);
    var cut := gone[..if |gone| <= budget then |gone| else budget];
    forall r | r in cut ensures r.name !in live {
      var i :| 0 <= i < |cut| && cut[i] == r;
      assert r == History(revs, live)[i] && r in History(revs, live);
    }
  }

  lemma {:induction false} NamesCount(revs: seq<Stored>)
    requires DistinctNames(revs)
    ensures |Names(revs)| == |revs|
  {
    if revs != [] {
      NamesBehind(revs);
      NamesCount(revs[1..]);
      assert revs == [revs[0]] + revs[1..];
      assert Names(revs) == {revs[0].name} + Names(revs[1..]);
    }
  }

  lemma TruncationFits(store: map<Revision, Stored>, revs: seq<Stored>, pods: seq<Revision>, current: Revision,
                       next: Revision, limit: nat, budget: nat)
    requires DistinctNames(revs) && forall r :: r in revs ==> r.name in store
    ensures var gone := Doomed(revs, Live(pods, current, next), limit);
      |gone| <= budget ==> KeepsAtMost(revs, Remaining(store, gone, budget), pods, current, next, limit)
  {
    hide Live, History, Used, Names, SortedByNumber, DistinctNames;
    var live := Live(pods, current, next);
    LiveIsUsed(pods, current, next);
    HistoryIs(revs, live);
    var h, gone := History(revs, live), Doomed(revs, live, limit);
    var spare := Spare(revs, pods, current, next);
    SpareCount(revs, pods, current, next);
    if |gone| <= budget {
      var k := |gone|;
      assert gone[..k] == gone && gone == h[..k];
      SpareSplit(h, k);
      var now := Remaining(store, gone, budget);
      forall n ensures n in spare * now.Keys <==> n in Names(h[k..]) { NamedInStore(store, revs, h, n); }
      assert spare * now.Keys == Names(h[k..]);
    }
  }

  lemma TruncationOrders(store: map<Revision, Stored>, revs: seq<Stored>, pods: seq<Revision>, current: Revision,
                         next: Revision, gone: seq<Stored>, budget: nat)
    requires DistinctNames(revs) && SortedByNumber(revs) && forall r :: r in revs ==> r.name in store
    requires gone <= History(revs, Live(pods, current, next))
    ensures OldestFirst(revs, Remaining(store, gone, budget), pods, current, next)
  {
    hide Live, History, Used, Names, SortedByNumber, DistinctNames;
    var live := Live(pods, current, next);
    LiveIsUsed(pods, current, next);
    HistoryIs(revs, live);
    var h := History(revs, live);
    var k := if |gone| <= budget then |gone| else budget;
    var now := Remaining(store, gone, budget);
    assert gone[..k] == h[..k] && h == h[..k] + h[k..];
    CutIsLowest(h, k);
    forall r, s | r in h && s in h && r.name !in now && s.name in now ensures r.number <= s.number {
      TakenFrom(revs, h[..k], r);
      NamesAre(h[..k]);
    }
  }

  lemma NamedInStore(store: map<Revision, Stored>, revs: seq<Stored>, h: seq<Stored>, n: Revision)
    requires (forall r :: r in revs ==> r.name in store) && (forall r :: r in h ==> r in revs)
    ensures n in Names(h) ==> n in store
  {
  }

  /** With distinct names, the revision of a part that has r's name is r. */
  lemma TakenFrom(revs: seq<Stored>, part: seq<Stored>, r: Stored)
    requires DistinctNames(revs) && r in revs && (forall q :: q in part ==> q in revs)
    ensures r.name in Names(part) ==> r in part
  {
    if r.name in Names(part) {
      var q :| q in part && q.name == r.name;
      var i :| 0 <= i < |revs| && revs[i] == q;
      var j :| 0 <= j < |revs| && revs[j] == r;
    }
  }

  lemma NamesAre(revs: seq<Stored>)
    ensures forall n :: n in Names(revs) <==> exists r :: r in revs && r.name == n
  {
  }

  /** A list cut in two: its names are split, too. */
  lemma SpareSplit(h: seq<Stored>, k: nat)
    requires DistinctNames(h) && k <= |h|
    ensures Names(h[..k]) !! Names(h[k..]) && Names(h) == Names(h[..k]) + Names(h[k..])
    ensures |Names(h[k..])| == |h| - k
  {
    NamesCount(h[k..]);
    assert h == h[..k] + h[k..];
  }

  datatype Outcome = Done | Refused | Panicked

  /** The slice a negative limit asks for is longer than the list was made for. */
  predicate Overruns(revs: seq<Stored>, live: set<Revision>, limit: int) { |History(revs, live)| - limit > |revs| }

  lemma {:induction false} HistoryShorter(revs: seq<Stored>, live: set<Revision>)
    ensures |History(revs, live)| <= |revs|
  {
    if revs != [] { HistoryShorter(revs[1..], live); }
  }

  lemma CutWithin(revs: seq<Stored>, live: set<Revision>, limit: int)
    ensures limit >= 0 ==> |History(revs, live)| - limit <= |revs|
  {
    HistoryShorter(revs, live);
  }

  /** Without a limit the whole history is doomed. */
  lemma HistoryDoomed(revs: seq<Stored>, live: set<Revision>)
    ensures Doomed(revs, live, 0) == History(revs, live)
  {
    hide History;
    var h := History(revs, live);
    assert h[..|h|] == h;
  }

  /** The names a truncation spares. */
  function Live(pods: seq<Revision>, current: Revision, next: Revision): set<Revision> {
    {current, next} + (set p | p in pods)
  }

  /** The store without the first `budget` of the revisions. */
  function Remaining(store: map<Revision, Stored>, gone: seq<Stored>, budget: nat): map<Revision, Stored> {
    store - Names(gone[..if |gone| <= budget then |gone| else budget])
  }

  lemma NoneRemoved(store: map<Revision, Stored>, budget: nat)
    ensures Remaining(store, [], budget) == store
  {
  }

  function Names(revs: seq<Stored>): set<Revision> { set r | r in revs :: r.name }

  lemma SomebodyIsEqual(revs: seq<Stored>, content: Content)
    ensures Equals(revs, content) != [] ==> revs != []
  {
  }

  /** A revision chosen by renumbering or creation differs from the last of the list. */
  lemma NotLast(revs: seq<Stored>, spec: Content, unused: Revision)
    ensures var equals := Equals(revs, spec);
      revs != [] && (equals == [] || revs[|revs| - 1].content != equals[|equals| - 1].content) ==>
        Choose(revs, spec, unused) != revs[|revs| - 1]
  {
    hide Equals;
  }

  lemma {:induction false} HistoryNames(revs: seq<Stored>, live: set<Revision>)
    requires DistinctNames(revs)
    ensures DistinctNames(History(revs, live))
  {
    hide DistinctNames;
    if revs == [] {
      NoNames();
    } else {
      NamesBehind(revs);
      HistoryNames(revs[1..], live);
      HistoryIs(revs[1..], live);
      var rest := History(revs[1..], live);
      if revs[0].name in live {
        assert [] + rest == rest;
      } else {
        NamesBefore(revs[0], rest);
      }
    }
  }

  lemma NoNames()
    ensures DistinctNames([])
  {
  }

  lemma NamesBehind(revs: seq<Stored>)
    requires DistinctNames(revs) && revs != []
    ensures DistinctNames(revs[1..]) && forall r :: r in revs[1..] ==> r.name != revs[0].name
  {
  }

  lemma NamesBefore(a: Stored, rest: seq<Stored>)
    requires DistinctNames(rest) && forall r :: r in rest ==> r.name != a.name
    ensures DistinctNames([a] + rest)
  {
  }

  lemma DoomedNames(revs: seq<Stored>, live: set<Revision>, limit: nat)
    requires DistinctNames(revs)
    ensures var gone := Doomed(revs, live, limit);
      && DistinctNames(gone)
      && (forall r :: r in gone ==> r in revs)
  {
    HistoryNames(revs, live);
    HistoryIs(revs, live);
    var h, gone := History(revs, live), Doomed(revs, live, limit);
    assert gone <= h;
    forall r | r in gone ensures r in h {
      var i :| 0 <= i < |gone| && gone[i] == r;
      assert h[i] == r;
    }
    forall i, j | 0 <= i < j < |gone| ensures gone[i].name != gone[j].name {
      assert gone[i] == h[i] && gone[j] == h[j];
    }
  }

  // ---- Runs -------------------------------------------------------------------------------

  /** The store, the spec as the user last left it, and the current revision the status names. */
  datatype Machine = Machine(store: map<Revision, Stored>, spec: Content, current: Revision)

  /** The user edits the spec. */
  ghost predicate Edits(a: Machine, b: Machine) { b == a.(spec := b.spec) }

  /** A sync: the revision is chosen and stored, then the history is truncated, as far as the API
      accepts the deletions; the status may come to name the current or the next revision. */
  ghost predicate Syncs(a: Machine, b: Machine, revs: seq<Stored>, unused: Revision, pods: seq<Revision>, limit: nat,
      done: nat) {
    && ListsRevisions(a.store, revs) && SortedByNumber(revs) && unused !in a.store
    && var next := Choose(revs, a.spec, unused);
    && var current := CurrentOf(revs, a.current, next).name;
    && var gone := Doomed(revs, Live(pods, current, next.name), limit);
    && done <= |gone|
    && b.store == a.store[next.name := next] - Names(gone[..done])
    && b.spec == a.spec
    && (b.current == a.current || b.current == current || b.current == next.name)
  }

  ghost predicate RevisionSteps(a: Machine, b: Machine) {
    Edits(a, b) || exists revs, unused, pods, limit, done :: Syncs(a, b, revs, unused, pods, limit, done)
  }

  ghost predicate IsRevisionRun(run: seq<Machine>) {
    && run != [] && run[0].store == map[] && run[0].current == ""
    && forall i :: 0 <= i < |run| - 1 ==> RevisionSteps(run[i], run[i + 1])
  }

  /** Contents and numbers are distinct, and the status names a stored revision, or none yet. */
  ghost predicate Sound(m: Machine) {
    DistinctRevisions(m.store) && (m.current == "" || m.current in m.store)
  }

  lemma FewerStayDistinct(store: map<Revision, Stored>, gone: set<Revision>)
    requires DistinctRevisions(store)
    ensures DistinctRevisions(store - gone)
  {
  }

  lemma SyncKeepsSound(a: Machine, b: Machine, revs: seq<Stored>, unused: Revision, pods: seq<Revision>, limit: nat,
      done: nat)
    requires Sound(a) && Syncs(a, b, revs, unused, pods, limit, done)
    ensures Sound(b)
    ensures var next := Choose(revs, a.spec, unused);
      && next.name in b.store && b.store[next.name] == next && next.content == b.spec
      && forall n :: n in b.store && n != next.name ==> b.store[n].number < next.number
    ensures forall p :: p in pods && p in a.store ==> p in b.store
  {
    hide Choose, CurrentOf, Doomed, History, SortedByNumber;
    var next := Choose(revs, a.spec, unused);
    var current := CurrentOf(revs, a.current, next);
    ChooseIsRight(a.store, revs, a.spec, unused);
    CurrentIs(revs, a.current, next);
    var live := Live(pods, current.name, next.name);
    TruncationIsRight(revs, live, limit);
    var gone := Names(Doomed(revs, live, limit)[..done]);
    FewerStayDistinct(a.store[next.name := next], gone);
    assert forall n :: n in gone ==> n !in live;
    if a.current != "" {
      assert a.store[a.current] in revs;
    }
  }

  /** Along every run of edits, rollbacks, syncs and truncations, wherever a sync was cut off:
      stored contents and numbers are pairwise distinct and the current revision is still stored. */
  lemma {:induction false} RunsStaySound(run: seq<Machine>, i: nat)
    requires IsRevisionRun(run) && i < |run|
    ensures Sound(run[i])
  {
    hide Syncs;
    if i > 0 {
      RunsStaySound(run, i - 1);
      var a, b := run[i - 1], run[i - 1 + 1];
      assert RevisionSteps(a, b);
      if !Edits(a, b) {
        var revs, unused, pods, limit, done :| Syncs(a, b, revs, unused, pods, limit, done);
        SyncKeepsSound(a, b, revs, unused, pods, limit, done);
      }
    }
  }

  /** Going back to an older spec whose revision is still stored brings that very revision back, now
      with the greatest number, and stores no new one. */
  lemma RollbackReuses(run: seq<Machine>, i: nat, revs: seq<Stored>, unused: Revision, pods: seq<Revision>,
                       limit: nat, done: nat, earlier: Revision)
    requires IsRevisionRun(run) && i < |run| - 1
    requires Syncs(run[i], run[i + 1], revs, unused, pods, limit, done)
    requires earlier in run[i].store && run[i].store[earlier].content == run[i].spec
    requires exists n :: n in run[i].store && run[i].store[n].number > run[i].store[earlier].number
    ensures earlier in run[i + 1].store && run[i + 1].store[earlier].content == run[i].spec
    ensures run[i + 1].store[earlier].number > run[i].store[earlier].number
    ensures forall n :: n in run[i].store ==> run[i + 1].store[earlier].number > run[i].store[n].number
    ensures run[i + 1].store.Keys <= run[i].store.Keys
  {
    hide IsRevisionRun, Choose, Syncs, ListsRevisions, DistinctRevisions, SortedByNumber;
    RunsStaySound(run, i);
    SyncStores(run[i], run[i + 1], revs, unused, pods, limit, done);
    SyncKeepsSound(run[i], run[i + 1], revs, unused, pods, limit, done);
    ChosenAgain(run[i].store, revs, run[i].spec, unused, earlier);
  }

  lemma SyncStores(a: Machine, b: Machine, revs: seq<Stored>, unused: Revision, pods: seq<Revision>, limit: nat, done: nat)
    requires Syncs(a, b, revs, unused, pods, limit, done)
    ensures ListsRevisions(a.store, revs) && SortedByNumber(revs) && unused !in a.store
    ensures b.store.Keys <= a.store.Keys + {Choose(revs, a.spec, unused).name} && b.spec == a.spec
  {
    hide ListsRevisions, SortedByNumber, Choose, CurrentOf, Doomed;
  }

  /** An earlier revision with the spec's content, that is not the last, is the one chosen. */
  lemma ChosenAgain(store: map<Revision, Stored>, revs: seq<Stored>, spec: Content, unused: Revision, earlier: Revision)
    requires DistinctRevisions(store) && ListsRevisions(store, revs) && SortedByNumber(revs) && unused !in store
    requires earlier in store && store[earlier].content == spec
    requires exists n :: n in store && store[n].number > store[earlier].number
    ensures var next := Choose(revs, spec, unused);
      next.name == earlier && next.content == spec && forall n :: n in store ==> next.number > store[n].number
  {
    hide Choose;
    ChooseIsRight(store, revs, spec, unused);
    NotTheLast(store, revs, earlier);
  }

  lemma NotTheLast(store: map<Revision, Stored>, revs: seq<Stored>, earlier: Revision)
    requires DistinctRevisions(store) && ListsRevisions(store, revs) && SortedByNumber(revs) && earlier in store
    requires exists n :: n in store && store[n].number > store[earlier].number
    ensures revs != [] && store[earlier] != revs[|revs| - 1]
  {
    var n :| n in store && store[n].number > store[earlier].number;
    assert store[n] in revs;
    SomebodyIn(revs);
    LastBelow(store, revs);
  }
}
