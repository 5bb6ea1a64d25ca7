/** Phases and the condition list of a cluster's status. */
module Status {
  import opened ApiStore

  datatype Phase =
    | Unset | Creating | ScheduleRestore | CopyRestore | Restoring
    | Running | Backuping | FailedPhase | UnknownPhase

  datatype Kind = IsReadyKind | IsFailedKind | IsScalingKind | IsUpgradingKind | IsRestoringKind

  datatype Message = Text(text: string) | SizeChange(from: int, to: int)

  datatype Condition = Condition(kind: Kind, reason: string, message: Message)

  /** The first condition of a kind: its index, or -1. */
  function Position(cs: seq<Condition>, k: Kind): (i: int)
    ensures -1 <= i < |cs|
    ensures i >= 0 ==> cs[i].kind == k
    ensures forall j :: 0 <= j < (if i < 0 then |cs| else i) ==> cs[j].kind != k
  {
    if cs == [] then -1
    else if cs[0].kind == k then 0
    else var i := Position(cs[1..], k); if i < 0 then -1 else i + 1
  }

  function Lookup(cs: seq<Condition>, k: Kind): Option<Condition> {
    var i := Position(cs, k);
    if i < 0 then None else Some(cs[i])
  }

  function SetCondition(cs: seq<Condition>, c: Condition): seq<Condition> {
    var i := Position(cs, c.kind);
    if i < 0 then cs + [c] else cs[i := c]
  }

  function ClearCondition(cs: seq<Condition>, k: Kind): seq<Condition> {
    var i := Position(cs, k);
    if i < 0 then cs else cs[..i] + cs[i + 1..]
  }

  function ScalingUp(from: int, to: int): Condition {
    Condition(IsScalingKind, "Scaling up", SizeChange(from, to))
  }

  function ScalingDown(from: int, to: int): Condition {
    Condition(IsScalingKind, "Scaling down", SizeChange(from, to))
  }

  const DISASTER := Condition(IsFailedKind, "Disaster recovery", Text("Majority is down. Recovering from backup"))
  const READY := Condition(IsReadyKind, "Cluster ready", Text(""))

  function UpgradingTo(image: Image): Condition {
    Condition(IsUpgradingKind, "Cluster upgrading", Text("upgrading to " + image))
  }

  function RestoringFrom(backup: string): Condition {
    Condition(IsRestoringKind, "Restoring cluster", Text("restoring from " + backup))
  }

  /** At most one condition of each kind. */
  ghost predicate OnePerKind(cs: seq<Condition>) {
    forall i, j :: 0 <= i < j < |cs| ==> cs[i].kind != cs[j].kind
  }

  lemma LookupIs(cs: seq<Condition>, i: nat)
    requires OnePerKind(cs) && i < |cs|
    ensures Lookup(cs, cs[i].kind) == Some(cs[i])
  {
    hide Position;
    var p := Position(cs, cs[i].kind);
    assert p == i;
  }

  /** The first condition of the kind. */
  lemma LookupAt(cs: seq<Condition>, k: Kind, i: int)
    requires -1 <= i < |cs| && (i >= 0 ==> cs[i].kind == k)
    requires forall j :: 0 <= j < (if i < 0 then |cs| else i) ==> cs[j].kind != k
    ensures Lookup(cs, k) == if i < 0 then None else Some(cs[i])
  {
    hide Position;
    var p := Position(cs, k);
    if p >= 0 && i >= 0 { assert p == i; }
  }

  /** Setting and clearing leave what is found of the other kinds, even in lists with several
      conditions of one kind. */
  lemma SetFinds(cs: seq<Condition>, c: Condition, k: Kind)
    ensures Lookup(SetCondition(cs, c), k) == if k == c.kind then Some(c) else Lookup(cs, k)
  {
    hide Position;
    var p, q := Position(cs, c.kind), Position(cs, k);
    LookupAt(SetCondition(cs, c), k, if k == c.kind then (if p < 0 then |cs| else p) else q);
  }

  lemma ClearFinds(cs: seq<Condition>, c: Kind, k: Kind)
    requires k != c
    ensures Lookup(ClearCondition(cs, c), k) == Lookup(cs, k)
  {
    hide Position;
    var p, q := Position(cs, c), Position(cs, k);
    LookupAt(ClearCondition(cs, c), k, if p >= 0 && q > p then q - 1 else q);
  }

  lemma SetLaw(cs: seq<Condition>, c: Condition, k: Kind)
    requires OnePerKind(cs)
    ensures OnePerKind(SetCondition(cs, c))
    ensures Lookup(SetCondition(cs, c), k) == if k == c.kind then Some(c) else Lookup(cs, k)
  {
    hide Position;
    var ds := SetCondition(cs, c);
    var j := Position(cs, k);
    if k == c.kind {
      LookupIs(ds, if j < 0 then |cs| else j);
    } else if j >= 0 {
      assert ds[j] == cs[j];
      LookupIs(ds, j);
    }
  }

  lemma ClearLaw(cs: seq<Condition>, c: Kind, k: Kind)
    requires OnePerKind(cs)
    ensures OnePerKind(ClearCondition(cs, c))
    ensures Lookup(ClearCondition(cs, c), k) == if k == c then None else Lookup(cs, k)
  {
    hide Position;
    ClearIndices(cs, c);
    var p, j := Position(cs, c), Position(cs, k);
    if p >= 0 && k != c && j >= 0 {
      var ds := ClearCondition(cs, c);
      var i := if j < p then j else j - 1;
      assert ds[i] == cs[j];
      LookupIs(ds, i);
    }
  }

  lemma ClearIndices(cs: seq<Condition>, c: Kind)
    requires OnePerKind(cs)
    ensures OnePerKind(ClearCondition(cs, c))
    ensures var p, ds := Position(cs, c), ClearCondition(cs, c);
      && |ds| == (if p < 0 then |cs| else |cs| - 1)
      && (forall m :: 0 <= m < |ds| ==> ds[m] == if p < 0 || m < p then cs[m] else cs[m + 1])
  {
    hide Position;
  }

  /** One update of the list, and a run of them. */
  datatype Update = Set(condition: Condition) | Clear(kind: Kind)

  function Replay(cs: seq<Condition>, us: seq<Update>): seq<Condition> {
    if us == [] then cs
    else match us[|us| - 1]
      case Set(c) => SetCondition(Replay(cs, us[..|us| - 1]), c)
      case Clear(k) => ClearCondition(Replay(cs, us[..|us| - 1]), k)
  }

  /** What the last update about kind k left: the reference the list is compared with. */
  function LastWord(us: seq<Update>, k: Kind): Option<Condition> {
    if us == [] then None
    else match us[|us| - 1]
      case Set(c) => if c.kind == k then Some(c) else LastWord(us[..|us| - 1], k)
      case Clear(j) => if j == k then None else LastWord(us[..|us| - 1], k)
  }

  lemma {:induction false} ReplayReflectsLastWord(us: seq<Update>, k: Kind)
    ensures OnePerKind(Replay([], us))
    ensures Lookup(Replay([], us), k) == LastWord(us, k)
  {
    if us != [] {
      var before := us[..|us| - 1];
      ReplayReflectsLastWord(before, k);
      match us[|us| - 1]
      case Set(c) => SetLaw(Replay([], before), c, k);
      case Clear(j) => ClearLaw(Replay([], before), j, k);
    }
  }

  /** The status object the operator updates in place. */
  class GaleraStatus {
    var phase: Phase
    var conditions: seq<Condition>

    constructor (phase: Phase, conditions: seq<Condition>)
      ensures this.phase == phase && this.conditions == conditions
    {
      this.phase, this.conditions := phase, conditions;
    }

    method GetCondition(k: Kind) returns (i: int, c: Option<Condition>)
      ensures i == Position(conditions, k) && c == Lookup(conditions, k)
    {
      i := 0;
      while i < |conditions|
        invariant 0 <= i <= |conditions|
        invariant forall j :: 0 <= j < i ==> conditions[j].kind != k
      {
        if conditions[i].kind == k {
          assert Position(conditions, k) == i;
          return i, Some(conditions[i]);
        }
        i := i + 1;
      }
      return -1, None;
    }

    method Set(c: Condition)
      modifies `conditions
      ensures conditions == SetCondition(old(conditions), c)
    {
      var i, found := GetCondition(c.kind);
      if found == Some(c) {
        assert conditions[i := c] == conditions;
        return;
      }
      if found.Some? {
        conditions := conditions[i := c];
      } else {
        conditions := conditions + [c];
      }
    }

    method Clear(k: Kind)
      modifies `conditions
      ensures conditions == ClearCondition(old(conditions), k)
    {
      var i, _ := GetCondition(k);
      if i == -1 { return; }
      conditions := conditions[..i] + conditions[i + 1..];
    }
  }
}
