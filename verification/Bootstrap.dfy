/** The addresses a new pod joins the cluster through. */
module Bootstrap {
  import opened ApiStore

  function Without(pods: seq<Pod>, r: Role): seq<Pod> {
    if pods == [] then []
    else (if pods[0].labels.role == Some(r) then [] else [pods[0]]) + Without(pods[1..], r)
  }

  /** Drops the pods of a role when more than one pod is left: all of them, without a new count. */
  function Thin(pods: seq<Pod>, r: Role): seq<Pod> {
    if |pods| > 1 then Without(pods, r) else pods
  }

  /** The pods whose addresses are handed out. */
  function Donors(pods: seq<Pod>): seq<Pod> {
    Thin(Thin(Thin(pods, Special), Writer), BackupWriter)
  }

  /** The joined address list is the empty string. */
  predicate Nobody(donors: seq<Pod>) { donors == [] || (|donors| == 1 && donors[0].ip == "") }

  predicate NoAddress(ready: seq<Pod>) { Nobody(Donors(ready)) }

  predicate AllHold(pods: seq<Pod>, r: Role) {
    forall p :: p in pods ==> p.labels.role == Some(r)
  }

  lemma {:induction false} WithoutIs(pods: seq<Pod>, r: Role)
    ensures forall p :: p in Without(pods, r) <==> p in pods && p.labels.role != Some(r)
    ensures |Without(pods, r)| <= |pods|
    ensures Without(pods, r) == [] <==> AllHold(pods, r)
  {
    if pods != [] {
      WithoutIs(pods[1..], r);
      assert pods[0] in pods;
      assert forall p :: p in pods <==> p == pods[0] || p in pods[1..];
      if pods[0].labels.role != Some(r) {
        assert pods[0] in Without(pods, r);
      }
    }
  }

  /** Every donor is one of the ready pods. */
  lemma DonorsAreReady(pods: seq<Pod>)
    ensures forall p :: p in Donors(pods) ==> p in pods
  {
    WithoutIs(pods, Special);
    var a := Thin(pods, Special);
    WithoutIs(a, Writer);
    WithoutIs(Thin(a, Writer), BackupWriter);
  }

  /** Exactly when the pods without special role leave no donor: there are none, or two or more
      that are all writers, or, the writers set aside, two or more that are all backup writers. */
  lemma NoDonorsExactly(pods: seq<Pod>)
    requires forall p :: p in pods ==> p.labels.role != Some(Special)
    ensures Donors(pods) == [] <==>
      || pods == []
      || (|pods| > 1 && AllHold(pods, Writer))
      || (|pods| > 1 && |Without(pods, Writer)| > 1 && AllHold(Without(pods, Writer), BackupWriter))
  {
    WithoutNone(pods, Special);
    WithoutIs(pods, Writer);
    WithoutIs(Thin(pods, Writer), BackupWriter);
    if |pods| == 1 {
      assert Donors(pods) == pods;
    }
  }

  lemma {:induction false} WithoutNone(pods: seq<Pod>, r: Role)
    requires forall p :: p in pods ==> p.labels.role != Some(r)
    ensures Without(pods, r) == pods
  {
    if pods != [] {
      assert pods[0] in pods;
      WithoutNone(pods[1..], r);
    }
  }

  /** Who hands out an address, in terms of the ready pods: the only pod, whatever its role; of several,
      the one that is not a writer when there is just one of them, and otherwise exactly those that are
      neither writer nor backup writer. */
  ghost predicate HandOut(donors: seq<Pod>, pods: seq<Pod>) {
    && (|pods| <= 1 ==> donors == pods)
    && (|pods| > 1 ==> forall p :: p in donors <==>
          && p in pods && p.labels.role != Some(Writer)
          && (p.labels.role != Some(BackupWriter) || OnlyOther(pods, p)))
  }

  /** All the others are writers. */
  ghost predicate OnlyOther(pods: seq<Pod>, p: Pod) {
    forall q :: q in pods && q != p ==> q.labels.role == Some(Writer)
  }

  /** The thinned list is that, when no ready pod is the special node; with several ready pods a special
      node among them is never a donor. */
  lemma DonorsExactly(pods: seq<Pod>)
    requires forall i, j :: 0 <= i < j < |pods| ==> pods[i] != pods[j]
    ensures (forall p :: p in pods ==> p.labels.role != Some(Special)) ==> HandOut(Donors(pods), pods)
    ensures |pods| > 1 ==> forall p :: p in Donors(pods) ==> p.labels.role != Some(Special)
  {
    hide Without;
    WithoutIs(pods, Special);
    var a := Thin(pods, Special);
    WithoutIs(a, Writer);
    WithoutIs(Thin(a, Writer), BackupWriter);
    if forall p :: p in pods ==> p.labels.role != Some(Special) {
      WithoutNone(pods, Special);
      WithoutDistinct(pods, Writer);
      if |pods| > 1 { TwoOrOne(pods, Without(pods, Writer)); }
    }
  }

  /** The pods left without the writers: with two of them, none is the only one, and with one it is. */
  lemma TwoOrOne(pods: seq<Pod>, rest: seq<Pod>)
    requires forall p :: p in rest <==> p in pods && p.labels.role != Some(Writer)
    requires forall i, j :: 0 <= i < j < |rest| ==> rest[i] != rest[j]
    ensures forall p :: p in rest ==> (OnlyOther(pods, p) <==> |rest| == 1)
  {
    forall p | p in rest ensures OnlyOther(pods, p) <==> |rest| == 1 {
      if |rest| == 1 {
        assert p == rest[0];
      } else {
        var q := if p == rest[0] then rest[1] else rest[0];
        assert rest[0] != rest[1] && q in rest && q != p;
      }
    }
  }

  /** At most one pod of the list holds the role. */
  ghost predicate AtMostOne(pods: seq<Pod>, r: Role) {
    forall i, j :: 0 <= i < j < |pods| ==> !(pods[i].labels.role == Some(r) && pods[j].labels.role == Some(r))
  }

  /** With at most one holder of each role and an address on every ready pod, there is an address
      to join exactly when some pod is ready. */
  lemma AddressWheneverReady(pods: seq<Pod>)
    requires forall p :: p in pods ==> p.labels.role != Some(Special) && p.ip != ""
    requires AtMostOne(pods, Writer) && AtMostOne(pods, BackupWriter)
    ensures NoAddress(pods) <==> pods == []
  {
    NoDonorsExactly(pods);
    DonorsAreReady(pods);
    if Donors(pods) != [] {
      assert Donors(pods)[0] in pods;
    }
    WithoutAtMostOne(pods, Writer, BackupWriter);
    if |pods| > 1 {
      assert pods[0] in pods && pods[1] in pods;
      var rest := Without(pods, Writer);
      if |rest| > 1 {
        assert rest[0] in rest && rest[1] in rest;
      }
    }
  }

  lemma {:induction false} WithoutAtMostOne(pods: seq<Pod>, out: Role, r: Role)
    requires AtMostOne(pods, r)
    ensures AtMostOne(Without(pods, out), r)
  {
    if pods != [] {
      var rest := Without(pods[1..], out);
      WithoutAtMostOne(pods[1..], out, r);
      WithoutIs(pods[1..], out);
      HolderAlone(pods, r);
      if pods[0].labels.role == Some(out) {
        assert [] + rest == rest;
      } else {
        OneBefore(pods[0], rest, r);
      }
    }
  }

  lemma HolderAlone(pods: seq<Pod>, r: Role)
    requires AtMostOne(pods, r) && pods != []
    ensures pods[0].labels.role == Some(r) ==> forall p :: p in pods[1..] ==> p.labels.role != Some(r)
  {
  }

  lemma OneBefore(p: Pod, rest: seq<Pod>, r: Role)
    requires AtMostOne(rest, r) && (p.labels.role == Some(r) ==> forall q :: q in rest ==> q.labels.role != Some(r))
    ensures AtMostOne([p] + rest, r)
  {
  }

  /** getBootstrapAddresses: a map from pods to addresses, thinned in place; the map is walked and
      the addresses are joined in no particular order, here `order`. */
  method BootstrapAddresses(pods: seq<Pod>) returns (addresses: seq<string>, ghost order: seq<Pod>)
    requires forall i, j :: 0 <= i < j < |pods| ==> pods[i] != pods[j]
    ensures (forall p :: p in pods ==> p.labels.role != Some(Special)) ==> HandOut(order, pods)
    ensures |pods| > 1 ==> forall p :: p in order ==> p.labels.role != Some(Special)
    ensures |addresses| == |order| == |Donors(pods)|
    ensures forall p :: p in order <==> p in Donors(pods)
    ensures forall i :: 0 <= i < |order| ==> addresses[i] == order[i].ip
    ensures NoAddress(pods) <==> addresses == [] || addresses == [""]
  {
    hide Without, HandOut, Keyed;
    var m := map p | p in pods :: p.ip;
    m := RemoveRole(m, Special, pods);
    m := RemoveRole(m, Writer, Thin(pods, Special));
    m := RemoveRole(m, BackupWriter, Thin(Thin(pods, Special), Writer));
    addresses, order := WalkMap(m, Donors(pods));
    assert |order| == 1 ==> order[0] in Donors(pods);
    SameDonors(order, Donors(pods), pods);
    DonorsExactly(pods);
  }

  lemma SameDonors(order: seq<Pod>, donors: seq<Pod>, pods: seq<Pod>)
    requires |order| == |donors| && forall p :: p in order <==> p in donors
    ensures HandOut(donors, pods) ==> HandOut(order, pods)
  {
    assert |order| == 1 ==> order[0] in order;
  }

  method WalkMap(m: map<Pod, string>, ghost pods: seq<Pod>) returns (addresses: seq<string>, ghost order: seq<Pod>)
    requires Keyed(m, pods)
    ensures |addresses| == |order| == |pods|
    ensures forall p :: p in order <==> p in pods
    ensures forall i :: 0 <= i < |order| ==> addresses[i] == order[i].ip
  {
    KeyedSize(m.Keys, pods);
    addresses, order := [], [];
    var todo := m.Keys;
    while todo != {}
      invariant todo <= m.Keys
      invariant forall p :: p in pods <==> p in todo || p in order
      invariant |addresses| == |order| && |order| + |todo| == |pods|
      invariant forall i :: 0 <= i < |order| ==> addresses[i] == order[i].ip
      decreases |todo|
    {
      var p :| p in todo;
      addresses, order := addresses + [m[p]], order + [p];
      todo := todo - {p};
    }
  }

  /** The map holds exactly the pods of the list, each once, with its address. */
  ghost predicate Keyed(m: map<Pod, string>, pods: seq<Pod>) {
    && (forall i, j :: 0 <= i < j < |pods| ==> pods[i] != pods[j])
    && (forall p :: p in m.Keys <==> p in pods)
    && (forall p :: p in m.Keys ==> m[p] == p.ip)
  }

  lemma {:induction false} KeyedSize(keys: set<Pod>, pods: seq<Pod>)
    requires forall i, j :: 0 <= i < j < |pods| ==> pods[i] != pods[j]
    requires forall p :: p in keys <==> p in pods
    ensures |keys| == |pods|
    decreases pods
  {
    if pods == [] {
      assert keys == {};
    } else {
      assert pods[0] in keys;
      assert forall p :: p in pods[1..] ==> p != pods[0];
      KeyedSize(keys - {pods[0]}, pods[1..]);
    }
  }

  lemma {:induction false} WithoutDistinct(pods: seq<Pod>, r: Role)
    requires forall i, j :: 0 <= i < j < |pods| ==> pods[i] != pods[j]
    ensures forall i, j :: 0 <= i < j < |Without(pods, r)| ==> Without(pods, r)[i] != Without(pods, r)[j]
  {
    if pods != [] {
      WithoutDistinct(pods[1..], r);
      WithoutIs(pods[1..], r);
      assert pods[0] !in pods[1..];
    }
  }

  method RemoveRole(m: map<Pod, string>, r: Role, ghost pods: seq<Pod>) returns (n: map<Pod, string>)
    requires Keyed(m, pods)
    ensures Keyed(n, Thin(pods, r))
  {
    n := m;
    KeyedSize(m.Keys, pods);
    WithoutIs(pods, r);
    WithoutDistinct(pods, r);
    assert |m| == |m.Keys|;
    if |m| > 1 {
      var todo := m.Keys;
      while todo != {}
        invariant todo <= m.Keys
        invariant forall p :: p in n.Keys <==> p in m.Keys && (p in todo || p.labels.role != Some(r))
        invariant forall p :: p in n.Keys ==> n[p] == m[p]
        decreases |todo|
      {
        var p :| p in todo;
        todo := todo - {p};
        if p.labels.role == Some(r) {
          n := n - {p};
        }
      }
    }
  }
}
