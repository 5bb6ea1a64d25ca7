/** Names of pods and claims: how they are built from a cluster's name and a suffix, and read back. */
module Names {
  import opened ApiStore
  import Round

  const MAX_K8S_NAME_LENGTH := 63
  const RANDOM_SUFFIX_LENGTH := 5
  const CLAIM_PREFIX := "pvc-"
  const BACKUP_CLAIM_PREFIX := "pvcbkp-"
  const MAX_NAME_LENGTH := MAX_K8S_NAME_LENGTH - RANDOM_SUFFIX_LENGTH - 1 - 7

  predicate SuffixChar(c: char) { '0' <= c <= '9' || 'a' <= c <= 'z' }

  /** What the expression for suffixes accepts. */
  predicate Suffixed(s: string) { s != "" && forall i :: 0 <= i < |s| ==> SuffixChar(s[i]) }

  /** A suffix the operator draws. */
  predicate Drawn(s: string) { Suffixed(s) && |s| == RANDOM_SUFFIX_LENGTH }

  // ---- Building ---------------------------------------------------------------------------

  function Shortened(cluster: string): string {
    if |cluster| > MAX_NAME_LENGTH then cluster[..MAX_NAME_LENGTH] else cluster
  }

  function PodName(cluster: string, suffix: string): string { Shortened(cluster) + "-" + suffix }

  /** The prefix and the name, whose beginning is cut when the whole would be too long. */
  function BuildName(name: string, prefix: string): string
    requires |prefix| <= MAX_K8S_NAME_LENGTH
  {
    var l := MAX_K8S_NAME_LENGTH - |prefix| - |name|;
    var t := if l < 0 then -l else 0;
    prefix + name[t..]
  }

  function ClaimNameForPod(pod: string): string { BuildName(pod, CLAIM_PREFIX) }

  function BackupClaimNameForPod(pod: string): string { BuildName(pod, BACKUP_CLAIM_PREFIX) }

  function ClaimName(cluster: string, suffix: string): string { ClaimNameForPod(PodName(cluster, suffix)) }

  function BackupClaimName(cluster: string, suffix: string): string { BackupClaimNameForPod(PodName(cluster, suffix)) }

  // ---- Reading ----------------------------------------------------------------------------

  /** The position of the last dash. */
  function LastDash(name: string): (i: int)
    ensures -1 <= i < |name|
    ensures i >= 0 ==> name[i] == '-'
    ensures forall j :: i < j < |name| ==> name[j] != '-'
  {
    if name == "" then -1
    else if name[|name| - 1] == '-' then |name| - 1
    else LastDash(name[..|name| - 1])
  }

  datatype Parts = Parts(parent: string, suffix: string)

  /** Parent and suffix; both empty when the name has no suffix. */
  function Parse(name: string): Parts {
    var i := LastDash(name);
    if i >= 0 && Suffixed(name[i + 1..]) then Parts(name[..i], name[i + 1..]) else Parts("", "")
  }

  predicate HasPrefix(s: string, prefix: string) { |s| >= |prefix| && s[..|prefix|] == prefix }

  datatype ClaimParts = ClaimParts(parent: string, suffix: string, backup: bool)

  function ParseClaim(name: string): ClaimParts {
    var p := Parse(name);
    if p.suffix == "" then ClaimParts("", "", false)
    else if HasPrefix(p.parent, CLAIM_PREFIX) then ClaimParts(p.parent[|CLAIM_PREFIX|..], p.suffix, false)
    else if HasPrefix(p.parent, BACKUP_CLAIM_PREFIX) then ClaimParts(p.parent[|BACKUP_CLAIM_PREFIX|..], p.suffix, true)
    else ClaimParts("", "", false)
  }

  predicate PodIsMember(cluster: string, pod: string) { Parse(pod).parent == cluster }

  predicate ClaimIsMember(cluster: string, claim: string) { ParseClaim(claim).parent == cluster }

  // ---- Round trips ------------------------------------------------------------------------

  lemma DashFound(parent: string, suffix: string)
    requires Suffixed(suffix)
    ensures LastDash(parent + "-" + suffix) == |parent|
  {
    hide LastDash;
    LastDashOf(parent + "-", suffix);
  }

  lemma LastDashOf(head: string, suffix: string)
    requires head != "" && head[|head| - 1] == '-' && Suffixed(suffix)
    ensures LastDash(head + suffix) == |head| - 1
  {
    hide LastDash;
    var name := head + suffix;
    assert name[|head| - 1] == '-';
    forall j | |head| <= j < |name| ensures name[j] != '-' {
      assert name[j] == suffix[j - |head|];
    }
  }

  lemma ParseBuilt(parent: string, suffix: string)
    requires Suffixed(suffix)
    ensures Parse(parent + "-" + suffix) == Parts(parent, suffix)
  {
    hide LastDash, Suffixed;
    DashFound(parent, suffix);
    var name := parent + "-" + suffix;
    assert name[..|parent|] == parent && name[|parent| + 1..] == suffix;
  }

  /** Parsing is the inverse of joining: what is read back gives the name again. */
  lemma BuiltFromParse(name: string)
    ensures Parse(name).suffix != "" ==> name == Parse(name).parent + "-" + Parse(name).suffix && Suffixed(Parse(name).suffix)
  {
    hide LastDash;
    var i := LastDash(name);
    if i >= 0 {
      assert name == name[..i] + [name[i]] + name[i + 1..];
    }
  }

  /** A pod's name gives back its suffix, and the cluster's name as far as it was used. */
  lemma PodRoundTrip(cluster: string, suffix: string)
    requires Suffixed(suffix)
    ensures Parse(PodName(cluster, suffix)) == Parts(Shortened(cluster), suffix)
    ensures |cluster| <= 50 ==> Parse(PodName(cluster, suffix)) == Parts(cluster, suffix)
  {
    hide Parse, Suffixed;
    ParseBuilt(Shortened(cluster), suffix);
  }

  /** No name the operator builds is too long, and no claim name is cut. */
  lemma NamesFit(cluster: string, suffix: string)
    requires Drawn(suffix)
    ensures |PodName(cluster, suffix)| <= 56
    ensures ClaimName(cluster, suffix) == "pvc-" + PodName(cluster, suffix) && |ClaimName(cluster, suffix)| <= 63
    ensures BackupClaimName(cluster, suffix) == "pvcbkp-" + PodName(cluster, suffix)
      && |BackupClaimName(cluster, suffix)| <= 63
    ensures |cluster| <= 50 ==> PodName(cluster, suffix) == cluster + "-" + suffix
  {
    hide Suffixed;
    var pod := PodName(cluster, suffix);
    assert |pod| == |Shortened(cluster)| + 1 + |suffix|;
    assert pod[0..] == pod;
  }

  lemma PrefixesDiffer(s: string)
    ensures !(HasPrefix(s, CLAIM_PREFIX) && HasPrefix(s, BACKUP_CLAIM_PREFIX))
  {
    hide HasPrefix;
    PrefixAt(s, CLAIM_PREFIX, 3);
    PrefixAt(s, BACKUP_CLAIM_PREFIX, 3);
  }

  lemma PrefixAt(s: string, prefix: string, i: nat)
    requires i < |prefix|
    ensures HasPrefix(s, prefix) ==> i < |s| && s[i] == prefix[i]
  {
    if HasPrefix(s, prefix) { assert s[..|prefix|][i] == s[i]; }
  }

  lemma PrefixHeld(prefix: string, rest: string)
    ensures HasPrefix(prefix + rest, prefix) && (prefix + rest)[|prefix|..] == rest
  {
  }

  /** Claim names give back the cluster's name as far as it was used, the suffix and the kind. */
  lemma ClaimRoundTrip(cluster: string, suffix: string)
    requires Drawn(suffix)
    ensures ParseClaim(ClaimName(cluster, suffix)) == ClaimParts(Shortened(cluster), suffix, false)
    ensures ParseClaim(BackupClaimName(cluster, suffix)) == ClaimParts(Shortened(cluster), suffix, true)
  {
    hide Parse, PodName, BuildName, HasPrefix;
    NamesFit(cluster, suffix);
    ClaimParsed(CLAIM_PREFIX, cluster, suffix);
    ClaimParsed(BACKUP_CLAIM_PREFIX, cluster, suffix);
    PrefixesDiffer(BACKUP_CLAIM_PREFIX + Shortened(cluster));
  }

  lemma ClaimParsed(prefix: string, cluster: string, suffix: string)
    requires Suffixed(suffix)
    ensures Parse(prefix + PodName(cluster, suffix)) == Parts(prefix + Shortened(cluster), suffix)
    ensures HasPrefix(prefix + Shortened(cluster), prefix) && (prefix + Shortened(cluster))[|prefix|..] == Shortened(cluster)
    ensures suffix != ""
  {
    hide Parse;
    ParseBuilt(prefix + Shortened(cluster), suffix);
    Regroup(prefix, Shortened(cluster), "-");
    Regroup(prefix, Shortened(cluster) + "-", suffix);
    PrefixHeld(prefix, Shortened(cluster));
  }

  /** Data and backup names never collide, whatever the pods are called. */
  lemma KindsNeverCollide(pod: string, other: string)
    ensures ClaimNameForPod(pod) != BackupClaimNameForPod(other)
  {
    assert ClaimNameForPod(pod)[3] == '-';
    assert BackupClaimNameForPod(other)[3] == 'b';
  }

  /** The objects created for a cluster pass the membership test exactly when its name has at most
      fifty characters: a longer one is shortened in the names but compared in full. */
  lemma MembershipExactly(cluster: string, suffix: string)
    requires Drawn(suffix)
    ensures PodIsMember(cluster, PodName(cluster, suffix)) <==> |cluster| <= 50
    ensures ClaimIsMember(cluster, ClaimName(cluster, suffix)) <==> |cluster| <= 50
    ensures ClaimIsMember(cluster, BackupClaimName(cluster, suffix)) <==> |cluster| <= 50
  {
    hide Parse, ParseClaim, PodName, BuildName;
    PodRoundTrip(cluster, suffix);
    ClaimRoundTrip(cluster, suffix);
  }

  /** Among the members of a cluster, pods and claims are told apart by suffix and kind: the name is
      what the operator would build from them. */
  lemma MembersAreNamedBySuffix(cluster: string, name: string)
    requires 0 < |cluster| <= 50
    ensures PodIsMember(cluster, name) ==> name == PodName(cluster, Parse(name).suffix)
    ensures ClaimIsMember(cluster, name) && Drawn(ParseClaim(name).suffix) ==>
      name == if ParseClaim(name).backup then BackupClaimName(cluster, ParseClaim(name).suffix)
              else ClaimName(cluster, ParseClaim(name).suffix)
  {
    hide Parse, HasPrefix;
    BuiltFromParse(name);
    ParentNeedsSuffix(name);
    if ClaimIsMember(cluster, name) && Drawn(ParseClaim(name).suffix) {
      var p := Parse(name);
      var prefix := if ParseClaim(name).backup then BACKUP_CLAIM_PREFIX else CLAIM_PREFIX;
      PrefixSplit(p.parent, prefix);
      NamesFit(cluster, p.suffix);
      Regroup(prefix, cluster, "-");
      Regroup(prefix, cluster + "-", p.suffix);
    }
  }

  lemma ParentNeedsSuffix(name: string)
    ensures Parse(name).suffix == "" ==> Parse(name).parent == ""
  {
    hide LastDash;
  }

  lemma PrefixSplit(s: string, prefix: string)
    ensures HasPrefix(s, prefix) ==> s == prefix + s[|prefix|..]
  {
  }

  /** The two ways of naming the data claim of a pod agree for cluster names of every length: from
      the pod's name, and from the cluster's name and the suffix read from the pod's name. */
  lemma TwoWaysAgree(cluster: string, suffix: string)
    requires Suffixed(suffix)
    ensures var pod := PodName(cluster, suffix);
      && ClaimNameForPod(pod) == ClaimName(cluster, Parse(pod).suffix)
      && BackupClaimNameForPod(pod) == BackupClaimName(cluster, Parse(pod).suffix)
  {
    hide Parse;
    PodRoundTrip(cluster, suffix);
  }

  // ---- Drawing a name ---------------------------------------------------------------------

  /** createUniquePodName: an available suffix if there is one, otherwise draws until one is free. */
  method CreateUniquePodName(cluster: string, existing: seq<Suffix>, available: seq<Suffix>, draws: seq<Suffix>)
    returns (name: string)
    requires exists d :: d in draws && d !in existing
    ensures name == PodName(cluster, if available != [] then available[0] else Round.FirstFresh(draws, existing))
    ensures available == [] ==> Round.FirstFresh(draws, existing) !in existing && Round.FirstFresh(draws, existing) in draws
  {
    var picked: Suffix;
    if |available| > 0 {
      picked := available[0];
    } else {
      picked := draws[0];
      var unique := false;
      var i := 0;
      assert draws[0..] == draws;
      while !unique
        invariant 0 <= i <= |draws|
        invariant !unique ==> exists d :: d in draws[i..] && d !in existing
        invariant !unique ==> Round.FirstFresh(draws[i..], existing) == Round.FirstFresh(draws, existing)
        invariant unique ==> picked == Round.FirstFresh(draws, existing) && picked !in existing && picked in draws
        decreases |draws| - i, !unique
      {
        picked := draws[i];
        assert draws[i..][0] == picked && draws[i..][1..] == draws[i + 1..];
        unique := true;
        for k := 0 to |existing|
          invariant unique <==> picked !in existing[..k]
        {
          if existing[k] == picked {
            unique := false;
          }
          assert existing[..k + 1] == existing[..k] + [existing[k]];
        }
        assert existing[..|existing|] == existing;
        if !unique {
          var d :| d in draws[i..] && d !in existing;
          assert d in draws[i + 1..];
        }
        i := i + 1;
      }
    }
    var base := cluster;
    if |base| > MAX_NAME_LENGTH {
      base := base[..MAX_NAME_LENGTH];
    }
    name := base + "-" + picked;
  }
}
