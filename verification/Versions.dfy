/** The version order that permits an upgrade of the image. The three components of a version are
    compared as strings. */
module Versions {
  import opened ApiStore
  import opened Sync

  datatype Version = Version(major: string, minor: string, patch: string)

  const NO_VERSION := Version("", "", "")

  predicate Digit(c: char) { '0' <= c <= '9' }

  predicate Digits(s: string) { forall i :: 0 <= i < |s| ==> Digit(s[i]) }

  // ---- Reading a version ------------------------------------------------------------------

  /** How many digits the text begins with. */
  function DigitRun(s: string): (n: nat)
    ensures n <= |s| && Digits(s[..n]) && (n < |s| ==> !Digit(s[n]))
  {
    if s == "" || !Digit(s[0]) then 0
    else
      var n := DigitRun(s[1..]) + 1;
      assert forall i :: 0 < i < n ==> s[..n][i] == s[1..][..n - 1][i - 1];
      n
  }

  /** Three runs of digits, possibly empty, with dots between them. */
  function ReadVersion(s: string): Option<Version> {
    var a := DigitRun(s);
    if a == |s| || s[a] != '.' then None
    else
      var rest := s[a + 1..];
      var b := DigitRun(rest);
      if b == |rest| || rest[b] != '.' then None
      else
        var last := rest[b + 1..];
        Some(Version(s[..a], rest[..b], last[..DigitRun(last)]))
  }

  /** The version after the last colon that is followed by one. */
  function ImageVersion(name: string, upTo: nat): Version
    requires upTo <= |name|
  {
    if upTo == 0 then NO_VERSION
    else if name[upTo - 1] == ':' && ReadVersion(name[upTo..]).Some? then ReadVersion(name[upTo..]).value
    else ImageVersion(name, upTo - 1)
  }

  function VersionOf(image: Image): Version { ImageVersion(image, |image|) }

  lemma {:induction false} RunOf(digits: string, rest: string)
    requires Digits(digits) && (rest != "" ==> !Digit(rest[0]))
    ensures DigitRun(digits + rest) == |digits|
  {
    if digits != "" {
      assert (digits + rest)[1..] == digits[1..] + rest;
      assert Digits(digits[1..]);
      RunOf(digits[1..], rest);
    } else {
      assert digits + rest == rest;
    }
  }

  lemma {:induction false} VersionAtColon(name: string, upTo: nat, at: nat)
    requires at < upTo <= |name| && name[at] == ':' && ReadVersion(name[at + 1..]).Some?
    requires forall i :: at < i < upTo ==> name[i] != ':'
    ensures ImageVersion(name, upTo) == ReadVersion(name[at + 1..]).value
    decreases upTo
  {
    if upTo > at + 1 { VersionAtColon(name, upTo - 1, at); }
  }

  function VersionText(v: Version): string { v.major + "." + v.minor + "." + v.patch }

  lemma ReadBack(v: Version, rest: string)
    requires Digits(v.major) && Digits(v.minor) && Digits(v.patch) && (rest != "" ==> !Digit(rest[0]))
    ensures ReadVersion(VersionText(v) + rest) == Some(v)
  {
    hide DigitRun;
    var c := v.patch + rest;
    var b := v.minor + "." + c;
    var a := v.major + "." + b;
    Dotted(v.major, b);
    Dotted(v.minor, c);
    RunOf(v.patch, rest);
    assert c[..|v.patch|] == v.patch;
    VersionRegrouped(v, rest);
  }

  lemma VersionRegrouped(v: Version, rest: string)
    ensures VersionText(v) + rest == v.major + "." + (v.minor + "." + (v.patch + rest))
  {
    var head := v.major + "." + v.minor;
    var c := v.patch + rest;
    Regroup(head + ".", v.patch, rest);
    Regroup(head, ".", c);
    Regroup(v.major + ".", v.minor, "." + c);
    Regroup(v.minor, ".", c);
  }

  /** A run of digits ended by a dot. */
  lemma Dotted(digits: string, rest: string)
    requires Digits(digits)
    ensures var s := digits + "." + rest; var n := |digits|;
      DigitRun(s) == n && s[n] == '.' && s[..n] == digits && s[n + 1..] == rest
  {
    hide DigitRun;
    RunOf(digits, "." + rest);
    Regroup(digits, ".", rest);
  }

  /** The version of an image is the one its tag begins with. */
  lemma TagIsRead(repository: string, v: Version, rest: string)
    requires Digits(v.major) && Digits(v.minor) && Digits(v.patch) && (rest != "" ==> !Digit(rest[0])) && ':' !in rest
    ensures VersionOf(repository + ":" + VersionText(v) + rest) == v
  {
    var tag := VersionText(v) + rest;
    var name := repository + ":" + VersionText(v) + rest;
    Regroup(repository + ":", VersionText(v), rest);
    ReadBack(v, rest);
    assert name[|repository| + 1..] == tag;
    forall i | |repository| < i < |name| ensures name[i] != ':' {
      assert name[i] == tag[i - |repository| - 1];
      TagHasNoColon(v, rest, i - |repository| - 1);
    }
    VersionAtColon(name, |name|, |repository|);
  }

  lemma TagHasNoColon(v: Version, rest: string, i: nat)
    requires Digits(v.major) && Digits(v.minor) && Digits(v.patch) && ':' !in rest && i < |VersionText(v) + rest|
    ensures (VersionText(v) + rest)[i] != ':'
  {
    var a, b := |v.major|, |v.major| + 1 + |v.minor|;
    var text := VersionText(v);
    if i >= |text| {
      assert (text + rest)[i] == rest[i - |text|];
    } else if i > b {
      assert text[i] == v.patch[i - b - 1];
    } else if a < i < b {
      assert text[i] == v.minor[i - a - 1];
    }
  }

  // ---- The order --------------------------------------------------------------------------

  /** The order of strings: by the first difference, a beginning before the whole. */
  predicate Less(a: string, b: string)
    decreases a
  {
    b != "" && (a == "" || a[0] < b[0] || (a[0] == b[0] && Less(a[1..], b[1..])))
  }

  /** isImageGreater, on versions. */
  predicate NotBelow(current: Version, next: Version) {
    if Less(next.major, current.major) then false
    else if Less(current.major, next.major) then true
    else if Less(next.minor, current.minor) then false
    else if Less(current.minor, next.minor) then true
    else !Less(next.patch, current.patch)
  }

  predicate IsImageGreater(current: Image, next: Image) { NotBelow(VersionOf(current), VersionOf(next)) }

  lemma {:induction false} LessIsTotal(a: string, b: string)
    ensures !(Less(a, b) && Less(b, a))
    ensures Less(a, b) || Less(b, a) || a == b
    ensures !Less(a, a)
    decreases a
  {
    if a != "" {
      LessIsTotal(a[1..], a[1..]);
      if b != "" {
        LessIsTotal(a[1..], b[1..]);
        assert a == [a[0]] + a[1..] && b == [b[0]] + b[1..];
      }
    }
  }

  lemma {:induction false} LessIsTransitive(a: string, b: string, c: string)
    requires Less(a, b) && Less(b, c)
    ensures Less(a, c)
    decreases a
  {
    if a != "" && a[0] == b[0] == c[0] { LessIsTransitive(a[1..], b[1..], c[1..]); }
  }

  /** Any two versions are comparable, and only the same version is comparable both ways. */
  lemma OrderIsTotal(a: Version, b: Version)
    ensures NotBelow(a, b) || NotBelow(b, a)
    ensures NotBelow(a, b) && NotBelow(b, a) <==> a == b
  {
    hide Less;
    LessIsTotal(a.major, b.major);
    LessIsTotal(a.minor, b.minor);
    LessIsTotal(a.patch, b.patch);
    LessIsTotal(a.major, a.major);
    LessIsTotal(a.minor, a.minor);
    LessIsTotal(a.patch, a.patch);
  }

  lemma LessChain(a: string, b: string, c: string)
    ensures !Less(b, a) && !Less(c, b) ==> !Less(c, a) && (Less(a, b) || Less(b, c) ==> Less(a, c))
  {
    LessIsTotal(a, b);
    LessIsTotal(b, c);
    LessIsTotal(a, c);
    if Less(a, b) && Less(b, c) { LessIsTransitive(a, b, c); }
  }

  lemma OrderIsTransitive(a: Version, b: Version, c: Version)
    requires NotBelow(a, b) && NotBelow(b, c)
    ensures NotBelow(a, c)
  {
    hide Less;
    LessChain(a.major, b.major, c.major);
    LessChain(a.minor, b.minor, c.minor);
    LessChain(a.patch, b.patch, c.patch);
    LessIsTotal(a.major, b.major);
    LessIsTotal(b.major, c.major);
    LessIsTotal(a.minor, b.minor);
    LessIsTotal(b.minor, c.minor);
  }

  /** A chain of accepted upgrades never goes down. */
  lemma {:induction false} ChainsNeverGoDown(images: seq<Image>, i: nat, j: nat)
    requires i <= j < |images|
    requires forall k :: 0 <= k < |images| - 1 ==> images[k] == images[k + 1] || IsImageGreater(images[k], images[k + 1])
    ensures IsImageGreater(images[i], images[j])
    decreases j
  {
    hide VersionOf, NotBelow;
    OrderIsTotal(VersionOf(images[i]), VersionOf(images[i]));
    if i < j {
      ChainsNeverGoDown(images, i, j - 1);
      assert images[j - 1] == images[j - 1 + 1] || IsImageGreater(images[j - 1], images[j - 1 + 1]);
      if IsImageGreater(images[j - 1], images[j]) {
        OrderIsTransitive(VersionOf(images[i]), VersionOf(images[j - 1]), VersionOf(images[j]));
      }
    }
  }

  // ---- Against numbers --------------------------------------------------------------------

  function DigitValue(c: char): nat
    requires Digit(c)
  {
    c as int - '0' as int
  }

  function Number(s: string): nat
    requires Digits(s)
  {
    if s == "" then 0 else Number(s[..|s| - 1]) * 10 + DigitValue(s[|s| - 1])
  }

  /** Precedence by major, minor and patch as numbers: item 11 of Semantic Versioning 2.0.0. */
  predicate Precedes(a: Version, b: Version)
    requires Numeric(a) && Numeric(b)
  {
    || Number(a.major) < Number(b.major)
    || (Number(a.major) == Number(b.major) &&
          (|| Number(a.minor) < Number(b.minor)
           || (Number(a.minor) == Number(b.minor) && Number(a.patch) < Number(b.patch))))
  }

  predicate Numeric(v: Version) { Digits(v.major) && Digits(v.minor) && Digits(v.patch) }

  /** A number as item 2 of Semantic Versioning 2.0.0 wants it: not empty, no leading zero. */
  predicate Canonical(s: string) { Digits(s) && s != "" && (|s| > 1 ==> s[0] != '0') }

  lemma {:induction false} LessByLast(a: string, b: string)
    requires |a| == |b| > 0
    ensures var n := |a| - 1; Less(a, b) <==> Less(a[..n], b[..n]) || (a[..n] == b[..n] && a[n] < b[n])
    decreases a
  {
    var n := |a| - 1;
    if n > 0 {
      LessByLast(a[1..], b[1..]);
      assert a[1..][..n - 1] == a[..n][1..] && b[1..][..n - 1] == b[..n][1..];
      assert a[..n] == [a[0]] + a[..n][1..] && b[..n] == [b[0]] + b[..n][1..];
    } else {
      assert a[1..] == "" && b[1..] == "" && a[..0] == "" && b[..0] == "";
    }
  }

  /** With equally many digits, the order of strings is the order of numbers. */
  lemma {:induction false} SameWidth(a: string, b: string)
    requires Digits(a) && Digits(b) && |a| == |b|
    ensures Less(a, b) <==> Number(a) < Number(b)
    ensures a == b <==> Number(a) == Number(b)
    decreases a
  {
    if a != "" {
      var n := |a| - 1;
      LessByLast(a, b);
      SameWidth(a[..n], b[..n]);
      assert a == a[..n] + [a[n]] && b == b[..n] + [b[n]];
    }
  }

  /** More digits and no leading zero: the greater number. */
  lemma {:induction false} WiderIsGreater(a: string, b: string)
    requires Digits(a) && Digits(b) && |a| < |b| && b[0] != '0'
    ensures Number(a) < Number(b)
    decreases b
  {
    var n := |b| - 1;
    if a == "" {
      if n > 0 {
        assert b[..n][0] == b[0];
        WiderIsGreater("", b[..n]);
      } else {
        assert b[..0] == "";
      }
    } else {
      assert b[..n][0] == b[0];
      WiderIsGreater(a[..|a| - 1], b[..n]);
    }
  }

  /** The number with fewer digits outranks the other one as a string. */
  predicate Outranks(a: string, b: string) { |a| < |b| && Less(b[..|a|], a) }

  lemma {:induction false} LessByPrefix(a: string, b: string)
    requires |a| < |b|
    ensures Less(a, b) <==> !Less(b[..|a|], a)
    ensures Less(b, a) <==> Less(b[..|a|], a)
    decreases a
  {
    if a != "" {
      LessByPrefix(a[1..], b[1..]);
      assert b[..|a|][1..] == b[1..][..|a| - 1];
    }
  }

  /** Two numbers compare alike as strings and as numbers exactly when the one with fewer digits does
      not outrank the other. */
  lemma ComponentsExactly(a: string, b: string)
    requires Canonical(a) && Canonical(b)
    ensures (Less(a, b) <==> Number(a) < Number(b)) && (Less(b, a) <==> Number(b) < Number(a)) <==>
      !Outranks(a, b) && !Outranks(b, a)
    ensures a == b <==> Number(a) == Number(b)
  {
    hide Less, Number;
    if |a| == |b| {
      SameWidth(a, b);
      SameWidth(b, a);
    } else if |a| < |b| {
      WiderIsGreater(a, b);
      LessByPrefix(a, b);
    } else {
      WiderIsGreater(b, a);
      LessByPrefix(b, a);
    }
  }

  /** The components that decide between two versions: the first that differ. */
  function Deciding(a: Version, b: Version): (string, string) {
    if a.major != b.major then (a.major, b.major)
    else if a.minor != b.minor then (a.minor, b.minor)
    else (a.patch, b.patch)
  }

  /** The check agrees with numeric precedence exactly when, of the first components that differ, the
      one with fewer digits does not outrank the other. */
  lemma OrderAgreesExactly(current: Version, next: Version)
    requires Canonical(current.major) && Canonical(current.minor) && Canonical(current.patch)
    requires Canonical(next.major) && Canonical(next.minor) && Canonical(next.patch)
    ensures var (a, b) := Deciding(current, next);
      (NotBelow(current, next) <==> !Precedes(next, current)) <==> !Outranks(a, b) && !Outranks(b, a)
  {
    hide Less, Number, Outranks;
    ComponentsExactly(current.major, next.major);
    ComponentsExactly(current.minor, next.minor);
    ComponentsExactly(current.patch, next.patch);
    LessIsTotal(current.major, next.major);
    LessIsTotal(current.minor, next.minor);
    LessIsTotal(current.patch, next.patch);
  }

  /** In particular with as many digits in each component; leading zeros do no harm then. */
  lemma SameWidthsAgree(current: Version, next: Version)
    requires Numeric(current) && Numeric(next)
    requires |current.major| == |next.major| && |current.minor| == |next.minor| && |current.patch| == |next.patch|
    ensures NotBelow(current, next) <==> !Precedes(next, current)
  {
    hide Less, Number;
    SameWidth(current.major, next.major);
    SameWidth(next.major, current.major);
    SameWidth(current.minor, next.minor);
    SameWidth(next.minor, current.minor);
    SameWidth(next.patch, current.patch);
  }

  /** From 10.4.2 to 10.4.12 is refused as a step down, and the way back is accepted. */
  lemma PatchTwoAgainstTwelve()
    ensures !IsImageGreater("mariadb:10.4.2", "mariadb:10.4.12")
    ensures IsImageGreater("mariadb:10.4.12", "mariadb:10.4.2")
  {
    hide ImageVersion, Less;
    var two, twelve := Version("10", "4", "2"), Version("10", "4", "12");
    TagIsRead("mariadb", two, "");
    TagIsRead("mariadb", twelve, "");
    assert "mariadb" + ":" + VersionText(two) + "" == "mariadb:10.4.2";
    assert "mariadb" + ":" + VersionText(twelve) + "" == "mariadb:10.4.12";
    LessIsTotal("10", "10");
    LessIsTotal("4", "4");
    TwelveIsLess();
    LessIsTotal("12", "2");
  }

  lemma TwelveIsLess()
    ensures Less("12", "2")
  {
  }

  // ---- Rules ------------------------------------------------------------------------------

  /** A rule set of the upgrade configuration: the version it is for, and whether checking the
      configuration file against it ends in an error. */
  datatype RuleSet = RuleSet(target: string, fails: bool)

  /** The pieces between the first dots, at most n of them. */
  function SplitDots(s: string, n: nat): (r: seq<string>)
    requires n >= 1
    ensures 1 <= |r| <= n
    decreases n
  {
    var i := FirstDot(s);
    if n == 1 || i == |s| then [s] else [s[..i]] + SplitDots(s[i + 1..], n - 1)
  }

  function FirstDot(s: string): (i: nat)
    ensures i <= |s| && (i < |s| ==> s[i] == '.') && forall j :: 0 <= j < i ==> s[j] != '.'
  {
    if s == "" || s[0] == '.' then 0 else FirstDot(s[1..]) + 1
  }

  /** The rule set concerns the version: named as major, as major.minor, or in full. */
  predicate Concerns(target: string, v: Version) {
    target == v.major || target == v.major + "." + v.minor || target == VersionText(v)
  }

  lemma {:induction false} DotAfter(a: string, b: string)
    requires '.' !in a
    ensures FirstDot(a) == |a| && FirstDot(a + "." + b) == |a|
  {
    hide FirstDot;
    var s := a + "." + b;
    assert s[|a|] == '.';
    forall j | 0 <= j < |a| ensures s[j] != '.' && a[j] != '.' { assert a[j] in a && s[j] == a[j]; }
  }

  lemma SplitOfTwo(a: string, b: string, n: nat)
    requires '.' !in a && n >= 2
    ensures SplitDots(a, n) == [a] && SplitDots(a + "." + b, n) == [a] + SplitDots(b, n - 1)
  {
    DotAfter(a, b);
    var s := a + "." + b;
    assert s[..|a|] == a && s[|a| + 1..] == b;
  }

  /** Splitting is undone by joining with dots. */
  lemma SplitJoins(s: string)
    ensures var p := SplitDots(s, 3);
      match |p| case 1 => s == p[0] case 2 => s == p[0] + "." + p[1] case _ => s == p[0] + "." + p[1] + "." + p[2]
  {
    hide FirstDot;
    var i := FirstDot(s);
    if i < |s| {
      assert s == s[..i] + "." + s[i + 1..];
      var rest := s[i + 1..];
      var j := FirstDot(rest);
      if j < |rest| { assert rest == rest[..j] + "." + rest[j + 1..]; }
    }
  }

  predicate Matches(p: seq<string>, v: Version)
    requires 1 <= |p| <= 3
  {
    match |p|
    case 1 => v.major == p[0]
    case 2 => v.major == p[0] && v.minor == p[1]
    case _ => v.major == p[0] && v.minor == p[1] && v.patch == p[2]
  }

  lemma MatchingIsConcerning(target: string, v: Version)
    requires '.' !in v.major && '.' !in v.minor && '.' !in v.patch
    ensures Matches(SplitDots(target, 3), v) <==> Concerns(target, v)
  {
    hide SplitDots;
    SplitJoins(target);
    SplitOfTwo(v.major, v.minor, 3);
    SplitOfTwo(v.major, v.minor + "." + v.patch, 3);
    SplitOfTwo(v.minor, v.patch, 2);
    LastPieces(v);
    assert v.major + "." + (v.minor + "." + v.patch) == VersionText(v);
  }

  lemma LastPieces(v: Version)
    ensures SplitDots(v.patch, 1) == [v.patch]
  {
  }

  lemma {:induction false} VersionHasNoDots(name: string, upTo: nat)
    requires upTo <= |name|
    ensures var v := ImageVersion(name, upTo); '.' !in v.major && '.' !in v.minor && '.' !in v.patch && Numeric(v)
  {
    hide DigitRun;
    if upTo > 0 { VersionHasNoDots(name, upTo - 1); }
  }

  /** validateConfig: refused when the configuration file is missing or a rule set that concerns the
      version of the next image fails. */
  method ValidateConfig(rules: seq<RuleSet>, hasFile: bool, next: Image) returns (ok: bool)
    ensures ok <==> hasFile && forall i :: 0 <= i < |rules| && Concerns(rules[i].target, VersionOf(next)) ==> !rules[i].fails
  {
    if !hasFile {
      return false;
    }
    hide ImageVersion, SplitDots, Concerns;
    var v := VersionOf(next);
    VersionHasNoDots(next, |next|);
    for i := 0 to |rules|
      invariant forall j :: 0 <= j < i && Concerns(rules[j].target, v) ==> !rules[j].fails
    {
      var semver := SplitDots(rules[i].target, 3);
      MatchingIsConcerning(rules[i].target, v);
      match |semver| {
        case 1 =>
          if v.major == semver[0] && rules[i].fails { return false; }
        case 2 =>
          if v.major == semver[0] && v.minor == semver[1] && rules[i].fails { return false; }
        case _ =>
          if v.major == semver[0] && v.minor == semver[1] && v.patch == semver[2] && rules[i].fails { return false; }
      }
    }
    ok := true;
  }

  /** CanUpgrade, with the result of the configuration check, if one is configured. */
  function CanUpgrade(current: Image, next: Image, check: Option<bool>): Permit {
    if current == next then Allowed
    else if !IsImageGreater(current, next) then Refused
    else if check == Some(false) then Errored
    else Allowed
  }

  /** The upgrade configuration, as far as it can be found: none is set, it or the configuration of the
      server is missing, or its rule sets are checked. */
  datatype Configuration = Unset | Missing | Found(rules: seq<RuleSet>, hasFile: bool)

  /** CanUpgrade. The same image always passes; another one must not be lower, and then the
      configuration decides: a rule set for the next version that fails is an error, no refusal. */
  method DecideUpgrade(current: Image, next: Image, config: Configuration) returns (permit: Permit)
    ensures permit == Refused <==> current != next && !NotBelow(VersionOf(current), VersionOf(next))
    ensures permit == Errored <==>
      && current != next && NotBelow(VersionOf(current), VersionOf(next))
      && (|| config.Missing?
          || (config.Found?
              && (!config.hasFile || exists r :: r in config.rules && Concerns(r.target, VersionOf(next)) && r.fails)))
    ensures exists check :: permit == CanUpgrade(current, next, check)
  {
    hide VersionOf, NotBelow, Concerns;
    if current == next {
      assert CanUpgrade(current, next, None) == Allowed;
      return Allowed;
    }
    if !IsImageGreater(current, next) {
      assert CanUpgrade(current, next, None) == Refused;
      return Refused;
    }
    var ok := true;
    match config {
      case Unset =>
      case Missing =>
        ok := false;
      case Found(rules, hasFile) =>
        ok := ValidateConfig(rules, hasFile, next);
    }
    permit := if ok then Allowed else Errored;
    assert permit == CanUpgrade(current, next, Some(ok));
  }

  /** An image whose name has no tag has no version, and any image may follow it. */
  lemma UntaggedIsLowest(image: Image, next: Image)
    requires ':' !in image
    ensures VersionOf(image) == Version("", "", "") && IsImageGreater(image, next)
  {
    hide VersionOf;
    NoColon(image, |image|);
    EmptyIsLeast(VersionOf(next));
    assert VersionOf(image) == NO_VERSION by { NoVersion(image); }
  }

  lemma NoVersion(image: Image)
    requires ':' !in image
    ensures VersionOf(image) == NO_VERSION
  {
    NoColon(image, |image|);
  }

  lemma {:induction false} NoColon(name: string, upTo: nat)
    requires upTo <= |name| && ':' !in name
    ensures ImageVersion(name, upTo) == NO_VERSION
  {
    if upTo > 0 {
      assert name[upTo - 1] in name;
      NoColon(name, upTo - 1);
    }
  }

  lemma EmptyIsLeast(v: Version)
    ensures NotBelow(NO_VERSION, v)
  {
  }

  /** A run of accepted upgrades, whatever the checks said on the way, never goes down. */
  lemma AcceptedUpgradesNeverGoDown(images: seq<Image>, checks: seq<Option<bool>>)
    requires |images| >= 1 && |checks| == |images| - 1
    requires forall k :: 0 <= k < |checks| ==> CanUpgrade(images[k], images[k + 1], checks[k]) == Allowed
    ensures IsImageGreater(images[0], images[|images| - 1])
  {
    hide IsImageGreater;
    forall k | 0 <= k < |images| - 1 ensures images[k] == images[k + 1] || IsImageGreater(images[k], images[k + 1]) {
      assert CanUpgrade(images[k], images[k + 1], checks[k]) == Allowed;
    }
    ChainsNeverGoDown(images, 0, |images| - 1);
  }
}
