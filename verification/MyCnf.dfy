/** The bootstrap program's rewriting of my.cnf: seven settings are replaced wherever their key
    begins a line, whatever its case, and appended where no line begins with it. */
module MyCnf {
  import opened ApiStore

  // ---- Lines ------------------------------------------------------------------------------

  /** The lines of a text: what stands between newlines. */
  function Lines(text: string): (lines: seq<string>)
    ensures |lines| >= 1
  {
    if text == "" then [""]
    else if text[0] == '\n' then [""] + Lines(text[1..])
    else var rest := Lines(text[1..]); [[text[0]] + rest[0]] + rest[1..]
  }

  function Text(lines: seq<string>): string
    requires |lines| >= 1
  {
    if |lines| == 1 then lines[0] else lines[0] + "\n" + Text(lines[1..])
  }

  predicate OneLine(s: string) { '\n' !in s }

  ghost predicate AllOneLine(lines: seq<string>) { forall l :: l in lines ==> OneLine(l) }

  lemma {:induction false} TextOfLines(text: string)
    ensures Text(Lines(text)) == text && AllOneLine(Lines(text))
  {
    if text != "" {
      TextOfLines(text[1..]);
      var rest := Lines(text[1..]);
      if text[0] == '\n' {
        assert ([""] + rest)[1..] == rest;
      } else {
        var first := [[text[0]] + rest[0]];
        assert (first + rest[1..])[1..] == rest[1..];
        assert rest[0] in rest;
        assert forall l :: l in rest[1..] ==> l in rest;
        if |rest| > 1 {
          Regroup([text[0]], rest[0], "\n");
          Regroup([text[0]], rest[0] + "\n", Text(rest[1..]));
        }
        assert text == [text[0]] + text[1..];
      }
    }
  }

  lemma {:induction false} LinesOfOne(line: string)
    requires OneLine(line)
    ensures Lines(line) == [line]
  {
    if line != "" {
      assert line[0] in line;
      assert forall c :: c in line[1..] ==> c in line;
      LinesOfOne(line[1..]);
      assert [line[0]] + line[1..] == line;
    }
  }

  lemma {:induction false} LinesOfTwo(line: string, rest: string)
    requires OneLine(line)
    ensures Lines(line + "\n" + rest) == [line] + Lines(rest)
  {
    var text := line + "\n" + rest;
    if line == "" {
      assert text[1..] == rest;
    } else {
      assert line[0] in line;
      assert forall c :: c in line[1..] ==> c in line;
      LinesOfTwo(line[1..], rest);
      assert text[1..] == line[1..] + "\n" + rest;
      assert [line[0]] + line[1..] == line;
    }
  }

  lemma {:induction false} LinesOfText(lines: seq<string>)
    requires |lines| >= 1 && AllOneLine(lines)
    ensures Lines(Text(lines)) == lines
  {
    assert lines[0] in lines;
    if |lines| == 1 {
      LinesOfOne(lines[0]);
    } else {
      assert forall l :: l in lines[1..] ==> l in lines;
      LinesOfText(lines[1..]);
      LinesOfTwo(lines[0], Text(lines[1..]));
    }
  }

  lemma {:induction false} TextOfConcat(a: seq<string>, b: seq<string>)
    requires |a| >= 1 && |b| >= 1
    ensures Text(a + b) == Text(a) + "\n" + Text(b)
  {
    if |a| == 1 {
      assert (a + b)[1..] == b;
    } else {
      assert (a + b)[1..] == a[1..] + b;
      TextOfConcat(a[1..], b);
      Regroup(a[0] + "\n", Text(a[1..]), "\n" + Text(b));
      Regroup(Text(a[1..]), "\n", Text(b));
      Regroup(Text(a), "\n", Text(b));
    }
  }

  // ---- Keys -------------------------------------------------------------------------------

  const KEYS: seq<string> := [
    "wsrep_cluster_name", "wsrep_cluster_address", "wsrep_node_name", "wsrep_node_address",
    "wsrep_sst_auth", "wsrep_on", "datadir"]

  const COMMENT := "# Added by Galera Bootstrap"

  /** Case folding as the regular expressions do it: the long s folds to s, too. */
  function Fold(c: char): char {
    if 'A' <= c <= 'Z' then (c as int + 32) as char else if c == '\U{17F}' then 's' else c
  }

  /** The line begins with the key, in any case. */
  predicate Begins(line: string, key: string) {
    |line| >= |key| && forall i :: 0 <= i < |key| ==> Fold(line[i]) == key[i]
  }

  /** Where two of the keys first differ. */
  function Apart(i: nat, j: nat): nat {
    if i == 6 || j == 6 then 0
    else if (i < 2 && j < 2) then 14
    else if (2 <= i < 4 && 2 <= j < 4) then 11
    else 6
  }

  lemma KeysDiffer(i: nat, j: nat)
    requires i < 7 && j < 7 && i != j
    ensures Apart(i, j) < |KEYS[i]| && Apart(i, j) < |KEYS[j]| && KEYS[i][Apart(i, j)] != KEYS[j][Apart(i, j)]
  {
  }

  /** No line begins with two of the keys. */
  lemma OneKeyOnly(line: string, i: nat, j: nat)
    requires i < 7 && j < 7
    ensures Begins(line, KEYS[i]) && Begins(line, KEYS[j]) ==> i == j
  {
    if i != j { KeysDiffer(i, j); }
  }

  predicate Plain(s: string) { forall c :: c in s ==> Fold(c) == c }

  lemma BeginsItself(key: string, value: string)
    requires Plain(key)
    ensures Begins(key + value, key)
  {
    forall i | 0 <= i < |key| ensures Fold((key + value)[i]) == key[i] { assert key[i] in key; }
  }

  // ---- Settings ---------------------------------------------------------------------------

  datatype Settings = Settings(
    clusterName: string, addresses: string, nodeName: string, nodeAddress: string,
    user: string, password: string, cluster: bool)

  /** Neither newlines nor the characters that formatting and replacement give a meaning to. */
  predicate CleanValue(v: string) { '\n' !in v && '$' !in v && '%' !in v }

  predicate Clean(s: Settings) {
    CleanValue(s.clusterName) && CleanValue(s.addresses) && CleanValue(s.nodeName) && CleanValue(s.nodeAddress)
    && CleanValue(s.user) && CleanValue(s.password)
  }

  /** What follows the key on each of the required lines. */
  function Value(s: Settings, i: nat): string
    requires i < 7
  {
    match i
    case 0 => "=" + s.clusterName
    case 1 => "=\"gcomm://" + s.addresses + "\""
    case 2 => "=" + s.nodeName
    case 3 => "=" + s.nodeAddress
    case 4 => "=\"" + s.user + ":" + s.password + "\""
    case 5 => if s.cluster then "=ON" else "=OFF"
    case _ => "=/var/lib/mysql"
  }

  function Required(s: Settings, i: nat): string
    requires i < 7
  {
    KEYS[i] + Value(s, i)
  }

  lemma KeysArePlain(i: nat)
    requires i < 7
    ensures Plain(KEYS[i]) && OneLine(KEYS[i])
  {
  }

  lemma RequiredIsOneLine(s: Settings, i: nat)
    requires Clean(s) && i < 7
    ensures OneLine(Required(s, i)) && Begins(Required(s, i), KEYS[i])
  {
    hide Begins;
    KeysArePlain(i);
    BeginsItself(KEYS[i], Value(s, i));
  }

  // ---- The specification ------------------------------------------------------------------

  /** The number of the key, of the first n, that begins the line; -1 if none does. */
  function KeyOf(line: string, n: nat): (k: int)
    requires n <= 7
    ensures -1 <= k < n
  {
    if n == 0 then -1 else if Begins(line, KEYS[n - 1]) then n - 1 else KeyOf(line, n - 1)
  }

  lemma {:induction false} KeyOfIs(line: string, n: nat)
    requires n <= 7
    ensures forall i :: 0 <= i < n ==> (Begins(line, KEYS[i]) <==> KeyOf(line, n) == i)
  {
    hide Begins;
    if n > 0 {
      KeyOfIs(line, n - 1);
      forall i | 0 <= i < n - 1 ensures !(Begins(line, KEYS[i]) && Begins(line, KEYS[n - 1])) {
        OneKeyOnly(line, i, n - 1);
      }
    }
  }

  function Rewritten(line: string, s: Settings, n: nat): string
    requires n <= 7
  {
    if KeyOf(line, n) >= 0 then Required(s, KeyOf(line, n)) else line
  }

  function AllRewritten(lines: seq<string>, s: Settings, n: nat): (r: seq<string>)
    requires n <= 7
    ensures |r| == |lines| && forall i :: 0 <= i < |lines| ==> r[i] == Rewritten(lines[i], s, n)
  {
    seq(|lines|, i requires 0 <= i < |lines| => Rewritten(lines[i], s, n))
  }

  predicate Present(lines: seq<string>, key: string) { exists i :: 0 <= i < |lines| && Begins(lines[i], key) }

  /** The required lines, for the first n keys, of those that begin no line. */
  function Missing(lines: seq<string>, s: Settings, n: nat): seq<string>
    requires n <= 7
  {
    if n == 0 then []
    else Missing(lines, s, n - 1) + (if Present(lines, KEYS[n - 1]) then [] else [Required(s, n - 1)])
  }

  function Added(lines: seq<string>, s: Settings, n: nat): seq<string>
    requires n <= 7
  {
    if Missing(lines, s, n) == [] then [] else ["", COMMENT] + Missing(lines, s, n) + [""]
  }

  /** The lines after the first n of the seven steps. */
  function Stage(lines: seq<string>, s: Settings, n: nat): seq<string>
    requires n <= 7
  {
    AllRewritten(lines, s, n) + Added(lines, s, n)
  }

  /** The rewritten text: each line that begins with a key is the required one, in place, and the
      missing ones follow, under a comment. */
  function Rewrite(text: string, s: Settings): string {
    Text(Stage(Lines(text), s, 7))
  }

  function Replace(lines: seq<string>, key: string, line: string): (r: seq<string>)
    ensures |r| == |lines| && forall i :: 0 <= i < |lines| ==> r[i] == if Begins(lines[i], key) then line else lines[i]
  {
    seq(|lines|, i requires 0 <= i < |lines| => if Begins(lines[i], key) then line else lines[i])
  }

  // ---- One step ---------------------------------------------------------------------------

  lemma RewrittenStep(line: string, s: Settings, n: nat)
    requires n < 7 && Clean(s)
    ensures Begins(Rewritten(line, s, n), KEYS[n]) <==> Begins(line, KEYS[n])
    ensures Rewritten(line, s, n + 1) == if Begins(line, KEYS[n]) then Required(s, n) else Rewritten(line, s, n)
  {
    hide Begins, Required;
    KeyOfIs(line, n);
    KeyOfIs(line, n + 1);
    var k := KeyOf(line, n);
    if k >= 0 {
      RequiredIsOneLine(s, k);
      OneKeyOnly(Required(s, k), k, n);
      OneKeyOnly(line, k, n);
    }
  }

  lemma {:induction false} MissingAre(lines: seq<string>, s: Settings, n: nat)
    requires n <= 7
    ensures forall l :: l in Missing(lines, s, n) <==>
      exists i :: 0 <= i < n && l == Required(s, i) && !Present(lines, KEYS[i])
  {
    hide Required, Present;
    if n > 0 { MissingAre(lines, s, n - 1); }
  }

  lemma PlainLines(key: nat)
    requires key < 7
    ensures !Begins("", KEYS[key]) && !Begins(COMMENT, KEYS[key])
  {
    assert |KEYS[key]| > 0;
    assert Fold(COMMENT[0]) == '#';
  }

  /** An appended line begins with no later key. */
  lemma AddedBeginsNot(lines: seq<string>, s: Settings, n: nat, i: nat)
    requires n < 7 && Clean(s) && i < |Added(lines, s, n)|
    ensures !Begins(Added(lines, s, n)[i], KEYS[n])
  {
    hide Begins, Required, Present;
    PlainLines(n);
    MissingAre(lines, s, n);
    var l := Added(lines, s, n)[i];
    if l != "" && l != COMMENT {
      assert l in Missing(lines, s, n);
      var k :| 0 <= k < n && l == Required(s, k) && !Present(lines, KEYS[k]);
      RequiredIsOneLine(s, k);
      OneKeyOnly(l, k, n);
    }
  }

  lemma StagePresent(lines: seq<string>, s: Settings, n: nat)
    requires n < 7 && Clean(s)
    ensures Present(Stage(lines, s, n), KEYS[n]) <==> Present(lines, KEYS[n])
  {
    hide Begins, Stage;
    if Present(lines, KEYS[n]) {
      var i :| 0 <= i < |lines| && Begins(lines[i], KEYS[n]);
      StageBegins(lines, s, n, i);
    }
    if Present(Stage(lines, s, n), KEYS[n]) {
      var i :| 0 <= i < |Stage(lines, s, n)| && Begins(Stage(lines, s, n)[i], KEYS[n]);
      StageBegins(lines, s, n, i);
    }
  }

  /** Which lines of a stage begin with the next key. */
  lemma StageBegins(lines: seq<string>, s: Settings, n: nat, i: nat)
    requires n < 7 && Clean(s)
    ensures |Stage(lines, s, n)| >= |lines|
    ensures i < |Stage(lines, s, n)| ==>
      (Begins(Stage(lines, s, n)[i], KEYS[n]) <==> i < |lines| && Begins(lines[i], KEYS[n]))
  {
    hide Begins, Added, Rewritten;
    if i < |lines| {
      RewrittenStep(lines[i], s, n);
    } else if i < |Stage(lines, s, n)| {
      AddedBeginsNot(lines, s, n, i - |lines|);
    }
  }

  /** Replacing goes to the next stage where the key is present. */
  lemma ReplaceIsStage(lines: seq<string>, s: Settings, n: nat)
    requires n < 7 && Clean(s) && Present(lines, KEYS[n])
    ensures Replace(Stage(lines, s, n), KEYS[n], Required(s, n)) == Stage(lines, s, n + 1)
  {
    hide Begins, Required, Rewritten;
    var stage, after := Stage(lines, s, n), Stage(lines, s, n + 1);
    assert Added(lines, s, n + 1) == Added(lines, s, n);
    forall i | 0 <= i < |stage| ensures Replace(stage, KEYS[n], Required(s, n))[i] == after[i] {
      if i < |lines| {
        RewrittenStep(lines[i], s, n);
      } else {
        AddedBeginsNot(lines, s, n, i - |lines|);
      }
    }
  }

  /** Where it is not, the lines stay, and the required one is appended. */
  lemma AppendIsStage(lines: seq<string>, s: Settings, n: nat)
    requires n < 7 && Clean(s) && !Present(lines, KEYS[n]) && |lines| >= 1
    ensures AllRewritten(lines, s, n + 1) == AllRewritten(lines, s, n)
    ensures Missing(lines, s, n + 1) == Missing(lines, s, n) + [Required(s, n)]
    ensures Text(Stage(lines, s, n + 1)) ==
      Text(Stage(lines, s, n)) + (if Missing(lines, s, n) == [] then "\n\n" + COMMENT + "\n" else "") + Required(s, n) + "\n"
  {
    hide Begins, Required, Rewritten, Present;
    forall i | 0 <= i < |lines| ensures AllRewritten(lines, s, n + 1)[i] == AllRewritten(lines, s, n)[i] {
      AbsentAt(lines, KEYS[n], i);
      RewrittenStep(lines[i], s, n);
    }
    var body, missing := AllRewritten(lines, s, n), Missing(lines, s, n);
    AppendText(body, missing, Required(s, n));
    assert body + [] == body;
  }

  lemma AbsentAt(lines: seq<string>, key: string, i: nat)
    requires !Present(lines, key) && i < |lines|
    ensures !Begins(lines[i], key)
  {
  }

  function Block(missing: seq<string>): seq<string> {
    if missing == [] then [] else ["", COMMENT] + missing + [""]
  }

  lemma AppendText(body: seq<string>, missing: seq<string>, line: string)
    requires |body| >= 1
    ensures Text(body + Block(missing + [line])) ==
      Text(body + Block(missing)) + (if missing == [] then "\n\n" + COMMENT + "\n" else "") + line + "\n"
  {
    hide Text, Block;
    if missing == [] {
      AppendFirst(body, line);
      assert missing + [line] == [line];
    } else {
      AppendNext(body, missing, line);
    }
  }

  lemma TextOfPair(a: string, b: string)
    ensures Text([a, b]) == a + "\n" + b
  {
    assert [a, b][1..] == [b];
  }

  lemma AppendFirst(body: seq<string>, line: string)
    requires |body| >= 1
    ensures Text(body + Block([line])) == Text(body + Block([])) + ("\n\n" + COMMENT + "\n") + line + "\n"
  {
    hide Text;
    assert body + Block([]) == body;
    BlockEnds(body, [], line);
    assert ["", COMMENT] + [] == ["", COMMENT] && [] + [line] == [line];
    TextOfConcat(body + ["", COMMENT], [line, ""]);
    TextOfConcat(body, ["", COMMENT]);
    TextOfPair("", COMMENT);
    TextOfPair(line, "");
    EmptyEnds(line, COMMENT);
    GlueFirst(Text(body), COMMENT, line);
  }

  lemma EmptyEnds(line: string, comment: string)
    ensures line + "\n" + "" == line + "\n" && "" + "\n" + comment == "\n" + comment
  {
  }

  lemma BlockEnds(body: seq<string>, missing: seq<string>, line: string)
    ensures body + Block(missing + [line]) == (body + (["", COMMENT] + missing)) + [line, ""]
  {
    var head := ["", COMMENT];
    Regroup(head, missing, [line]);
    Regroup(head + missing, [line], [""]);
    assert [line] + [""] == [line, ""];
    Regroup(body, head + missing, [line, ""]);
  }

  lemma AppendNext(body: seq<string>, missing: seq<string>, line: string)
    requires |body| >= 1 && missing != []
    ensures Text(body + Block(missing + [line])) == Text(body + Block(missing)) + "" + line + "\n"
  {
    hide Text;
    var before := body + (["", COMMENT] + missing);
    BlockEnds(body, missing, line);
    Regroup(body, ["", COMMENT] + missing, [""]);
    TextOfConcat(before, [line, ""]);
    TextOfConcat(before, [""]);
    TextOfPair(line, "");
    TextOfOne("");
    EmptyEnds(line, COMMENT);
    GlueNext(Text(before), line);
  }

  lemma TextOfOne(a: string)
    ensures Text([a]) == a
  {
  }

  lemma GlueFirst(text: string, comment: string, line: string)
    ensures text + "\n" + ("\n" + comment) + "\n" + (line + "\n") == text + ("\n\n" + comment + "\n") + line + "\n"
  {
  }

  lemma GlueNext(text: string, line: string)
    ensures text + "\n" + (line + "\n") == text + "\n" + "" + "" + line + "\n"
  {
  }

  // ---- What the rewriting achieves --------------------------------------------------------

  lemma StageIsOneLine(lines: seq<string>, s: Settings)
    requires AllOneLine(lines) && Clean(s)
    ensures AllOneLine(Stage(lines, s, 7))
  {
    hide Required, Present, Begins, OneLine;
    var stage := Stage(lines, s, 7);
    MissingAre(lines, s, 7);
    forall l | l in stage ensures OneLine(l) {
      var i :| 0 <= i < |stage| && stage[i] == l;
      if i < |lines| {
        assert lines[i] in lines;
        RequiredLine(s, KeyOf(lines[i], 7));
      } else {
        assert l in Added(lines, s, 7);
        FixedLines();
        if l in Missing(lines, s, 7) {
          var k :| 0 <= k < 7 && l == Required(s, k) && !Present(lines, KEYS[k]);
          RequiredLine(s, k);
        }
      }
    }
  }

  lemma FixedLines()
    ensures OneLine("") && OneLine(COMMENT)
  {
  }

  lemma RequiredLine(s: Settings, k: int)
    requires Clean(s) && k < 7
    ensures k >= 0 ==> OneLine(Required(s, k))
  {
    if k >= 0 { RequiredIsOneLine(s, k); }
  }

  /** The lines of the result. */
  lemma LinesOfRewrite(text: string, s: Settings)
    requires Clean(s)
    ensures Lines(Rewrite(text, s)) == Stage(Lines(text), s, 7)
  {
    hide Stage;
    TextOfLines(text);
    StageIsOneLine(Lines(text), s);
    StageSize(Lines(text), s);
    LinesOfText(Stage(Lines(text), s, 7));
  }

  lemma StageSize(lines: seq<string>, s: Settings)
    ensures |Stage(lines, s, 7)| >= |lines|
  {
  }

  /** Every original line keeps its place; it is replaced exactly if it begins with a key, and then
      by that key's required line. */
  lemma EachLineKeptOrReplaced(text: string, s: Settings, i: nat)
    requires Clean(s) && i < |Lines(text)|
    ensures |Lines(Rewrite(text, s))| >= |Lines(text)|
    ensures forall k :: 0 <= k < 7 && Begins(Lines(text)[i], KEYS[k]) ==> Lines(Rewrite(text, s))[i] == Required(s, k)
    ensures (forall k :: 0 <= k < 7 ==> !Begins(Lines(text)[i], KEYS[k])) ==> Lines(Rewrite(text, s))[i] == Lines(text)[i]
  {
    hide Begins, Required, Rewrite;
    LinesOfRewrite(text, s);
    KeyOfIs(Lines(text)[i], 7);
  }

  predicate AllPresent(lines: seq<string>) { forall k :: 0 <= k < 7 ==> Present(lines, KEYS[k]) }

  /** What follows the original lines: nothing, or a blank line, the comment, the required lines of
      the keys that began no line, and the end of the text. */
  lemma OnlyMissingAppended(text: string, s: Settings) returns (asked: seq<string>)
    requires Clean(s)
    ensures var before, after := Lines(text), Lines(Rewrite(text, s));
      && |after| >= |before|
      && after[|before|..] == (if asked == [] then [] else ["", "# Added by Galera Bootstrap"] + asked + [""])
      && (asked == [] <==> AllPresent(before))
      && (forall l :: l in asked <==> exists k :: 0 <= k < 7 && l == Required(s, k) && !Present(before, KEYS[k]))
  {
    hide Begins, Required, Rewrite, Present, AllRewritten;
    LinesOfRewrite(text, s);
    var before := Lines(text);
    MissingAre(before, s, 7);
    asked := Missing(before, s, 7);
    SomebodyIn(asked);
    assert Stage(before, s, 7)[|before|..] == Added(before, s, 7);
    forall k | 0 <= k < 7 ensures Present(before, KEYS[k]) || asked != [] {
      assert !Present(before, KEYS[k]) ==> Required(s, k) in asked;
    }
  }

  /** After the rewriting every key begins a line, and every line it begins is the required one. */
  lemma EveryKeyIsSet(text: string, s: Settings, k: nat)
    requires Clean(s) && k < 7
    ensures Required(s, k) in Lines(Rewrite(text, s))
    ensures forall l :: l in Lines(Rewrite(text, s)) && Begins(l, KEYS[k]) ==> l == Required(s, k)
  {
    hide Begins, Required, Rewrite;
    LinesOfRewrite(text, s);
    var lines := Lines(text);
    MissingAre(lines, s, 7);
    var stage := Stage(lines, s, 7);
    if Present(lines, KEYS[k]) {
      var i :| 0 <= i < |lines| && Begins(lines[i], KEYS[k]);
      KeyOfIs(lines[i], 7);
      assert stage[i] == Required(s, k);
    } else {
      assert Required(s, k) in Missing(lines, s, 7);
      assert Required(s, k) in Added(lines, s, 7);
    }
    forall l | l in stage && Begins(l, KEYS[k]) ensures l == Required(s, k) {
      var i :| 0 <= i < |stage| && stage[i] == l;
      StageLineIs(lines, s, i, k);
    }
  }

  lemma StageLineIs(lines: seq<string>, s: Settings, i: nat, k: nat)
    requires Clean(s) && i < |Stage(lines, s, 7)| && k < 7
    ensures Begins(Stage(lines, s, 7)[i], KEYS[k]) ==> Stage(lines, s, 7)[i] == Required(s, k)
  {
    hide Begins, Required, Present;
    var l := Stage(lines, s, 7)[i];
    if i < |lines| {
      KeyOfIs(lines[i], 7);
      if KeyOf(lines[i], 7) >= 0 {
        RequiredIsOneLine(s, KeyOf(lines[i], 7));
        OneKeyOnly(l, KeyOf(lines[i], 7), k);
      }
    } else {
      PlainLines(k);
      MissingAre(lines, s, 7);
      assert l in Added(lines, s, 7);
      if l in Missing(lines, s, 7) {
        var j :| 0 <= j < 7 && l == Required(s, j) && !Present(lines, KEYS[j]);
        RequiredIsOneLine(s, j);
        OneKeyOnly(l, j, k);
      }
    }
  }

  // ---- The settings by name ---------------------------------------------------------------

  /** The same letter but for its case, as the regular expressions see it: they take the long s for
      an s, too. */
  predicate SameLetter(c: char, small: char) {
    c == small || ('A' <= c <= 'Z' && small as int == c as int + 32) || (c == '\U{17F}' && small == 's')
  }

  predicate Opens(line: string, name: string) {
    |line| >= |name| && forall i :: 0 <= i < |name| ==> SameLetter(line[i], name[i])
  }

  /** The option is set by the line, and every line that opens with its name is that one. */
  ghost predicate SetBy(lines: seq<string>, name: string, line: string) {
    line in lines && forall l :: l in lines && Opens(l, name) ==> l == line
  }

  /** The seven options, each with the value meant for it. */
  ghost predicate Configured(lines: seq<string>, s: Settings) {
    && SetBy(lines, "wsrep_cluster_name", "wsrep_cluster_name=" + s.clusterName)
    && SetBy(lines, "wsrep_cluster_address", "wsrep_cluster_address=\"gcomm://" + s.addresses + "\"")
    && SetBy(lines, "wsrep_node_name", "wsrep_node_name=" + s.nodeName)
    && SetBy(lines, "wsrep_node_address", "wsrep_node_address=" + s.nodeAddress)
    && SetBy(lines, "wsrep_sst_auth", "wsrep_sst_auth=\"" + s.user + ":" + s.password + "\"")
    && SetBy(lines, "wsrep_on", if s.cluster then "wsrep_on=ON" else "wsrep_on=OFF")
    && SetBy(lines, "datadir", "datadir=/var/lib/mysql")
  }

  /** Whatever the text was, the result configures the seven options. */
  lemma SettingsAreWritten(text: string, s: Settings)
    requires Clean(s)
    ensures Configured(Lines(Rewrite(text, s)), s)
  {
    hide Lines, Rewrite, Required, SetBy;
    var lines := Lines(Rewrite(text, s));
    forall k | 0 <= k < 7 ensures SetBy(lines, KEYS[k], Required(s, k)) {
      EveryKeyIsSet(text, s, k);
      KeyIsSetBy(lines, k, Required(s, k));
    }
    RequiredAre(s);
    assert SetBy(lines, KEYS[0], Required(s, 0)) && SetBy(lines, KEYS[1], Required(s, 1));
    assert SetBy(lines, KEYS[2], Required(s, 2)) && SetBy(lines, KEYS[3], Required(s, 3));
    assert SetBy(lines, KEYS[4], Required(s, 4)) && SetBy(lines, KEYS[5], Required(s, 5))
        && SetBy(lines, KEYS[6], Required(s, 6));
    NamesAndSigns(s);
  }

  /** The required lines again, with the sign between name and value where the program writes it. */
  lemma NamesAndSigns(s: Settings)
    ensures KEYS[0] + "=" + s.clusterName == "wsrep_cluster_name=" + s.clusterName
    ensures KEYS[1] + "=\"gcomm://" + s.addresses + "\"" == "wsrep_cluster_address=\"gcomm://" + s.addresses + "\""
    ensures KEYS[2] + "=" + s.nodeName == "wsrep_node_name=" + s.nodeName
    ensures KEYS[3] + "=" + s.nodeAddress == "wsrep_node_address=" + s.nodeAddress
    ensures KEYS[4] + "=\"" + s.user + ":" + s.password + "\"" == "wsrep_sst_auth=\"" + s.user + ":" + s.password + "\""
    ensures KEYS[5] + "=" + "ON" == "wsrep_on=ON" && KEYS[5] + "=" + "OFF" == "wsrep_on=OFF"
    ensures KEYS[6] + "=/var/lib/mysql" == "datadir=/var/lib/mysql"
  {
    assert KEYS[0] + "=" == "wsrep_cluster_name=" && KEYS[1] + "=\"gcomm://" == "wsrep_cluster_address=\"gcomm://";
    assert KEYS[2] + "=" == "wsrep_node_name=" && KEYS[3] + "=" == "wsrep_node_address=";
    assert KEYS[4] + "=\"" == "wsrep_sst_auth=\"";
  }

  lemma KeyIsSetBy(lines: seq<string>, k: nat, line: string)
    requires k < 7 && line in lines && forall l :: l in lines && Begins(l, KEYS[k]) ==> l == line
    ensures SetBy(lines, KEYS[k], line)
  {
    hide Begins, Opens;
    forall l | l in lines && Opens(l, KEYS[k]) ensures l == line { OpensBegins(l, KEYS[k]); KeysArePlain(k); }
  }

  lemma OpensBegins(line: string, key: string)
    ensures Plain(key) ==> (Opens(line, key) <==> Begins(line, key))
  {
    if Plain(key) {
      forall i | 0 <= i < |key| && i < |line| ensures SameLetter(line[i], key[i]) <==> Fold(line[i]) == key[i] {
        assert key[i] in key && Fold(key[i]) == key[i];
      }
    }
  }

  // ---- Absorption -------------------------------------------------------------------------

  lemma RewrittenAgain(line: string, s1: Settings, s2: Settings)
    requires Clean(s1) && Clean(s2)
    ensures Rewritten(Rewritten(line, s1, 7), s2, 7) == Rewritten(line, s2, 7)
  {
    hide Begins, Required;
    KeyOfIs(line, 7);
    var k := KeyOf(line, 7);
    if k >= 0 {
      RequiredIsOneLine(s1, k);
      KeyOfIs(Required(s1, k), 7);
    }
  }

  lemma {:induction false} MissingRewritten(lines: seq<string>, s1: Settings, s2: Settings, n: nat)
    requires Clean(s1) && Clean(s2) && n <= 7
    ensures AllRewritten(Missing(lines, s1, n), s2, 7) == Missing(lines, s2, n)
  {
    hide Begins, Required, Present, Rewritten;
    if n > 0 {
      MissingRewritten(lines, s1, s2, n - 1);
      RequiredRewritten(s1, s2, n - 1);
      var a := Missing(lines, s1, n - 1);
      var b := if Present(lines, KEYS[n - 1]) then [] else [Required(s1, n - 1)];
      AllRewrittenConcat(a, b, s2);
    }
  }

  lemma RequiredRewritten(s1: Settings, s2: Settings, k: nat)
    requires Clean(s1) && Clean(s2) && k < 7
    ensures Rewritten(Required(s1, k), s2, 7) == Required(s2, k)
  {
    hide Begins, Required;
    RequiredIsOneLine(s1, k);
    KeyOfIs(Required(s1, k), 7);
  }

  lemma AllRewrittenConcat(a: seq<string>, b: seq<string>, s: Settings)
    ensures AllRewritten(a + b, s, 7) == AllRewritten(a, s, 7) + AllRewritten(b, s, 7)
  {
    hide Rewritten;
  }

  lemma FixedKept(s: Settings)
    ensures Rewritten("", s, 7) == "" && Rewritten(COMMENT, s, 7) == COMMENT
  {
    hide Begins;
    forall k | 0 <= k < 7 ensures !Begins("", KEYS[k]) && !Begins(COMMENT, KEYS[k]) { PlainLines(k); }
    KeyOfIs("", 7);
    KeyOfIs(COMMENT, 7);
  }

  lemma AddedRewritten(lines: seq<string>, s1: Settings, s2: Settings)
    requires Clean(s1) && Clean(s2)
    ensures AllRewritten(Added(lines, s1, 7), s2, 7) == Added(lines, s2, 7)
  {
    hide Rewritten, Missing;
    MissingRewritten(lines, s1, s2, 7);
    FixedKept(s2);
    var m := Missing(lines, s1, 7);
    if m != [] {
      AllRewrittenConcat(["", COMMENT] + m, [""], s2);
      AllRewrittenConcat(["", COMMENT], m, s2);
      assert AllRewritten(["", COMMENT], s2, 7) == ["", COMMENT];
      assert AllRewritten([""], s2, 7) == [""];
    }
  }

  lemma {:induction false} NothingMissing(lines: seq<string>, s: Settings, n: nat)
    requires n <= 7 && forall k :: 0 <= k < n ==> Present(lines, KEYS[k])
    ensures Missing(lines, s, n) == []
  {
    hide Present, Required;
    if n > 0 { NothingMissing(lines, s, n - 1); }
  }

  /** Absorption: rewriting with s1 and then with s2 is rewriting with s2. */
  lemma RewriteAbsorbs(text: string, s1: Settings, s2: Settings)
    requires Clean(s1) && Clean(s2)
    ensures Rewrite(Rewrite(text, s1), s2) == Rewrite(text, s2)
  {
    hide Begins, Required, Rewritten, Missing, Lines;
    var lines := Lines(text);
    LinesOfRewrite(text, s1);
    var once := Stage(lines, s1, 7);
    forall k | 0 <= k < 7 ensures Present(once, KEYS[k]) {
      EveryKeyIsSet(text, s1, k);
      RequiredIsOneLine(s1, k);
    }
    NothingMissing(once, s2, 7);
    AllRewrittenConcat(AllRewritten(lines, s1, 7), Added(lines, s1, 7), s2);
    AddedRewritten(lines, s1, s2);
    forall i | 0 <= i < |lines| ensures AllRewritten(AllRewritten(lines, s1, 7), s2, 7)[i] == AllRewritten(lines, s2, 7)[i] {
      RewrittenAgain(lines[i], s1, s2);
    }
    assert AllRewritten(AllRewritten(lines, s1, 7), s2, 7) == AllRewritten(lines, s2, 7);
    assert Stage(once, s2, 7) == Stage(lines, s2, 7);
  }

  /** Rewriting twice changes nothing more. */
  lemma RewriteIsIdempotent(text: string, s: Settings)
    requires Clean(s)
    ensures Rewrite(Rewrite(text, s), s) == Rewrite(text, s)
  {
    hide Rewrite;
    RewriteAbsorbs(text, s, s);
  }

  // ---- The program ------------------------------------------------------------------------

  /** Whether a line begins with the key. */
  method Find(text: string, key: string) returns (found: bool)
    ensures found <==> Present(Lines(text), key)
  {
    var lines := Lines(text);
    found := false;
    for i := 0 to |lines|
      invariant found <==> exists j :: 0 <= j < i && Begins(lines[j], key)
    {
      if Begins(lines[i], key) {
        found := true;
      }
    }
  }

  method ReplaceAll(text: string, key: string, line: string) returns (result: string)
    ensures result == Text(Replace(Lines(text), key, line))
  {
    var lines := Lines(text);
    var out: seq<string> := [];
    for i := 0 to |lines|
      invariant |out| == i
      invariant forall j :: 0 <= j < i ==> out[j] == if Begins(lines[j], key) then line else lines[j]
    {
      out := out + [if Begins(lines[i], key) then line else lines[i]];
    }
    assert out == Replace(lines, key, line);
    result := Text(out);
  }

  /** addInfo: the comment is written once, and the flag remembers it. */
  method AddInfo(data: string, added: bool) returns (result: string, nowAdded: bool)
    ensures nowAdded
    ensures result == data + (if added then "" else "\n\n" + COMMENT + "\n")
  {
    if !added {
      result := data + "\n\n" + COMMENT + "\n";
      assert result == data + ("\n\n" + COMMENT + "\n");
    } else {
      result := data;
    }
    nowAdded := true;
  }

  /** One of the seven steps: replace the lines of the key, or append the required one. */
  method SetOption(data: string, added: bool, ghost text: string, ghost s: Settings, key: string, line: string, ghost n: nat)
    returns (result: string, nowAdded: bool)
    requires n < 7 && Clean(s) && key == KEYS[n] && line == Required(s, n)
    requires data == Text(Stage(Lines(text), s, n)) && (added <==> Missing(Lines(text), s, n) != [])
    ensures result == Text(Stage(Lines(text), s, n + 1)) && (nowAdded <==> Missing(Lines(text), s, n + 1) != [])
  {
    hide Required, Rewritten, AllRewritten, Lines, Text, Begins;
    ghost var lines := Lines(text);
    StageRoundTrip(text, s, n);
    StagePresent(lines, s, n);
    var found := Find(data, key);
    if found {
      ReplaceIsStage(lines, s, n);
      result := ReplaceAll(data, key, line);
      nowAdded := added;
    } else {
      AppendIsStage(lines, s, n);
      result, nowAdded := AddInfo(data, added);
      result := result + line + "\n";
    }
  }

  lemma StageRoundTrip(text: string, s: Settings, n: nat)
    requires n < 7 && Clean(s)
    ensures Lines(Text(Stage(Lines(text), s, n))) == Stage(Lines(text), s, n)
  {
    hide Required, Begins, OneLine, Present;
    TextOfLines(text);
    var lines := Lines(text);
    var stage := Stage(lines, s, n);
    MissingAre(lines, s, n);
    FixedLines();
    forall l | l in stage ensures OneLine(l) {
      var i :| 0 <= i < |stage| && stage[i] == l;
      if i < |lines| {
        assert lines[i] in lines;
        RequiredLine(s, KeyOf(lines[i], n));
      } else {
        assert l in Added(lines, s, n);
        if l in Missing(lines, s, n) {
          var k :| 0 <= k < n && l == Required(s, k) && !Present(lines, KEYS[k]);
          RequiredLine(s, k);
        }
      }
    }
    LinesOfText(stage);
  }

  /** modifyFile, once the input is read; without a node address the program ends. */
  method ModifyFile(text: string, s: Settings) returns (result: Option<string>)
    requires Clean(s)
    ensures result == if s.nodeAddress == "" then None else Some(Rewrite(text, s))
    ensures result.Some? ==> Configured(Lines(result.value), s)
  {
    hide Stage, Lines, Text, Required, Missing;
    if |s.nodeAddress| == 0 {
      return None;
    }
    var data, added := text, false;
    StartsAtZero(text, s);
    RequiredAre(s);
    data, added := SetOption(data, added, text, s, KEYS[0], KEYS[0] + "=" + s.clusterName, 0);
    data, added := SetOption(data, added, text, s, KEYS[1], KEYS[1] + "=\"gcomm://" + s.addresses + "\"", 1);
    data, added := SetOption(data, added, text, s, KEYS[2], KEYS[2] + "=" + s.nodeName, 2);
    data, added := SetOption(data, added, text, s, KEYS[3], KEYS[3] + "=" + s.nodeAddress, 3);
    data, added := SetOption(data, added, text, s, KEYS[4], KEYS[4] + "=\"" + s.user + ":" + s.password + "\"", 4);
    var enabled := "OFF";
    if s.cluster {
      enabled := "ON";
    }
    data, added := SetOption(data, added, text, s, KEYS[5], KEYS[5] + "=" + enabled, 5);
    data, added := SetOption(data, added, text, s, KEYS[6], KEYS[6] + "=/var/lib/mysql", 6);
    result := Some(data);
    SettingsAreWritten(text, s);
  }

  lemma RequiredAre(s: Settings)
    ensures KEYS[0] + "=" + s.clusterName == Required(s, 0)
    ensures KEYS[1] + "=\"gcomm://" + s.addresses + "\"" == Required(s, 1)
    ensures KEYS[2] + "=" + s.nodeName == Required(s, 2)
    ensures KEYS[3] + "=" + s.nodeAddress == Required(s, 3)
    ensures KEYS[4] + "=\"" + s.user + ":" + s.password + "\"" == Required(s, 4)
    ensures forall on: string :: on == (if s.cluster then "ON" else "OFF") ==> KEYS[5] + "=" + on == Required(s, 5)
    ensures KEYS[6] + "=/var/lib/mysql" == Required(s, 6)
  {
    Regroup(KEYS[0], "=", s.clusterName);
    Regroup(KEYS[1], "=\"gcomm://", s.addresses);
    Regroup(KEYS[1], "=\"gcomm://" + s.addresses, "\"");
    Regroup(KEYS[2], "=", s.nodeName);
    Regroup(KEYS[3], "=", s.nodeAddress);
    var a := "=\"" + s.user;
    Regroup(KEYS[4], "=\"", s.user);
    Regroup(KEYS[4], a, ":");
    Regroup(KEYS[4], a + ":", s.password);
    Regroup(KEYS[4], a + ":" + s.password, "\"");
    assert "=" + "ON" == "=ON" && "=" + "OFF" == "=OFF";
    Regroup(KEYS[5], "=", "ON");
    Regroup(KEYS[5], "=", "OFF");
  }

  lemma StartsAtZero(text: string, s: Settings)
    ensures text == Text(Stage(Lines(text), s, 0)) && Missing(Lines(text), s, 0) == []
  {
    hide Lines;
    TextOfLines(text);
    assert Stage(Lines(text), s, 0) == Lines(text);
  }
}
