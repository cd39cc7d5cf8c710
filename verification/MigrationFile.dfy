/**
 dbmate migration files: text in, the SQL between the markers and the transaction flag out.
 */
module MigrationFile {
  import opened Common

  /** Where `str.splitlines` breaks a line; a carriage return and line feed together break once. */
  predicate IsBreak(c: char) {
    c as int in {0x0a, 0x0b, 0x0c, 0x0d, 0x1c, 0x1d, 0x1e, 0x85, 0x2028, 0x2029}
  }

  /** What `str.strip` removes. */
  predicate IsSpace(c: char) {
    || IsBreak(c)
    || c as int in {0x09, 0x1f, 0x20, 0xa0, 0x1680, 0x202f, 0x205f, 0x3000}
    || 0x2000 <= c as int <= 0x200a
  }

  predicate BreakFree(line: string) {
    forall c <- line :: !IsBreak(c)
  }

  /** The length of the line that starts the text. */
  function LineLength(text: string): (n: nat)
    ensures n <= |text| && BreakFree(text[..n]) && (n < |text| ==> IsBreak(text[n]))
  {
    if text == "" || IsBreak(text[0]) then 0
    else
      var n := LineLength(text[1..]);
      assert text[..n + 1] == [text[0]] + text[1..][..n];
      n + 1
  }

  function SplitLines(text: string): seq<string> {
    if text == "" then []
    else
      var n := LineLength(text);
      var width := if "\r\n" <= text[n..] then 2 else 1;
      if n == |text| then [text] else [text[..n]] + SplitLines(text[n + width..])
  }

  function Join(lines: seq<string>): string {
    if lines == [] then ""
    else if |lines| == 1 then lines[0]
    else lines[0] + "\n" + Join(lines[1..])
  }

  function StripLeft(s: string): string {
    if s != "" && IsSpace(s[0]) then StripLeft(s[1..]) else s
  }

  function StripRight(s: string): string {
    if s != "" && IsSpace(s[|s| - 1]) then StripRight(s[..|s| - 1]) else s
  }

  function Strip(s: string): string {
    StripRight(StripLeft(s))
  }

  predicate StartsWith(s: string, prefix: string) {
    prefix <= s
  }

  predicate Contains(s: string, part: string) {
    exists i :: 0 <= i <= |s| && StartsWith(s[i..], part)
  }

  predicate IsUp(line: string) {
    StartsWith(Strip(line), "-- migrate:up")
  }

  predicate IsDown(line: string) {
    StartsWith(Strip(line), "-- migrate:down")
  }

  predicate InTransaction(up: string) {
    !Contains(Strip(up), "transaction:false")
  }

  /** The index of the first down marker, or the number of lines. */
  function FirstDown(lines: seq<string>): (d: nat)
    ensures d <= |lines| && (forall i :: 0 <= i < d ==> !IsDown(lines[i])) && (d < |lines| ==> IsDown(lines[d]))
  {
    if lines == [] || IsDown(lines[0]) then 0 else FirstDown(lines[1..]) + 1
  }

  /** The index of the last up marker. */
  function LastUp(lines: seq<string>): (u: Option<nat>)
    ensures u.None? ==> forall line <- lines :: !IsUp(line)
    ensures u.Some? ==> u.value < |lines| && IsUp(lines[u.value]) && forall i :: u.value < i < |lines| ==>
      !IsUp(lines[i])
  {
    if lines == [] then None
    else if IsUp(lines[|lines| - 1]) then Some(|lines| - 1)
    else LastUp(lines[..|lines| - 1])
  }

  datatype Up = Up(sql: string, inTxn: bool)

  /** The SQL from after the last up marker ahead of the first down marker; None without such an up marker. */
  function ParseLines(lines: seq<string>): Option<Up> {
    var d := FirstDown(lines);
    match LastUp(lines[..d])
    case None => None
    case Some(u) => Some(Up(Strip(Join(lines[u + 1..d])), InTransaction(lines[u])))
  }

  function Parse(text: string): Option<Up> {
    ParseLines(SplitLines(text))
  }

  lemma {:induction false} NoDownBefore(lines: seq<string>, i: nat)
    requires i <= |lines| && forall j :: 0 <= j < i ==> !IsDown(lines[j])
    ensures i <= FirstDown(lines)
    ensures i < |lines| && IsDown(lines[i]) ==> FirstDown(lines) == i
  {
  }

  lemma UpIsNotDown(line: string)
    requires IsUp(line)
    ensures !IsDown(line)
  {
    assert Strip(line)[11] == 'u' && "-- migrate:down"[11] == 'd';
  }

  /** What the scan knows of the lines it has passed. */
  ghost predicate Scanned(passed: seq<string>, upStart: Option<nat>, inTxn: bool) {
    && (forall line <- passed :: !IsDown(line))
    && match LastUp(passed)
       case None => upStart.None?
       case Some(u) => upStart == Some(u + 1) && inTxn == InTransaction(passed[u])
  }

  lemma ScanStep(lines: seq<string>, i: nat, upStart: Option<nat>, inTxn: bool)
    requires i < |lines| && Scanned(lines[..i], upStart, inTxn) && !IsDown(lines[i])
    ensures IsUp(lines[i]) ==> Scanned(lines[..i + 1], Some(i + 1), InTransaction(lines[i]))
    ensures !IsUp(lines[i]) ==> Scanned(lines[..i + 1], upStart, inTxn)
  {
    assert lines[..i + 1] == lines[..i] + [lines[i]];
    assert lines[..i + 1][..i] == lines[..i];
  }

  lemma FirstDownAt(lines: seq<string>, i: nat)
    requires i <= |lines| && (forall line <- lines[..i] :: !IsDown(line)) && (i < |lines| ==> IsDown(lines[i]))
    ensures FirstDown(lines) == i
  {
    forall j | 0 <= j < i ensures !IsDown(lines[j]) {
      assert lines[j] == lines[..i][j];
    }
    NoDownBefore(lines, i);
  }

  lemma ScanEnds(lines: seq<string>, i: nat, upStart: Option<nat>, inTxn: bool)
    requires i <= |lines| && Scanned(lines[..i], upStart, inTxn) && (i < |lines| ==> IsDown(lines[i]))
    ensures ParseLines(lines) == if upStart.None? then None else Some(Up(Strip(Join(lines[upStart.value..i])), inTxn))
  {
    FirstDownAt(lines, i);
    var u := LastUp(lines[..i]);
    if u.Some? {
      assert lines[..i][u.value] == lines[u.value];
    }
  }

  // --- what stripping keeps --------------------------------------------------------------------

  /** Stripping cuts off all the white space at both ends, and nothing else. */
  lemma StripTrims(s: string) returns (lo: nat, hi: nat)
    ensures lo <= hi <= |s| && Strip(s) == s[lo..hi]
    ensures forall k :: 0 <= k < lo || hi <= k < |s| ==> IsSpace(s[k])
    ensures Strip(s) != "" ==> !IsSpace(s[lo]) && !IsSpace(s[hi - 1])
  {
    lo := TrimsLeft(s);
    var left := s[lo..];
    hi := TrimsRight(left);
    assert left[..hi] == s[lo..lo + hi];
    forall k | lo + hi <= k < |s| ensures IsSpace(s[k]) {
      assert s[k] == left[k - lo];
    }
    hi := lo + hi;
  }

  lemma {:induction false} TrimsLeft(s: string) returns (lo: nat)
    ensures lo <= |s| && StripLeft(s) == s[lo..]
    ensures (forall k :: 0 <= k < lo ==> IsSpace(s[k])) && (lo < |s| ==> !IsSpace(s[lo]))
  {
    lo := 0;
    if s != "" && IsSpace(s[0]) {
      lo := TrimsLeft(s[1..]);
      assert s[1..][lo..] == s[lo + 1..];
      forall k | 0 <= k < lo + 1 ensures IsSpace(s[k]) {
        if k > 0 { assert s[k] == s[1..][k - 1]; }
      }
      lo := lo + 1;
    }
  }

  lemma {:induction false} TrimsRight(s: string) returns (hi: nat)
    ensures hi <= |s| && StripRight(s) == s[..hi]
    ensures (forall k :: hi <= k < |s| ==> IsSpace(s[k])) && (hi > 0 ==> !IsSpace(s[hi - 1]))
  {
    hi := |s|;
    if s != "" && IsSpace(s[|s| - 1]) {
      hi := TrimsRight(s[..|s| - 1]);
      assert s[..|s| - 1][..hi] == s[..hi];
    }
  }

  predicate OccursAt(s: string, part: string, i: nat) {
    i + |part| <= |s| && s[i..i + |part|] == part
  }

  ghost predicate Occurs(s: string, part: string) {
    exists i: nat :: OccursAt(s, part, i)
  }

  /** Without white space at its ends. */
  predicate Trimmed(part: string) {
    part != "" && !IsSpace(part[0]) && !IsSpace(part[|part| - 1])
  }

  lemma ContainsIsOccurs(s: string, part: string)
    ensures Contains(s, part) <==> Occurs(s, part)
  {
    if Contains(s, part) {
      var i :| 0 <= i <= |s| && StartsWith(s[i..], part);
      assert s[i..][..|part|] == s[i..i + |part|];
      assert OccursAt(s, part, i);
    }
    if Occurs(s, part) {
      var i: nat :| OccursAt(s, part, i);
      assert s[i..][..|part|] == s[i..i + |part|];
      assert StartsWith(s[i..], part);
    }
  }

  lemma SliceOfSlice(s: string, lo: nat, hi: nat, i: nat, n: nat)
    requires lo <= hi <= |s| && lo + i + n <= hi
    ensures s[lo..hi][i..i + n] == s[lo + i..lo + i + n]
  {
    var a, b := s[lo..hi][i..i + n], s[lo + i..lo + i + n];
    forall k | 0 <= k < n ensures a[k] == b[k] {
      assert a[k] == s[lo..hi][i + k] == s[lo + (i + k)];
    }
    assert a == b;
  }

  /** Stripping neither loses nor makes an occurrence of such a text. */
  lemma OccursStripped(s: string, part: string)
    requires Trimmed(part)
    ensures Occurs(Strip(s), part) <==> Occurs(s, part)
  {
    var lo, hi := StripTrims(s);
    if Occurs(s, part) {
      var i: nat :| OccursAt(s, part, i);
      assert s[i] == part[0] && s[i + |part| - 1] == part[|part| - 1];
      SliceOfSlice(s, lo, hi, i - lo, |part|);
      assert OccursAt(Strip(s), part, i - lo);
    }
    if Occurs(Strip(s), part) {
      var i: nat :| OccursAt(Strip(s), part, i);
      SliceOfSlice(s, lo, hi, i, |part|);
      assert OccursAt(s, part, lo + i);
    }
  }

  /** A marker keeps its file out of a transaction exactly if "transaction:false" is somewhere in its line. */
  lemma FlagExactly(line: string)
    ensures InTransaction(line) <==> !Occurs(line, "transaction:false")
  {
    ContainsIsOccurs(Strip(line), "transaction:false");
    OccursStripped(line, "transaction:false");
  }

  /** The line begins with this text, but for white space. */
  ghost predicate BeginsWith(line: string, part: string) {
    exists i: nat :: OccursAt(line, part, i) && forall k :: 0 <= k < i ==> IsSpace(line[k])
  }

  lemma StrippedStart(line: string, marker: string)
    requires Trimmed(marker)
    ensures StartsWith(Strip(line), marker) <==> BeginsWith(line, marker)
  {
    var lo, hi := StripTrims(line);
    if StartsWith(Strip(line), marker) {
      assert line[lo..hi][..|marker|] == line[lo..lo + |marker|];
      assert OccursAt(line, marker, lo);
    }
    if BeginsWith(line, marker) {
      var i: nat :| OccursAt(line, marker, i) && forall k :: 0 <= k < i ==> IsSpace(line[k]);
      assert line[i] == marker[0] && line[i + |marker| - 1] == marker[|marker| - 1];
      assert i == lo && i + |marker| <= hi;
      assert line[lo..hi][..|marker|] == line[i..i + |marker|];
    }
  }

  /** A line is a marker exactly if it begins with its text, but for white space. */
  lemma MarkersExactly(line: string)
    ensures IsUp(line) <==> BeginsWith(line, "-- migrate:up")
    ensures IsDown(line) <==> BeginsWith(line, "-- migrate:down")
  {
    StrippedStart(line, "-- migrate:up");
    StrippedStart(line, "-- migrate:down");
  }

  // --- one pass over the file ---------------------------------------------------------------------

  /** Line u is the last up marker ahead of line d, which is the first down marker or the end. */
  predicate Chosen(lines: seq<string>, u: nat, d: nat) {
    && u < d <= |lines| && IsUp(lines[u]) && (d < |lines| ==> IsDown(lines[d]))
    && (forall i :: 0 <= i < d ==> !IsDown(lines[i])) && (forall i :: u < i < d ==> !IsUp(lines[i]))
  }

  /** What parsing gives, by the lines alone. */
  ghost predicate ParsedAs(lines: seq<string>, up: Option<Up>) {
    match up
    case None => forall u: nat :: u < |lines| && IsUp(lines[u]) ==> exists d: nat :: d < u && IsDown(lines[d])
    case Some(up) => exists u: nat, d: nat :: Chosen(lines, u, d) && ParsedAt(lines, u, d, up)
  }

  ghost predicate ParsedAt(lines: seq<string>, u: nat, d: nat, up: Up)
    requires u < d <= |lines|
  {
    up.sql == Strip(Join(lines[u + 1..d])) && (up.inTxn <==> !Occurs(lines[u], "transaction:false"))
  }

  lemma ParsesAs(lines: seq<string>)
    ensures ParsedAs(lines, ParseLines(lines))
  {
    var d := FirstDown(lines);
    match LastUp(lines[..d]) {
      case None =>
        forall i | 0 <= i < d ensures !IsUp(lines[i]) {
          assert lines[..d][i] in lines[..d];
        }
        forall u: nat | u < |lines| && IsUp(lines[u]) ensures exists e: nat :: e < u && IsDown(lines[e]) {
          UpIsNotDown(lines[u]);
          assert d < u && IsDown(lines[d]);
        }
      case Some(u) =>
        FlagExactly(lines[u]);
        forall i | u < i < d ensures !IsUp(lines[i]) {
          assert lines[..d][i] == lines[i];
        }
        assert Chosen(lines, u, d) && ParsedAt(lines, u, d, ParseLines(lines).value);
    }
  }

  /** parse_up: None is the ValueError. */
  method ParseUp(text: string) returns (up: Option<Up>)
    ensures up == Parse(text) && ParsedAs(SplitLines(text), up)
  {
    up := ScanLines(SplitLines(text));
    ParsesAs(SplitLines(text));
  }

  /** One pass over the lines, remembering the last up marker, done at the first down marker. */
  method ScanLines(lines: seq<string>) returns (up: Option<Up>)
    ensures up == ParseLines(lines)
  {
    var upStart: Option<nat> := None;
    var inTxn := true;
    for i := 0 to |lines|
      invariant Scanned(lines[..i], upStart, inTxn)
    {
      if IsUp(lines[i]) {
        UpIsNotDown(lines[i]);
        ScanStep(lines, i, upStart, inTxn);
        upStart, inTxn := Some(i + 1), InTransaction(lines[i]);
      } else if IsDown(lines[i]) {
        ScanEnds(lines, i, upStart, inTxn);
        if upStart.None? {
          return None;
        }
        return Some(Up(Strip(Join(lines[upStart.value..i])), inTxn));
      } else {
        ScanStep(lines, i, upStart, inTxn);
      }
    }
    ScanEnds(lines, |lines|, upStart, inTxn);
    if upStart.None? {
      return None;
    }
    assert lines[upStart.value..] == lines[upStart.value..|lines|];
    return Some(Up(Strip(Join(lines[upStart.value..])), inTxn));
  }

  // --- what a written file reads back as -----------------------------------------------------

  /** Lines written out, each with its line feed. */
  function Unlines(lines: seq<string>): string {
    if lines == [] then "" else lines[0] + "\n" + Unlines(lines[1..])
  }

  lemma {:induction false} LineEnds(line: string, rest: string)
    requires BreakFree(line) && rest != "" && IsBreak(rest[0])
    ensures LineLength(line + rest) == |line|
  {
    if line == "" {
      assert line + rest == rest;
    } else {
      assert (line + rest)[1..] == line[1..] + rest;
      LineEnds(line[1..], rest);
    }
  }

  lemma LoneBreak(end: string, more: string)
    requires |end| == 1 && "\r\n" <= end + more
    ensures end == "\r" && "\n" <= more
  {
    assert (end + more)[0] == end[0] && (end + more)[1] == more[0];
  }

  /** Each break ends a line: any one break character, but a carriage return takes a line feed with it. */
  lemma SplitLine(line: string, end: string, more: string)
    requires BreakFree(line)
    requires end == "\r\n" || (|end| == 1 && IsBreak(end[0]) && (end == "\r" ==> !("\n" <= more)))
    ensures SplitLines(line + end + more) == [line] + SplitLines(more)
  {
    var text := line + end + more;
    assert text == line + (end + more);
    LineEnds(line, end + more);
    assert text[..|line|] == line && text[|line|..] == end + more && text[|line| + |end|..] == more;
    assert more == (end + more)[|end|..];
    if |end| == 1 && "\r\n" <= end + more {
      LoneBreak(end, more);
    }
  }

  /** Text without a break is one line, and no text has none. */
  lemma LastLine(line: string)
    requires BreakFree(line)
    ensures SplitLines(line) == if line == "" then [] else [line]
  {
    var n := LineLength(line);
    forall i | 0 <= i < |line| ensures !IsBreak(line[i]) {
      assert line[i] in line;
    }
    assert n == |line|;
  }

  /** Joining puts line feeds between the lines. */
  lemma {:induction false} JoinUnlines(lines: seq<string>)
    requires lines != []
    ensures Join(lines) + "\n" == Unlines(lines)
  {
    if |lines| == 1 {
      assert lines[1..] == [];
      assert Unlines([]) == "";
    } else {
      JoinUnlines(lines[1..]);
    }
  }

  lemma UnlinesCons(lines: seq<string>, rest: string)
    requires lines != []
    ensures Unlines(lines) + rest == lines[0] + "\n" + (Unlines(lines[1..]) + rest)
  {
  }

  lemma Cons<T>(s: seq<T>, more: seq<T>)
    requires s != []
    ensures [s[0]] + (s[1..] + more) == s + more
  {
  }

  lemma {:induction false} SplitUnlines(lines: seq<string>, rest: string)
    requires forall line <- lines :: BreakFree(line)
    ensures SplitLines(Unlines(lines) + rest) == lines + SplitLines(rest)
  {
    if lines == [] {
      assert Unlines(lines) + rest == rest;
      assert lines + SplitLines(rest) == SplitLines(rest);
    } else {
      UnlinesCons(lines, rest);
      SplitLine(lines[0], "\n", Unlines(lines[1..]) + rest);
      SplitUnlines(lines[1..], rest);
      Cons(lines, SplitLines(rest));
    }
  }

  lemma {:induction false} LastUpAt(lines: seq<string>, u: nat)
    requires u < |lines| && IsUp(lines[u]) && forall i :: u < i < |lines| ==> !IsUp(lines[i])
    ensures LastUp(lines) == Some(u)
  {
  }

  /** The lines of a written file, whatever follows them. */
  lemma LinesReadBack(header: seq<string>, up: string, body: seq<string>, down: string, more: seq<string>)
    requires IsUp(up) && !IsDown(up) && IsDown(down)
    requires forall line <- header :: !IsDown(line)
    requires forall line <- body :: !IsUp(line) && !IsDown(line)
    ensures ParseLines(header + [up] + body + [down] + more) == Some(Up(Strip(Join(body)), InTransaction(up)))
  {
    var lines := header + [up] + body + [down] + more;
    var u, d := |header|, |header| + 1 + |body|;
    assert lines[..d] == header + [up] + body;
    forall j | 0 <= j < d ensures !IsDown(lines[j]) {
      assert lines[j] in header || lines[j] == up || lines[j] in body;
    }
    NoDownBefore(lines, d);
    forall i | u < i < d ensures !IsUp(lines[i]) {
      assert lines[i] in body;
    }
    LastUpAt(lines[..d], u);
    assert lines[u + 1..d] == body;
  }

  /**
   A file written as header, up marker, body, down marker and anything after reads back as its body and
   flag. The header may say anything but a down marker, the body anything but a marker.
   */
  lemma ReadsBack(header: seq<string>, up: string, body: seq<string>, down: string, rest: string)
    requires forall line <- header + [up] + body + [down] :: BreakFree(line)
    requires IsUp(up) && !IsDown(up) && IsDown(down)
    requires forall line <- header :: !IsDown(line)
    requires forall line <- body :: !IsUp(line) && !IsDown(line)
    ensures var parsed := Parse(Unlines(header + [up] + body + [down]) + rest);
      parsed.Some? && parsed.value.sql == Strip(Join(body))
      && (parsed.value.inTxn <==> !Occurs(up, "transaction:false"))
    ensures body != [] ==> Join(body) + "\n" == Unlines(body)
    ensures Trimmed(Join(body)) ==> Strip(Join(body)) == Join(body)
  {
    SplitUnlines(header + [up] + body + [down], rest);
    LinesReadBack(header, up, body, down, SplitLines(rest));
    FlagExactly(up);
    if body != [] {
      JoinUnlines(body);
    }
    if Trimmed(Join(body)) {
      Stripped(Join(body));
    }
  }

  /** No line of it mentions a marker. */
  ghost predicate Plain(lines: seq<string>) {
    forall line <- lines :: BreakFree(line) && !Occurs(line, "-- migrate:")
  }

  lemma PrefixOccurs(line: string, part: string, more: string)
    requires Occurs(line, part + more)
    ensures Occurs(line, part)
  {
    var i: nat :| OccursAt(line, part + more, i);
    assert line[i..i + |part + more|][..|part|] == line[i..i + |part|];
    assert OccursAt(line, part, i);
  }

  lemma PlainLine(line: string)
    requires !Occurs(line, "-- migrate:")
    ensures !IsUp(line) && !IsDown(line)
  {
    if IsUp(line) {
      MarkersExactly(line);
      assert "-- migrate:up" == "-- migrate:" + "up";
      PrefixOccurs(line, "-- migrate:", "up");
    }
    if IsDown(line) {
      MarkersExactly(line);
      assert "-- migrate:down" == "-- migrate:" + "down";
      PrefixOccurs(line, "-- migrate:", "down");
    }
  }

  const UP := "-- migrate:up"
  const FLAG := "transaction:false"
  const DOWN := "-- migrate:down"

  /** Text without white space at its ends is what stripping leaves of it. */
  lemma Stripped(s: string)
    requires Trimmed(s)
    ensures Strip(s) == s
  {
    var lo, hi := StripTrims(s);
  }

  lemma PlainMarker()
    ensures BreakFree(UP) && IsUp(UP) && !IsDown(UP) && !Occurs(UP, "transaction:false")
  {
    Stripped(UP);
    UpIsNotDown(UP);
  }

  lemma MarkerWith(up: string, flag: string)
    requires Trimmed(up) && Trimmed(flag) && BreakFree(up) && BreakFree(flag)
    ensures var line := up + " " + flag;
      BreakFree(line) && Strip(line) == line && up <= line && Occurs(line, flag)
  {
    var line := up + " " + flag;
    assert line[..|up|] == up && line[|up| + 1..] == flag;
    assert line[0] == up[0] && line[|line| - 1] == flag[|flag| - 1];
    assert OccursAt(line, flag, |up| + 1);
    Stripped(line);
  }

  lemma FlaggedMarker()
    ensures var up := UP + " " + FLAG; BreakFree(up) && IsUp(up) && !IsDown(up) && Occurs(up, FLAG)
  {
    MarkerWith(UP, FLAG);
    UpIsNotDown(UP + " " + FLAG);
  }

  lemma DownMarker()
    ensures BreakFree(DOWN) && IsDown(DOWN)
  {
    Stripped(DOWN);
  }

  /** The two ordinary files: transactional with the plain marker, not so with the flag. */
  lemma OrdinaryFiles(header: seq<string>, body: seq<string>, rest: string)
    requires Plain(header) && Plain(body)
    ensures Parse(Unlines(header + ["-- migrate:up"] + body + ["-- migrate:down"]) + rest)
         == Some(Up(Strip(Join(body)), true))
    ensures Parse(Unlines(header + ["-- migrate:up" + " " + "transaction:false"] + body + ["-- migrate:down"]) + rest)
         == Some(Up(Strip(Join(body)), false))
  {
    PlainMarker();
    FlaggedMarker();
    DownMarker();
    forall line | line in header || line in body ensures !IsUp(line) && !IsDown(line) {
      PlainLine(line);
    }
    ReadsBack(header, UP, body, DOWN, rest);
    ReadsBack(header, UP + " " + FLAG, body, DOWN, rest);
  }
}
