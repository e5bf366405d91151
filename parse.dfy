/**
 * `parse_lines`: the leading IPv4-shaped address of a log text.
 *
 * The source applies the fixed pattern `^(\d{1,3}\.\d{1,3}\.\d{1,3}\.\d{1,3})`
 * to the whole text and wraps every capture in a `Hit`. The model gives the
 * language of that one pattern directly (no general regex engine): three
 * groups of one to three digits each followed by a dot, then a last group of
 * one to three digits, all anchored at the start of the text.
 */
module Parse {
  import opened Wrappers

  /** One extracted address, kept as the text it was matched from. */
  datatype Hit = Hit(ip: string)

  /**
   * The digit class `\d`, restricted to the ASCII digits. Like `\d` it never
   * holds of the dot, which is what makes backing off a digit group useless.
   */
  predicate IsDigit(c: char)
    ensures IsDigit(c) ==> c != '.'
  {
    '0' <= c <= '9'
  }

  function Min(a: nat, b: nat): nat {
    if a <= b then a else b
  }

  // ---------------------------------------------------------------------------
  // Reference definition of the pattern's language
  // ---------------------------------------------------------------------------

  /** `\d{1,3}`: one to three digits. */
  predicate IsGroup(g: string) {
    1 <= |g| <= 3 && forall k :: 0 <= k < |g| ==> IsDigit(g[k])
  }

  /** `\d{1,3}\.\d{1,3}\.\d{1,3}\.\d{1,3}`: four groups joined by single dots. */
  ghost predicate IsDottedQuad(ip: string) {
    exists a, b, c, d ::
      IsGroup(a) && IsGroup(b) && IsGroup(c) && IsGroup(d) &&
      ip == a + "." + b + "." + c + "." + d
  }

  /** The text starts with a dotted quad that is `n` characters long. */
  ghost predicate QuadPrefix(s: string, n: nat) {
    n <= |s| && IsDottedQuad(s[..n])
  }

  lemma DottedQuadLength(ip: string)
    requires IsDottedQuad(ip)
    ensures 7 <= |ip| <= 15
  {
  }

  // ---------------------------------------------------------------------------
  // The matcher, anchored at index 0
  // ---------------------------------------------------------------------------

  /** Length of the maximal run of digits that starts at index `i`. */
  function DigitRun(s: string, i: nat): (n: nat)
    requires i <= |s|
    ensures i + n <= |s|
    ensures forall k :: i <= k < i + n ==> IsDigit(s[k])
    ensures i + n == |s| || !IsDigit(s[i + n])
    decreases |s| - i
  {
    if i < |s| && IsDigit(s[i]) then 1 + DigitRun(s, i + 1) else 0
  }

  /**
   * `\d{1,3}\.` at index `i`: the index just after the dot. Backing off to
   * fewer digits never helps, since a digit would then stand where the dot
   * is required, so the whole digit run must be one to three long.
   */
  function DottedGroup(s: string, i: nat): (r: Option<nat>)
    requires i <= |s|
    ensures r.Some? ==> i + 2 <= r.value <= i + 4 && r.value <= |s|
    ensures r.Some? ==> IsGroup(s[i..r.value - 1]) && s[r.value - 1] == '.'
  {
    var n := DigitRun(s, i);
    if 1 <= n <= 3 && i + n < |s| && s[i + n] == '.' then
      assert IsGroup(s[i..i + n]);
      Some(i + n + 1)
    else
      None
  }

  /** The last `\d{1,3}` at index `i`, greedy: the index after its digits. */
  function FinalGroup(s: string, i: nat): (r: Option<nat>)
    requires i <= |s|
    ensures r.Some? ==> i + 1 <= r.value <= i + 3 && r.value <= |s|
    ensures r.Some? ==> IsGroup(s[i..r.value])
    ensures r.Some? <==> i < |s| && IsDigit(s[i])
  {
    var n := DigitRun(s, i);
    if n == 0 then None else Some(i + Min(n, 3))
  }

  /** End index of the pattern's match at the start of `s`, if there is one. */
  function QuadEnd(s: string): (r: Option<nat>)
    ensures r.Some? ==> 7 <= r.value <= 15 && r.value <= |s|
  {
    var g1 := DottedGroup(s, 0);
    if g1.None? then None else
    var g2 := DottedGroup(s, g1.value);
    if g2.None? then None else
    var g3 := DottedGroup(s, g2.value);
    if g3.None? then None else
    FinalGroup(s, g3.value)
  }

  /** The anchored pattern tried at index `i`: `^` without the multiline flag holds only at 0. */
  function MatchAt(s: string, i: nat): (r: Option<nat>)
    requires i <= |s|
    ensures i > 0 ==> r.None?
    ensures r.Some? ==> i + 7 <= r.value <= |s|
  {
    if i == 0 then QuadEnd(s) else None
  }

  /**
   * `captures_iter`: the capture of every successive non-overlapping match,
   * searching from index `from`, left to right.
   */
  function Captures(s: string, from: nat): (caps: seq<string>)
    requires from <= |s|
    ensures forall k :: 0 <= k < |caps| ==> 7 <= |caps[k]| <= 15
    decreases |s| - from
  {
    match MatchAt(s, from)
    case Some(e) => [s[from..e]] + Captures(s, e)
    case None => if from < |s| then Captures(s, from + 1) else []
  }

  /** `parse_lines`: one `Hit` per capture. Compiling the constant pattern never fails. */
  function ParseLines(lines: string): (r: Result<seq<Hit>>)
    ensures r.Ok?
    ensures |r.value| <= 1
    ensures |r.value| == 1 <==> QuadEnd(lines).Some?
    ensures |r.value| == 1 ==> r.value[0].ip == lines[..QuadEnd(lines).value]
  {
    var caps := Captures(lines, 0);
    NoMatchAfterStart(lines, 0);
    Ok(seq(|caps|, k requires 0 <= k < |caps| => Hit(caps[k])))
  }

  // ---------------------------------------------------------------------------
  // Lemmas
  // ---------------------------------------------------------------------------

  /** A group followed by a dot at index `i` is exactly what `DottedGroup` takes there. */
  lemma DottedGroupTakes(s: string, i: nat, g: string)
    requires IsGroup(g) && i + |g| < |s| && s[i..i + |g|] == g && s[i + |g|] == '.'
    ensures DottedGroup(s, i) == Some(i + |g| + 1)
  {
  }

  /** `FinalGroup` takes at least as many digits as any group at index `i`. */
  lemma FinalGroupCovers(s: string, i: nat, g: string)
    requires IsGroup(g) && i + |g| <= |s| && s[i..i + |g|] == g
    ensures FinalGroup(s, i).Some? && i + |g| <= FinalGroup(s, i).value
  {
  }

  /**
   * Past index 0 the anchored pattern never matches, so the search that
   * starts there yields nothing.
   */
  lemma {:induction false} NoMatchAfterStart(s: string, from: nat)
    requires from <= |s|
    ensures from > 0 ==> Captures(s, from) == []
    ensures from == 0 ==>
      Captures(s, 0) == (match QuadEnd(s) case Some(e) => [s[..e]] case None => [])
    decreases |s| - from
  {
    match MatchAt(s, from)
    case Some(e) =>
      NoMatchAfterStart(s, e);
    case None =>
      if from < |s| {
        NoMatchAfterStart(s, from + 1);
      }
  }

  /** The pieces of a dotted quad sit at the offsets the dots fix. */
  lemma JoinedParts(a: string, b: string, c: string, d: string)
    ensures var ip, p1, p2, p3 := a + "." + b + "." + c + "." + d, |a| + 1, |a| + |b| + 2, |a| + |b| + |c| + 3;
      |ip| == p3 + |d| &&
      ip[..|a|] == a && ip[|a|] == '.' &&
      ip[p1..p2 - 1] == b && ip[p2 - 1] == '.' &&
      ip[p2..p3 - 1] == c && ip[p3 - 1] == '.' &&
      ip[p3..] == d
  {
  }

  /** A prefix cut at three dots is its four pieces joined by those dots. */
  lemma SplitAtDots(s: string, p1: nat, p2: nat, p3: nat, e: nat)
    requires 1 <= p1 < p2 < p3 <= e <= |s|
    requires s[p1 - 1] == '.' && s[p2 - 1] == '.' && s[p3 - 1] == '.'
    ensures s[..e] == s[..p1 - 1] + "." + s[p1..p2 - 1] + "." + s[p2..p3 - 1] + "." + s[p3..e]
  {
    var l1 := s[..p1 - 1] + ".";
    var l2 := l1 + s[p1..p2 - 1];
    var l3 := l2 + ".";
    var l4 := l3 + s[p2..p3 - 1];
    var l5 := l4 + ".";
    assert l1 == s[..p1];
    assert l2 == s[..p2 - 1];
    assert l3 == s[..p2];
    assert l4 == s[..p3 - 1];
    assert l5 == s[..p3];
  }

  /** The matched prefix is a dotted quad. */
  lemma QuadEndSound(s: string)
    requires QuadEnd(s).Some?
    ensures QuadPrefix(s, QuadEnd(s).value)
  {
    var p1 := DottedGroup(s, 0).value;
    var p2 := DottedGroup(s, p1).value;
    var p3 := DottedGroup(s, p2).value;
    var e := QuadEnd(s).value;
    assert e == FinalGroup(s, p3).value;
    SplitAtDots(s, p1, p2, p3, e);
    var a, b, c, d := s[..p1 - 1], s[p1..p2 - 1], s[p2..p3 - 1], s[p3..e];
    assert IsGroup(a) && IsGroup(b) && IsGroup(c) && IsGroup(d);
    assert s[..e] == a + "." + b + "." + c + "." + d;
  }

  /** Groups `a` to `d` stand in `s` from index 0, separated by single dots. */
  ghost predicate LaidOut(s: string, a: string, b: string, c: string, d: string) {
    |a| + |b| + |c| + |d| + 3 <= |s| &&
    s[..|a|] == a && s[|a|] == '.' &&
    s[|a| + 1..|a| + |b| + 1] == b && s[|a| + |b| + 1] == '.' &&
    s[|a| + |b| + 2..|a| + |b| + |c| + 2] == c && s[|a| + |b| + |c| + 2] == '.' &&
    s[|a| + |b| + |c| + 3..|a| + |b| + |c| + |d| + 3] == d
  }

  /** A text that starts with the joined groups has them laid out. */
  lemma StartsWithJoin(s: string, a: string, b: string, c: string, d: string)
    requires var n := |a| + |b| + |c| + |d| + 3;
      n <= |s| && s[..n] == a + "." + b + "." + c + "." + d
    ensures LaidOut(s, a, b, c, d)
  {
    var n := |a| + |b| + |c| + |d| + 3;
    var ip := s[..n];
    JoinedParts(a, b, c, d);
    var p1, p2, p3 := |a| + 1, |a| + |b| + 2, |a| + |b| + |c| + 3;
    assert s[..|a|] == ip[..|a|];
    assert s[p1..p2 - 1] == ip[p1..p2 - 1];
    assert s[p2..p3 - 1] == ip[p2..p3 - 1];
    assert s[p3..n] == ip[p3..];
  }

  /** A dotted quad that starts `s` lays its four groups and three dots out in `s`. */
  lemma QuadPrefixParts(s: string, n: nat) returns (a: string, b: string, c: string, d: string)
    requires QuadPrefix(s, n)
    ensures IsGroup(a) && IsGroup(b) && IsGroup(c) && IsGroup(d)
    ensures n == |a| + |b| + |c| + |d| + 3 && LaidOut(s, a, b, c, d)
  {
    a, b, c, d :| IsGroup(a) && IsGroup(b) && IsGroup(c) && IsGroup(d) &&
      s[..n] == a + "." + b + "." + c + "." + d;
    StartsWithJoin(s, a, b, c, d);
  }

  /** Four groups and three dots laid out from the start of `s` are matched, at least in full. */
  lemma QuadEndCovers(s: string, a: string, b: string, c: string, d: string)
    requires IsGroup(a) && IsGroup(b) && IsGroup(c) && IsGroup(d)
    requires LaidOut(s, a, b, c, d)
    ensures QuadEnd(s).Some? && |a| + |b| + |c| + |d| + 3 <= QuadEnd(s).value
    ensures QuadEnd(s).value <= |a| + |b| + |c| + 6
  {
    var p1, p2, p3 := |a| + 1, |a| + |b| + 2, |a| + |b| + |c| + 3;
    assert DottedGroup(s, 0) == Some(p1) by { DottedGroupTakes(s, 0, a); }
    assert DottedGroup(s, p1) == Some(p2) by { DottedGroupTakes(s, p1, b); }
    assert DottedGroup(s, p2) == Some(p3) by { DottedGroupTakes(s, p2, c); }
    FinalGroupCovers(s, p3, d);
  }

  /**
   * Every dotted quad at the start of `s` is matched, and the match is at
   * least as long: the greedy last group makes the match the longest one.
   */
  lemma QuadEndComplete(s: string, n: nat)
    requires QuadPrefix(s, n)
    ensures QuadEnd(s).Some? && n <= QuadEnd(s).value
  {
    var a, b, c, d := QuadPrefixParts(s, n);
    QuadEndCovers(s, a, b, c, d);
  }

  /**
   * `parse_lines` in terms of the pattern's language: no hit exactly when no
   * dotted quad starts the text; otherwise a single hit, which is the longest
   * dotted-quad prefix of the text.
   */
  lemma ParseLinesSpec(lines: string)
    ensures ParseLines(lines) == Ok([]) <==> forall n: nat :: !QuadPrefix(lines, n)
    ensures ParseLines(lines) != Ok([]) ==>
      exists ip :: ParseLines(lines) == Ok([Hit(ip)]) && IsLongestQuadPrefix(lines, ip)
  {
    var r := ParseLines(lines);
    match QuadEnd(lines)
    case None =>
      forall n: nat ensures !QuadPrefix(lines, n) {
        if QuadPrefix(lines, n) { QuadEndComplete(lines, n); }
      }
      assert r.value == [];
    case Some(e) =>
      QuadEndSound(lines);
      assert r.value == [r.value[0]] && r.value[0] == Hit(lines[..e]);
      forall n: nat | QuadPrefix(lines, n) ensures n <= e {
        QuadEndComplete(lines, n);
      }
      assert IsLongestQuadPrefix(lines, lines[..e]);
  }

  /** `ip` starts `s`, is a dotted quad, and no dotted quad starting `s` is longer. */
  ghost predicate IsLongestQuadPrefix(s: string, ip: string) {
    QuadPrefix(s, |ip|) && s[..|ip|] == ip &&
    forall n: nat :: QuadPrefix(s, n) ==> n <= |ip|
  }

  /** A dotted quad on its own is reported whole: octet values are never range-checked. */
  lemma {:induction false} DottedQuadIsHit(ip: string)
    requires IsDottedQuad(ip)
    ensures ParseLines(ip) == Ok([Hit(ip)])
  {
    assert ip[..|ip|] == ip;
    QuadEndComplete(ip, |ip|);
    var r := ParseLines(ip);
    assert r.value == [r.value[0]] && r.value[0] == Hit(ip);
  }

  // Locality: a character that is neither a digit nor a dot ends every run
  // and every group just as the end of the text does.

  lemma {:induction false} DigitRunStops(p: string, c: char, rest: string, i: nat)
    requires c != '.' && !IsDigit(c) && i <= |p|
    ensures DigitRun(p + [c] + rest, i) == DigitRun(p, i)
    decreases |p| - i
  {
    var t := p + [c] + rest;
    if i < |p| {
      assert t[i] == p[i];
      DigitRunStops(p, c, rest, i + 1);
    } else {
      assert t[i] == c;
    }
  }

  lemma GroupsStop(p: string, c: char, rest: string, i: nat)
    requires c != '.' && !IsDigit(c) && i <= |p|
    ensures DottedGroup(p + [c] + rest, i) == DottedGroup(p, i)
    ensures FinalGroup(p + [c] + rest, i) == FinalGroup(p, i)
  {
    var t := p + [c] + rest;
    DigitRunStops(p, c, rest, i);
    var n := DigitRun(p, i);
    if i + n < |p| {
      assert t[i + n] == p[i + n];
    } else {
      assert t[i + n] == c;
    }
  }

  lemma QuadEndStops(p: string, c: char, rest: string)
    requires c != '.' && !IsDigit(c)
    ensures QuadEnd(p + [c] + rest) == QuadEnd(p)
  {
    GroupsStop(p, c, rest, 0);
    var g1 := DottedGroup(p, 0);
    if g1.Some? {
      GroupsStop(p, c, rest, g1.value);
      var g2 := DottedGroup(p, g1.value);
      if g2.Some? {
        GroupsStop(p, c, rest, g2.value);
        var g3 := DottedGroup(p, g2.value);
        if g3.Some? {
          GroupsStop(p, c, rest, g3.value);
        }
      }
    }
  }

  /**
   * Only the text before the first character that is neither a digit nor a
   * dot can decide the result; in particular no line after the first is
   * ever examined.
   */
  lemma StopCharEndsInput(p: string, c: char, rest: string)
    requires c != '.' && !IsDigit(c)
    ensures ParseLines(p + [c] + rest) == ParseLines(p)
  {
    var t := p + [c] + rest;
    QuadEndStops(p, c, rest);
    var r, r' := ParseLines(t), ParseLines(p);
    if |r'.value| == 1 {
      var e := QuadEnd(p).value;
      assert t[..e] == p[..e];
      assert r.value == [r.value[0]] && r'.value == [r'.value[0]];
    }
  }

  /** A dotted quad followed by a stop character is the hit, whatever comes after. */
  lemma QuadThenStop(ip: string, c: char, rest: string)
    requires IsDottedQuad(ip) && c != '.' && !IsDigit(c)
    ensures ParseLines(ip + [c] + rest) == Ok([Hit(ip)])
  {
    DottedQuadIsHit(ip);
    StopCharEndsInput(ip, c, rest);
  }

  /** The first line alone decides the result. */
  lemma FirstLineDecides(first: string, rest: string)
    ensures ParseLines(first + "\n" + rest) == ParseLines(first)
  {
    StopCharEndsInput(first, '\n', rest);
  }

  // Concrete cases.

  /** Octets above 255 are accepted as they are. */
  lemma OctetsNotRangeChecked()
    ensures ParseLines("999.999.999.999") == Ok([Hit("999.999.999.999")])
  {
    var g := "999";
    assert IsGroup(g);
    assert "999.999.999.999" == g + "." + g + "." + g + "." + g;
    DottedQuadIsHit("999.999.999.999");
  }

  /** A first group of four digits leaves no match at all. */
  lemma LongFirstGroupNoHit()
    ensures ParseLines("1234.1.1.1") == Ok([])
  {
    var s := "1234.1.1.1";
    assert DigitRun(s, 4) == 0;
    assert DigitRun(s, 0) == 4;
    assert DottedGroup(s, 0).None?;
  }

  /**
   * A last group of three digits is cut there, whatever follows: more digits
   * are dropped, so `1.2.3.4567` yields `1.2.3.456`.
   */
  lemma LongLastGroupTruncated(a: string, b: string, c: string, d: string, more: string)
    requires IsGroup(a) && IsGroup(b) && IsGroup(c) && IsGroup(d) && |d| == 3
    ensures var ip := a + "." + b + "." + c + "." + d;
      ParseLines(ip + more) == Ok([Hit(ip)])
  {
    var ip := a + "." + b + "." + c + "." + d;
    var s := ip + more;
    assert s[..|ip|] == ip;
    StartsWithJoin(s, a, b, c, d);
    QuadEndCovers(s, a, b, c, d);
    var r := ParseLines(s);
    assert r.value == [r.value[0]] && r.value[0] == Hit(ip);
  }


  /**
   * The access-log line the parser was written for
   * (`178.128.94.113 - - [04/Oct/2024:00:00:18 +0000] "GET /v1-health ...`)
   * yields its client address, whatever follows the first space.
   */
  lemma AccessLogLine(rest: string)
    ensures ParseLines("178.128.94.113 " + rest) == Ok([Hit("178.128.94.113")])
  {
    var ip := "178.128.94.113";
    assert IsDottedQuad(ip) by {
      var a, b, c, d := "178", "128", "94", "113";
      assert IsGroup(a) && IsGroup(b) && IsGroup(c) && IsGroup(d);
      assert ip == a + "." + b + "." + c + "." + d;
    }
    assert ip + [' '] + rest == "178.128.94.113 " + rest;
    QuadThenStop(ip, ' ', rest);
  }

  /** A text whose first line does not start with an address yields nothing, silently. */
  lemma LaterLinesIgnored(first: string, rest: string)
    requires forall n: nat :: !QuadPrefix(first, n)
    ensures ParseLines(first + "\n" + rest) == Ok([])
  {
    FirstLineDecides(first, rest);
    ParseLinesSpec(first);
  }
}
