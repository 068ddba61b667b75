/**
 * Text primitives shared by the three tools: Python's whitespace set, `str.strip`,
 * `str.split`, `str.join`, `str.count`, `str.find`, ASCII `lower()` and the literal
 * alternations (`a|b|c`) that the regular expressions of the tools use.
 *
 * A Python `str` is a sequence of code points; so is a Dafny `string` here.
 */
module Text {

  datatype Option<+T> = None | Some(value: T) {
    function GetOr(default: T): T {
      match this
      case Some(v) => v
      case None => default
    }
  }

  /** The code points for which Python's `str.isspace()` holds; the same set is what
      `str.strip()` removes and what `\s` matches in a `str` pattern. */
  predicate IsSpace(c: char) {
    || ('\t' <= c <= '\r')
    || ('\U{1c}' <= c <= '\U{1f}')
    || c == ' ' || c == '\U{85}' || c == '\U{a0}' || c == '\U{1680}'
    || ('\U{2000}' <= c <= '\U{200a}')
    || c == '\U{2028}' || c == '\U{2029}' || c == '\U{202f}' || c == '\U{205f}' || c == '\U{3000}'
  }

  predicate AllSpace(s: string) {
    forall i | 0 <= i < |s| :: IsSpace(s[i])
  }

  predicate IsAsciiDigit(c: char) { '0' <= c <= '9' }
  predicate IsAsciiUpper(c: char) { 'A' <= c <= 'Z' }
  predicate IsAsciiLower(c: char) { 'a' <= c <= 'z' }
  predicate IsAsciiLetter(c: char) { IsAsciiUpper(c) || IsAsciiLower(c) }

  /** `\w` restricted to ASCII: letters, digits and underscore. */
  predicate IsWordChar(c: char) { IsAsciiLetter(c) || IsAsciiDigit(c) || c == '_' }

  function LowerChar(c: char): char {
    if IsAsciiUpper(c) then (c as int + 32) as char else c
  }

  function UpperChar(c: char): char {
    if IsAsciiLower(c) then (c as int - 32) as char else c
  }

  /** `s.lower()` for ASCII letters; every other code point is kept. */
  function Lower(s: string): (r: string)
    ensures |r| == |s|
    ensures forall i | 0 <= i < |s| :: r[i] == LowerChar(s[i])
  {
    seq(|s|, i requires 0 <= i < |s| => LowerChar(s[i]))
  }

  /** Length of the leading whitespace run. */
  function LeadingSpace(s: string): (n: nat)
    ensures n <= |s|
    ensures forall k | 0 <= k < n :: IsSpace(s[k])
    ensures n < |s| ==> !IsSpace(s[n])
  {
    if |s| > 0 && IsSpace(s[0]) then 1 + LeadingSpace(s[1..]) else 0
  }

  /** Length of the trailing whitespace run. */
  function TrailingSpace(s: string): (n: nat)
    ensures n <= |s|
    ensures forall k | |s| - n <= k < |s| :: IsSpace(s[k])
    ensures n < |s| ==> !IsSpace(s[|s| - 1 - n])
  {
    if |s| > 0 && IsSpace(s[|s| - 1]) then 1 + TrailingSpace(s[..|s| - 1]) else 0
  }

  /** `s.lstrip()` */
  function LStrip(s: string): (r: string)
    ensures |r| <= |s| && r == s[|s| - |r|..]
    ensures r == [] || !IsSpace(r[0])
    ensures AllSpace(s[..|s| - |r|])
  {
    s[LeadingSpace(s)..]
  }

  /** `s.rstrip()` */
  function RStrip(s: string): (r: string)
    ensures |r| <= |s| && r == s[..|r|]
    ensures r == [] || !IsSpace(r[|r| - 1])
    ensures AllSpace(s[|r|..])
  {
    s[..|s| - TrailingSpace(s)]
  }

  /** `s.strip()` */
  function Strip(s: string): string {
    RStrip(LStrip(s))
  }

  /** `s.strip(c)`: removes every leading and trailing `c`. */
  function StripChar(s: string, c: char): string
    decreases |s|
  {
    if |s| > 0 && s[0] == c then StripChar(s[1..], c)
    else if |s| > 0 && s[|s| - 1] == c then StripChar(s[..|s| - 1], c)
    else s
  }

  predicate StartsWith(s: string, p: string) {
    |p| <= |s| && s[..|p|] == p
  }

  predicate EndsWith(s: string, p: string) {
    |p| <= |s| && s[|s| - |p|..] == p
  }

  predicate OccursAt(s: string, p: string, i: int) {
    0 <= i && i + |p| <= |s| && s[i..i + |p|] == p
  }

  /** `p in s` */
  predicate Contains(s: string, p: string) {
    exists i | 0 <= i <= |s| - |p| :: OccursAt(s, p, i)
  }

  /** `any(t in s for t in terms)` */
  predicate ContainsAny(s: string, terms: seq<string>) {
    exists k | 0 <= k < |terms| :: Contains(s, terms[k])
  }

  /** `s.find(p)`, with `None` for -1. */
  function Find(s: string, p: string): (r: Option<nat>)
    ensures r.Some? ==> OccursAt(s, p, r.value)
    ensures r.Some? ==> forall i | 0 <= i < r.value :: !OccursAt(s, p, i)
    ensures r.None? ==> !Contains(s, p)
  {
    FindFrom(s, p, 0)
  }

  /** `s.find(p, i)`: the first occurrence at or after `i`. */
  function FindFrom(s: string, p: string, i: nat): (r: Option<nat>)
    ensures r.Some? ==> i <= r.value && OccursAt(s, p, r.value)
    ensures r.Some? ==> forall k | i <= k < r.value :: !OccursAt(s, p, k)
    ensures r.None? ==> forall k | i <= k <= |s| - |p| :: !OccursAt(s, p, k)
    decreases |s| - i
  {
    if i + |p| > |s| then None
    else if OccursAt(s, p, i) then Some(i)
    else FindFrom(s, p, i + 1)
  }

  /** An occurrence inside a slice is an occurrence in the whole string. */
  lemma {:induction false} ContainsSlice(s: string, x: nat, y: nat, p: string)
    requires x <= y <= |s| && Contains(s[x..y], p)
    ensures Contains(s, p)
  {
    var i :| 0 <= i <= |s[x..y]| - |p| && OccursAt(s[x..y], p, i);
    assert x + i + |p| <= y;
    forall k | 0 <= k < |p| ensures s[x + i + k] == p[k] {
      assert s[x..y][i..i + |p|][k] == p[k];
    }
    assert s[x + i..x + i + |p|] == p;
    assert OccursAt(s, p, x + i);
  }

  /** Lower-casing commutes with slicing. */
  lemma {:induction false} LowerSlice(s: string, x: nat, y: nat)
    requires x <= y <= |s|
    ensures Lower(s[x..y]) == Lower(s)[x..y]
  {
  }

  /** `s.replace(a, b)` for single characters. */
  function ReplaceChar(s: string, a: char, b: char): (r: string)
    ensures |r| == |s|
    ensures forall i | 0 <= i < |s| :: r[i] == (if s[i] == a then b else s[i])
  {
    seq(|s|, i requires 0 <= i < |s| => if s[i] == a then b else s[i])
  }

  /** `s.replace(c, "")` for a single character `c`. */
  function RemoveChar(s: string, c: char): (r: string)
    ensures c !in r
    ensures |r| <= |s|
  {
    if |s| == 0 then "" else (if s[0] == c then "" else [s[0]]) + RemoveChar(s[1..], c)
  }

  lemma {:induction false} RemoveCharAppend(a: string, b: string, c: char)
    ensures RemoveChar(a + b, c) == RemoveChar(a, c) + RemoveChar(b, c)
  {
    if |a| == 0 {
      assert a + b == b;
    } else {
      assert (a + b)[0] == a[0] && (a + b)[1..] == a[1..] + b;
      RemoveCharAppend(a[1..], b, c);
    }
  }

  lemma {:induction false} RemoveCharAbsent(s: string, c: char)
    requires c !in s
    ensures RemoveChar(s, c) == s
  {
    if |s| > 0 {
      assert c !in s[1..] by {
        forall k | 0 <= k < |s| - 1 ensures s[1..][k] != c { assert s[1..][k] == s[k + 1]; }
      }
      RemoveCharAbsent(s[1..], c);
      assert [s[0]] + s[1..] == s;
    }
  }

  /** Removing a character adds no other. */
  lemma {:induction false} RemoveCharKeepsOut(s: string, c: char, x: char)
    requires x !in s
    ensures x !in RemoveChar(s, c)
    decreases |s|
  {
    if |s| > 0 {
      assert x !in s[1..] by {
        forall k | 0 <= k < |s| - 1 ensures s[1..][k] != x { assert s[1..][k] == s[k + 1]; }
      }
      RemoveCharKeepsOut(s[1..], c, x);
    }
  }

  /** `s.split(sep)` for a separator of any non-zero length: the text up to the first
      occurrence, then the rest split the same way. */
  function SplitOn(s: string, sep: string): (r: seq<string>)
    requires |sep| > 0
    ensures |r| >= 1
    decreases |s|
  {
    match Find(s, sep)
    case Some(i) => [s[..i]] + SplitOn(s[i + |sep|..], sep)
    case None => [s]
  }

  /** A text without the separator's first character holds no occurrence of it. */
  lemma {:induction false} NotContainsChar(s: string, p: string, x: char)
    requires x in p && x !in s
    ensures !Contains(s, p)
  {
    var j :| 0 <= j < |p| && p[j] == x;
    forall i | 0 <= i <= |s| - |p| ensures !OccursAt(s, p, i) {
      assert s[i..i + |p|][j] == s[i + j];
    }
  }

  /** An occurrence of `p` cannot cover a character that `p` does not hold: it lies on
      one side of it. */
  lemma {:induction false} ContainsSplit(u: string, x: char, v: string, p: string)
    requires x !in p
    requires !Contains(u, p) && !Contains(v, p)
    ensures !Contains(u + [x] + v, p)
  {
    var s := u + [x] + v;
    forall i | 0 <= i <= |s| - |p| ensures !OccursAt(s, p, i) {
      if i + |p| <= |u| {
        assert s[i..i + |p|] == u[i..i + |p|];
        assert !OccursAt(u, p, i);
      } else if i > |u| {
        assert s[i..i + |p|] == v[i - |u| - 1..i - |u| - 1 + |p|];
        assert !OccursAt(v, p, i - |u| - 1);
      } else {
        assert s[i..i + |p|][|u| - i] == s[|u|] == x;
      }
    }
  }

  /** `sep.join(parts).split(sep)` gives back the parts when no part holds the
      separator's first character. */
  lemma {:induction false} SplitOnJoin(parts: seq<string>, sep: string)
    requires |parts| >= 1 && |sep| > 0
    requires forall k | 0 <= k < |parts| :: sep[0] !in parts[k]
    ensures SplitOn(Join(parts, sep), sep) == parts
  {
    var first := parts[0];
    assert sep[0] in sep;
    if |parts| == 1 {
      NotContainsChar(first, sep, sep[0]);
    } else {
      var rest := Join(parts[1..], sep);
      var s := first + sep + rest;
      assert OccursAt(s, sep, |first|) by {
        assert s[|first|..|first| + |sep|] == sep;
      }
      forall k | 0 <= k < |first| ensures !OccursAt(s, sep, k) {
        if k + |sep| <= |s| {
          assert s[k..k + |sep|][0] == s[k] == first[k];
        }
      }
      assert Find(s, sep) == Some(|first|);
      assert s[..|first|] == first;
      assert s[|first| + |sep|..] == rest;
      SplitOnJoin(parts[1..], sep);
      assert [first] + parts[1..] == parts;
    }
  }

  /** `p` is not in `s` when its `j`-th character is missing from every place of `s` an
      occurrence would put it. */
  lemma {:induction false} CharAbsentAt(s: string, p: string, j: nat)
    requires j < |p| <= |s|
    requires p[j] !in s[j..|s| - |p| + j + 1]
    ensures !Contains(s, p)
  {
    forall i | 0 <= i <= |s| - |p| ensures !OccursAt(s, p, i) {
      assert s[j..|s| - |p| + j + 1][i] == s[i + j];
      assert s[i..i + |p|][j] == s[i + j];
    }
  }

  /** A character in neither the parts nor the separator is not in their join. */
  lemma {:induction false} JoinAvoids(parts: seq<string>, sep: string, x: char)
    requires x !in sep
    requires forall k | 0 <= k < |parts| :: x !in parts[k]
    ensures x !in Join(parts, sep)
    decreases |parts|
  {
    if |parts| > 1 {
      forall k | 0 <= k < |parts| - 1 ensures x !in parts[1..][k] {
        assert parts[1..][k] == parts[k + 1];
      }
      JoinAvoids(parts[1..], sep, x);
    }
  }

  lemma {:induction false} LowerAppend(a: string, b: string)
    ensures Lower(a + b) == Lower(a) + Lower(b)
  {
    assert forall i | 0 <= i < |a + b| :: Lower(a + b)[i] == (Lower(a) + Lower(b))[i];
  }

  /** A lower-case letter is in `s.lower()` only if it or its capital is in `s`. */
  lemma {:induction false} LowerAvoids(s: string, c: char)
    requires IsAsciiLower(c) && c !in s && UpperChar(c) !in s
    ensures c !in Lower(s)
  {
    forall i | 0 <= i < |s| ensures Lower(s)[i] != c {
      assert s[i] != c && s[i] != UpperChar(c);
    }
  }

  /** `strip()` keeps a head that starts and ends with a non-space whole, and trims only
      what follows it. */
  lemma {:induction false} StripAfterHead(head: string, rest: string) returns (tail: string)
    requires |head| > 0 && !IsSpace(head[0]) && !IsSpace(head[|head| - 1])
    ensures Strip(head + rest) == head + tail
    ensures tail == rest[..|tail|]
  {
    var s := head + rest;
    assert s[0] == head[0];
    assert LeadingSpace(s) == 0;
    assert LStrip(s) == s;
    var n := TrailingSpace(s);
    assert s[|head| - 1] == head[|head| - 1];
    assert |head| - 1 < |s| - n;
    tail := s[|head|..|s| - n];
    assert s[..|s| - n] == head + tail;
    assert tail == rest[..|tail|];
  }

  /** The number of code points `c` in `s` (`s.count(c)` for a one-character `c`). */
  function CountChar(s: string, c: char): (r: nat)
    ensures r <= |s|
  {
    if |s| == 0 then 0 else (if s[0] == c then 1 else 0) + CountChar(s[1..], c)
  }

  /** The first of `alts` that `s` starts with: the branch a literal alternation takes. */
  function FirstPrefix(s: string, alts: seq<string>): (r: Option<string>)
    ensures r.Some? ==> r.value in alts && StartsWith(s, r.value)
    ensures r.None? ==> forall k | 0 <= k < |alts| :: !StartsWith(s, alts[k])
  {
    if |alts| == 0 then None
    else if StartsWith(s, alts[0]) then Some(alts[0])
    else FirstPrefix(s, alts[1..])
  }

  /** `len(re.findall("a|b|c", s))` for literal alternatives: a left-to-right scan that
      counts a match and skips past it, or moves on by one code point. With a single
      alternative this is `s.count(a)`. Every alternative the tools use is non-empty; an
      empty one would count once per position here. */
  function CountAlt(s: string, alts: seq<string>): nat
    decreases |s|
  {
    if |s| == 0 then 0
    else match FirstPrefix(s, alts)
      case Some(a) => 1 + CountAlt(s[if |a| > 0 then |a| else 1..], alts)
      case None => CountAlt(s[1..], alts)
  }

  /** `s.count(p)` for a non-empty `p`: non-overlapping occurrences from the left. */
  function CountOf(s: string, p: string): nat
    requires |p| > 0
  {
    CountAlt(s, [p])
  }

  /** `s.split(sep)` for a one-character separator. */
  function Split(s: string, sep: char): (r: seq<string>)
    ensures |r| >= 1
    ensures forall k | 0 <= k < |r| :: sep !in r[k]
    decreases |s|
  {
    if |s| == 0 then [""]
    else if s[0] == sep then [""] + Split(s[1..], sep)
    else
      var rest := Split(s[1..], sep);
      [[s[0]] + rest[0]] + rest[1..]
  }

  /** `content.split('\n')` */
  function Lines(s: string): seq<string> {
    Split(s, '\n')
  }

  /** `sep.join(parts)` */
  function Join(parts: seq<string>, sep: string): string {
    if |parts| == 0 then ""
    else if |parts| == 1 then parts[0]
    else parts[0] + sep + Join(parts[1..], sep)
  }

  /** The text of `lines`, each followed by a newline. */
  function Unlines(lines: seq<string>): string {
    if |lines| == 0 then "" else lines[0] + "\n" + Unlines(lines[1..])
  }

  predicate NoNewline(s: string) { '\n' !in s }

  predicate NoNewlines(lines: seq<string>) {
    forall k | 0 <= k < |lines| :: NoNewline(lines[k])
  }

  /** Splitting a piece that does not hold the separator, followed by the separator. */
  lemma {:induction false} SplitAfterPiece(piece: string, sep: char, rest: string)
    requires sep !in piece
    ensures Split(piece + [sep] + rest, sep) == [piece] + Split(rest, sep)
    decreases |piece|
  {
    if |piece| == 0 {
      assert piece + [sep] + rest == [sep] + rest;
      assert ([sep] + rest)[1..] == rest;
    } else {
      var s := piece + [sep] + rest;
      assert s[0] == piece[0] && s[1..] == piece[1..] + [sep] + rest;
      SplitAfterPiece(piece[1..], sep, rest);
      assert [piece[0]] + piece[1..] == piece;
    }
  }

  /** Lines written one per newline come back from `split('\n')`, with the empty piece
      after the final newline. */
  lemma {:induction false} LinesOfUnlines(lines: seq<string>)
    requires NoNewlines(lines)
    ensures Lines(Unlines(lines)) == lines + [""]
  {
    if |lines| > 0 {
      var rest := lines[1..];
      assert NoNewline(lines[0]);
      assert NoNewlines(rest) by {
        forall k | 0 <= k < |rest| ensures NoNewline(rest[k]) { assert rest[k] == lines[k + 1]; }
      }
      assert Unlines(lines) == lines[0] + ['\n'] + Unlines(rest);
      SplitAfterPiece(lines[0], '\n', Unlines(rest));
      LinesOfUnlines(rest);
      assert [lines[0]] + (rest + [""]) == lines + [""];
    }
  }

  lemma {:induction false} UnlinesAppend(a: seq<string>, b: seq<string>)
    ensures Unlines(a + b) == Unlines(a) + Unlines(b)
  {
    if |a| > 0 {
      assert (a + b)[0] == a[0] && (a + b)[1..] == a[1..] + b;
      UnlinesAppend(a[1..], b);
    } else {
      assert a + b == b;
    }
  }

  /** `sep.join(parts).split(sep)` gives back the parts when none holds the separator. */
  lemma {:induction false} SplitJoin(parts: seq<string>, sep: char)
    requires |parts| >= 1
    requires forall k | 0 <= k < |parts| :: sep !in parts[k]
    ensures Split(Join(parts, [sep]), sep) == parts
  {
    if |parts| == 1 {
      SplitNoSep(parts[0], sep);
    } else {
      SplitAfterPiece(parts[0], sep, Join(parts[1..], [sep]));
      SplitJoin(parts[1..], sep);
      assert [parts[0]] + parts[1..] == parts;
    }
  }

  lemma {:induction false} SplitNoSep(s: string, sep: char)
    requires sep !in s
    ensures Split(s, sep) == [s]
    decreases |s|
  {
    if |s| > 0 {
      assert sep !in s[1..] by {
        forall k | 0 <= k < |s| - 1 ensures s[1..][k] != sep { assert s[1..][k] == s[k + 1]; }
      }
      SplitNoSep(s[1..], sep);
      assert [s[0]] + s[1..] == s;
    }
  }
}
