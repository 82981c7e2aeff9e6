/**
  The handful of Python 2 string operations the checker relies on:
  `startswith`, `strip() == ''`, `sep.join(...)`, `split(sep)` and
  `splitlines()`, each with the laws the rest of the model needs.
 */
module Strings {

  /** Python's `s.startswith(p)`. */
  predicate StartsWith(s: string, p: string) {
    |p| <= |s| && s[..|p|] == p
  }

  /** The whitespace of Python 2's byte-string `strip()`: space, \t, \n, \v, \f, \r. */
  predicate IsSpace(c: char) {
    c == ' ' || c == '\t' || c == '\n' || c == '\U{000B}' || c == '\U{000C}' || c == '\r'
  }

  /** Python's `s.strip() == ''`. */
  predicate IsBlank(s: string) {
    forall i :: 0 <= i < |s| ==> IsSpace(s[i])
  }

  /** Python's `sep.join(parts)`. */
  function Join(sep: string, parts: seq<string>): string {
    if |parts| == 0 then ""
    else if |parts| == 1 then parts[0]
    else parts[0] + sep + Join(sep, parts[1..])
  }

  /** Joining two parts puts the separator between them. */
  lemma JoinPair(sep: string, a: string, b: string)
    ensures Join(sep, [a, b]) == a + sep + b
  {
    assert [a, b][1..] == [b];
  }

  /** Joining two non-empty lists is joining each and putting one separator between them. */
  lemma {:induction false} JoinAppend(sep: string, a: seq<string>, b: seq<string>)
    requires |a| > 0 && |b| > 0
    ensures Join(sep, a + b) == Join(sep, a) + sep + Join(sep, b)
  {
    if |a| == 1 {
      assert (a + b)[1..] == b;
    } else {
      assert (a + b)[1..] == a[1..] + b;
      JoinAppend(sep, a[1..], b);
    }
  }

  /** A joined list at the head of a join flattens into it. */
  lemma JoinFlattenHead(sep: string, ys: seq<string>, zs: seq<string>)
    requires |ys| > 0
    ensures Join(sep, [Join(sep, ys)] + zs) == Join(sep, ys + zs)
  {
    if |zs| > 0 {
      calc {
        Join(sep, [Join(sep, ys)] + zs);
      == { JoinAppend(sep, [Join(sep, ys)], zs); }
        Join(sep, [Join(sep, ys)]) + sep + Join(sep, zs);
      == { JoinAppend(sep, ys, zs); }
        Join(sep, ys + zs);
      }
    } else {
      assert [Join(sep, ys)] + zs == [Join(sep, ys)];
      assert ys + zs == ys;
    }
  }

  /** A joined sub-list inside a join flattens into the outer list. */
  lemma JoinFlatten(sep: string, xs: seq<string>, ys: seq<string>, zs: seq<string>)
    requires |ys| > 0
    ensures Join(sep, xs + [Join(sep, ys)] + zs) == Join(sep, xs + ys + zs)
  {
    var j := Join(sep, ys);
    if |xs| > 0 {
      calc {
        Join(sep, xs + [j] + zs);
      == { assert xs + [j] + zs == xs + ([j] + zs); }
        Join(sep, xs + ([j] + zs));
      == { JoinAppend(sep, xs, [j] + zs); }
        Join(sep, xs) + sep + Join(sep, [j] + zs);
      == { JoinFlattenHead(sep, ys, zs); }
        Join(sep, xs) + sep + Join(sep, ys + zs);
      == { JoinAppend(sep, xs, ys + zs); }
        Join(sep, xs + (ys + zs));
      == { assert xs + ys + zs == xs + (ys + zs); }
        Join(sep, xs + ys + zs);
      }
    } else {
      assert xs + [j] + zs == [j] + zs;
      assert xs + ys + zs == ys + zs;
      JoinFlattenHead(sep, ys, zs);
    }
  }

  /** The index of the first `c` in `s`. */
  function IndexOf(s: string, c: char): (k: nat)
    requires c in s
    ensures k < |s| && s[k] == c && c !in s[..k]
  {
    if s[0] == c then 0
    else
      assert c in s[1..] by { var i :| 0 <= i < |s| && s[i] == c; assert s[1..][i - 1] == c; }
      var k := 1 + IndexOf(s[1..], c);
      assert s[..k] == [s[0]] + s[1..][..k - 1];
      k
  }

  /** Python's `s.split(c)` for a one-character separator. */
  function Split(s: string, c: char): (parts: seq<string>)
    ensures |parts| > 0
    ensures forall p | p in parts :: c !in p
    ensures Join([c], parts) == s
    decreases |s|
  {
    if c !in s then [s]
    else
      var k := IndexOf(s, c);
      var rest := Split(s[k + 1..], c);
      assert s == s[..k] + [c] + s[k + 1..];
      assert ([s[..k]] + rest)[1..] == rest;
      [s[..k]] + rest
  }

  /** Splitting undoes joining, provided no part holds the separator. */
  lemma {:induction false} SplitJoin(parts: seq<string>, c: char)
    requires |parts| > 0
    requires forall p | p in parts :: c !in p
    ensures Split(Join([c], parts), c) == parts
  {
    if |parts| > 1 {
      var s := Join([c], parts);
      var p := parts[0];
      assert s == p + [c] + Join([c], parts[1..]);
      assert s[|p|] == c;
      assert s[..|p|] == p;
      assert c !in p by { assert parts[0] in parts; }
      assert IndexOf(s, c) == |p| by {
        var k := IndexOf(s, c);
        forall i | 0 <= i < |p|
          ensures s[i] != c
        {
          assert s[i] == s[..|p|][i] == p[i];
        }
        assert forall i :: 0 <= i < k ==> s[i] == s[..k][i] != c;
      }
      assert s[|p| + 1..] == Join([c], parts[1..]);
      SplitJoin(parts[1..], c);
      assert parts == [p] + parts[1..];
    }
  }

  predicate IsLineBreak(c: char) {
    c == '\n' || c == '\r'
  }

  /** No character of the line is a line break. */
  predicate IsLine(s: string) {
    forall i :: 0 <= i < |s| ==> !IsLineBreak(s[i])
  }

  /** The index of the first line break, or `|s|` when there is none. */
  function LineEnd(s: string): (k: nat)
    ensures k <= |s| && IsLine(s[..k])
    ensures k < |s| ==> IsLineBreak(s[k])
  {
    if s == [] || IsLineBreak(s[0]) then 0
    else
      var k := 1 + LineEnd(s[1..]);
      assert s[..k] == [s[0]] + s[1..][..k - 1];
      k
  }

  /** Python 2's `str.splitlines()`: breaks at "\n", "\r" and "\r\n"; no trailing empty line. */
  function SplitLines(s: string): (lines: seq<string>)
    ensures forall l | l in lines :: IsLine(l)
    decreases |s|
  {
    if s == [] then []
    else
      var k := LineEnd(s);
      if k == |s| then [s]
      else
        var width := if s[k] == '\r' && k + 1 < |s| && s[k + 1] == '\n' then 2 else 1;
        [s[..k]] + SplitLines(s[k + width..])
  }

  /** The text `print` leaves behind for these lines: each one followed by "\n". */
  function JoinLines(lines: seq<string>): string {
    if lines == [] then "" else lines[0] + "\n" + JoinLines(lines[1..])
  }

  /** Writing one more line extends the text by that line and its "\n". */
  lemma {:induction false} JoinLinesAppend(lines: seq<string>, line: string)
    ensures JoinLines(lines + [line]) == JoinLines(lines) + line + "\n"
  {
    if lines != [] {
      assert (lines + [line])[1..] == lines[1..] + [line];
      JoinLinesAppend(lines[1..], line);
    }
  }

  /** `splitlines` recovers the lines that were written one per line. */
  lemma {:induction false} SplitJoinLines(lines: seq<string>)
    requires forall l | l in lines :: IsLine(l)
    ensures SplitLines(JoinLines(lines)) == lines
  {
    if lines != [] {
      var l := lines[0];
      var s := JoinLines(lines);
      assert s == l + "\n" + JoinLines(lines[1..]);
      assert LineEnd(s) == |l| by {
        var k := LineEnd(s);
        assert s[|l|] == '\n';
        assert lines[0] in lines;
        assert forall i :: 0 <= i < |l| ==> s[i] == l[i] && !IsLineBreak(s[i]);
        assert forall i :: 0 <= i < k ==> s[i] == s[..k][i] && !IsLineBreak(s[i]);
      }
      assert s[..|l|] == l;
      assert s[|l| + 1..] == JoinLines(lines[1..]);
      SplitJoinLines(lines[1..]);
    }
  }
}
