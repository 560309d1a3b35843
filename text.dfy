/**
 * The few Python `str` operations the pipeline relies on, written out with
 * Python's semantics: `split` and `replace` scan left to right and never
 * overlap matches, `join` puts the separator only between parts, `strip`
 * removes what `str.isspace` calls whitespace, and `str(n)` is the decimal
 * numeral.
 */
module Text {
  import Seqs

  /** `str.isspace` for one character (the characters Python treats as whitespace). */
  predicate IsSpace(c: char) {
    c == ' ' || ('\t' <= c <= '\r') || ('\U{1c}' <= c <= '\U{1f}')
    || c == '\U{85}' || c == '\U{a0}' || c == '\U{1680}'
    || ('\U{2000}' <= c <= '\U{200a}') || c == '\U{2028}' || c == '\U{2029}'
    || c == '\U{202f}' || c == '\U{205f}' || c == '\U{3000}'
  }

  /** `s.startswith(p)` */
  predicate StartsWith(s: string, p: string) {
    |p| <= |s| && s[..|p|] == p
  }

  /** `s.endswith(p)` */
  predicate EndsWith(s: string, p: string) {
    |p| <= |s| && s[|s| - |p|..] == p
  }

  /** `sub in s` for strings */
  predicate Contains(s: string, sub: string)
    decreases |s|
  {
    StartsWith(s, sub) || (s != [] && Contains(s[1..], sub))
  }

  /** `s.split(sep)` for a non-empty separator. */
  function Split(s: string, sep: string): (parts: seq<string>)
    requires sep != []
    ensures |parts| >= 1
    decreases |s|
  {
    if |s| < |sep| then [s]
    else if s[..|sep|] == sep then [[]] + Split(s[|sep|..], sep)
    else
      var rest := Split(s[1..], sep);
      [[s[0]] + rest[0]] + rest[1..]
  }

  /** `sep.join(parts)` */
  function Join(parts: seq<string>, sep: string): string {
    if parts == [] then []
    else if |parts| == 1 then parts[0]
    else parts[0] + sep + Join(parts[1..], sep)
  }

  /** `s.replace(pat, rep)` for a non-empty pattern. */
  function ReplaceAll(s: string, pat: string, rep: string): string
    requires pat != []
    decreases |s|
  {
    if |s| < |pat| then s
    else if s[..|pat|] == pat then rep + ReplaceAll(s[|pat|..], pat, rep)
    else [s[0]] + ReplaceAll(s[1..], pat, rep)
  }

  function StripLeft(s: string): string {
    if s != [] && IsSpace(s[0]) then StripLeft(s[1..]) else s
  }

  function StripRight(s: string): string {
    if s != [] && IsSpace(s[|s| - 1]) then StripRight(s[..|s| - 1]) else s
  }

  /** `s.strip()` */
  function Strip(s: string): string {
    StripRight(StripLeft(s))
  }

  /** True when `s` has no whitespace at either end, so that `Strip(s) == s`. */
  predicate Trimmed(s: string) {
    s == [] || (!IsSpace(s[0]) && !IsSpace(s[|s| - 1]))
  }

  function Digit(d: nat): char
    requires d < 10
  {
    "0123456789"[d]
  }

  /** `str(n)` for a natural number */
  function NatToString(n: nat): (r: string)
    decreases n
  {
    if n < 10 then [Digit(n)] else NatToString(n / 10) + [Digit(n % 10)]
  }

  /** `str(i)` for an integer */
  function IntToString(i: int): string {
    if i < 0 then "-" + NatToString(-i) else NatToString(i)
  }

  // ---------------------------------------------------------------------
  // replace is join of split

  /** `s.replace(p, v) == v.join(s.split(p))`, the reference reading of `str.replace`. */
  lemma {:induction false} ReplaceIsJoinOfSplit(s: string, pat: string, rep: string)
    requires pat != []
    ensures ReplaceAll(s, pat, rep) == Join(Split(s, pat), rep)
    decreases |s|
  {
    if |s| < |pat| {
    } else if s[..|pat|] == pat {
      ReplaceIsJoinOfSplit(s[|pat|..], pat, rep);
    } else {
      ReplaceIsJoinOfSplit(s[1..], pat, rep);
      var rest := Split(s[1..], pat);
      if |rest| > 1 {
        assert Join(rest, rep) == rest[0] + rep + Join(rest[1..], rep);
        assert ([s[0]] + rest[0]) + rep + Join(rest[1..], rep) == [s[0]] + Join(rest, rep);
        assert ([[s[0]] + rest[0]] + rest[1..])[1..] == rest[1..];
      }
    }
  }

  /** Replacing a pattern that does not occur leaves the string as it was. */
  lemma {:induction false} ReplaceAbsent(s: string, pat: string, rep: string)
    requires pat != []
    requires !Contains(s, pat)
    ensures ReplaceAll(s, pat, rep) == s
    decreases |s|
  {
    if |s| >= |pat| {
      ReplaceAbsent(s[1..], pat, rep);
      assert [s[0]] + s[1..] == s;
    }
  }

  /** A single-character replacement distributes over concatenation. */
  lemma {:induction false} ReplaceCharConcat(a: string, b: string, c: char, rep: string)
    ensures ReplaceAll(a + b, [c], rep) == ReplaceAll(a, [c], rep) + ReplaceAll(b, [c], rep)
    decreases |a|
  {
    if a != [] {
      ReplaceCharConcat(a[1..], b, c, rep);
      assert (a + b)[1..] == a[1..] + b;
      assert (a + b)[..1] == a[..1] == [a[0]];
      if a[0] == c {
        assert ReplaceAll(a, [c], rep) == rep + ReplaceAll(a[1..], [c], rep);
      } else {
        assert ReplaceAll(a, [c], rep) == [a[0]] + ReplaceAll(a[1..], [c], rep);
      }
    } else {
      assert a + b == b;
    }
  }

  /** After replacing every `c` by a string without `c`, no `c` is left. */
  lemma {:induction false} ReplaceCharRemoves(s: string, c: char, rep: string)
    requires c !in rep
    ensures c !in ReplaceAll(s, [c], rep)
    decreases |s|
  {
    if s != [] {
      ReplaceCharRemoves(s[1..], c, rep);
    }
  }

  /** A single-character replacement leaves a string without that character as it was. */
  lemma {:induction false} ReplaceCharAbsent(s: string, c: char, rep: string)
    requires c !in s
    ensures ReplaceAll(s, [c], rep) == s
    decreases |s|
  {
    if s != [] {
      ReplaceCharAbsent(s[1..], c, rep);
      assert [s[0]] + s[1..] == s;
    }
  }

  /** Replacing one character by one other character keeps every other character in place. */
  lemma {:induction false} ReplaceCharByChar(s: string, c: char, d: char)
    ensures |ReplaceAll(s, [c], [d])| == |s|
    ensures forall i :: 0 <= i < |s| ==>
              ReplaceAll(s, [c], [d])[i] == (if s[i] == c then d else s[i])
    decreases |s|
  {
    if s != [] {
      ReplaceCharByChar(s[1..], c, d);
    }
  }

  // ---------------------------------------------------------------------
  // split on one character

  lemma {:induction false} SplitCharAbsent(s: string, c: char)
    requires c !in s
    ensures Split(s, [c]) == [s]
    decreases |s|
  {
    if s != [] {
      SplitCharAbsent(s[1..], c);
      assert [s[0]] + s[1..] == s;
    }
  }

  /** Splitting at one occurrence of the separator splits the two sides independently. */
  lemma {:induction false} SplitCharConcat(x: string, c: char, y: string)
    ensures Split(x + [c] + y, [c]) == Split(x, [c]) + Split(y, [c])
    decreases |x|
  {
    var s := x + [c] + y;
    var right := Split(y, [c]);
    if x == [] {
      assert s[..1] == [c] && s[1..] == y;
      assert Split(s, [c]) == [[]] + right;
    } else {
      assert s[1..] == x[1..] + [c] + y;
      SplitCharConcat(x[1..], c, y);
      var left := Split(x[1..], [c]);
      assert Split(s[1..], [c]) == left + right;
      if x[0] == c {
        SplitCharConcatAtSep(x, c, y, left, right);
      } else {
        SplitCharConcatInWord(x, c, y, left, right);
      }
    }
  }

  /** The step of `SplitCharConcat` when `x` starts with the separator. */
  lemma SplitCharConcatAtSep(x: string, c: char, y: string, left: seq<string>, right: seq<string>)
    requires x != [] && x[0] == c
    requires left == Split(x[1..], [c]) && right == Split(y, [c])
    requires Split((x + [c] + y)[1..], [c]) == left + right
    ensures Split(x + [c] + y, [c]) == Split(x, [c]) + right
  {
    var s := x + [c] + y;
    assert s[..1] == [c] && x[..1] == [c];
    assert Split(s, [c]) == [[]] + (left + right);
    assert Split(x, [c]) == [[]] + left;
    Seqs.ConcatAssoc([[]], left, right);
  }

  /** The step of `SplitCharConcat` when `x` starts with another character. */
  lemma SplitCharConcatInWord(x: string, c: char, y: string, left: seq<string>, right: seq<string>)
    requires x != [] && x[0] != c
    requires left == Split(x[1..], [c]) && right == Split(y, [c])
    requires Split((x + [c] + y)[1..], [c]) == left + right
    ensures Split(x + [c] + y, [c]) == Split(x, [c]) + right
  {
    var s := x + [c] + y;
    var rest := left + right;
    assert s[..1] != [c] && s[0] == x[0];
    assert Split(s, [c]) == [[x[0]] + rest[0]] + rest[1..];
    assert rest[0] == left[0];
    assert rest[1..] == left[1..] + right;
    if |x| == 1 {
      assert Split(x, [c]) == [[x[0]] + left[0]] + left[1..];
    } else {
      assert x[..1] != [c];
      assert Split(x, [c]) == [[x[0]] + left[0]] + left[1..];
    }
    Seqs.ConcatAssoc([[x[0]] + left[0]], left[1..], right);
  }

  /** `sep.join(parts).split(sep) == parts` when no part holds the one-character separator. */
  lemma {:induction false} SplitJoinChar(parts: seq<string>, c: char)
    requires parts != []
    requires forall i :: 0 <= i < |parts| ==> c !in parts[i]
    ensures Split(Join(parts, [c]), [c]) == parts
    decreases |parts|
  {
    if |parts| == 1 {
      SplitCharAbsent(parts[0], c);
    } else {
      SplitJoinChar(parts[1..], c);
      SplitCharConcat(parts[0], c, Join(parts[1..], [c]));
      SplitCharAbsent(parts[0], c);
      assert [parts[0]] + parts[1..] == parts;
    }
  }

  // ---------------------------------------------------------------------
  // join

  /** A character in neither the parts nor the separator is not in their join. */
  lemma {:induction false} NotInJoin(parts: seq<string>, sep: string, c: char)
    requires c !in sep
    requires forall i :: 0 <= i < |parts| ==> c !in parts[i]
    ensures c !in Join(parts, sep)
    decreases |parts|
  {
    if |parts| > 1 {
      NotInJoin(parts[1..], sep, c);
    }
  }

  /** Joining two non-empty runs of parts puts the separator between their joins. */
  lemma {:induction false} JoinAppend(a: seq<string>, b: seq<string>, sep: string)
    requires a != [] && b != []
    ensures Join(a + b, sep) == Join(a, sep) + sep + Join(b, sep)
    decreases |a|
  {
    if |a| == 1 {
      assert (a + b)[1..] == b;
    } else {
      assert (a + b)[1..] == a[1..] + b;
      JoinAppend(a[1..], b, sep);
    }
  }

  /** `xs` with `t` put in front of every part but the first. */
  function PadTail(xs: seq<string>, t: string): (ys: seq<string>)
    ensures |ys| == |xs|
    ensures forall i :: 0 <= i < |xs| ==> ys[i] == if i == 0 then xs[i] else t + xs[i]
  {
    seq(|xs|, i requires 0 <= i < |xs| => if i == 0 then xs[i] else t + xs[i])
  }

  lemma JoinPrefixFirst(ys: seq<string>, sep: string, t: string)
    requires ys != []
    ensures t + Join(ys, sep) == Join([t + ys[0]] + ys[1..], sep)
  {
    var zs := [t + ys[0]] + ys[1..];
    assert zs[1..] == ys[1..];
  }

  /**
   * Joining with `sep + t` is joining with `sep` once `t` is put in front of
   * every part but the first: `"; ".join(xs)` and `";".join` of the parts
   * that `split(';')` gives back.
   */
  lemma {:induction false} JoinLongerSeparator(xs: seq<string>, sep: string, t: string)
    ensures Join(xs, sep + t) == Join(PadTail(xs, t), sep)
    decreases |xs|
  {
    if |xs| > 1 {
      JoinLongerSeparator(xs[1..], sep, t);
      var tail := PadTail(xs[1..], t);
      JoinPrefixFirst(tail, sep, t);
      assert [t + tail[0]] + tail[1..] == PadTail(xs, t)[1..];
      assert Join(xs, sep + t) == xs[0] + (sep + t) + Join(xs[1..], sep + t);
    }
  }

  /** A string that lacks the first character of `sub` does not contain `sub`. */
  lemma {:induction false} ContainsNeedsFirstChar(s: string, sub: string)
    requires sub != [] && sub[0] !in s
    ensures !Contains(s, sub)
    decreases |s|
  {
    if s != [] {
      ContainsNeedsFirstChar(s[1..], sub);
    }
  }

  /** Replacing a pattern that occurs only at the front removes just that occurrence. */
  lemma ReplaceLeading(pat: string, s: string, rep: string)
    requires pat != [] && !Contains(s, pat)
    ensures ReplaceAll(pat + s, pat, rep) == rep + s
  {
    var w := pat + s;
    assert w[..|pat|] == pat && w[|pat|..] == s;
    ReplaceAbsent(s, pat, rep);
  }

  // ---------------------------------------------------------------------
  // strip

  lemma StripLeftNoSpace(s: string)
    requires s == [] || !IsSpace(s[0])
    ensures StripLeft(s) == s
  {
  }

  lemma {:induction false} StripRightNoSpace(s: string)
    requires s == [] || !IsSpace(s[|s| - 1])
    ensures StripRight(s) == s
  {
  }

  /** A string with no whitespace at its ends is its own `strip()`. */
  lemma StripTrimmed(s: string)
    requires Trimmed(s)
    ensures Strip(s) == s
  {
    StripLeftNoSpace(s);
    StripRightNoSpace(s);
  }

  /** Leading spaces before a trimmed string are all that `strip()` removes. */
  lemma {:induction false} StripSpaceBefore(s: string)
    requires Trimmed(s)
    ensures Strip(" " + s) == s
  {
    assert (" " + s)[1..] == s;
    StripTrimmed(s);
  }

  // ---------------------------------------------------------------------
  // decimal numerals

  lemma {:induction false} NatToStringDigits(n: nat)
    ensures NatToString(n) != []
    ensures forall i :: 0 <= i < |NatToString(n)| ==> '0' <= NatToString(n)[i] <= '9'
    decreases n
  {
    if n >= 10 {
      NatToStringDigits(n / 10);
    }
  }
}
