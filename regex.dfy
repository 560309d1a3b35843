/**
 * The one regular expression the scene-graph parser uses,
 * `re.search(r'\((.*), (.*), (.*)\)', s)`, written out as Python's
 * backtracking matcher runs it: the leftmost start position that admits a
 * match wins, and at that start each `(.*)` is greedy, so of all the matches
 * starting there the one whose first group ends last is taken, then the one
 * whose second group ends last, then the third.  `.` matches any character
 * except a newline.
 */
module TripleRegex {
  import opened Wrappers

  /** A match: the `(` at `start`, the two `", "` at `e1` and `e2`, the `)` at `e3`. */
  datatype Match = Match(start: nat, e1: nat, e2: nat, e3: nat)

  predicate NoNewline(t: string, lo: int, hi: int)
    requires 0 <= lo <= hi <= |t|
  {
    forall i :: lo <= i < hi ==> t[i] != '\n'
  }

  /** How far `.*` can reach from `lo`: the first newline at or after `lo`, or the end. */
  function LineEnd(t: string, lo: int): (e: int)
    requires 0 <= lo <= |t|
    ensures lo <= e <= |t|
    ensures NoNewline(t, lo, e)
    ensures e < |t| ==> t[e] == '\n'
    decreases |t| - lo
  {
    if lo == |t| || t[lo] == '\n' then lo else LineEnd(t, lo + 1)
  }

  /** `", "` at position `i` */
  predicate CommaAt(t: string, i: int) {
    0 <= i && i + 2 <= |t| && t[i] == ',' && t[i + 1] == ' '
  }

  /** `(.*)\)` matches from `lo` when its `)` is at `e3`. */
  predicate ThirdTail(t: string, lo: int, e3: int) {
    0 <= lo <= e3 < |t| && t[e3] == ')' && NoNewline(t, lo, e3)
  }

  /** `(.*), (.*)\)` matches from `lo` with its `", "` at `e2` and its `)` at `e3`. */
  predicate SecondTail(t: string, lo: int, e2: int, e3: int) {
    0 <= lo <= e2 && CommaAt(t, e2) && NoNewline(t, lo, e2) && ThirdTail(t, e2 + 2, e3)
  }

  /** The whole pattern matches at `m`. */
  predicate IsMatch(t: string, m: Match) {
    && m.start < |t| && t[m.start] == '('
    && m.start + 1 <= m.e1 && CommaAt(t, m.e1) && NoNewline(t, m.start + 1, m.e1)
    && SecondTail(t, m.e1 + 2, m.e2, m.e3)
  }

  /** The order in which backtracking tries the matches that share a start: later ends first. */
  predicate TriedNoLaterThan(a: Match, b: Match) {
    a.e1 > b.e1 || (a.e1 == b.e1 && (a.e2 > b.e2 || (a.e2 == b.e2 && a.e3 >= b.e3)))
  }

  /** The last `)` at or before `hi` that `(.*)\)` can end on when it starts at `lo`. */
  function LastClose(t: string, lo: int, hi: int): (r: Option<int>)
    requires 0 <= lo <= |t| && hi <= LineEnd(t, lo)
    ensures r.Some? ==> lo <= r.value <= hi && ThirdTail(t, lo, r.value)
    ensures forall e3 :: e3 <= hi && ThirdTail(t, lo, e3) ==> r.Some? && e3 <= r.value
    decreases hi - lo
  {
    if hi < lo then None
    else if hi < |t| && t[hi] == ')' then Some(hi)
    else LastClose(t, lo, hi - 1)
  }

  /** Greedy choice of the second group's end at or before `hi`, then of the third's. */
  function TrySecond(t: string, lo: int, hi: int): (r: Option<(int, int)>)
    requires 0 <= lo <= |t| && hi <= LineEnd(t, lo)
    ensures r.Some? ==> lo <= r.value.0 <= hi && SecondTail(t, lo, r.value.0, r.value.1)
    ensures forall e2, e3 :: e2 <= hi && SecondTail(t, lo, e2, e3) ==>
              r.Some? && (r.value.0 > e2 || (r.value.0 == e2 && r.value.1 >= e3))
    decreases hi - lo
  {
    if hi < lo then None
    else if CommaAt(t, hi) && LastClose(t, hi + 2, LineEnd(t, hi + 2)).Some? then
      Some((hi, LastClose(t, hi + 2, LineEnd(t, hi + 2)).value))
    else TrySecond(t, lo, hi - 1)
  }

  /** Greedy choice of the first group's end at or before `hi`, for a `(` at `start`. */
  function TryFirst(t: string, start: nat, hi: int): (r: Option<Match>)
    requires start < |t| && t[start] == '(' && hi <= LineEnd(t, start + 1)
    ensures r.Some? ==> r.value.start == start && r.value.e1 <= hi && IsMatch(t, r.value)
    ensures forall m: Match :: m.start == start && m.e1 <= hi && IsMatch(t, m) ==>
              r.Some? && TriedNoLaterThan(r.value, m)
    decreases hi
  {
    if hi < start + 1 then None
    else
      MatchAtFirstEnd(t, start, hi);
      if CommaAt(t, hi) && TrySecond(t, hi + 2, LineEnd(t, hi + 2)).Some? then
        var tail := TrySecond(t, hi + 2, LineEnd(t, hi + 2)).value;
        Some(Match(start, hi, tail.0, tail.1))
      else TryFirst(t, start, hi - 1)
  }

  /** `.*` cannot run past the end of its line. */
  lemma WithinLine(t: string, lo: int, e: int)
    requires 0 <= lo <= e <= |t| && NoNewline(t, lo, e)
    ensures e <= LineEnd(t, lo)
  {
  }

  /** A match whose first group ends at `hi` is one `TrySecond` finds, or tries after the one it finds. */
  lemma MatchAtFirstEnd(t: string, start: nat, hi: int)
    requires start < |t| && t[start] == '(' && start + 1 <= hi <= LineEnd(t, start + 1)
    ensures forall m: Match :: m.start == start && m.e1 == hi && IsMatch(t, m) ==>
              CommaAt(t, hi) && TrySecond(t, hi + 2, LineEnd(t, hi + 2)).Some?
              && TriedNoLaterThan(Match(start, hi, TrySecond(t, hi + 2, LineEnd(t, hi + 2)).value.0,
                                        TrySecond(t, hi + 2, LineEnd(t, hi + 2)).value.1), m)
  {
    var lo := hi + 2;
    forall m: Match | m.start == start && m.e1 == hi && IsMatch(t, m)
      ensures CommaAt(t, hi) && TrySecond(t, lo, LineEnd(t, lo)).Some?
      ensures TriedNoLaterThan(Match(start, hi, TrySecond(t, lo, LineEnd(t, lo)).value.0,
                                     TrySecond(t, lo, LineEnd(t, lo)).value.1), m)
    {
      assert SecondTail(t, lo, m.e2, m.e3);
      WithinLine(t, lo, m.e2);
      var r := TrySecond(t, lo, LineEnd(t, lo));
      assert r.Some? && (r.value.0 > m.e2 || (r.value.0 == m.e2 && r.value.1 >= m.e3));
    }
  }

  /** The matcher tried at every start from `from` on, leftmost first. */
  function SearchFrom(t: string, from: nat): (r: Option<Match>)
    ensures r.Some? ==> from <= r.value.start && IsMatch(t, r.value)
    ensures forall m: Match :: from <= m.start && IsMatch(t, m) ==>
              r.Some? && (r.value.start < m.start || (r.value.start == m.start && TriedNoLaterThan(r.value, m)))
    decreases |t| - from
  {
    if from >= |t| then None
    else if t[from] == '(' && TryFirst(t, from, LineEnd(t, from + 1)).Some? then
      TryFirst(t, from, LineEnd(t, from + 1))
    else SearchFrom(t, from + 1)
  }

  /**
   * `re.search(r'\((.*), (.*), (.*)\)', t)`: no match at all, or the match
   * Python returns — the leftmost, and among those the greediest.
   */
  function Search(t: string): (r: Option<Match>)
    ensures r.Some? ==> IsMatch(t, r.value)
    ensures r.None? <==> forall m: Match :: !IsMatch(t, m)
    ensures forall m: Match :: IsMatch(t, m) ==>
              r.Some? && (r.value.start < m.start || (r.value.start == m.start && TriedNoLaterThan(r.value, m)))
  {
    SearchFrom(t, 0)
  }

  /** `.groups()` of a match */
  function Groups(t: string, m: Match): (string, string, string)
    requires IsMatch(t, m)
  {
    (t[m.start + 1..m.e1], t[m.e1 + 2..m.e2], t[m.e2 + 2..m.e3])
  }
}
