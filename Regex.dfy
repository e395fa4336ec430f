/**
 * The two shapes of Python `re` search the scanners use, for a pattern whose
 * attempt at one position is given as a function `capture(line, p)`:
 * an unanchored pattern `P` (the first hit of `findall` is the leftmost position
 * where `P` matches), and a pattern `.*P` (`.` stops at a newline, so the match starts
 * at the first newline-free segment of the line that holds a hit, and the greedy `.*`
 * pushes `P` to the last hit inside that segment).
 */
module Regex {
  import opened Wrappers
  import opened PyText

  predicate NotNewline(c: char) {
    c != '\n'
  }

  /** The leftmost position at or after `p` where `capture` succeeds, and its capture. */
  function LeftmostFrom<T>(line: string, p: nat, capture: (string, nat) -> Option<T>): (r: Option<T>)
    ensures r.Some? ==> exists q :: p <= q <= |line| && capture(line, q) == r &&
                          forall q' :: p <= q' < q ==> capture(line, q').None?
    ensures r.None? <==> forall q :: p <= q <= |line| ==> capture(line, q).None?
    decreases |line| + 1 - p
  {
    if p > |line| then None
    else if capture(line, p).Some? then capture(line, p)
    else LeftmostFrom(line, p + 1, capture)
  }

  /** `re.findall(P, line)[0]`, or None when the list is empty. */
  function Leftmost<T>(line: string, capture: (string, nat) -> Option<T>): Option<T> {
    LeftmostFrom(line, 0, capture)
  }

  /** The greatest position in `[lo, hi]` where `capture` succeeds, and its capture. */
  function LastHit<T>(line: string, lo: nat, hi: nat, capture: (string, nat) -> Option<T>): (r: Option<T>)
    ensures r.Some? ==> exists q :: lo <= q <= hi && capture(line, q) == r &&
                          forall q' :: q < q' <= hi ==> capture(line, q').None?
    ensures r.None? <==> forall q :: lo <= q <= hi ==> capture(line, q).None?
    decreases hi
  {
    if hi < lo then None
    else if capture(line, hi).Some? then capture(line, hi)
    else if hi == 0 then None
    else LastHit(line, lo, hi - 1, capture)
  }

  /** The search for `.*P` from the start `s` of a newline-free segment. */
  function GreedyFrom<T>(line: string, s: nat, capture: (string, nat) -> Option<T>): Option<T>
    requires s <= |line|
    decreases |line| - s
  {
    var e := SpanWhile(line, s, NotNewline);
    var hit := LastHit(line, s, e, capture);
    if hit.Some? then hit
    else if e < |line| then GreedyFrom(line, e + 1, capture)
    else None
  }

  /** `re.findall(".*" + P, line)[0]`, or None when the list is empty. */
  function Greedy<T>(line: string, capture: (string, nat) -> Option<T>): Option<T> {
    GreedyFrom(line, 0, capture)
  }

  /** On a line without a newline, `.*P` finds the last position where `P` matches. */
  lemma GreedyIsLastHit<T>(line: string, capture: (string, nat) -> Option<T>)
    requires forall k :: 0 <= k < |line| ==> line[k] != '\n'
    ensures Greedy(line, capture) == LastHit(line, 0, |line|, capture)
  {
    var e := SpanWhile(line, 0, NotNewline);
    assert e == |line|;
  }

  /** What the first of `lines`, from number `k` on, for which `find` succeeds yields. */
  function FirstMatchFrom<T>(lines: seq<string>, k: nat, find: string -> Option<T>): (r: Option<T>)
    ensures r.Some? ==> exists j :: k <= j < |lines| && find(lines[j]) == r &&
                          forall j' :: k <= j' < j ==> find(lines[j']).None?
    ensures r.None? <==> forall j :: k <= j < |lines| ==> find(lines[j]).None?
    decreases |lines| - k
  {
    if k >= |lines| then None
    else if find(lines[k]).Some? then find(lines[k])
    else FirstMatchFrom(lines, k + 1, find)
  }
}
