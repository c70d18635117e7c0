/** Facts about strings (sequences of characters) shared by the other modules:
    Python's `str.startswith` and "t occurs in s at position i". */
module Text {

  /** Python's `s.startswith(p)`: case-sensitive, character by character. */
  predicate StartsWith(s: string, p: string)
  {
    |p| <= |s| && s[..|p|] == p
  }

  /** `t` occurs in `s` as a contiguous substring starting at index `i`. */
  predicate OccursAt(s: string, t: string, i: int)
  {
    0 <= i && i + |t| <= |s| && s[i..i + |t|] == t
  }

  /** The pieces of a concatenation `a + b + c` sit at the positions their lengths say. */
  lemma ConcatPieces(a: string, b: string, c: string)
    ensures OccursAt(a + b + c, a, 0)
    ensures OccursAt(a + b + c, b, |a|)
    ensures OccursAt(a + b + c, c, |a| + |b|)
  {
  }

  /** An occurrence inside a piece is an occurrence in the whole, shifted. */
  lemma OccursShift(s: string, t: string, i: int, pre: string, post: string)
    requires OccursAt(s, t, i)
    ensures OccursAt(pre + s + post, t, |pre| + i)
  {
  }

  /** The strings `ts` occur in `s` one after the other, without overlapping,
      the first of them at or after index `from`. */
  predicate OccurInOrder(s: string, ts: seq<string>, from: int)
    decreases |ts|
  {
    ts == [] || exists i :: from <= i <= |s| && OccursAt(s, ts[0], i) && OccurInOrder(s, ts[1..], i + |ts[0]|)
  }

  /** The strings of `ts` joined together. */
  function Concat(ts: seq<string>): string
  {
    if ts == [] then [] else ts[0] + Concat(ts[1..])
  }

  /** Where the joined strings occur, the strings occur in order. */
  lemma {:induction false} ConcatOccursInOrder(s: string, ts: seq<string>, i: int)
    requires OccursAt(s, Concat(ts), i)
    ensures OccurInOrder(s, ts, i)
  {
    if ts != [] {
      var rest := Concat(ts[1..]);
      assert Concat(ts) == ts[0] + rest;
      assert s[i..i + |ts[0]|] == Concat(ts)[..|ts[0]|];
      assert s[i + |ts[0]|..i + |ts[0]| + |rest|] == Concat(ts)[|ts[0]|..];
      ConcatOccursInOrder(s, ts[1..], i + |ts[0]|);
      assert OccursAt(s, ts[0], i) && OccurInOrder(s, ts[1..], i + |ts[0]|);
    }
  }

  /** Of strings that occur in order, every second one (the second, fourth, ...) also does. */
  lemma {:induction false} OccurInOrderSkips(s: string, ts: seq<string>, from: int)
    requires |ts| % 2 == 0
    requires OccurInOrder(s, ts, from)
    ensures OccurInOrder(s, Odds(ts), from)
  {
    if ts != [] {
      var i :| from <= i <= |s| && OccursAt(s, ts[0], i) && OccurInOrder(s, ts[1..], i + |ts[0]|);
      var j :| i + |ts[0]| <= j <= |s| && OccursAt(s, ts[1], j) && OccurInOrder(s, ts[2..], j + |ts[1]|);
      assert ts[1..][1..] == ts[2..];
      OccurInOrderSkips(s, ts[2..], j + |ts[1]|);
      assert Odds(ts)[1..] == Odds(ts[2..]);
      assert OccursAt(s, Odds(ts)[0], j);
    }
  }

  /** The elements at odd indices. */
  function Odds<T>(ts: seq<T>): seq<T>
  {
    if |ts| < 2 then [] else [ts[1]] + Odds(ts[2..])
  }

  /** The joined strings end with the last of them. */
  lemma {:induction false} ConcatEndsWithLast(ts: seq<string>)
    requires ts != []
    ensures OccursAt(Concat(ts), ts[|ts| - 1], |Concat(ts)| - |ts[|ts| - 1]|)
  {
    if |ts| > 1 {
      ConcatEndsWithLast(ts[1..]);
      OccursShift(Concat(ts[1..]), ts[|ts| - 1], |Concat(ts[1..])| - |ts[|ts| - 1]|, ts[0], []);
      assert ts[0] + Concat(ts[1..]) + [] == Concat(ts);
    } else {
      assert Concat(ts) == ts[0] + Concat([]);
    }
  }
}
