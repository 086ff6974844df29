/** Small facts about sequence concatenation, stated on sequence variables so that they
    are proved apart from any recursive definition. */
module Seqs {
  lemma AppendAssoc<T>(a: seq<T>, b: seq<T>, c: seq<T>)
    ensures (a + b) + c == a + (b + c)
  {
  }

  /** A sequence's first m + 2 elements: the first, m from the rest, and one more. */
  lemma Bracketed<T>(ts: seq<T>, m: nat)
    requires m + 2 <= |ts|
    ensures ts[..m + 2] == [ts[0]] + ts[1..][..m] + [ts[1 + m]]
  {
  }

  /** Dropping the last element of a + b drops it from b. */
  lemma DropLast<T>(a: seq<T>, b: seq<T>)
    requires |b| > 0
    ensures (a + b)[..|a + b| - 1] == a + b[..|b| - 1]
    ensures (a + b)[|a + b| - 1] == b[|b| - 1]
  {
  }

  /** Dropping n elements and then j - n more drops j. */
  lemma DropDrop<T>(ts: seq<T>, n: nat, j: nat)
    requires n <= j <= |ts|
    ensures ts[n..][j - n..] == ts[j..]
  {
  }

  /** The parts of [a] + m + [z]. */
  lemma ThreeParts<T>(a: T, m: seq<T>, z: T)
    ensures var s := [a] + m + [z];
      |s| == |m| + 2 && s[0] == a && s[1..|s| - 1] == m && s[|s| - 1] == z
  {
    var s := [a] + m + [z];
    assert s[1..|s| - 1] == m;
  }

  /** The parts of [a] + m + [b] + n + [z]. */
  lemma FiveParts<T>(a: T, m: seq<T>, b: T, n: seq<T>, z: T)
    ensures var s := [a] + m + [b] + n + [z];
      |s| == |m| + |n| + 3 && s[0] == a && s[1..|m| + 1] == m && s[|m| + 1] == b
      && s[|m| + 2..|s| - 1] == n && s[|s| - 1] == z
  {
    var s := [a] + m + [b] + n + [z];
    assert s[1..|m| + 1] == m;
    assert s[|m| + 2..|s| - 1] == n;
  }

  /** Putting the head back in front of the rest with y appended. */
  lemma ConsAppend<T>(ts: seq<T>, y: T)
    requires |ts| > 0
    ensures [ts[0]] + (ts[1..] + [y]) == ts + [y]
  {
  }
}
