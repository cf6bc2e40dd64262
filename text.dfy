/**
 * The string operations the client-side search uses: lower-casing (ASCII letters only) and
 * substring containment (`String.prototype.includes`), plus order-preserving subsequences.
 */
module Text {

  /** Lower-cases one character; only 'A'..'Z' change. */
  function LowerChar(ch: char): (r: char)
    ensures 'A' <= ch <= 'Z' ==> 'a' <= r <= 'z'
    ensures !('A' <= ch <= 'Z') ==> r == ch
  {
    if 'A' <= ch <= 'Z' then (ch as int + 32) as char else ch
  }

  /** `s.toLowerCase()`, restricted to ASCII letters. */
  function Lower(s: string): (r: string)
    ensures |r| == |s|
    ensures forall i :: 0 <= i < |s| ==> r[i] == LowerChar(s[i])
  {
    if s == [] then [] else [LowerChar(s[0])] + Lower(s[1..])
  }

  /** Only the empty string lower-cases to the empty string. */
  lemma LowerEmpty(s: string)
    ensures Lower(s) == [] <==> s == []
  {
  }

  /**
   * `s.includes(key)`: the key occurs in `s` at the front or at some later position,
   * searched from left to right.
   */
  predicate Includes(s: string, key: string)
    ensures key == [] ==> Includes(s, key)
    ensures Includes(s, key) ==> |key| <= |s|
  {
    key <= s || (s != [] && Includes(s[1..], key))
  }

  /** Where the search succeeds, the key occurs at some position of `s`. */
  lemma {:induction false} IncludesHasPosition(s: string, key: string) returns (i: nat)
    requires Includes(s, key)
    ensures i <= |s| && key <= s[i..]
  {
    if key <= s {
      i := 0;
    } else {
      var j := IncludesHasPosition(s[1..], key);
      assert s[1..][j..] == s[j + 1..];
      i := j + 1;
    }
  }

  /** An occurrence at any position is found by the search. */
  lemma {:induction false} PositionGivesIncludes(s: string, key: string, i: nat)
    requires i <= |s| && key <= s[i..]
    ensures Includes(s, key)
    decreases i
  {
    if i > 0 {
      assert s[1..][i - 1..] == s[i..];
      PositionGivesIncludes(s[1..], key, i - 1);
    }
  }

  /** The search agrees with the positional definition of containment. */
  lemma IncludesIff(s: string, key: string)
    ensures Includes(s, key) <==> exists i :: 0 <= i <= |s| && key <= s[i..]
  {
    if Includes(s, key) {
      var i := IncludesHasPosition(s, key);
    }
    if exists i :: 0 <= i <= |s| && key <= s[i..] {
      var i :| 0 <= i <= |s| && key <= s[i..];
      PositionGivesIncludes(s, key, i);
    }
  }

  /** `a` is obtained from `b` by dropping elements and keeping the order of the rest. */
  predicate Subsequence<T(==)>(a: seq<T>, b: seq<T>)
    decreases |b|
  {
    a == [] || (b != [] && ((a[0] == b[0] && Subsequence(a[1..], b[1..])) || Subsequence(a, b[1..])))
  }

  /** Every sequence is a subsequence of itself. */
  lemma {:induction false} SubsequenceRefl<T>(a: seq<T>)
    ensures Subsequence(a, a)
  {
    if a != [] {
      SubsequenceRefl(a[1..]);
    }
  }

  /** A subsequence is never longer than the sequence it comes from. */
  lemma {:induction false} SubsequenceLength<T>(a: seq<T>, b: seq<T>)
    requires Subsequence(a, b)
    ensures |a| <= |b|
    decreases |b|
  {
    if a != [] {
      if a[0] == b[0] && Subsequence(a[1..], b[1..]) {
        SubsequenceLength(a[1..], b[1..]);
      } else {
        SubsequenceLength(a, b[1..]);
      }
    }
  }

  /** A subsequence of a subsequence is a subsequence. */
  lemma {:induction false} SubsequenceTrans<T>(a: seq<T>, b: seq<T>, c: seq<T>)
    requires Subsequence(a, b) && Subsequence(b, c)
    ensures Subsequence(a, c)
    decreases |a| + |b| + |c|
  {
    if a != [] {
      if Subsequence(b, c[1..]) {
        SubsequenceTrans(a, b, c[1..]);
      } else if a[0] == b[0] && Subsequence(a[1..], b[1..]) {
        SubsequenceTrans(a[1..], b[1..], c[1..]);
      } else {
        SubsequenceTrans(a, b[1..], c[1..]);
      }
    }
  }

  /** Every element of a subsequence occurs in the sequence it comes from. */
  lemma {:induction false} SubsequenceMembers<T>(a: seq<T>, b: seq<T>, x: T)
    requires Subsequence(a, b) && x in a
    ensures x in b
    decreases |b|
  {
    if a[0] == b[0] && Subsequence(a[1..], b[1..]) {
      if x != a[0] {
        SubsequenceMembers(a[1..], b[1..], x);
      }
    } else {
      SubsequenceMembers(a, b[1..], x);
    }
  }
}
