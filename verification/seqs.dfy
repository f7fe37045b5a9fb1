/** Order-preserving selection from a sequence, as Python's list comprehensions with an `if`
    and its `for ...: if ...: append` loops compute it, and the suffix slice `s[-n:]`. */
module Seqs {
  import opened Text

  /** The elements of s that satisfy keep, in their order in s. */
  function Filter<T>(s: seq<T>, keep: T -> bool): (r: seq<T>)
    ensures |r| <= |s|
    ensures forall i :: 0 <= i < |r| ==> keep(r[i]) && r[i] in s
    decreases |s|
  {
    if s == [] then []
    else Filter(s[..|s| - 1], keep) + (if keep(s[|s| - 1]) then [s[|s| - 1]] else [])
  }

  /** Nothing that qualifies is dropped. */
  lemma {:induction false} FilterComplete<T>(s: seq<T>, keep: T -> bool, x: T)
    requires x in s && keep(x)
    ensures x in Filter(s, keep)
    decreases |s|
  {
    if x != s[|s| - 1] {
      assert x in s[..|s| - 1] by {
        var i :| 0 <= i < |s| && s[i] == x;
        assert s[..|s| - 1][i] == x;
      }
      FilterComplete(s[..|s| - 1], keep, x);
    }
  }

  /** An element of s is kept exactly when it qualifies. */
  lemma FilterExact<T>(s: seq<T>, keep: T -> bool)
    ensures forall x :: x in s ==> (x in Filter(s, keep) <==> keep(x))
  {
    forall x | x in s && keep(x)
      ensures x in Filter(s, keep)
    {
      FilterComplete(s, keep, x);
    }
  }

  /** Filter keeps everything when everything qualifies. */
  lemma {:induction false} FilterKeepsAll<T>(s: seq<T>, keep: T -> bool)
    requires forall i :: 0 <= i < |s| ==> keep(s[i])
    ensures Filter(s, keep) == s
    decreases |s|
  {
    if s != [] {
      FilterKeepsAll(s[..|s| - 1], keep);
    }
  }

  /** Filter distributes over concatenation. */
  lemma {:induction false} FilterConcat<T>(a: seq<T>, b: seq<T>, keep: T -> bool)
    ensures Filter(a + b, keep) == Filter(a, keep) + Filter(b, keep)
    decreases |b|
  {
    if b == [] {
      assert a + b == a;
    } else {
      var init := b[..|b| - 1];
      assert (a + b)[..|a + b| - 1] == a + init;
      FilterConcat(a, init, keep);
    }
  }

  /** Nothing is kept exactly when nothing qualifies. */
  lemma FilterEmpty<T>(s: seq<T>, keep: T -> bool)
    ensures Filter(s, keep) == [] <==> forall x :: x in s ==> !keep(x)
  {
    forall x | x in s && keep(x)
      ensures Filter(s, keep) != []
    {
      FilterComplete(s, keep, x);
    }
  }

  /** Selecting from an ascending sequence gives an ascending sequence. */
  lemma {:induction false} FilterSorted(s: seq<string>, keep: string -> bool)
    requires StrictlySorted(s)
    ensures StrictlySorted(Filter(s, keep))
    decreases |s|
  {
    if s != [] {
      var init := s[..|s| - 1];
      var last := s[|s| - 1];
      assert StrictlySorted(init);
      FilterSorted(init, keep);
      var f := Filter(init, keep);
      if keep(last) {
        forall i | 0 <= i < |f|
          ensures StrLess(f[i], last)
        {
          var k :| 0 <= k < |init| && init[k] == f[i];
        }
      }
    }
  }

  /** Python's s[-n:] for n >= 1: the last min(n, |s|) elements. (For n == 0 Python's s[-0:]
      is the whole of s, which no caller asks for.) */
  function LastN<T>(s: seq<T>, n: nat): (r: seq<T>)
    requires n > 0
    ensures |r| == if n < |s| then n else |s|
    ensures r == s[|s| - |r|..]
  {
    if n < |s| then s[|s| - n..] else s
  }

  /** A suffix of an ascending sequence is ascending. */
  lemma LastNSorted(s: seq<string>, n: nat)
    requires n > 0
    requires StrictlySorted(s)
    ensures StrictlySorted(LastN(s, n))
  {
    var r := LastN(s, n);
    var off := |s| - |r|;
    forall i, j | 0 <= i < j < |r|
      ensures StrLess(r[i], r[j])
    {
      assert r[i] == s[off + i] && r[j] == s[off + j];
    }
  }

  /** s in the opposite order. */
  function Reverse<T>(s: seq<T>): (r: seq<T>)
    ensures |r| == |s|
    ensures forall i :: 0 <= i < |s| ==> r[i] == s[|s| - 1 - i]
  {
    seq(|s|, i requires 0 <= i < |s| => s[|s| - 1 - i])
  }
}
