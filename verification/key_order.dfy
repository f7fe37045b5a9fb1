/** Python's `sorted(time_series.keys())`: the keys of a JSON object in ascending string order. */
module KeyOrder {
  import opened Text

  ghost predicate IsLeast(m: string, keys: set<string>)
  {
    m in keys && forall k :: k in keys ==> k == m || StrLess(m, k)
  }

  lemma {:induction false} LeastExists(keys: set<string>)
    requires keys != {}
    ensures exists m :: IsLeast(m, keys)
    decreases |keys|
  {
    var x :| x in keys;
    var rest := keys - {x};
    if rest == {} {
      assert keys == {x};
      assert IsLeast(x, keys);
    } else {
      LeastExists(rest);
      var m :| IsLeast(m, rest);
      if StrLess(x, m) {
        forall k | k in keys
          ensures k == x || StrLess(x, k)
        {
          if k != x && k != m {
            StrLessTransitive(x, m, k);
          }
        }
        assert IsLeast(x, keys);
      } else {
        StrLessTotal(x, m);
        assert IsLeast(m, keys);
      }
    }
  }

  lemma LeastUnique(a: string, b: string, keys: set<string>)
    requires IsLeast(a, keys) && IsLeast(b, keys)
    ensures a == b
  {
    if a != b {
      StrLessAsymmetric(a, b);
    }
  }

  ghost function Least(keys: set<string>): (m: string)
    requires keys != {}
    ensures IsLeast(m, keys)
  {
    LeastExists(keys);
    var m :| IsLeast(m, keys);
    m
  }

  /** The keys in ascending order. */
  ghost function SortedKeys(keys: set<string>): seq<string>
    decreases |keys|
  {
    if keys == {} then [] else
      var m := Least(keys);
      [m] + SortedKeys(keys - {m})
  }

  /** SortedKeys lists every key exactly once, in strictly ascending order. */
  lemma {:induction false} SortedKeysSpec(keys: set<string>)
    ensures StrictlySorted(SortedKeys(keys))
    ensures |SortedKeys(keys)| == |keys|
    ensures forall k :: k in SortedKeys(keys) <==> k in keys
    decreases |keys|
  {
    if keys != {} {
      var m := Least(keys);
      var rest := keys - {m};
      SortedKeysSpec(rest);
      var t := SortedKeys(rest);
      var s := SortedKeys(keys);
      assert s == [m] + t;
      forall i, j | 0 <= i < j < |s|
        ensures StrLess(s[i], s[j])
      {
        if i == 0 {
          assert s[j] == t[j - 1] && t[j - 1] in rest;
        } else {
          assert s[i] == t[i - 1] && s[j] == t[j - 1];
        }
      }
    }
  }

  /** The least of a non-empty set of keys, by one pass over it. */
  method MinKey(keys: set<string>) returns (m: string)
    requires keys != {}
    ensures m == Least(keys)
  {
    m :| m in keys;
    var todo := keys - {m};
    while todo != {}
      invariant todo <= keys && m in keys && m !in todo
      invariant forall k :: k in keys && k !in todo ==> k == m || StrLess(m, k)
      decreases todo
    {
      var k :| k in todo;
      if StrLess(k, m) {
        forall j | j in keys && j !in todo && j != m
          ensures StrLess(k, j)
        {
          StrLessTransitive(k, m, j);
        }
        m := k;
      } else {
        StrLessTotal(k, m);
      }
      todo := todo - {k};
    }
    LeastUnique(m, Least(keys), keys);
  }

  /** sorted(keys), by repeatedly taking the least key not yet taken. */
  method SortKeys(keys: set<string>) returns (s: seq<string>)
    ensures s == SortedKeys(keys)
    ensures StrictlySorted(s) && forall k :: k in s <==> k in keys
  {
    s := [];
    var rest := keys;
    while rest != {}
      invariant rest <= keys
      invariant s + SortedKeys(rest) == SortedKeys(keys)
      decreases |rest|
    {
      var m := MinKey(rest);
      assert SortedKeys(rest) == [m] + SortedKeys(rest - {m});
      s := s + [m];
      rest := rest - {m};
    }
    SortedKeysSpec(keys);
  }
}
