/** With write times that keep growing, the in-memory store holds exactly the most recently written keys. */
module Eviction {
  import opened MemoryStores

  function Without<K(==)>(s: seq<K>, k: K): seq<K> {
    if s == [] then [] else if s[0] == k then Without(s[1..], k) else [s[0]] + Without(s[1..], k)
  }

  /** The keys written so far, each once, most recent first. */
  function Recency<K(==)>(writes: seq<K>): seq<K> {
    if writes == [] then [] else
    var k := writes[|writes| - 1];
    [k] + Without(Recency(writes[..|writes| - 1]), k)
  }

  function First<K>(n: nat, s: seq<K>): seq<K> {
    if |s| <= n then s else s[..n]
  }

  /** The keys of m in the order of their writes, latest first, all before time t. */
  ghost predicate Ordered<K(!new)>(m: map<K, int>, keys: seq<K>, t: int) {
    && (forall k :: k in m <==> k in keys)
    && (forall i | 0 <= i < |keys| :: keys[i] in m && m[keys[i]] < t)
    && (forall i, j | 0 <= i < j < |keys| :: keys[i] in m && keys[j] in m && m[keys[i]] > m[keys[j]])
  }

  lemma {:induction false} WithoutFacts<K>(s: seq<K>, k: K)
    ensures |Without(s, k)| <= |s|
    ensures forall x :: x in Without(s, k) <==> x in s && x != k
    ensures k !in s ==> Without(s, k) == s
  {
    if s != [] {
      WithoutFacts(s[1..], k);
      assert s == [s[0]] + s[1..];
    }
  }

  lemma {:induction false} WithoutElement<K>(s: seq<K>, k: K, i: nat) returns (p: nat)
    requires i < |Without(s, k)|
    ensures p < |s| && s[p] == Without(s, k)[i]
  {
    if s[0] != k && i == 0 {
      p := 0;
    } else {
      p := WithoutElement(s[1..], k, if s[0] == k then i else i - 1);
      p := p + 1;
    }
  }

  /** What is left of a sequence keeps its order. */
  lemma {:induction false} WithoutOrder<K>(s: seq<K>, k: K, i: nat, j: nat) returns (p: nat, q: nat)
    requires i < j < |Without(s, k)|
    ensures p < q < |s| && s[p] == Without(s, k)[i] && s[q] == Without(s, k)[j]
  {
    if s[0] == k {
      p, q := WithoutOrder(s[1..], k, i, j);
      p, q := p + 1, q + 1;
    } else if i > 0 {
      p, q := WithoutOrder(s[1..], k, i - 1, j - 1);
      p, q := p + 1, q + 1;
    } else {
      q := WithoutElement(s[1..], k, j - 1);
      p, q := 0, q + 1;
    }
  }

  /** A new latest write goes to the head of the listing. */
  lemma OrderedWrite<K(!new)>(m: map<K, int>, keys: seq<K>, t: int, k: K, now: int)
    requires Ordered(m, keys, t) && t <= now
    ensures Ordered(m[k := now], [k] + Without(keys, k), now + 1)
  {
    var w, rest := m[k := now], Without(keys, k);
    var all := [k] + rest;
    WithoutFacts(keys, k);
    hide Without;
    forall i, j | 0 <= i < j < |all| ensures all[i] in w && all[j] in w && w[all[i]] > w[all[j]] {
      assert all[j] == rest[j - 1] && all[j] in rest;
      if i > 0 {
        assert all[i] == rest[i - 1] && all[i] in rest;
        var p, q := WithoutOrder(keys, k, i - 1, j - 1);
      }
    }
    forall x ensures x in w <==> x in all {
      assert x in all <==> x == k || x in rest;
    }
  }

  /** Dropping the oldest drops the tail of the listing. */
  lemma OrderedDrop<K(!new)>(m: map<K, int>, keys: seq<K>, t: int, m': map<K, int>)
    requires Ordered(m, keys, t) && DropsOldest(m, m') && keys != []
    ensures Ordered(m', keys[..|keys| - 1], t)
  {
    var k :| Drops(m, m', k);
    var n := |keys| - 1;
    assert k in keys;
    var i :| 0 <= i < |keys| && keys[i] == k;
    assert keys[n] in m;
    assert i == n;
    forall x ensures x in m' <==> x in keys[..n] {
      if x in keys[..n] {
        var j :| 0 <= j < n && keys[j] == x;
        assert m[keys[j]] > m[keys[n]];
      }
      if x in m' {
        assert x in keys;
        var j :| 0 <= j < |keys| && keys[j] == x;
        assert keys[..n][j] == x;
      }
    }
  }

  lemma LastIsOldest<K(!new)>(m: map<K, int>, keys: seq<K>, t: int, m': map<K, int>)
    requires Ordered(m, keys, t) && keys != []
    requires var k := keys[|keys| - 1]; m' == map j | j in m && j != k :: m[j]
    ensures DropsOldest(m, m') && m.Keys == m'.Keys + {keys[|keys| - 1]} && keys[|keys| - 1] !in m'.Keys
  {
    var k := keys[|keys| - 1];
    forall j | j in m
      ensures m[k] <= m[j]
    {
      var i :| 0 <= i < |keys| && keys[i] == j;
    }
    assert Drops(m, m', k);
  }

  lemma {:induction false} OrderedSize<K(!new)>(m: map<K, int>, keys: seq<K>, t: int)
    requires Ordered(m, keys, t)
    ensures |m| == |keys|
    decreases |keys|
  {
    if keys == [] {
      assert m.Keys == {};
    } else {
      var n := |keys| - 1;
      var m' := map j | j in m && j != keys[n] :: m[j];
      hide *;
      LastIsOldest(m, keys, t, m');
      OrderedDrop(m, keys, t, m');
      OrderedSize(m', keys[..n], t);
    }
  }

  ghost predicate Distinct<K>(s: seq<K>) {
    forall i, j | 0 <= i < j < |s| :: s[i] != s[j]
  }

  lemma {:induction false} RecencyDistinct<K>(writes: seq<K>)
    ensures Distinct(Recency(writes))
  {
    if writes != [] {
      var before, k := Recency(writes[..|writes| - 1]), writes[|writes| - 1];
      RecencyDistinct(writes[..|writes| - 1]);
      var rest := Without(before, k);
      WithoutFacts(before, k);
      forall i, j | 0 <= i < j < |[k] + rest| ensures ([k] + rest)[i] != ([k] + rest)[j] {
        assert ([k] + rest)[j] in rest;
        if i > 0 { var p, q := WithoutOrder(before, k, i - 1, j - 1); }
      }
    }
  }

  /** Listing the first n + 1 and then moving one key away loses nothing of the first n. */
  lemma {:induction false} FirstWithout<K>(n: nat, s: seq<K>, k: K)
    requires Distinct(s)
    ensures First(n, Without(First(n + 1, s), k)) == First(n, Without(s, k))
  {
    if |s| > n + 1 {
      assert First(n + 1, s)[1..] == First(n, s[1..]);
      if s[0] == k {
        WithoutFacts(s[1..], k);
        WithoutFacts(First(n, s[1..]), k);
        assert k !in s[1..];
      } else if n > 0 {
        FirstWithout(n - 1, s[1..], k);
      }
    }
  }

  /** The states of a store that is written once per tick and never cleared. */
  ghost predicate WriteRun<K(!new)>(max: nat, states: seq<map<K, int>>, writes: seq<K>, times: seq<int>) {
    && |states| == |writes| + 1 && |times| == |writes| && states[0] == map[]
    && (forall i, j | 0 <= i < j < |times| :: times[i] < times[j])
    && forall i | 0 <= i < |writes| :: Wrote(max, states[i], writes[i], times[i], states[i + 1])
  }

  lemma OneWrite<K(!new)>(max: nat, m: map<K, int>, keys: seq<K>, t: int, k: K, now: int, m': map<K, int>)
    requires max > 0 && Ordered(m, keys, t) && t <= now && |keys| <= max && Wrote(max, m, k, now, m')
    ensures Ordered(m', First(max, [k] + Without(keys, k)), now + 1)
  {
    var w, all := m[k := now], [k] + Without(keys, k);
    OrderedWrite(m, keys, t, k, now);
    OrderedSize(w, all, now + 1);
    WithoutFacts(keys, k);
    if |w| > max {
      OrderedDrop(w, all, now + 1, m');
      assert all[..|all| - 1] == First(max, all);
    }
  }

  /**
    The store holds exactly the MaxSessions most recently written keys, so it never exceeds its limit
    and the key just written is never the victim.
   */
  lemma {:induction false} HoldsMostRecent<K(!new)>(max: nat, states: seq<map<K, int>>, writes: seq<K>, times: seq<int>)
    requires max > 0 && WriteRun(max, states, writes, times)
    ensures forall k :: k in states[|writes|] <==> k in First(max, Recency(writes))
    ensures |states[|writes|]| <= max
    ensures writes != [] ==> writes[|writes| - 1] in states[|writes|]
  {
    var t := OrderedRun(max, states, writes, times);
    OrderedSize(states[|writes|], First(max, Recency(writes)), t);
    if writes != [] { assert First(max, Recency(writes))[0] == writes[|writes| - 1]; }
  }

  lemma {:induction false} OrderedRun<K(!new)>(max: nat, states: seq<map<K, int>>, writes: seq<K>, times: seq<int>) returns (t: int)
    requires max > 0 && WriteRun(max, states, writes, times)
    ensures Ordered(states[|writes|], First(max, Recency(writes)), t)
    ensures writes != [] ==> t == times[|times| - 1] + 1
    decreases |writes|
  {
    if writes == [] {
      t := 0;
    } else {
      var n := |writes| - 1;
      var before, k := Recency(writes[..n]), writes[n];
      RunPrefix(max, states, writes, times);
      hide *;
      t := OrderedRun(max, states[..n + 1], writes[..n], times[..n]);
      if n == 0 {
        t := times[0];
        OrderedEmpty(max, writes[..0], t);
      }
      FirstShort(max, before);
      OneWrite(max, states[n], First(max, before), t, k, times[n], states[n + 1]);
      RecencyDistinct(writes[..n]);
      FirstWithout(max - 1, before, k);
      FirstCons(max, k, Without(First(max, before), k), Without(before, k));
      RecencyStep(writes);
      t := times[n] + 1;
    }
  }

  lemma FirstShort<K>(n: nat, s: seq<K>)
    ensures |First(n, s)| <= n
  {
  }

  lemma RecencyStep<K>(writes: seq<K>)
    requires writes != []
    ensures Recency(writes) == [writes[|writes| - 1]] + Without(Recency(writes[..|writes| - 1]), writes[|writes| - 1])
  {
  }

  lemma OrderedEmpty<K(!new)>(max: nat, none: seq<K>, t: int)
    requires none == []
    ensures Ordered(map[], First(max, Recency(none)), t)
  {
  }

  lemma RunPrefix<K(!new)>(max: nat, states: seq<map<K, int>>, writes: seq<K>, times: seq<int>)
    requires WriteRun(max, states, writes, times) && writes != []
    ensures var n := |writes| - 1;
      && |states| == n + 2 && |times| == n + 1
      && WriteRun(max, states[..n + 1], writes[..n], times[..n])
      && Wrote(max, states[n], writes[n], times[n], states[n + 1])
      && (n > 0 ==> times[n - 1] < times[n])
      && (n == 0 ==> states[0] == map[])
  {
    hide Wrote;
  }

  lemma FirstCons<K>(max: nat, k: K, xs: seq<K>, ys: seq<K>)
    requires max > 0 && First(max - 1, xs) == First(max - 1, ys)
    ensures First(max, [k] + xs) == First(max, [k] + ys)
  {
    assert First(max, [k] + xs) == [k] + First(max - 1, xs);
    assert First(max, [k] + ys) == [k] + First(max - 1, ys);
  }
}
