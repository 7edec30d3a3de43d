/**
 lruSet (api/app/static/app.js:207-212): the map that bounds how many waveforms' peaks are kept.
 */
module Lru {
  import opened Prelude

  datatype Entry<K, V> = Entry(key: K, value: V)

  predicate Has<K(==), V>(es: seq<Entry<K, V>>, key: K) {
    exists i :: 0 <= i < |es| && es[i].key == key
  }

  predicate Distinct<K(==), V>(es: seq<Entry<K, V>>) {
    forall i, j :: 0 <= i < j < |es| ==> es[i].key != es[j].key
  }

  function Without<K(==), V>(es: seq<Entry<K, V>>, key: K): seq<Entry<K, V>> {
    if es == [] then [] else (if es[0].key == key then [] else [es[0]]) + Without(es[1..], key)
  }

  lemma {:induction false} WithoutDrops<K, V>(es: seq<Entry<K, V>>, key: K)
    ensures !Has(Without(es, key), key) && |Without(es, key)| <= |es|
    ensures forall k :: k != key ==> (Has(Without(es, key), k) <==> Has(es, k))
    ensures Distinct(es) ==> Distinct(Without(es, key))
    ensures !Has(es, key) ==> Without(es, key) == es
    ensures Distinct(es) && Has(es, key) ==> |Without(es, key)| == |es| - 1
  {
    if es != [] {
      var rest := Without(es[1..], key);
      var w := Without(es, key);
      WithoutDrops(es[1..], key);
      assert w == (if es[0].key == key then [] else [es[0]]) + rest;
      assert es == [es[0]] + es[1..];
      HasFirst(es);
      forall k | k != key ensures Has(w, k) <==> Has(es, k) {
        HasJoined(if es[0].key == key then [] else [es[0]], rest, k);
        HasJoined([es[0]], es[1..], k);
      }
      HasJoined(if es[0].key == key then [] else [es[0]], rest, key);
      HasJoined([es[0]], es[1..], key);
      if Distinct(es) && es[0].key != key {
        assert !Has(es[1..], es[0].key);
        assert !Has(rest, es[0].key);
      }
    }
  }

  lemma HasFirst<K, V>(es: seq<Entry<K, V>>)
    requires es != []
    ensures Has(es, es[0].key) && (Distinct(es) ==> !Has(es[1..], es[0].key) && Distinct(es[1..]))
  {
    assert es[0].key == es[0].key;
  }

  lemma HasJoined<K, V>(a: seq<Entry<K, V>>, b: seq<Entry<K, V>>, key: K)
    ensures Has(a + b, key) <==> Has(a, key) || Has(b, key)
  {
    if Has(a, key) {
      var i :| 0 <= i < |a| && a[i].key == key;
      assert (a + b)[i].key == key;
    }
    if Has(b, key) {
      var i :| 0 <= i < |b| && b[i].key == key;
      assert (a + b)[|a| + i].key == key;
    }
  }

  lemma {:induction false} WithoutJoined<K, V>(a: seq<Entry<K, V>>, b: seq<Entry<K, V>>, key: K)
    ensures Without(a + b, key) == Without(a, key) + Without(b, key)
  {
    if a == [] {
      assert a + b == b;
    } else {
      assert (a + b)[1..] == a[1..] + b;
      WithoutJoined(a[1..], b, key);
    }
  }

  /** A Map that keeps its keys in the order they were inserted. */
  class OrderedMap<K(==), V> {
    var entries: seq<Entry<K, V>>

    constructor ()
      ensures entries == []
    {
      entries := [];
    }

    method Contains(key: K) returns (r: bool)
      ensures r <==> Has(entries, key)
    {
      r := Has(entries, key);
    }

    method Delete(key: K)
      modifies this
      ensures entries == Without(old(entries), key)
    {
      entries := Without(entries, key);
    }

    /** A key already present keeps its place. */
    method Put(key: K, value: V)
      modifies this
      ensures !Has(old(entries), key) ==> entries == old(entries) + [Entry(key, value)]
      ensures |entries| == |old(entries)| + if Has(old(entries), key) then 0 else 1
      ensures forall i :: 0 <= i < |old(entries)| ==>
                entries[i] == if old(entries)[i].key == key then Entry(key, value) else old(entries)[i]
    {
      if Has(entries, key) {
        entries := seq(|entries|, i requires 0 <= i < |entries| reads this =>
                         if entries[i].key == key then Entry(key, value) else entries[i]);
      } else {
        entries := entries + [Entry(key, value)];
      }
    }
  }

  /** What one lruSet leaves. */
  function SetEntry<K(==), V>(es: seq<Entry<K, V>>, e: Entry<K, V>, max: nat): seq<Entry<K, V>> {
    Suffix(Without(es, e.key) + [e], max)
  }

  method LruSet<K(==), V>(m: OrderedMap<K, V>, key: K, value: V, max: nat)
    requires Distinct(m.entries)
    modifies m
    ensures m.entries == SetEntry(old(m.entries), Entry(key, value), max) && Distinct(m.entries)
  {
    WithoutDrops(m.entries, key);
    var had := m.Contains(key);
    if had {
      m.Delete(key);
    }
    m.Put(key, value);
    ghost var all := m.entries;
    assert all == Without(old(m.entries), key) + [Entry(key, value)];
    while |m.entries| > max
      invariant Distinct(m.entries) && Suffix(m.entries, max) == Suffix(all, max)
      decreases |m.entries|
    {
      FirstGoes(m.entries, max);
      m.Delete(m.entries[0].key);
    }
  }

  lemma FirstGoes<K, V>(es: seq<Entry<K, V>>, max: nat)
    requires Distinct(es) && |es| > max
    ensures Without(es, es[0].key) == es[1..] && Distinct(es[1..]) && Suffix(es[1..], max) == Suffix(es, max)
  {
    WithoutAbsent(es[1..], es[0].key);
    SuffixOfTail(es, max);
  }

  lemma SuffixOfTail<T>(s: seq<T>, max: nat)
    requires |s| > max
    ensures Suffix(s[1..], max) == Suffix(s, max)
  {
    if |s| == max + 1 {
      assert s[|s| - max..] == s[1..];
    } else {
      assert s[1..][|s| - 1 - max..] == s[|s| - max..];
    }
  }

  lemma {:induction false} WithoutAbsent<K, V>(es: seq<Entry<K, V>>, key: K)
    requires forall i :: 0 <= i < |es| ==> es[i].key != key
    ensures Without(es, key) == es
  {
    if es != [] {
      WithoutAbsent(es[1..], key);
    }
  }

  // ---- whole histories ----

  /** The map after the sets of a history, from an empty map. */
  function After<K(==), V>(history: seq<Entry<K, V>>, max: nat): seq<Entry<K, V>> {
    if history == [] then []
    else SetEntry(After(history[..|history| - 1], max), history[|history| - 1], max)
  }

  /** The last set of each key, in the order of the history. */
  function LastSets<K(==), V>(history: seq<Entry<K, V>>): seq<Entry<K, V>> {
    if history == [] then []
    else (if Has(history[1..], history[0].key) then [] else [history[0]]) + LastSets(history[1..])
  }

  /** Set i of the history is e, and no later one is of the same key. */
  predicate IsLastSet<K(==), V(==)>(h: seq<Entry<K, V>>, i: nat, e: Entry<K, V>) {
    i < |h| && h[i] == e && !Has(h[i + 1..], e.key)
  }

  lemma LaterInTail<K, V>(h: seq<Entry<K, V>>, i: nat, e: Entry<K, V>)
    requires h != []
    ensures IsLastSet(h[1..], i, e) <==> IsLastSet(h, i + 1, e)
  {
    if i < |h[1..]| {
      assert h[1..][i + 1..] == h[i + 2..];
    }
  }

  /** LastSets has every key of the history once, with the value of its last set. */
  lemma {:induction false} LastSetsMeans<K, V>(h: seq<Entry<K, V>>)
    ensures Distinct(LastSets(h)) && forall k :: Has(LastSets(h), k) <==> Has(h, k)
    ensures forall e :: e in LastSets(h) <==> exists i: nat :: IsLastSet(h, i, e)
  {
    if h != [] {
      var rest := LastSets(h[1..]);
      var first := if Has(h[1..], h[0].key) then [] else [h[0]];
      LastSetsMeans(h[1..]);
      assert h == [h[0]] + h[1..];
      forall k ensures Has(LastSets(h), k) <==> Has(h, k) {
        HasJoined([h[0]], h[1..], k);
        HasJoined(first, rest, k);
        HasFirst([h[0]]);
      }
      forall e ensures e in LastSets(h) <==> exists i: nat :: IsLastSet(h, i, e) {
        if i: nat :| IsLastSet(h, i, e) {
          if i > 0 {
            LaterInTail(h, i - 1, e);
          }
        }
        if e in rest {
          var i: nat :| IsLastSet(h[1..], i, e);
          LaterInTail(h, i, e);
        } else if e in first {
          assert IsLastSet(h, 0, e);
        }
      }
    }
  }

  lemma SetBehind<K, V>(h: seq<Entry<K, V>>, e: Entry<K, V>) returns (i: nat)
    requires e in LastSets(h)
    ensures IsLastSet(h, i, e)
  {
    LastSetsMeans(h);
    i :| IsLastSet(h, i, e);
  }

  /** Two entries of LastSets stand in the order of the last sets of their keys. */
  lemma {:induction false} LastSetsInOrder<K, V>(h: seq<Entry<K, V>>, i: nat, j: nat) returns (a: nat, b: nat)
    requires i < j < |LastSets(h)|
    ensures a < b && IsLastSet(h, a, LastSets(h)[i]) && IsLastSet(h, b, LastSets(h)[j])
  {
    var here := if Has(h[1..], h[0].key) then 0 else 1;
    if i < here {
      var rest := LastSets(h[1..]);
      b := SetBehind(h[1..], rest[j - 1]);
      LaterInTail(h, b, rest[j - 1]);
      a, b := 0, b + 1;
    } else {
      a, b := LastSetsInOrder(h[1..], i - here, j - here);
      LaterInTail(h, a, LastSets(h)[i]);
      LaterInTail(h, b, LastSets(h)[j]);
      a, b := a + 1, b + 1;
    }
  }

  lemma {:induction false} OneMoreSet<K, V>(h: seq<Entry<K, V>>, e: Entry<K, V>)
    ensures LastSets(h + [e]) == Without(LastSets(h), e.key) + [e]
  {
    if h == [] {
      assert h + [e] == [e];
    } else {
      assert (h + [e])[1..] == h[1..] + [e];
      OneMoreSet(h[1..], e);
      HasJoined(h[1..], [e], h[0].key);
      var first := if Has(h[1..], h[0].key) then [] else [h[0]];
      WithoutJoined(first, LastSets(h[1..]), e.key);
      assert LastSets(h) == first + LastSets(h[1..]);
      assert [e][0].key == e.key;
      assert Without([h[0]], e.key) == if h[0].key == e.key then [] else [h[0]];
    }
  }

  lemma SameEnd<T>(gone: seq<T>, kept: seq<T>, max: nat)
    requires |kept| >= max
    ensures Suffix(gone + kept, max) == Suffix(kept, max)
  {
  }

  lemma KeptLength<K, V>(kept: seq<Entry<K, V>>, key: K)
    requires Distinct(kept)
    ensures |Without(kept, key)| + 1 >= |kept|
  {
    WithoutDrops(kept, key);
  }

  /** Setting a key in the last max entries of all, or in all of them, keeps the same last max. */
  lemma SetInLast<K, V>(all: seq<Entry<K, V>>, e: Entry<K, V>, max: nat)
    requires max >= 1 && Distinct(all)
    ensures SetEntry(Suffix(all, max), e, max) == Suffix(Without(all, e.key) + [e], max)
  {
    if |all| > max {
      var gone, kept := all[..|all| - max], Suffix(all, max);
      assert all == gone + kept;
      WithoutJoined(gone, kept, e.key);
      KeptLength(kept, e.key);
      SameEnd(Without(gone, e.key), Without(kept, e.key) + [e], max);
      assert Without(all, e.key) + [e] == Without(gone, e.key) + (Without(kept, e.key) + [e]);
    }
  }

  /**
   After any history of sets with one max, the map holds the max keys most recently set in the whole history,
   in the order they were last set, each with its latest value.
   */
  lemma {:induction false} KeepsMostRecent<K, V>(history: seq<Entry<K, V>>, max: nat)
    requires max >= 1
    ensures After(history, max) == Suffix(LastSets(history), max)
  {
    if history != [] {
      var n := |history| - 1;
      KeepsMostRecent(history[..n], max);
      LastSetsMeans(history[..n]);
      assert history == history[..n] + [history[n]];
      OneMoreSet(history[..n], history[n]);
      SetInLast(LastSets(history[..n]), history[n], max);
    }
  }
}
