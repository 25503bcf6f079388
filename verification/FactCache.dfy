/**
 The bounded tables of immutable facts of one repository, and the answers read through them: the memo of facts and the
 table of trees drop the least recently used, the tables of lineage steps and of Git outputs are emptied when full.
 */
module FactCache {
  import opened Prelude

  /** The bytes of the facts listed. */
  function Total<K, V>(order: seq<K>, facts: map<K, (V, nat)>): nat
    requires forall k <- order :: k in facts
  {
    if order == [] then 0 else Total(order[..|order| - 1], facts) + facts[order[|order| - 1]].1
  }

  lemma {:induction false} WithoutDistinct<K(!new)>(order: seq<K>, key: K)
    requires Distinct(order)
    ensures Distinct(Without(order, key))
  {
    if order != [] {
      var front, last := order[..|order| - 1], order[|order| - 1];
      WithoutDistinct(front, key);
      assert forall i :: 0 <= i < |front| ==> front[i] == order[i];
      assert last !in Without(front, key);
    }
  }

  lemma DistinctFront<K>(order: seq<K>, front: seq<K>, last: K)
    requires order == front + [last] && Distinct(order)
    ensures Distinct(front) && last !in front && forall k :: k in order <==> k in front || k == last
  {
    assert forall i :: 0 <= i < |front| ==> front[i] == order[i];
    assert order[|front|] == last;
  }

  lemma {:induction false} TotalWithout<K(!new), V>(order: seq<K>, facts: map<K, (V, nat)>, key: K)
    requires Distinct(order) && forall k <- order :: k in facts
    ensures Total(Without(order, key), facts) == Total(order, facts) - if key in order then facts[key].1 else 0
  {
    if order != [] {
      var front, last := order[..|order| - 1], order[|order| - 1];
      DistinctFront(order, front, last);
      TotalWithout(front, facts, key);
      if last != key {
        var kept := Without(front, key);
        assert (kept + [last])[..|kept|] == kept;
      }
    }
  }

  lemma {:induction false} TotalTail<K, V>(order: seq<K>, facts: map<K, (V, nat)>)
    requires order != [] && forall k <- order :: k in facts
    ensures Total(order, facts) == facts[order[0]].1 + Total(order[1..], facts)
  {
    if |order| > 1 {
      var front := order[..|order| - 1];
      assert forall k <- front :: k in order;
      TotalTail(front, facts);
      assert front[1..] == order[1..][..|order[1..]| - 1];
    } else {
      assert order[..0] == [] && order[1..] == [];
    }
  }

  lemma {:induction false} TotalSame<K, V>(order: seq<K>, a: map<K, (V, nat)>, b: map<K, (V, nat)>)
    requires forall k <- order :: k in a && k in b && a[k] == b[k]
    ensures Total(order, a) == Total(order, b)
  {
    if order != [] {
      assert forall k <- order[..|order| - 1] :: k in order;
      TotalSame(order[..|order| - 1], a, b);
    }
  }

  /** The table without the facts dropped from the front of the order. */
  function Kept<K(!new, ==), V>(order: seq<K>, dropped: nat, facts: map<K, (V, nat)>): map<K, (V, nat)>
    requires dropped <= |order|
  {
    map k | k in facts && k in order[dropped..] :: facts[k]
  }

  /** Counts how many of the oldest facts must go for a new one of the given size to fit. */
  method Evict<K(!new, ==), V>(order: seq<K>, facts: map<K, (V, nat)>, bytes: nat, size: nat, limit: nat)
      returns (dropped: nat, left: nat)
    requires size <= limit && (forall k <- order :: k in facts) && bytes == Total(order, facts)
    ensures dropped <= |order| && left == Total(order[dropped..], facts) && left + size <= limit
    ensures dropped > 0 ==> Total(order[dropped - 1..], facts) + size > limit
  {
    dropped, left := 0, bytes;
    assert order[0..] == order;
    while dropped < |order| && left + size > limit
      invariant dropped <= |order| && left == Total(order[dropped..], facts)
      invariant dropped > 0 ==> Total(order[dropped - 1..], facts) + size > limit
    {
      TotalTail(order[dropped..], facts);
      assert order[dropped..][1..] == order[dropped + 1..];
      left := left - facts[order[dropped]].1;
      dropped := dropped + 1;
    }
  }

  lemma AddFact<K(!new), V>(order: seq<K>, dropped: nat, facts: map<K, (V, nat)>, key: K, value: V, size: nat)
    requires dropped <= |order| && Distinct(order) && key !in order && forall k :: k in order <==> k in facts
    ensures var kept, grown := order[dropped..] + [key], Kept(order, dropped, facts)[key := (value, size)];
            && Distinct(kept) && (forall k :: k in kept <==> k in grown)
            && Total(kept, grown) == Total(order[dropped..], facts) + size
  {
    var kept, grown := order[dropped..] + [key], Kept(order, dropped, facts)[key := (value, size)];
    assert kept[..|kept| - 1] == order[dropped..];
    forall k | k in order[dropped..] ensures k in order && k in grown {
    }
    TotalSame(order[dropped..], facts, grown);
  }

  lemma DroppedBytes<K(!new), V>(order: seq<K>, dropped: nat, a: map<K, (V, nat)>, b: map<K, (V, nat)>)
    requires dropped <= |order| && forall k <- order :: k in a && k in b && a[k] == b[k]
    ensures dropped > 0 ==> Total(order[dropped - 1..], a) == Total(order[dropped - 1..], b)
  {
    if dropped > 0 {
      TotalSame(order[dropped - 1..], a, b);
    }
  }

  /** Least recently used first; the counter is exact, within the limit, and every fact is true. */
  ghost predicate Sound<K(!new), V>(order: seq<K>, facts: map<K, (V, nat)>, bytes: nat, limit: nat, truth: K -> V) {
    && Distinct(order) && (forall k :: k in order <==> k in facts)
    && bytes == Total(order, facts) && bytes <= limit
    && forall k <- facts :: facts[k].0 == truth(k)
  }

  /** As few of the oldest facts as needed make room for the new one, which becomes the most recent. */
  ghost predicate Replaced<K(!new),
      V>(order: seq<K>, facts: map<K, (V, nat)>, key: K, size: nat, limit: nat, dropped: nat, order': seq<K>) {
    var others := Without(order, key);
    && dropped <= |others| && order' == others[dropped..] + [key]
    && (forall k <- others :: k in facts)
    && (dropped > 0 ==> Total(others[dropped - 1..], facts) + size > limit)
  }

  method Replace<K(!new, ==),
      V>(order: seq<K>, facts: map<K, (V, nat)>, bytes: nat, key: K, value: V, size: nat, limit: nat,
                                 ghost truth: K -> V)
      returns (order': seq<K>, facts': map<K, (V, nat)>, bytes': nat, dropped: nat)
    requires Sound(order, facts, bytes, limit, truth) && value == truth(key) && size <= limit
    ensures Sound(order', facts', bytes', limit, truth) && Replaced(order, facts, key, size, limit, dropped, order')
    ensures key in facts' && facts'[key] == (value, size)
    ensures forall k <- facts' :: k == key || (k in facts && facts'[k] == facts[k])
  {
    hide Total, Distinct;
    WithoutDistinct(order, key);
    TotalWithout(order, facts, key);
    var others := Without(order, key);
    hide Without;
    TotalSame(others, facts, facts - {key});
    var used := if key in facts then bytes - facts[key].1 else bytes;
    var left;
    dropped, left := Evict(others, facts - {key}, used, size, limit);
    AddFact(others, dropped, facts - {key}, key, value, size);
    DroppedBytes(others, dropped, facts - {key}, facts);
    order', facts', bytes' := others[dropped..] + [key], Kept(others, dropped, facts - {key})[key := (value, size)],
        left + size;
  }

  class Cache<K(!new, ==), V> {
    var order: seq<K>
    var facts: map<K, (V, nat)>
    var bytes: nat
    const limit: nat
    ghost const truth: K -> V

    ghost predicate Valid()
      reads this
    {
      Sound(order, facts, bytes, limit, truth)
    }

    constructor (limit: nat, ghost truth: K -> V)
      ensures Valid() && order == [] && this.limit == limit && this.truth == truth
    {
      order, facts, bytes := [], map[], 0;
      this.limit, this.truth := limit, truth;
    }

    /** A remembered fact becomes the most recent; nothing else changes. */
    method Memo(key: K) returns (value: Option<V>)
      requires Valid()
      modifies this`order
      ensures Valid()
      ensures value == if key in facts then Some(truth(key)) else None
      ensures order == if key in facts then Without(old(order), key) + [key] else old(order)
    {
      if key !in facts {
        return None;
      }
      MoveToEnd(order, facts, key);
      order := Without(order, key) + [key];
      value := Some(facts[key].0);
    }

    /** Keeps a new fact unless it is too large to keep at all. */
    method Remember(key: K, value: V, size: nat)
      requires Valid() && value == truth(key)
      modifies this
      ensures Valid()
      ensures size > limit ==> order == old(order) && facts == old(facts)
      ensures size <= limit ==>
                && key in facts && facts[key] == (value, size)
                && exists dropped: nat :: Replaced(old(order), old(facts), key, size, limit, dropped, order)
      ensures forall k <- facts :: (k == key && size <= limit) || (k in old(facts) && facts[k] == old(facts)[k])
    {
      if size <= limit {
        hide Sound, Replaced;
        var dropped;
        order, facts, bytes, dropped := Replace(order, facts, bytes, key, value, size, limit, truth);
      }
    }

    /** Forgetting everything at the start of an invocation. */
    method Clear()
      requires Valid()
      modifies this
      ensures Valid() && order == []
    {
      order, facts, bytes := [], map[], 0;
    }

    /** Reading through the memo gives the fact itself, remembered or not, whatever was evicted. */
    method Read(key: K, compute: K -> V, size: nat) returns (value: V)
      requires Valid() && compute(key) == truth(key)
      modifies this
      ensures Valid() && value == truth(key)
      ensures key in old(facts) ==> order == Without(old(order), key) + [key] && facts == old(facts)
      ensures key !in old(facts) && size > limit ==> order == old(order) && facts == old(facts)
      ensures key !in old(facts) && size <= limit ==>
                && key in facts && facts[key] == (value, size)
                && exists dropped: nat :: Replaced(old(order), old(facts), key, size, limit, dropped, order)
      ensures forall k <- facts :: k == key || (k in old(facts) && facts[k] == old(facts)[k])
    {
      hide Sound, Replaced;
      var remembered := Memo(key);
      if remembered.Some? {
        return remembered.value;
      }
      value := compute(key);
      Remember(key, value, size);
    }
  }

  lemma MoveToEnd<K(!new), V>(order: seq<K>, facts: map<K, (V, nat)>, key: K)
    requires Distinct(order) && key in order && forall k <- order :: k in facts
    ensures var moved := Without(order, key) + [key];
            Distinct(moved) && (forall k :: k in moved <==> k in order) && Total(moved, facts) == Total(order, facts)
  {
    WithoutDistinct(order, key);
    TotalWithout(order, facts, key);
    var kept := Without(order, key);
    assert (kept + [key])[..|kept|] == kept;
  }

  // ----- the table of trees -----------------------------------------------------------------------------

  /** As few of the oldest trees as needed keep both bounds with the new one, which becomes the most recent. */
  ghost predicate Admitted<K, V>(order: seq<K>, facts: map<K, (V, nat)>, key: K, size: nat, limit: nat, most: nat,
                                 dropped: nat, order': seq<K>) {
    && dropped <= |order| && order' == order[dropped..] + [key] && (forall k <- order :: k in facts)
    && (dropped > 0 ==> |order| - (dropped - 1) >= most || Total(order[dropped - 1..], facts) + size > limit)
  }

  /** Counts how many of the oldest trees must go for a new one to keep both bounds. */
  method EvictTrees<K(!new, ==),
      V>(order: seq<K>, facts: map<K, (V, nat)>, bytes: nat, size: nat, limit: nat, most: nat)
      returns (dropped: nat, left: nat)
    requires size <= limit && most > 0 && (forall k <- order :: k in facts) && bytes == Total(order, facts)
    ensures dropped <= |order| && left == Total(order[dropped..], facts)
    ensures left + size <= limit && |order| - dropped < most
    ensures dropped > 0 ==> |order| - (dropped - 1) >= most || Total(order[dropped - 1..], facts) + size > limit
  {
    dropped, left := 0, bytes;
    assert order[0..] == order;
    while dropped < |order| && (|order| - dropped >= most || left + size > limit)
      invariant dropped <= |order| && left == Total(order[dropped..], facts)
      invariant dropped > 0 ==> |order| - (dropped - 1) >= most || Total(order[dropped - 1..], facts) + size > limit
    {
      TotalTail(order[dropped..], facts);
      assert order[dropped..][1..] == order[dropped + 1..];
      left := left - facts[order[dropped]].1;
      dropped := dropped + 1;
    }
  }

  method AddTree<K(!new, ==),
      V>(order: seq<K>, facts: map<K, (V, nat)>, bytes: nat, key: K, value: V, size: nat, limit: nat,
                                 most: nat, ghost truth: K -> V)
      returns (order': seq<K>, facts': map<K, (V, nat)>, bytes': nat, dropped: nat)
    requires Sound(order, facts, bytes, limit, truth) && key !in facts && value == truth(key) && size <= limit
    requires most > 0
    ensures Sound(order', facts', bytes', limit, truth) && |order'| <= most
    ensures Admitted(order, facts, key, size, limit, most, dropped, order') && key in facts'
    ensures facts'[key] == (value, size)
    ensures forall k <- facts' :: k == key || (k in facts && facts'[k] == facts[k])
  {
    hide Total, Distinct;
    var left;
    dropped, left := EvictTrees(order, facts, bytes, size, limit, most);
    AddFact(order, dropped, facts, key, value, size);
    order', facts', bytes' := order[dropped..] + [key], Kept(order, dropped, facts)[key := (value, size)], left + size;
  }

  lemma SoundMoved<K(!new), V>(order: seq<K>, facts: map<K, (V, nat)>, bytes: nat, limit: nat, truth: K -> V, key: K)
    requires Sound(order, facts, bytes, limit, truth) && key in facts
    ensures Sound(Without(order, key) + [key], facts, bytes, limit, truth) && |Without(order, key) + [key]| <= |order|
    ensures facts[key].0 == truth(key)
  {
    hide Total, Distinct;
    MoveToEnd(order, facts, key);
  }

  class TreeCache<K(!new, ==), V> {
    var order: seq<K>
    var facts: map<K, (V, nat)>
    var bytes: nat
    const limit: nat
    const most: nat
    ghost const truth: K -> V

    ghost predicate Valid()
      reads this
    {
      Sound(order, facts, bytes, limit, truth) && |order| <= most && most > 0
    }

    constructor (limit: nat, most: nat, ghost truth: K -> V)
      requires most > 0
      ensures Valid() && order == [] && this.limit == limit && this.most == most && this.truth == truth
    {
      order, facts, bytes := [], map[], 0;
      this.limit, this.most, this.truth := limit, most, truth;
    }

    /** Reading a tree gives the tree itself; the table stays within its number of trees and its bytes. */
    method Read(key: K, compute: K -> V, size: nat) returns (value: V)
      requires Valid() && compute(key) == truth(key)
      modifies this
      ensures Valid() && value == truth(key)
      ensures key in old(facts) ==> order == Without(old(order), key) + [key] && facts == old(facts)
      ensures key !in old(facts) && size > limit ==> order == old(order) && facts == old(facts)
      ensures key !in old(facts) && size <= limit ==>
                && key in facts && facts[key] == (value, size)
                && exists dropped: nat :: Admitted(old(order), old(facts), key, size, limit, most, dropped, order)
      ensures forall k <- facts :: k == key || (k in old(facts) && facts[k] == old(facts)[k])
    {
      hide Sound, Admitted;
      if key in facts {
        SoundMoved(order, facts, bytes, limit, truth, key);
        order := Without(order, key) + [key];
        return facts[key].0;
      }
      value := compute(key);
      if size <= limit {
        var dropped;
        order, facts, bytes, dropped := AddTree(order, facts, bytes, key, value, size, limit, most, truth);
      }
    }
  }

  // ----- tables emptied when full -----------------------------------------------------------------------

  /** The counter is never below the bytes kept, and they and the number of facts stay within the bounds. */
  ghost predicate Counted<K(!new), V>(order: seq<K>, sizes: map<K, (V, nat)>, facts: map<K, V>, bytes: nat, limit: nat,
                                      most: Option<nat>, truth: K -> V) {
    && Distinct(order) && (forall k :: k in order <==> k in sizes) && sizes.Keys == facts.Keys
    && Total(order, sizes) <= bytes <= limit && (most.Some? ==> |facts| <= most.value)
    && forall k <- facts :: facts[k] == truth(k)
  }

  lemma NothingCounted<K(!new), V>(bytes: nat, limit: nat, most: Option<nat>, truth: K -> V)
    requires bytes <= limit
    ensures Counted([], map[], map[], bytes, limit, most, truth)
  {
  }

  lemma CountedIsTrue<K(!new), V>(order: seq<K>, sizes: map<K, (V, nat)>, facts: map<K, V>, bytes: nat, limit: nat,
                                  most: Option<nat>, truth: K -> V, key: K)
    requires Counted(order, sizes, facts, bytes, limit, most, truth) && key in facts
    ensures facts[key] == truth(key)
  {
  }

  lemma CountedGrows<K(!new), V>(order: seq<K>, sizes: map<K, (V, nat)>, facts: map<K, V>, bytes: nat, limit: nat,
                                 most: Option<nat>, truth: K -> V, key: K, size: nat)
    requires Counted(order, sizes, facts, bytes, limit, most, truth) && key !in facts && bytes + size <= limit
    requires most.Some? ==> |facts| < most.value
    ensures Counted(order + [key], sizes[key := (truth(key), size)], facts[key := truth(key)], bytes + size, limit,
                    most, truth)
  {
    hide Total, Distinct;
    AddFact(order, 0, sizes, key, truth(key), size);
    assert order[0..] == order && Kept(order, 0, sizes) == sizes;
  }

  class FlushedCache<K(!new, ==), V> {
    var facts: map<K, V>
    var bytes: nat
    const limit: nat
    const most: Option<nat>
    ghost const truth: K -> V
    ghost var order: seq<K>
    ghost var sizes: map<K, (V, nat)>

    ghost predicate Valid()
      reads this
    {
      Counted(order, sizes, facts, bytes, limit, most, truth) && (most.Some? ==> most.value > 0)
    }

    constructor (limit: nat, most: Option<nat>, ghost truth: K -> V)
      requires most.Some? ==> most.value > 0
      ensures Valid() && facts == map[] && this.limit == limit && this.most == most && this.truth == truth
    {
      facts, bytes := map[], 0;
      this.limit, this.most, this.truth := limit, most, truth;
      order, sizes := [], map[];
    }

    /** A new invocation forgets the facts; the counter of the Git outputs is not reset with them. */
    method Restart(resets: bool)
      requires Valid()
      modifies this
      ensures Valid() && facts == map[] && bytes == if resets then 0 else old(bytes)
    {
      facts, order, sizes := map[], [], map[];
      if resets {
        bytes := 0;
      }
      NothingCounted(bytes, limit, most, truth);
    }

    predicate Full(size: nat)
      reads this
    {
      bytes + size > limit || (most.Some? && |facts| >= most.value)
    }

    /** Reading gives the fact itself; a fact the table has no room for empties it first, one too large is not kept. */
    method Read(key: K, compute: K -> V, size: nat) returns (value: V)
      requires Valid() && compute(key) == truth(key)
      modifies this
      ensures Valid() && value == truth(key)
      ensures var full := old(bytes) + size > limit || (most.Some? && |old(facts)| >= most.value);
              if key in old(facts) || size > limit then facts == old(facts) && bytes == old(bytes)
              else if full then facts == map[key := value] && bytes == size
              else facts == old(facts)[key := value] && bytes == old(bytes) + size
    {
      hide Counted;
      if key in facts {
        CountedIsTrue(order, sizes, facts, bytes, limit, most, truth, key);
        return facts[key];
      }
      value := compute(key);
      if size > limit {
        return;
      }
      if Full(size) {
        NothingCounted(0, limit, most, truth);
        facts, bytes, order, sizes := map[], 0, [], map[];
      }
      CountedGrows(order, sizes, facts, bytes, limit, most, truth, key, size);
      facts, bytes := facts[key := value], bytes + size;
      order, sizes := order + [key], sizes[key := (value, size)];
    }
  }
}
