/**
 * The pending queue of a broker, as a value: items consolidated by key in
 * first-arrival order, and what a run of submissions builds from an empty
 * queue.
 */
module Queue {

  /** One fragment of payload, a Go `[]byte`. */
  type Fragment = seq<bv8>

  /** A consolidated group of fragments sharing one key (Go `Item`). */
  datatype Item = Item(key: string, data: seq<Fragment>)

  /** One call `Enqueue(key, data)`. */
  datatype Submission = Submission(key: string, data: Fragment)

  /** The keys of a queue, in queue order. */
  function Keys(q: seq<Item>): seq<string>
  {
    if q == [] then [] else [q[0].key] + Keys(q[1..])
  }

  /** The set of keys present in a queue. */
  function KeySet(q: seq<Item>): set<string>
  {
    if q == [] then {} else {q[0].key} + KeySet(q[1..])
  }

  /** No two items of the queue share a key. */
  predicate UniqueKeys(q: seq<Item>)
  {
    forall i, j :: 0 <= i < j < |q| ==> q[i].key != q[j].key
  }

  /** Every item holds at least one fragment. */
  predicate NonEmptyItems(q: seq<Item>)
  {
    forall i :: 0 <= i < |q| ==> q[i].data != []
  }

  /** The fragments pending under `key`: those of the first item with that key, none if absent. */
  function Fragments(q: seq<Item>, key: string): seq<Fragment>
  {
    if q == [] then []
    else if q[0].key == key then q[0].data
    else Fragments(q[1..], key)
  }

  /**
   * The queue after `Enqueue(key, data)`: the fragment goes to the end of the
   * first item with that key, or a new item for it goes to the end of the
   * queue. Either way, `key` is then present and no other key appears.
   */
  function Consolidate(q: seq<Item>, key: string, data: Fragment): (r: seq<Item>)
    ensures KeySet(r) == KeySet(q) + {key}
  {
    if q == [] then [Item(key, [data])]
    else if q[0].key == key then [Item(key, q[0].data + [data])] + q[1..]
    else [q[0]] + Consolidate(q[1..], key, data)
  }

  lemma {:induction false} InKeySet(q: seq<Item>, k: string)
    ensures k in KeySet(q) <==> exists i :: 0 <= i < |q| && q[i].key == k
  {
    if q != [] {
      InKeySet(q[1..], k);
      if k in KeySet(q[1..]) {
        var i :| 0 <= i < |q[1..]| && q[1..][i].key == k;
        assert q[i + 1].key == k;
      }
      if exists i :: 0 <= i < |q| && q[i].key == k {
        var i :| 0 <= i < |q| && q[i].key == k;
        if i > 0 { assert q[1..][i - 1].key == k; }
      }
    }
  }

  lemma {:induction false} InKeys(q: seq<Item>, k: string)
    ensures k in Keys(q) <==> k in KeySet(q)
  {
    if q != [] { InKeys(q[1..], k); }
  }

  /** A queue with a leading item is key-unique exactly when its tail is and the head's key is not in it. */
  lemma UniqueCons(x: Item, s: seq<Item>)
    ensures UniqueKeys([x] + s) <==> x.key !in KeySet(s) && UniqueKeys(s)
  {
    var q := [x] + s;
    InKeySet(s, x.key);
    assert q[1..] == s;
    if UniqueKeys(q) {
      forall i, j | 0 <= i < j < |s| ensures s[i].key != s[j].key {
        assert q[i + 1] == s[i] && q[j + 1] == s[j];
      }
      forall i | 0 <= i < |s| ensures s[i].key != x.key {
        assert q[0] == x && q[i + 1] == s[i];
      }
    }
  }

  /** `QueueLength` is the number of distinct keys: in a key-unique queue that is its length. */
  lemma {:induction false} UniqueCount(q: seq<Item>)
    requires UniqueKeys(q)
    ensures |KeySet(q)| == |q|
  {
    if q != [] {
      assert q == [q[0]] + q[1..];
      UniqueCons(q[0], q[1..]);
      UniqueCount(q[1..]);
    }
  }

  /** A key already present: its first item gets `data` at the end of its fragments, and nothing else changes. */
  lemma {:induction false} ConsolidateExisting(q: seq<Item>, key: string, data: Fragment, i: nat)
    requires i < |q| && q[i].key == key
    requires forall j :: 0 <= j < i ==> q[j].key != key
    ensures Consolidate(q, key, data) == q[i := Item(key, q[i].data + [data])]
  {
    if i == 0 {
      assert [Item(key, q[0].data + [data])] + q[1..] == q[0 := Item(key, q[0].data + [data])];
    } else {
      ConsolidateExisting(q[1..], key, data, i - 1);
      assert [q[0]] + q[1..][i - 1 := Item(key, q[i].data + [data])] == q[i := Item(key, q[i].data + [data])];
    }
  }

  /** A key not present: a new one-fragment item is appended and the earlier items are kept. */
  lemma {:induction false} ConsolidateNew(q: seq<Item>, key: string, data: Fragment)
    requires key !in KeySet(q)
    ensures Consolidate(q, key, data) == q + [Item(key, [data])]
  {
    if q != [] {
      ConsolidateNew(q[1..], key, data);
      assert [q[0]] + (q[1..] + [Item(key, [data])]) == q + [Item(key, [data])];
    }
  }

  /** The queue grows by one exactly when the key is new. */
  lemma {:induction false} ConsolidateLength(q: seq<Item>, key: string, data: Fragment)
    ensures |Consolidate(q, key, data)| == if key in KeySet(q) then |q| else |q| + 1
  {
    if q != [] && q[0].key != key {
      ConsolidateLength(q[1..], key, data);
    }
  }

  /** Consolidation keeps keys unique and every item non-empty. */
  lemma {:induction false} ConsolidateKeepsInvariant(q: seq<Item>, key: string, data: Fragment)
    requires UniqueKeys(q) && NonEmptyItems(q)
    ensures UniqueKeys(Consolidate(q, key, data)) && NonEmptyItems(Consolidate(q, key, data))
  {
    var r := Consolidate(q, key, data);
    if q == [] {
    } else {
      assert q == [q[0]] + q[1..];
      UniqueCons(q[0], q[1..]);
      if q[0].key == key {
        UniqueCons(Item(key, q[0].data + [data]), q[1..]);
        assert r[1..] == q[1..];
      } else {
        var t := Consolidate(q[1..], key, data);
        assert NonEmptyItems(q[1..]) by {
          forall i | 0 <= i < |q[1..]| ensures q[1..][i].data != [] { assert q[1..][i] == q[i + 1]; }
        }
        ConsolidateKeepsInvariant(q[1..], key, data);
        UniqueCons(q[0], t);
        assert r == [q[0]] + t;
      }
    }
  }

  /** The fragments under `key` gain `data` at the end; those under every other key are unchanged. */
  lemma {:induction false} ConsolidateFragments(q: seq<Item>, key: string, data: Fragment, k: string)
    ensures Fragments(Consolidate(q, key, data), k) == if k == key then Fragments(q, k) + [data] else Fragments(q, k)
  {
    if q != [] && q[0].key != key {
      ConsolidateFragments(q[1..], key, data, k);
    }
  }

  /** The key order changes only by appending a key that was absent. */
  lemma {:induction false} ConsolidateKeys(q: seq<Item>, key: string, data: Fragment)
    ensures Keys(Consolidate(q, key, data)) == if key in KeySet(q) then Keys(q) else Keys(q) + [key]
  {
    if q != [] && q[0].key != key {
      ConsolidateKeys(q[1..], key, data);
    }
  }

  /** The queue that a run of submissions builds from an empty queue, with no flush between them. */
  function Replay(subs: seq<Submission>): seq<Item>
  {
    if subs == [] then []
    else
      var s := subs[|subs| - 1];
      Consolidate(Replay(subs[..|subs| - 1]), s.key, s.data)
  }

  /** The fragments submitted under `key`, in call order. */
  function Submitted(subs: seq<Submission>, key: string): seq<Fragment>
  {
    if subs == [] then []
    else
      var s := subs[|subs| - 1];
      Submitted(subs[..|subs| - 1], key) + if s.key == key then [s.data] else []
  }

  /** The distinct keys of a run of submissions, each at the place of its first arrival. */
  function FirstArrivals(subs: seq<Submission>): seq<string>
  {
    if subs == [] then []
    else
      var s := subs[|subs| - 1];
      var earlier := FirstArrivals(subs[..|subs| - 1]);
      if s.key in earlier then earlier else earlier + [s.key]
  }

  /** The set of keys ever submitted. */
  function SubmittedKeys(subs: seq<Submission>): set<string>
  {
    set s | s in subs :: s.key
  }

  /** What submissions build is key-unique and has no empty item. */
  lemma {:induction false} ReplayInvariant(subs: seq<Submission>)
    ensures UniqueKeys(Replay(subs)) && NonEmptyItems(Replay(subs))
  {
    if subs != [] {
      var s := subs[|subs| - 1];
      ReplayInvariant(subs[..|subs| - 1]);
      ConsolidateKeepsInvariant(Replay(subs[..|subs| - 1]), s.key, s.data);
    }
  }

  /** Every key's item holds exactly the fragments submitted under it, in call order. */
  lemma {:induction false} ReplayFragments(subs: seq<Submission>, key: string)
    ensures Fragments(Replay(subs), key) == Submitted(subs, key)
  {
    if subs != [] {
      var s := subs[|subs| - 1];
      ReplayFragments(subs[..|subs| - 1], key);
      ConsolidateFragments(Replay(subs[..|subs| - 1]), s.key, s.data, key);
    }
  }

  /** The queue lists each submitted key once, in first-arrival order. */
  lemma {:induction false} ReplayKeys(subs: seq<Submission>)
    ensures Keys(Replay(subs)) == FirstArrivals(subs)
  {
    if subs != [] {
      var s := subs[|subs| - 1];
      var earlier := Replay(subs[..|subs| - 1]);
      ReplayKeys(subs[..|subs| - 1]);
      ConsolidateKeys(earlier, s.key, s.data);
      InKeys(earlier, s.key);
    }
  }

  /** The keys present are exactly the keys submitted. */
  lemma {:induction false} ReplayKeySet(subs: seq<Submission>)
    ensures KeySet(Replay(subs)) == SubmittedKeys(subs)
  {
    if subs != [] {
      var init, s := subs[..|subs| - 1], subs[|subs| - 1];
      ReplayKeySet(init);
      assert subs == init + [s];
      assert SubmittedKeys(subs) == SubmittedKeys(init) + {s.key};
    }
  }

  /** The number of items is the number of distinct keys submitted. */
  lemma ReplayLength(subs: seq<Submission>)
    ensures |Replay(subs)| == |SubmittedKeys(subs)|
  {
    ReplayInvariant(subs);
    ReplayKeySet(subs);
    UniqueCount(Replay(subs));
  }
}
