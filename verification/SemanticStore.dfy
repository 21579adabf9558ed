/** The semantic cache: a map of live entries, a recency list, and a search graph
    that keeps orphaned nodes until it is rebuilt. Vectors are opaque and their
    similarity is a parameter; Search may return any graph nodes in any order. */
module SemanticStore {
  import opened Wrappers

  // A random identifier, fresh for every stored response.
  datatype Key = Key(uuid: string)

  type Vector = seq<real>

  datatype Query = Query(tenant: string, model: string, tools: string, format: string, vector: Vector)

  datatype Entry = Entry(response: string, tenant: string, model: string, tools: string, format: string,
                         vector: Vector, expiresAt: int)

  function NewEntry(q: Query, response: string, expiresAt: int): Entry {
    Entry(response, q.tenant, q.model, q.tools, q.format, q.vector, expiresAt)
  }

  // A key with its entry, as the abstract least-recently-used list holds it.
  datatype Item = Item(key: Key, entry: Entry)

  datatype Node = Node(key: Key, vector: Vector)

  type Similarity = (Vector, Vector) -> real

  // The guard rail: similarity alone never suffices.
  predicate Matches(e: Entry, q: Query, now: int) {
    now <= e.expiresAt && e.tenant == q.tenant && e.model == q.model && e.tools == q.tools && e.format == q.format
  }

  function Prefix<T>(s: seq<T>, n: int): seq<T>
    requires n >= 0
  {
    if |s| <= n then s else s[..n]
  }

  // A full scan: the first result that is live, similar enough and passes the guard rail.
  function FirstMatch(entries: map<Key, Entry>, sim: Similarity, threshold: real, q: Query, now: int,
                      nodes: seq<Node>): Option<Node> {
    if nodes == [] then None
    else if && nodes[0].key in entries && sim(q.vector, nodes[0].vector) >= threshold
            && Matches(entries[nodes[0].key], q, now)
    then Some(nodes[0])
    else FirstMatch(entries, sim, threshold, q, now, nodes[1..])
  }

  ghost predicate SortedBySimilarity(sim: Similarity, v: Vector, nodes: seq<Node>) {
    forall i, j | 0 <= i < j < |nodes| :: sim(v, nodes[i].vector) >= sim(v, nodes[j].vector)
  }

  /** The first match is a live, unexpired, guard-rail-matching entry above the
      threshold, and there is none exactly when no result qualifies. */
  lemma {:induction false} FirstMatchQualifies(entries: map<Key, Entry>, sim: Similarity, threshold: real, q: Query,
      now: int, nodes: seq<Node>)
    ensures
      var m := FirstMatch(entries, sim, threshold, q, now, nodes);
      && (m.Some? ==> m.value in nodes && m.value.key in entries && sim(q.vector, m.value.vector) >= threshold
                      && Matches(entries[m.value.key], q, now))
      && (m.None? ==>
            forall n | n in nodes && n.key in entries && Matches(entries[n.key], q, now) ::
              sim(q.vector, n.vector) < threshold)
  {
    if nodes != [] {
      FirstMatchQualifies(entries, sim, threshold, q, now, nodes[1..]);
      assert nodes == [nodes[0]] + nodes[1..];
    }
  }

  /** Over results sorted by decreasing similarity the first match is the best one. */
  lemma {:induction false} FirstMatchIsNearest(entries: map<Key, Entry>, sim: Similarity, threshold: real, q: Query,
      now: int, nodes: seq<Node>)
    requires SortedBySimilarity(sim, q.vector, nodes) && FirstMatch(entries, sim, threshold, q, now, nodes).Some?
    ensures forall n | n in nodes && n.key in entries && Matches(entries[n.key], q, now) ::
              sim(q.vector, n.vector) <= sim(q.vector, FirstMatch(entries, sim, threshold, q, now, nodes).value.vector)
  {
    var m := FirstMatch(entries, sim, threshold, q, now, nodes).value;
    forall n | n in nodes && n.key in entries && Matches(entries[n.key], q, now)
      ensures sim(q.vector, n.vector) <= sim(q.vector, m.vector)
    {
      var i :| 0 <= i < |nodes| && nodes[i] == n;
      if m != nodes[0] {
        if i == 0 {
          assert sim(q.vector, n.vector) < threshold;
          FirstMatchQualifies(entries, sim, threshold, q, now, nodes);
        } else {
          assert nodes[1..][i - 1] == n;
          FirstMatchIsNearest(entries, sim, threshold, q, now, nodes[1..]);
        }
      }
    }
  }

  lemma {:induction false} NothingBelowThreshold(entries: map<Key, Entry>, sim: Similarity, threshold: real,
      q: Query, now: int, nodes: seq<Node>)
    requires forall i | 0 <= i < |nodes| :: sim(q.vector, nodes[i].vector) < threshold
    ensures FirstMatch(entries, sim, threshold, q, now, nodes) == None
  {
    if nodes != [] {
      NothingBelowThreshold(entries, sim, threshold, q, now, nodes[1..]);
    }
  }

  // The list with its entries; Paired makes every lookup succeed.
  function ItemsOf(lru: seq<Key>, entries: map<Key, Entry>): (r: seq<Item>)
    requires forall i | 0 <= i < |lru| :: lru[i] in entries
    ensures |r| == |lru| && forall i | 0 <= i < |lru| :: r[i] == Item(lru[i], entries[lru[i]])
  {
    seq(|lru|, i requires 0 <= i < |lru| => Item(lru[i], entries[lru[i]]))
  }

  // The recency list names each live entry exactly once.
  ghost predicate Paired(lru: seq<Key>, entries: map<Key, Entry>) {
    multiset(lru) == multiset(entries.Keys)
  }

  // The graph has every live vector unchanged.
  ghost predicate Indexed(entries: map<Key, Entry>, graph: map<Key, Vector>) {
    forall k | k in entries :: k in graph && graph[k] == entries[k].vector
  }

  lemma PairedKeys(lru: seq<Key>, entries: map<Key, Entry>)
    requires Paired(lru, entries)
    ensures |lru| == |entries| && forall k :: k in lru <==> k in entries
  {
    assert |multiset(lru)| == |multiset(entries.Keys)|;
    forall k ensures k in lru <==> k in entries {
      assert k in lru <==> k in multiset(lru);
    }
  }

  lemma AddPairs(lru: seq<Key>, entries: map<Key, Entry>, key: Key, e: Entry)
    requires Paired(lru, entries) && key !in entries
    ensures Paired([key] + lru, entries[key := e])
  {
    assert entries[key := e].Keys == entries.Keys + {key};
    assert multiset(entries.Keys + {key}) == multiset(entries.Keys) + multiset{key};
  }

  // The items of a paired list and map.
  ghost function Live(lru: seq<Key>, entries: map<Key, Entry>): (r: seq<Item>)
    requires Paired(lru, entries)
    ensures |r| == |lru| == |entries|
    ensures forall i | 0 <= i < |lru| :: lru[i] in entries && r[i] == Item(lru[i], entries[lru[i]])
  {
    PairedKeys(lru, entries);
    ItemsOf(lru, entries)
  }

  lemma AddLive(lru: seq<Key>, entries: map<Key, Entry>, key: Key, e: Entry)
    requires Paired(lru, entries) && key !in entries && Paired([key] + lru, entries[key := e])
    ensures Live([key] + lru, entries[key := e]) == [Item(key, e)] + Live(lru, entries)
  {
  }

  lemma EvictPairs(lru: seq<Key>, entries: map<Key, Entry>)
    requires Paired(lru, entries) && lru != []
    ensures Paired(lru[..|lru| - 1], entries - {lru[|lru| - 1]})
  {
    var key := lru[|lru| - 1];
    assert lru == lru[..|lru| - 1] + [key];
    assert key in multiset(lru);
    assert (entries - {key}).Keys == entries.Keys - {key};
    assert multiset(entries.Keys - {key}) == multiset(entries.Keys) - multiset{key};
  }

  lemma EvictLive(lru: seq<Key>, entries: map<Key, Entry>)
    requires Paired(lru, entries) && lru != [] && Paired(lru[..|lru| - 1], entries - {lru[|lru| - 1]})
    ensures Live(lru[..|lru| - 1], entries - {lru[|lru| - 1]}) == Live(lru, entries)[..|lru| - 1]
  {
  }

  lemma FrontPairs(lru: seq<Key>, entries: map<Key, Entry>, i: nat)
    requires Paired(lru, entries) && i < |lru|
    ensures Paired(ToFront(lru, i), entries)
  {
    assert lru == lru[..i] + [lru[i]] + lru[i + 1..];
  }

  lemma FrontLive(lru: seq<Key>, entries: map<Key, Entry>, i: nat)
    requires Paired(lru, entries) && i < |lru| && Paired(ToFront(lru, i), entries)
    ensures Live(ToFront(lru, i), entries) == ToFront(Live(lru, entries), i)
  {
  }

  // Element i moved to the front, the others in order.
  function ToFront<T>(s: seq<T>, i: nat): seq<T>
    requires i < |s|
  {
    [s[i]] + s[..i] + s[i + 1..]
  }

  function Reversed<T>(s: seq<T>): seq<T> {
    if s == [] then [] else [s[|s| - 1]] + Reversed(s[..|s| - 1])
  }

  // The items of a saved file that have not expired.
  function Unexpired(saved: seq<Item>, now: int): seq<Item> {
    if saved == [] then []
    else Unexpired(saved[..|saved| - 1], now)
         + if now <= saved[|saved| - 1].entry.expiresAt then [saved[|saved| - 1]] else []
  }

  function Restored(entries: map<Key, Entry>, items: seq<Item>): map<Key, Entry> {
    if items == [] then entries
    else Restored(entries, items[..|items| - 1])[items[|items| - 1].key := items[|items| - 1].entry]
  }

  // The file holds each live entry once, in whatever order the map was walked.
  ghost predicate Lists(saved: seq<Item>, entries: map<Key, Entry>) {
    && (forall i, j | 0 <= i < j < |saved| :: saved[i].key != saved[j].key)
    && (forall i | 0 <= i < |saved| :: saved[i].key in entries && entries[saved[i].key] == saved[i].entry)
    && (forall k | k in entries :: exists i :: 0 <= i < |saved| && saved[i].key == k)
  }

  // The entry a file holds for a key, unless it has expired.
  function Saved(saved: seq<Item>, now: int, k: Key): Option<Entry> {
    if saved == [] then None
    else if saved[|saved| - 1].key == k && now <= saved[|saved| - 1].entry.expiresAt then Some(saved[|saved| - 1].entry)
    else Saved(saved[..|saved| - 1], now, k)
  }

  lemma {:induction false} RestoredIsSaved(saved: seq<Item>, now: int, k: Key)
    ensures
      var restored := Restored(map[], Unexpired(saved, now));
      Saved(saved, now, k) == if k in restored then Some(restored[k]) else None
  {
    if saved != [] {
      var front, last := saved[..|saved| - 1], saved[|saved| - 1];
      RestoredIsSaved(front, now, k);
      assert Unexpired(front, now) + [] == Unexpired(front, now);
      assert (Unexpired(front, now) + [last])[..|Unexpired(front, now)|] == Unexpired(front, now);
    }
  }

  lemma {:induction false} SavedFinds(saved: seq<Item>, now: int, k: Key)
    ensures Saved(saved, now, k).Some? ==>
              exists i ::
                && 0 <= i < |saved| && saved[i].key == k && saved[i].entry == Saved(saved, now, k).value
                && now <= saved[i].entry.expiresAt
    ensures Saved(saved, now, k).None? ==>
              forall i | 0 <= i < |saved| && saved[i].key == k :: now > saved[i].entry.expiresAt
  {
    if saved != [] {
      SavedFinds(saved[..|saved| - 1], now, k);
    }
  }

  /** Saving and loading into an empty store brings back exactly the entries that
      have not expired meanwhile; the recency order is not kept. */
  lemma SaveLoadRoundTrip(entries: map<Key, Entry>, saved: seq<Item>, now: int)
    requires Lists(saved, entries)
    ensures Restored(map[], Unexpired(saved, now)) == map k | k in entries && now <= entries[k].expiresAt :: entries[k]
  {
    var kept := map k | k in entries && now <= entries[k].expiresAt :: entries[k];
    forall k ensures Saved(saved, now, k) == if k in kept then Some(kept[k]) else None {
      SavedFinds(saved, now, k);
    }
    SameLookups(saved, now, kept);
  }

  lemma LookupsDecide(a: map<Key, Entry>, b: map<Key, Entry>)
    requires forall k :: (if k in a then Some(a[k]) else None) == if k in b then Some(b[k]) else None
    ensures a == b
  {
    assert forall k :: k in a <==> k in b;
  }

  lemma SameLookups(saved: seq<Item>, now: int, kept: map<Key, Entry>)
    requires forall k :: Saved(saved, now, k) == if k in kept then Some(kept[k]) else None
    ensures Restored(map[], Unexpired(saved, now)) == kept
  {
    var restored := Restored(map[], Unexpired(saved, now));
    forall k ensures (if k in restored then Some(restored[k]) else None) == if k in kept then Some(kept[k]) else None {
      RestoredIsSaved(saved, now, k);
    }
    LookupsDecide(restored, kept);
  }

  class Store {
    const maxVectors: int
    const ttl: int
    const threshold: real
    const sim: Similarity
    var entries: map<Key, Entry>
    var lru: seq<Key>              // front = most recently used
    var graph: map<Key, Vector>    // live and orphaned nodes

    // The recency list and the entry map are in bijection, every live vector is in
    // the graph as it was stored, and orphans are bounded.
    ghost predicate Valid()
      reads this
    {
      && maxVectors >= 1 && Paired(lru, entries) && Indexed(entries, graph)
      && |graph| - |entries| <= maxVectors
    }

    // The abstract cache: items from most to least recently set or hit.
    ghost function Items(): (r: seq<Item>)
      requires Valid()
      reads this
      ensures |r| == |lru| == |entries|
    {
      Live(lru, entries)
    }

    constructor (maxVectors: int, threshold: real, ttl: int, sim: Similarity)
      requires maxVectors >= 1
      ensures Valid() && Items() == [] && graph == map[]
      ensures this.maxVectors == maxVectors && this.threshold == threshold && this.ttl == ttl && this.sim == sim
    {
      this.maxVectors, this.threshold, this.ttl, this.sim := maxVectors, threshold, ttl, sim;
      entries, lru, graph := map[], [], map[];
    }

    /** A lookup over whatever nodes Search returned: a hit is a qualifying live
        entry and becomes the most recent; over sorted results the early stop gives
        the answer of the full scan. */
    method Get(q: Query, now: int, nodes: seq<Node>) returns (hit: Option<Node>)
      requires Valid()
      modifies `lru
      ensures Valid()
      ensures hit.None? ==> Items() == old(Items())
      ensures hit.Some? ==>
                && hit.value in nodes && hit.value.key in entries && sim(q.vector, hit.value.vector) >= threshold
                && Matches(entries[hit.value.key], q, now)
                && exists i: nat ::
                     && i < |old(Items())| && old(Items())[i].key == hit.value.key
                     && Items() == ToFront(old(Items()), i)
      ensures hit.Some? && (forall n | n in nodes :: n.key in graph && graph[n.key] == n.vector) ==>
                sim(q.vector, entries[hit.value.key].vector) >= threshold
      ensures SortedBySimilarity(sim, q.vector, nodes) ==> hit == FirstMatch(entries, sim, threshold, q, now, nodes)
    {
      if |entries| == 0 {
        NoEntriesNoMatch(entries, sim, threshold, q, now, nodes);
        return None;
      }
      for n := 0 to |nodes|
        invariant FirstMatch(entries, sim, threshold, q, now, nodes)
                    == FirstMatch(entries, sim, threshold, q, now, nodes[n..])
      {
        var node := nodes[n];
        if node.key !in entries {
          continue;
        }
        var e := entries[node.key];
        if sim(q.vector, node.vector) < threshold {
          if SortedBySimilarity(sim, q.vector, nodes) {
            NothingBelowThreshold(entries, sim, threshold, q, now, nodes[n..]);
          }
          return None;
        }
        if now > e.expiresAt {
          continue;
        }
        if e.tenant != q.tenant || e.model != q.model || e.tools != q.tools || e.format != q.format {
          continue;
        }
        MoveToFront(node.key);
        return Some(node);
      }
      return None;
    }

    method MoveToFront(key: Key)
      requires Valid() && key in entries
      modifies `lru
      ensures Valid()
      ensures exists i: nat :: i < |old(Items())| && old(Items())[i].key == key && Items() == ToFront(old(Items()), i)
    {
      var i := 0;
      PairedKeys(lru, entries);
      while lru[i] != key
        invariant i < |lru| && key !in lru[..i]
        decreases |lru| - i
      {
        i := i + 1;
      }
      FrontPairs(lru, entries, i);
      FrontLive(lru, entries, i);
      lru := ToFront(lru, i);
      assert old(Items())[i].key == key;
    }

    /** Storing a response: it becomes the most recent item and the least recent ones
        make room, even after an oversized load; the graph never holds more than
        twice the limit. */
    method Set(q: Query, response: string, ttlOverride: Option<int>, key: Key, now: int)
      requires Valid() && key !in entries
      modifies this
      ensures Valid() && |entries| <= maxVectors && |graph| <= 2 * maxVectors
      ensures
        var lifetime := if ttlOverride.Some? then ttlOverride.value else ttl;
        Items() == Prefix([Item(key, NewEntry(q, response, now + lifetime))] + old(Items()), maxVectors)
    {
      var lifetime := if ttlOverride.Some? then ttlOverride.value else ttl;
      Put(key, NewEntry(q, response, now + lifetime));
    }

    method Put(key: Key, e: Entry)
      requires Valid() && key !in entries
      modifies this
      ensures Valid() && |entries| <= maxVectors && |graph| <= 2 * maxVectors
      ensures Items() == Prefix([Item(key, e)] + old(Items()), maxVectors)
    {
      Add(key, e);
      EvictExcess([Item(key, e)] + old(Items()));
    }

    method EvictExcess(ghost grown: seq<Item>)
      requires Valid() && Items() == grown
      modifies this
      ensures Valid() && |entries| <= maxVectors && |graph| <= 2 * maxVectors
      ensures Items() == Prefix(grown, maxVectors)
    {
      while |entries| > maxVectors
        invariant Valid()
        invariant |Items()| <= |grown| && Items() == grown[..|Items()|]
        invariant |Items()| >= maxVectors || |Items()| == |grown|
        decreases |entries|
      {
        EvictOldest();
      }
    }

    method Add(key: Key, e: Entry)
      requires Valid() && key !in entries
      modifies this
      ensures Valid() && Items() == [Item(key, e)] + old(Items())
      ensures entries == old(entries)[key := e] && graph == old(graph)[key := e.vector]
    {
      AddPairs(lru, entries, key, e);
      AddLive(lru, entries, key, e);
      lru := [key] + lru;
      entries := entries[key := e];
      graph := graph[key := e.vector];
      assert graph.Keys == old(graph).Keys + {key};
    }

    /** The least recently set or hit item goes; its node may stay behind as an orphan. */
    method EvictOldest()
      requires Valid() && entries != map[]
      modifies this
      ensures Valid() && Items() == old(Items())[..|old(entries)| - 1]
    {
      EvictPairs(lru, entries);
      EvictLive(lru, entries);
      var key := lru[|lru| - 1];
      lru := lru[..|lru| - 1];
      entries := entries - {key};
      RebuildGraphIfNeeded();
    }

    method RebuildGraphIfNeeded()
      requires maxVectors >= 1 && Indexed(entries, graph)
      modifies `graph
      ensures Indexed(entries, graph) && |graph| - |entries| <= maxVectors
    {
      if |graph| - |entries| <= maxVectors {
        return;
      }
      var rebuilt: map<Key, Vector> := map[];
      var todo := entries.Keys;
      while todo != {}
        invariant todo <= entries.Keys && rebuilt.Keys == entries.Keys - todo
        invariant forall k | k in rebuilt :: rebuilt[k] == entries[k].vector
        decreases todo
      {
        var k :| k in todo;
        rebuilt := rebuilt[k := entries[k].vector];
        todo := todo - {k};
      }
      graph := rebuilt;
      assert graph.Keys == entries.Keys;
    }

    method SaveToDisk() returns (saved: seq<Item>)
      requires Valid()
      ensures Lists(saved, entries)
    {
      saved := [];
      var todo := entries.Keys;
      while todo != {}
        invariant todo <= entries.Keys
        invariant forall i, j | 0 <= i < j < |saved| :: saved[i].key != saved[j].key
        invariant forall i | 0 <= i < |saved| :: saved[i].key in entries && entries[saved[i].key] == saved[i].entry
        invariant forall i | 0 <= i < |saved| :: saved[i].key !in todo
        invariant forall k | k in entries && k !in todo :: exists i :: 0 <= i < |saved| && saved[i].key == k
        decreases todo
      {
        var k :| k in todo;
        ghost var before := saved;
        saved := saved + [Item(k, entries[k])];
        todo := todo - {k};
        assert saved[|before|].key == k;
        forall j | j in entries && j !in todo ensures exists i :: 0 <= i < |saved| && saved[i].key == j {
          if j != k {
            var i :| 0 <= i < |before| && before[i].key == j;
            assert saved[i].key == j;
          }
        }
      }
    }

    /** Loading puts every unexpired item in front, with no regard for the limit. The
        store stays consistent exactly when each key is new when its turn comes,
        as in a file the store itself saved; a key met again is listed twice. */
    method LoadFromDisk(saved: seq<Item>, now: int)
      requires Valid()
      modifies this
      ensures
        var u := Unexpired(saved, now);
        && lru == LoadedKeys(u) + old(lru) && entries == Restored(old(entries), u) && graph == Regraphed(old(graph), u)
        && (Valid() <==> NewKeys(u, old(entries)))
        && (Valid() ==> Items() == Reversed(u) + old(Items()))
    {
      assert LoadedKeys([]) + lru == lru;
      for i := 0 to |saved|
        invariant lru == LoadedKeys(Unexpired(saved[..i], now)) + old(lru)
        invariant entries == Restored(old(entries), Unexpired(saved[..i], now))
        invariant graph == Regraphed(old(graph), Unexpired(saved[..i], now))
      {
        OneMoreUnexpired(saved, i, now);
        if now <= saved[i].entry.expiresAt {
          OneMoreLoaded(old(lru), old(entries), old(graph), Unexpired(saved[..i], now), saved[i]);
          lru := [saved[i].key] + lru;
          entries := entries[saved[i].key := saved[i].entry];
          graph := graph[saved[i].key := saved[i].entry.vector];
        }
      }
      assert saved[..|saved|] == saved;
      LoadConsistent(old(lru), old(entries), old(graph), Unexpired(saved, now));
    }
  }

  // The keys of loaded items, the last one first.
  function LoadedKeys(items: seq<Item>): seq<Key> {
    if items == [] then [] else [items[|items| - 1].key] + LoadedKeys(items[..|items| - 1])
  }

  function Regraphed(graph: map<Key, Vector>, items: seq<Item>): map<Key, Vector> {
    if items == [] then graph
    else Regraphed(graph, items[..|items| - 1])[items[|items| - 1].key := items[|items| - 1].entry.vector]
  }

  // Every key is new when its turn comes: neither in the store nor earlier in the file.
  ghost predicate NewKeys(items: seq<Item>, entries: map<Key, Entry>) {
    items == [] ||
    (NewKeys(items[..|items| - 1], entries) && items[|items| - 1].key !in Restored(entries, items[..|items| - 1]))
  }

  lemma OneMoreUnexpired(saved: seq<Item>, i: nat, now: int)
    requires i < |saved|
    ensures Unexpired(saved[..i + 1], now)
         == if now <= saved[i].entry.expiresAt then Unexpired(saved[..i], now) + [saved[i]]
            else Unexpired(saved[..i], now)
  {
    assert saved[..i + 1][..i] == saved[..i];
  }

  lemma OneMoreLoaded(lru: seq<Key>, entries: map<Key, Entry>, graph: map<Key, Vector>, u: seq<Item>, x: Item)
    ensures LoadedKeys(u + [x]) + lru == [x.key] + (LoadedKeys(u) + lru)
    ensures Restored(entries, u + [x]) == Restored(entries, u)[x.key := x.entry]
    ensures Regraphed(graph, u + [x]) == Regraphed(graph, u)[x.key := x.entry.vector]
  {
    assert (u + [x])[..|u|] == u;
  }

  // Each load grows the list by one, the map only by a new key.
  lemma {:induction false} LoadCounts(entries: map<Key, Entry>, u: seq<Item>)
    ensures |LoadedKeys(u)| == |u| && |Restored(entries, u)| <= |entries| + |u|
    ensures |Restored(entries, u)| == |entries| + |u| <==> NewKeys(u, entries)
  {
    if u != [] {
      var front, last := u[..|u| - 1], u[|u| - 1];
      LoadCounts(entries, front);
      var before := Restored(entries, front);
      assert before[last.key := last.entry].Keys == before.Keys + {last.key};
    }
  }

  lemma LoadedLast(lru: seq<Key>, entries: map<Key, Entry>, u: seq<Item>)
    requires u != []
    ensures LoadedKeys(u) + lru == [u[|u| - 1].key] + (LoadedKeys(u[..|u| - 1]) + lru)
    ensures Restored(entries, u) == Restored(entries, u[..|u| - 1])[u[|u| - 1].key := u[|u| - 1].entry]
  {
  }

  // One more item in front of a paired list and map.
  lemma AddFront(lru: seq<Key>, entries: map<Key, Entry>, lru': seq<Key>, entries': map<Key, Entry>, x: Item)
    requires Paired(lru, entries) && x.key !in entries && lru' == [x.key] + lru && entries' == entries[x.key := x.entry]
    ensures Paired(lru', entries') && Live(lru', entries') == [x] + Live(lru, entries)
  {
    AddPairs(lru, entries, x.key, x.entry);
    AddLive(lru, entries, x.key, x.entry);
  }

  lemma NothingLoaded(lru: seq<Key>)
    ensures LoadedKeys([]) + lru == lru
  {
  }

  // The list with the loaded keys in front pairs with the restored map.
  ghost predicate Loads(lru: seq<Key>, entries: map<Key, Entry>, u: seq<Item>, lru': seq<Key>,
                        entries': map<Key, Entry>) {
    Paired(lru, entries) && Paired(lru', entries') && Live(lru', entries') == Reversed(u) + Live(lru, entries)
  }

  lemma LoadsOneMore(lru: seq<Key>, entries: map<Key, Entry>, u: seq<Item>, lru1: seq<Key>, entries1: map<Key, Entry>,
                     lru2: seq<Key>, entries2: map<Key, Entry>)
    requires u != [] && Loads(lru, entries, u[..|u| - 1], lru1, entries1) && u[|u| - 1].key !in entries1
    requires lru2 == [u[|u| - 1].key] + lru1 && entries2 == entries1[u[|u| - 1].key := u[|u| - 1].entry]
    ensures Loads(lru, entries, u, lru2, entries2)
  {
    AddFront(lru1, entries1, lru2, entries2, u[|u| - 1]);
    InFront(u[|u| - 1], Reversed(u[..|u| - 1]), Live(lru, entries));
  }

  lemma {:induction false} LoadPairs(lru: seq<Key>, entries: map<Key, Entry>, u: seq<Item>, lru': seq<Key>,
                                     entries': map<Key, Entry>)
    requires Paired(lru, entries) && NewKeys(u, entries)
    requires lru' == LoadedKeys(u) + lru && entries' == Restored(entries, u)
    ensures Loads(lru, entries, u, lru', entries')
  {
    if u == [] {
      NothingLoaded(lru);
      assert [] + Live(lru, entries) == Live(lru, entries);
    } else {
      var front := u[..|u| - 1];
      var lru1, entries1 := LoadedKeys(front) + lru, Restored(entries, front);
      LoadedLast(lru, entries, u);
      LoadPairs(lru, entries, front, lru1, entries1);
      LoadsOneMore(lru, entries, u, lru1, entries1, lru', entries');
    }
  }

  lemma InFront(x: Item, a: seq<Item>, b: seq<Item>)
    ensures [x] + (a + b) == ([x] + a) + b
  {
  }

  lemma {:induction false} LoadIndexes(entries: map<Key, Entry>, graph: map<Key, Vector>, u: seq<Item>)
    requires Indexed(entries, graph) && NewKeys(u, entries)
    ensures Indexed(Restored(entries, u), Regraphed(graph, u))
    ensures |Regraphed(graph, u)| - |Restored(entries, u)| <= |graph| - |entries|
  {
    if u != [] {
      var front, last := u[..|u| - 1], u[|u| - 1];
      LoadIndexes(entries, graph, front);
      var before, nodes := Restored(entries, front), Regraphed(graph, front);
      assert before[last.key := last.entry].Keys == before.Keys + {last.key};
      assert nodes[last.key := last.entry.vector].Keys == nodes.Keys + {last.key};
    }
  }

  lemma LoadConsistent(lru: seq<Key>, entries: map<Key, Entry>, graph: map<Key, Vector>, u: seq<Item>)
    requires Paired(lru, entries) && Indexed(entries, graph)
    ensures Paired(LoadedKeys(u) + lru, Restored(entries, u)) <==> NewKeys(u, entries)
    ensures NewKeys(u, entries) ==>
              && Indexed(Restored(entries, u), Regraphed(graph, u))
              && |Regraphed(graph, u)| - |Restored(entries, u)| <= |graph| - |entries|
              && Live(LoadedKeys(u) + lru, Restored(entries, u)) == Reversed(u) + Live(lru, entries)
  {
    if NewKeys(u, entries) {
      LoadPairs(lru, entries, u, LoadedKeys(u) + lru, Restored(entries, u));
      LoadIndexes(entries, graph, u);
    } else {
      LoadCounts(entries, u);
      PairedKeys(lru, entries);
      if Paired(LoadedKeys(u) + lru, Restored(entries, u)) {
        PairedKeys(LoadedKeys(u) + lru, Restored(entries, u));
      }
    }
  }

  // Loading a file over the store that saved it lists the entry twice.
  lemma ReloadListsTwice(k: Key, e: Entry)
    ensures
      var u, entries := [Item(k, e)], map[k := e];
      Paired([k], entries) && !Paired(LoadedKeys(u) + [k], Restored(entries, u))
  {
    var u, entries := [Item(k, e)], map[k := e];
    assert entries.Keys == {k} && u[..0] == [];
    assert !NewKeys(u, entries);
    LoadConsistent([k], entries, map[k := e.vector], u);
  }

  lemma {:induction false} NoEntriesNoMatch(entries: map<Key, Entry>, sim: Similarity, threshold: real, q: Query,
                                            now: int, nodes: seq<Node>)
    requires |entries| == 0
    ensures FirstMatch(entries, sim, threshold, q, now, nodes) == None
  {
    if nodes != [] {
      NoEntriesNoMatch(entries, sim, threshold, q, now, nodes[1..]);
    }
  }

  // ----- Who finds what -----

  /** A stored response is found again by its own query until it expires, and whoever
      finds it asked for the same tenant, model, tools and format, in time, and gets
      that response. */
  lemma StoredIsFound(entries: map<Key, Entry>, sim: Similarity, threshold: real, nodes: seq<Node>, key: Key, q: Query,
                      response: string, expiresAt: int, other: Query, now: int)
    requires key in entries && entries[key] == NewEntry(q, response, expiresAt)
    ensures Node(key, q.vector) in nodes && sim(q.vector, q.vector) >= threshold && now <= expiresAt ==>
              FirstMatch(entries, sim, threshold, q, now, nodes).Some?
    ensures
      var hit := FirstMatch(entries, sim, threshold, other, now, nodes);
      hit.Some? && hit.value.key == key ==>
        && now <= expiresAt && other.tenant == q.tenant && other.model == q.model
        && other.tools == q.tools && other.format == q.format
        && entries[hit.value.key].response == response && entries[hit.value.key].vector == q.vector
  {
    FirstMatchQualifies(entries, sim, threshold, q, now, nodes);
    FirstMatchQualifies(entries, sim, threshold, other, now, nodes);
  }

  // ----- Recency -----

  // The list runs from the most to the least recently used.
  ghost predicate ByRecency(items: seq<Item>, used: Key -> int) {
    forall i, j | 0 <= i < j < |items| :: used(items[i].key) > used(items[j].key)
  }

  // The same, with one key used just now.
  ghost predicate UsedNow(items: seq<Item>, used: Key -> int, used': Key -> int, key: Key) {
    && (forall k | k != key :: used'(k) == used(k))
    && (forall i | 0 <= i < |items| :: used(items[i].key) < used'(key))
  }

  /** A hit keeps the list in order of last use. */
  lemma HitKeepsRecency(items: seq<Item>, used: Key -> int, used': Key -> int, i: nat)
    requires i < |items| && ByRecency(items, used) && UsedNow(items, used, used', items[i].key)
    ensures ByRecency(ToFront(items, i), used') && multiset(ToFront(items, i)) == multiset(items)
  {
    assert items == items[..i] + [items[i]] + items[i + 1..];
    forall a, b | 0 <= a < b < |items| ensures used'(ToFront(items, i)[a].key) > used'(ToFront(items, i)[b].key) {
      var y := if b <= i then b - 1 else b;
      assert ToFront(items, i)[b] == items[y];
      if a > 0 {
        assert ToFront(items, i)[a] == items[if a <= i then a - 1 else a];
      }
    }
  }

  lemma NewestFirst(items: seq<Item>, used: Key -> int, used': Key -> int, x: Item)
    requires ByRecency(items, used) && UsedNow(items, used, used', x.key)
    requires forall i | 0 <= i < |items| :: items[i].key != x.key
    ensures ByRecency([x] + items, used')
  {
    var all := [x] + items;
    forall i, j | 0 <= i < j < |all| ensures used'(all[i].key) > used'(all[j].key) {
      assert all[j] == items[j - 1];
      if i > 0 {
        assert all[i] == items[i - 1];
      }
    }
  }

  // The first n of a list in order, and the rest, which was used before all of them.
  lemma PrefixIsNewest(items: seq<Item>, used: Key -> int, n: nat, i: nat, j: nat)
    requires ByRecency(items, used)
    ensures ByRecency(Prefix(items, n), used) && |Prefix(items, n)| == if |items| <= n then |items| else n
    ensures i < n && i < |items| ==> Prefix(items, n)[i] == items[i]
    ensures i < |Prefix(items, n)| && n <= j < |items| ==> used(items[j].key) < used(Prefix(items, n)[i].key)
  {
  }

  /** So does storing a response, which is kept in front; the item that was i-th stays
      exactly if there is room for it behind the new one, and what has to go was used
      before everything that stays. */
  lemma SetKeepsRecency(items: seq<Item>, used: Key -> int, used': Key -> int, x: Item, maxVectors: nat, i: nat, j: nat)
    requires maxVectors >= 1 && ByRecency(items, used) && UsedNow(items, used, used', x.key)
    requires forall i | 0 <= i < |items| :: items[i].key != x.key
    ensures
      var kept := Prefix([x] + items, maxVectors);
      && ByRecency(kept, used') && kept[0] == x
      && |kept| == (if |items| + 1 <= maxVectors then |items| + 1 else maxVectors)
      && (i < |items| && i + 1 < maxVectors ==> kept[i + 1] == items[i])
      && (i < |kept| && maxVectors <= j + 1 <= |items| ==> used'(items[j].key) < used'(kept[i].key))
  {
    NewestFirst(items, used, used', x);
    PrefixIsNewest([x] + items, used', maxVectors, i + 1, j + 1);
    PrefixIsNewest([x] + items, used', maxVectors, i, j + 1);
  }

  /** Loading lists the file's items from the last to the first. */
  lemma {:induction false} LastLoadedFirst(items: seq<Item>, i: nat)
    requires i < |items|
    ensures |Reversed(items)| == |items| && Reversed(items)[i] == items[|items| - 1 - i]
  {
    if |items| > 1 {
      LastLoadedFirst(items[..|items| - 1], if i > 0 then i - 1 else 0);
    }
  }
}
