/** The multiset chunk diff by content hash
    (python/pydocs_mcp/application/chunk_multiset_diff.py). */
module ChunkDiff {
  import opened Common
  import opened BranchRecords

  type Pair = (int, Option<ContentHash>)

  datatype ChunkDiffOutcome = ChunkDiffOutcome(removedIds: seq<int>, addedChunks: seq<Chunk>, kept: seq<Assignment>)

  function Min(a: nat, b: nat): nat { if a < b then a else b }

  // ----- the specification: what each hash group is, and the fold over the groups

  /** The ids stored under `h`, in table order. */
  function IdsOf(pairs: seq<Pair>, h: ContentHash): seq<int> {
    if pairs == [] then []
    else
      var (id, hash) := pairs[|pairs| - 1];
      IdsOf(pairs[..|pairs| - 1], h) + if hash == Some(h) then [id] else []
  }

  /** The ids whose hash is NULL or empty: they never match. */
  function Unhashed(pairs: seq<Pair>): seq<int> {
    if pairs == [] then []
    else
      var (id, hash) := pairs[|pairs| - 1];
      Unhashed(pairs[..|pairs| - 1]) + if hash.None? then [id] else []
  }

  function CopiesOf(incoming: seq<Chunk>, h: ContentHash): seq<Chunk> {
    if incoming == [] then []
    else
      var c := incoming[|incoming| - 1];
      CopiesOf(incoming[..|incoming| - 1], h) + if c.hash == h then [c] else []
  }

  /** The stored hashes in order of first appearance: a dict's key order. */
  function HashOrder(pairs: seq<Pair>): seq<ContentHash> {
    if pairs == [] then []
    else
      var earlier, last := HashOrder(pairs[..|pairs| - 1]), pairs[|pairs| - 1].1;
      if last.Some? && last.value !in earlier then earlier + [last.value] else earlier
  }

  function ChunkHashOrder(incoming: seq<Chunk>): seq<ContentHash> {
    if incoming == [] then []
    else
      var earlier, h := ChunkHashOrder(incoming[..|incoming| - 1]), incoming[|incoming| - 1].hash;
      if h !in earlier then earlier + [h] else earlier
  }

  function Zip(chunks: seq<Chunk>, ids: seq<int>): (r: seq<Assignment>)
    requires |chunks| == |ids|
    ensures |r| == |ids|
    ensures forall i :: 0 <= i < |r| ==> r[i] == (chunks[i], ids[i])
  {
    seq(|ids|, i requires 0 <= i < |ids| => (chunks[i], ids[i]))
  }

  /** One hash group: the first min(|ids|, |copies|) pair up, the excess of either side is left. */
  function WithGroup(earlier: ChunkDiffOutcome, ids: seq<int>, copies: seq<Chunk>): ChunkDiffOutcome {
    var keep := Min(|ids|, |copies|);
    ChunkDiffOutcome(
      earlier.removedIds + ids[keep..],
      earlier.addedChunks + copies[keep..],
      earlier.kept + Zip(copies[..keep], ids[..keep]))
  }

  /** The groups of `hashes`, one after another, on top of the NULL-hash removals. */
  function DiffGroups(hashes: seq<ContentHash>, pairs: seq<Pair>, incoming: seq<Chunk>): ChunkDiffOutcome {
    if hashes == [] then ChunkDiffOutcome(Unhashed(pairs), [], [])
    else
      var h := hashes[|hashes| - 1];
      WithGroup(DiffGroups(hashes[..|hashes| - 1], pairs, incoming), IdsOf(pairs, h), CopiesOf(incoming, h))
  }

  /** The chunks of hashes no stored row has, group by group. */
  function Unmatched(hashes: seq<ContentHash>, stored: seq<ContentHash>, incoming: seq<Chunk>): seq<Chunk> {
    if hashes == [] then []
    else
      var h := hashes[|hashes| - 1];
      Unmatched(hashes[..|hashes| - 1], stored, incoming) + if h in stored then [] else CopiesOf(incoming, h)
  }

  function Diff(pairs: seq<Pair>, incoming: seq<Chunk>): ChunkDiffOutcome {
    var groups := DiffGroups(HashOrder(pairs), pairs, incoming);
    groups.(addedChunks := groups.addedChunks + Unmatched(ChunkHashOrder(incoming), HashOrder(pairs), incoming))
  }

  // ----- the imperative form, loop for loop

  lemma HashOrderSnoc(pairs: seq<Pair>, last: Pair)
    ensures HashOrder(pairs + [last])
            == if last.1.Some? && last.1.value !in HashOrder(pairs) then HashOrder(pairs) + [last.1.value] else HashOrder(pairs)
  {
    assert (pairs + [last])[..|pairs|] == pairs;
  }

  lemma IdsOfSnoc(pairs: seq<Pair>, id: int, hash: Option<ContentHash>, h: ContentHash)
    ensures IdsOf(pairs + [(id, hash)], h) == if hash == Some(h) then IdsOf(pairs, h) + [id] else IdsOf(pairs, h)
  {
    assert (pairs + [(id, hash)])[..|pairs|] == pairs;
  }

  ghost predicate GroupsIds(grouped: map<ContentHash, seq<int>>, pairs: seq<Pair>) {
    forall h :: IdsOf(pairs, h) == if h in grouped then grouped[h] else []
  }

  lemma GroupsOneMore(grouped: map<ContentHash, seq<int>>, pairs: seq<Pair>, id: int, hash: Option<ContentHash>)
    requires GroupsIds(grouped, pairs)
    ensures hash.None? ==> GroupsIds(grouped, pairs + [(id, hash)])
    ensures hash.Some? ==>
              GroupsIds(grouped[hash.value := (if hash.value in grouped then grouped[hash.value] else []) + [id]], pairs + [(id, hash)])
  {
    forall h ensures IdsOf(pairs + [(id, hash)], h) == if hash == Some(h) then IdsOf(pairs, h) + [id] else IdsOf(pairs, h) {
      IdsOfSnoc(pairs, id, hash, h);
    }
  }

  /** A dict of lists keeps its keys in insertion order: the order beside the map. */
  method IdsByHash(pairs: seq<Pair>) returns (order: seq<ContentHash>, grouped: map<ContentHash, seq<int>>)
    ensures order == HashOrder(pairs) && grouped.Keys == Elems(order) && GroupsIds(grouped, pairs)
  {
    order, grouped := [], map[];
    for i := 0 to |pairs|
      invariant order == HashOrder(pairs[..i]) && grouped.Keys == Elems(order) && GroupsIds(grouped, pairs[..i])
    {
      var (id, hash) := pairs[i];
      assert pairs[..i + 1] == pairs[..i] + [(id, hash)];
      GroupsOneMore(grouped, pairs[..i], id, hash);
      HashOrderSnoc(pairs[..i], (id, hash));
      if hash.Some? {
        var h := hash.value;
        if h in grouped {
          grouped := grouped[h := grouped[h] + [id]];
        } else {
          ElemsSnoc(order, h);
          assert [id] == [] + [id];
          order, grouped := order + [h], grouped[h := [id]];
        }
      }
    }
    assert pairs[..|pairs|] == pairs;
  }

  lemma ChunkHashOrderSnoc(incoming: seq<Chunk>, c: Chunk)
    ensures ChunkHashOrder(incoming + [c])
            == if c.hash !in ChunkHashOrder(incoming) then ChunkHashOrder(incoming) + [c.hash] else ChunkHashOrder(incoming)
  {
    assert (incoming + [c])[..|incoming|] == incoming;
  }

  lemma CopiesOfSnoc(incoming: seq<Chunk>, c: Chunk, h: ContentHash)
    ensures CopiesOf(incoming + [c], h) == if c.hash == h then CopiesOf(incoming, h) + [c] else CopiesOf(incoming, h)
  {
    assert (incoming + [c])[..|incoming|] == incoming;
  }

  ghost predicate GroupsChunks(grouped: map<ContentHash, seq<Chunk>>, incoming: seq<Chunk>) {
    forall h :: CopiesOf(incoming, h) == if h in grouped then grouped[h] else []
  }

  lemma ChunkGroupsOneMore(grouped: map<ContentHash, seq<Chunk>>, incoming: seq<Chunk>, c: Chunk)
    requires GroupsChunks(grouped, incoming)
    ensures GroupsChunks(grouped[c.hash := (if c.hash in grouped then grouped[c.hash] else []) + [c]], incoming + [c])
  {
    forall h ensures CopiesOf(incoming + [c], h) == if c.hash == h then CopiesOf(incoming, h) + [c] else CopiesOf(incoming, h) {
      CopiesOfSnoc(incoming, c, h);
    }
  }

  method ChunksByHash(incoming: seq<Chunk>) returns (order: seq<ContentHash>, grouped: map<ContentHash, seq<Chunk>>)
    ensures order == ChunkHashOrder(incoming) && grouped.Keys == Elems(order) && GroupsChunks(grouped, incoming)
  {
    order, grouped := [], map[];
    for i := 0 to |incoming|
      invariant order == ChunkHashOrder(incoming[..i]) && grouped.Keys == Elems(order) && GroupsChunks(grouped, incoming[..i])
    {
      var c := incoming[i];
      assert incoming[..i + 1] == incoming[..i] + [c];
      ChunkGroupsOneMore(grouped, incoming[..i], c);
      ChunkHashOrderSnoc(incoming[..i], c);
      if c.hash in grouped {
        grouped := grouped[c.hash := grouped[c.hash] + [c]];
      } else {
        ElemsSnoc(order, c.hash);
        assert [c] == [] + [c];
        order, grouped := order + [c.hash], grouped[c.hash := [c]];
      }
    }
    assert incoming[..|incoming|] == incoming;
  }

  method NullHashIds(pairs: seq<Pair>) returns (removed: seq<int>)
    ensures removed == Unhashed(pairs)
  {
    removed := [];
    for i := 0 to |pairs|
      invariant removed == Unhashed(pairs[..i])
    {
      assert pairs[..i + 1][..i] == pairs[..i];
      if pairs[i].1.None? {
        removed := removed + [pairs[i].0];
      }
    }
    assert pairs[..|pairs|] == pairs;
  }

  /** The stored groups, one after another. */
  method DiffStored(order: seq<ContentHash>, existing: map<ContentHash, seq<int>>, wanted: map<ContentHash, seq<Chunk>>, removed: seq<int>,
                    ghost pairs: seq<Pair>, ghost incoming: seq<Chunk>)
    returns (outcome: ChunkDiffOutcome)
    requires existing.Keys == Elems(order) && removed == Unhashed(pairs)
    requires GroupsIds(existing, pairs) && GroupsChunks(wanted, incoming)
    ensures outcome == DiffGroups(order, pairs, incoming)
  {
    outcome := ChunkDiffOutcome(removed, [], []);
    for i := 0 to |order|
      invariant outcome == DiffGroups(order[..i], pairs, incoming)
    {
      assert order[..i + 1][..i] == order[..i];
      var h := order[i];
      assert h in Elems(order);
      outcome := WithGroup(outcome, existing[h], if h in wanted then wanted[h] else []);
    }
    assert order[..|order|] == order;
  }

  /** The wanted groups no stored row has. */
  method AddUnmatched(order: seq<ContentHash>, stored: seq<ContentHash>, existing: map<ContentHash, seq<int>>, wanted: map<ContentHash, seq<Chunk>>,
                      ghost incoming: seq<Chunk>)
    returns (added: seq<Chunk>)
    requires existing.Keys == Elems(stored) && wanted.Keys == Elems(order)
    requires GroupsChunks(wanted, incoming)
    ensures added == Unmatched(order, stored, incoming)
  {
    added := [];
    for i := 0 to |order|
      invariant added == Unmatched(order[..i], stored, incoming)
    {
      assert order[..i + 1][..i] == order[..i];
      var h := order[i];
      assert h in Elems(order);
      assert h in existing <==> h in Elems(stored);
      if h !in existing {
        added := added + wanted[h];
      }
    }
    assert order[..|order|] == order;
  }

  /** Per hash, keep the first min(existing, incoming) rows, remove the existing
      excess, add the incoming excess. */
  method DiffChunksByContentHash(pairs: seq<Pair>, incoming: seq<Chunk>) returns (outcome: ChunkDiffOutcome)
    ensures outcome == Diff(pairs, incoming)
  {
    var storedOrder, existing := IdsByHash(pairs);
    var wantedOrder, wanted := ChunksByHash(incoming);
    var removed := NullHashIds(pairs);
    outcome := DiffStored(storedOrder, existing, wanted, removed, pairs, incoming);
    var added := AddUnmatched(wantedOrder, storedOrder, existing, wanted, incoming);
    outcome := outcome.(addedChunks := outcome.addedChunks + added);
  }

  // ----- what the diff promises

  function Ids(pairs: seq<Pair>): (r: seq<int>)
    ensures |r| == |pairs| && forall i :: 0 <= i < |r| ==> r[i] == pairs[i].0
  {
    seq(|pairs|, i requires 0 <= i < |pairs| => pairs[i].0)
  }

  function KeptIds(kept: seq<Assignment>): (r: seq<int>)
    ensures |r| == |kept| && forall i :: 0 <= i < |r| ==> r[i] == kept[i].1
  {
    seq(|kept|, i requires 0 <= i < |kept| => kept[i].1)
  }

  function KeptChunks(kept: seq<Assignment>): (r: seq<Chunk>)
    ensures |r| == |kept| && forall i :: 0 <= i < |r| ==> r[i] == kept[i].0
  {
    seq(|kept|, i requires 0 <= i < |kept| => kept[i].0)
  }

  /** The multiset of the ids stored under any of `hashes`. */
  function IdsUnder(hashes: seq<ContentHash>, pairs: seq<Pair>): multiset<int> {
    if hashes == [] then multiset{}
    else IdsUnder(hashes[..|hashes| - 1], pairs) + multiset(IdsOf(pairs, hashes[|hashes| - 1]))
  }

  function CopiesUnder(hashes: seq<ContentHash>, incoming: seq<Chunk>): multiset<Chunk> {
    if hashes == [] then multiset{}
    else CopiesUnder(hashes[..|hashes| - 1], incoming) + multiset(CopiesOf(incoming, hashes[|hashes| - 1]))
  }

  lemma {:induction false} HashOrderCovers(pairs: seq<Pair>)
    ensures Distinct(HashOrder(pairs))
    ensures forall h :: h in HashOrder(pairs) <==> exists i :: 0 <= i < |pairs| && pairs[i].1 == Some(h)
  {
    if pairs != [] {
      var n := |pairs| - 1;
      HashOrderCovers(pairs[..n]);
      forall h ensures h in HashOrder(pairs) <==> exists i :: 0 <= i < |pairs| && pairs[i].1 == Some(h) {
        if i :| 0 <= i < |pairs| && pairs[i].1 == Some(h) && i < n {
          assert pairs[..n][i].1 == Some(h);
        }
      }
    }
  }

  lemma {:induction false} ChunkHashOrderCovers(incoming: seq<Chunk>)
    ensures Distinct(ChunkHashOrder(incoming))
    ensures forall h :: h in ChunkHashOrder(incoming) <==> exists i :: 0 <= i < |incoming| && incoming[i].hash == h
  {
    if incoming != [] {
      var n := |incoming| - 1;
      ChunkHashOrderCovers(incoming[..n]);
      forall h ensures h in ChunkHashOrder(incoming) <==> exists i :: 0 <= i < |incoming| && incoming[i].hash == h {
        if i :| 0 <= i < |incoming| && incoming[i].hash == h && i < n {
          assert incoming[..n][i].hash == h;
        }
      }
    }
  }

  /** Appending one row adds its id under its own hash and no other. */
  lemma {:induction false} IdsUnderGrows(hashes: seq<ContentHash>, pairs: seq<Pair>, id: int, h: ContentHash)
    requires Distinct(hashes) && h in hashes
    ensures IdsUnder(hashes, pairs + [(id, Some(h))]) == IdsUnder(hashes, pairs) + multiset{id}
  {
    var n := |hashes| - 1;
    IdsOfSnoc(pairs, id, Some(h), hashes[n]);
    SplitMember(hashes, h);
    if h == hashes[n] {
      IdsUnderStays(hashes[..n], pairs, id, Some(h));
      assert multiset(IdsOf(pairs, h) + [id]) == multiset(IdsOf(pairs, h)) + multiset{id};
      Regroup(IdsUnder(hashes[..n], pairs), multiset{}, multiset(IdsOf(pairs, h)), id);
    } else {
      IdsUnderGrows(hashes[..n], pairs, id, h);
      Regroup(IdsUnder(hashes[..n], pairs), multiset{id}, multiset(IdsOf(pairs, hashes[n])), id);
    }
  }

  lemma Regroup(a: multiset<int>, x: multiset<int>, b: multiset<int>, id: int)
    requires x == multiset{} || x == multiset{id}
    ensures x == multiset{id} ==> (a + x) + b == (a + b) + multiset{id}
    ensures x == multiset{} ==> a + (b + multiset{id}) == (a + b) + multiset{id}
  {
  }

  lemma {:induction false} IdsUnderStays(hashes: seq<ContentHash>, pairs: seq<Pair>, id: int, hash: Option<ContentHash>)
    requires hash.None? || hash.value !in hashes
    ensures IdsUnder(hashes, pairs + [(id, hash)]) == IdsUnder(hashes, pairs)
  {
    if hashes != [] {
      var n := |hashes| - 1;
      IdsUnderStays(hashes[..n], pairs, id, hash);
      IdsOfSnoc(pairs, id, hash, hashes[n]);
      assert hashes[n] in hashes;
    }
  }

  lemma SplitMember<T>(xs: seq<T>, x: T)
    requires xs != []
    ensures x in xs <==> x in xs[..|xs| - 1] || x == xs[|xs| - 1]
    ensures Distinct(xs) && x == xs[|xs| - 1] ==> x !in xs[..|xs| - 1]
  {
    assert xs == xs[..|xs| - 1] + [xs[|xs| - 1]];
  }

  lemma {:induction false} IdsUnderNothing(hashes: seq<ContentHash>)
    ensures IdsUnder(hashes, []) == multiset{}
  {
    if hashes != [] {
      IdsUnderNothing(hashes[..|hashes| - 1]);
    }
  }

  ghost predicate HashesIn(pairs: seq<Pair>, hashes: seq<ContentHash>) {
    forall i :: 0 <= i < |pairs| ==> pairs[i].1.Some? ==> pairs[i].1.value in hashes
  }

  /** Every stored row is in exactly one group: NULL hash, or one of the hashes. */
  lemma {:induction false} GroupsPartitionIds(hashes: seq<ContentHash>, pairs: seq<Pair>)
    requires Distinct(hashes) && HashesIn(pairs, hashes)
    ensures IdsUnder(hashes, pairs) + multiset(Unhashed(pairs)) == multiset(Ids(pairs))
  {
    if pairs == [] {
      IdsUnderNothing(hashes);
    } else {
      var earlier, last := pairs[..|pairs| - 1], pairs[|pairs| - 1];
      GroupsPartitionIds(hashes, earlier);
      assert pairs == earlier + [(last.0, last.1)];
      GroupsPartitionSnoc(hashes, earlier, last.0, last.1);
    }
  }

  lemma GroupsPartitionSnoc(hashes: seq<ContentHash>, pairs: seq<Pair>, id: int, hash: Option<ContentHash>)
    requires Distinct(hashes) && (hash.Some? ==> hash.value in hashes)
    requires IdsUnder(hashes, pairs) + multiset(Unhashed(pairs)) == multiset(Ids(pairs))
    ensures IdsUnder(hashes, pairs + [(id, hash)]) + multiset(Unhashed(pairs + [(id, hash)])) == multiset(Ids(pairs + [(id, hash)]))
  {
    assert Ids(pairs + [(id, hash)]) == Ids(pairs) + [id];
    assert multiset(Ids(pairs) + [id]) == multiset(Ids(pairs)) + multiset{id};
    UnhashedSnoc(pairs, id, hash);
    var under, unhashed := IdsUnder(hashes, pairs), multiset(Unhashed(pairs));
    if hash.Some? {
      IdsUnderGrows(hashes, pairs, id, hash.value);
      Regroup(under, multiset{id}, unhashed, id);
    } else {
      IdsUnderStays(hashes, pairs, id, hash);
      assert multiset(Unhashed(pairs) + [id]) == unhashed + multiset{id};
      Regroup(under, multiset{}, unhashed, id);
    }
  }

  lemma UnhashedSnoc(pairs: seq<Pair>, id: int, hash: Option<ContentHash>)
    ensures Unhashed(pairs + [(id, hash)]) == if hash.Some? then Unhashed(pairs) else Unhashed(pairs) + [id]
  {
    assert (pairs + [(id, hash)])[..|pairs|] == pairs;
  }

  lemma TakeDrop<T>(xs: seq<T>, k: nat)
    requires k <= |xs|
    ensures multiset(xs[..k]) + multiset(xs[k..]) == multiset(xs)
  {
    assert xs == xs[..k] + xs[k..];
  }

  lemma KeptAppend(kept: seq<Assignment>, chunks: seq<Chunk>, ids: seq<int>)
    requires |chunks| == |ids|
    ensures KeptIds(kept + Zip(chunks, ids)) == KeptIds(kept) + ids
    ensures KeptChunks(kept + Zip(chunks, ids)) == KeptChunks(kept) + chunks
  {
  }

  lemma GroupPartition(earlier: ChunkDiffOutcome, ids: seq<int>, copies: seq<Chunk>)
    ensures var d := WithGroup(earlier, ids, copies);
            multiset(d.removedIds) + multiset(KeptIds(d.kept))
            == multiset(earlier.removedIds) + multiset(KeptIds(earlier.kept)) + multiset(ids)
            && multiset(d.addedChunks) + multiset(KeptChunks(d.kept))
               == multiset(earlier.addedChunks) + multiset(KeptChunks(earlier.kept)) + multiset(copies)
  {
    var keep := Min(|ids|, |copies|);
    TakeDrop(ids, keep);
    TakeDrop(copies, keep);
    KeptAppend(earlier.kept, copies[..keep], ids[..keep]);
  }

  lemma {:induction false} DiffGroupsPartition(hashes: seq<ContentHash>, pairs: seq<Pair>, incoming: seq<Chunk>)
    ensures var d := DiffGroups(hashes, pairs, incoming);
            multiset(d.removedIds) + multiset(KeptIds(d.kept)) == IdsUnder(hashes, pairs) + multiset(Unhashed(pairs))
            && multiset(d.addedChunks) + multiset(KeptChunks(d.kept)) == CopiesUnder(hashes, incoming)
  {
    if hashes != [] {
      var n := |hashes| - 1;
      DiffGroupsPartition(hashes[..n], pairs, incoming);
      GroupPartition(DiffGroups(hashes[..n], pairs, incoming), IdsOf(pairs, hashes[n]), CopiesOf(incoming, hashes[n]));
    }
  }

  /** How often a chunk is left unmatched: as often as it came when its hash is wanted
      and not stored. */
  lemma {:induction false} UnmatchedCount(wanted: seq<ContentHash>, stored: seq<ContentHash>, incoming: seq<Chunk>, c: Chunk)
    requires Distinct(wanted)
    ensures multiset(Unmatched(wanted, stored, incoming))[c]
            == if c.hash in wanted && c.hash !in stored then multiset(incoming)[c] else 0
  {
    if wanted != [] {
      var n := |wanted| - 1;
      UnmatchedCount(wanted[..n], stored, incoming, c);
      CopiesCountOne(incoming, wanted[n], c);
      SplitMember(wanted, c.hash);
    }
  }

  /** A hash group holds exactly the chunks of that hash, each as often as it came. */
  lemma {:induction false} CopiesCount(incoming: seq<Chunk>, h: ContentHash)
    ensures forall c :: multiset(CopiesOf(incoming, h))[c] == if c.hash == h then multiset(incoming)[c] else 0
    ensures forall i :: 0 <= i < |CopiesOf(incoming, h)| ==> CopiesOf(incoming, h)[i].hash == h
  {
    if incoming != [] {
      CopiesCount(incoming[..|incoming| - 1], h);
      MultisetLast(incoming);
    }
  }

  lemma {:induction false} CopiesUnderCount(hashes: seq<ContentHash>, incoming: seq<Chunk>, c: Chunk)
    requires Distinct(hashes)
    ensures CopiesUnder(hashes, incoming)[c] == if c.hash in hashes then multiset(incoming)[c] else 0
  {
    if hashes != [] {
      var n := |hashes| - 1;
      CopiesUnderCount(hashes[..n], incoming, c);
      CopiesCountOne(incoming, hashes[n], c);
      SplitMember(hashes, c.hash);
    }
  }

  /** The stored hashes' chunks and the unmatched ones are all that came. */
  lemma CopiesAndUnmatched(stored: seq<ContentHash>, incoming: seq<Chunk>)
    requires Distinct(stored)
    ensures CopiesUnder(stored, incoming) + multiset(Unmatched(ChunkHashOrder(incoming), stored, incoming)) == multiset(incoming)
  {
    ChunkHashOrderCovers(incoming);
    var unmatched := Unmatched(ChunkHashOrder(incoming), stored, incoming);
    forall c ensures (CopiesUnder(stored, incoming) + multiset(unmatched))[c] == multiset(incoming)[c] {
      CopiesUnderCount(stored, incoming, c);
      UnmatchedCount(ChunkHashOrder(incoming), stored, incoming, c);
      if c in multiset(incoming) {
        assert c in incoming && c.hash in ChunkHashOrder(incoming);
      }
    }
  }

  /** Kept and removed ids partition the existing ids; kept and added chunks
      partition the incoming chunks, as multisets. */
  lemma DiffPartitions(pairs: seq<Pair>, incoming: seq<Chunk>)
    ensures var d := Diff(pairs, incoming);
            multiset(d.removedIds) + multiset(KeptIds(d.kept)) == multiset(Ids(pairs))
            && multiset(d.addedChunks) + multiset(KeptChunks(d.kept)) == multiset(incoming)
  {
    var stored := HashOrder(pairs);
    HashOrderCovers(pairs);
    GroupsPartitionIds(stored, pairs);
    DiffGroupsPartition(stored, pairs, incoming);
    CopiesAndUnmatched(stored, incoming);
  }

  lemma {:induction false} IdsOfSound(pairs: seq<Pair>, h: ContentHash)
    ensures forall id :: id in IdsOf(pairs, h) ==> (id, Some(h)) in pairs
  {
    if pairs != [] {
      var earlier, last := pairs[..|pairs| - 1], pairs[|pairs| - 1];
      IdsOfSound(earlier, h);
      assert pairs == earlier + [last];
      assert last == (last.0, last.1);
      forall id | id in IdsOf(pairs, h) ensures (id, Some(h)) in pairs {
        assert id in IdsOf(earlier, h) || (id == last.0 && last.1 == Some(h));
      }
    }
  }

  predicate KeptSoundly(kept: seq<Assignment>, pairs: seq<Pair>, incoming: seq<Chunk>) {
    forall a :: a in kept ==> (a.1, Some(a.0.hash)) in pairs && a.0 in incoming
  }

  lemma GroupKept(pairs: seq<Pair>, incoming: seq<Chunk>, h: ContentHash, k: nat)
    requires k <= |IdsOf(pairs, h)| && k <= |CopiesOf(incoming, h)|
    ensures KeptSoundly(Zip(CopiesOf(incoming, h)[..k], IdsOf(pairs, h)[..k]), pairs, incoming)
  {
    IdsOfSound(pairs, h);
    CopiesCount(incoming, h);
    var ids, copies := IdsOf(pairs, h), CopiesOf(incoming, h);
    forall a | a in Zip(copies[..k], ids[..k]) ensures (a.1, Some(a.0.hash)) in pairs && a.0 in incoming {
      var i :| 0 <= i < k && a == (copies[..k][i], ids[..k][i]);
      assert a.1 == ids[i] && a.1 in ids;
      assert a.0 == copies[i] && a.0.hash == h;
      assert a.0 in multiset(copies);
      assert multiset(incoming)[a.0] > 0;
      assert a.0 in incoming;
    }
  }

  lemma {:induction false} DiffGroupsKept(hashes: seq<ContentHash>, pairs: seq<Pair>, incoming: seq<Chunk>)
    ensures KeptSoundly(DiffGroups(hashes, pairs, incoming).kept, pairs, incoming)
  {
    if hashes != [] {
      var n := |hashes| - 1;
      var ids, copies := IdsOf(pairs, hashes[n]), CopiesOf(incoming, hashes[n]);
      DiffGroupsKept(hashes[..n], pairs, incoming);
      GroupKept(pairs, incoming, hashes[n], Min(|ids|, |copies|));
    }
  }

  /** Every kept pair joins a chunk with a stored row of the chunk's own hash. */
  lemma DiffKeepsEqualHashes(pairs: seq<Pair>, incoming: seq<Chunk>)
    ensures KeptSoundly(Diff(pairs, incoming).kept, pairs, incoming)
  {
    DiffGroupsKept(HashOrder(pairs), pairs, incoming);
  }

  /** The kept ids of one hash, in the order the diff emits them. */
  function KeptUnder(kept: seq<Assignment>, h: ContentHash): seq<int> {
    if kept == [] then []
    else KeptUnder(kept[..|kept| - 1], h)
         + if kept[|kept| - 1].0.hash == h then [kept[|kept| - 1].1] else []
  }

  lemma {:induction false} KeptUnderAppend(kept: seq<Assignment>, more: seq<Assignment>, h: ContentHash)
    ensures KeptUnder(kept + more, h) == KeptUnder(kept, h) + KeptUnder(more, h)
  {
    if more == [] {
      assert kept + more == kept;
    } else {
      var n := |more| - 1;
      KeptUnderAppend(kept, more[..n], h);
      assert (kept + more)[..|kept + more| - 1] == kept + more[..n];
    }
  }

  lemma {:induction false} KeptUnderZip(chunks: seq<Chunk>, ids: seq<int>, own: ContentHash, h: ContentHash)
    requires |chunks| == |ids| && forall i :: 0 <= i < |chunks| ==> chunks[i].hash == own
    ensures KeptUnder(Zip(chunks, ids), h) == if h == own then ids else []
  {
    if ids != [] {
      var n := |ids| - 1;
      KeptUnderZip(chunks[..n], ids[..n], own, h);
      assert Zip(chunks, ids) == Zip(chunks[..n], ids[..n]) + [(chunks[n], ids[n])];
      KeptUnderSnoc(Zip(chunks[..n], ids[..n]), (chunks[n], ids[n]), h);
      assert ids == ids[..n] + [ids[n]];
    }
  }

  lemma KeptUnderSnoc(kept: seq<Assignment>, a: Assignment, h: ContentHash)
    ensures KeptUnder(kept + [a], h) == if a.0.hash == h then KeptUnder(kept, h) + [a.1] else KeptUnder(kept, h)
  {
    assert (kept + [a])[..|kept|] == kept;
  }

  function FirstIds(pairs: seq<Pair>, incoming: seq<Chunk>, h: ContentHash): seq<int> {
    IdsOf(pairs, h)[..Min(|IdsOf(pairs, h)|, |CopiesOf(incoming, h)|)]
  }

  lemma {:induction false} DiffGroupsKeptUnder(hashes: seq<ContentHash>, pairs: seq<Pair>, incoming: seq<Chunk>, h: ContentHash)
    requires Distinct(hashes)
    ensures KeptUnder(DiffGroups(hashes, pairs, incoming).kept, h)
            == if h in hashes then FirstIds(pairs, incoming, h) else []
  {
    if hashes != [] {
      var n := |hashes| - 1;
      var g := hashes[n];
      DiffGroupsKeptUnder(hashes[..n], pairs, incoming, h);
      GroupKeptUnder(DiffGroups(hashes[..n], pairs, incoming), pairs, incoming, g, h);
      assert forall x :: x in hashes <==> x in hashes[..n] || x == g;
    }
  }

  lemma GroupKeptUnder(earlier: ChunkDiffOutcome, pairs: seq<Pair>, incoming: seq<Chunk>, g: ContentHash, h: ContentHash)
    ensures KeptUnder(WithGroup(earlier, IdsOf(pairs, g), CopiesOf(incoming, g)).kept, h)
            == KeptUnder(earlier.kept, h) + if h == g then FirstIds(pairs, incoming, h) else []
  {
    CopiesCount(incoming, g);
    var ids, copies := IdsOf(pairs, g), CopiesOf(incoming, g);
    var keep := Min(|ids|, |copies|);
    KeptUnderAppend(earlier.kept, Zip(copies[..keep], ids[..keep]), h);
    KeptUnderZip(copies[..keep], ids[..keep], g, h);
  }

  lemma {:induction false} IdsOfUnseen(pairs: seq<Pair>, h: ContentHash)
    requires h !in HashOrder(pairs)
    ensures IdsOf(pairs, h) == []
  {
    if pairs != [] {
      IdsOfUnseen(pairs[..|pairs| - 1], h);
    }
  }

  /** Exactly min(existing, incoming) rows are kept per hash, and they are the
      first existing ids of that hash. */
  lemma DiffKeepsTheFirstIds(pairs: seq<Pair>, incoming: seq<Chunk>, h: ContentHash)
    ensures KeptUnder(Diff(pairs, incoming).kept, h)
            == FirstIds(pairs, incoming, h)
  {
    HashOrderCovers(pairs);
    DiffGroupsKeptUnder(HashOrder(pairs), pairs, incoming, h);
    if h !in HashOrder(pairs) {
      IdsOfUnseen(pairs, h);
    }
  }

  // ----- applying a diff reaches the incoming multiset, and then nothing is left to do

  function Survivors(pairs: seq<Pair>, removed: seq<int>): seq<Pair> {
    if pairs == [] then []
    else
      var last := pairs[|pairs| - 1];
      Survivors(pairs[..|pairs| - 1], removed) + if last.0 in removed then [] else [last]
  }

  function Inserted(added: seq<Chunk>, newIds: seq<int>): seq<Pair>
    requires |added| == |newIds|
  {
    seq(|newIds|, i requires 0 <= i < |newIds| => (newIds[i], Some(added[i].hash)))
  }

  /** The stored rows once the removed ones are deleted and the added ones inserted. */
  function Applied(pairs: seq<Pair>, d: ChunkDiffOutcome, newIds: seq<int>): seq<Pair>
    requires |d.addedChunks| == |newIds|
  {
    Survivors(pairs, d.removedIds) + Inserted(d.addedChunks, newIds)
  }

  lemma {:induction false} IdsOfAppend(pairs: seq<Pair>, more: seq<Pair>, h: ContentHash)
    ensures IdsOf(pairs + more, h) == IdsOf(pairs, h) + IdsOf(more, h)
    ensures Unhashed(pairs + more) == Unhashed(pairs) + Unhashed(more)
  {
    if more == [] {
      assert pairs + more == pairs;
    } else {
      IdsOfAppend(pairs, more[..|more| - 1], h);
      assert (pairs + more)[..|pairs + more| - 1] == pairs + more[..|more| - 1];
    }
  }

  lemma {:induction false} InsertedUnder(added: seq<Chunk>, newIds: seq<int>, h: ContentHash)
    requires |added| == |newIds|
    ensures |IdsOf(Inserted(added, newIds), h)| == |CopiesOf(added, h)|
    ensures Unhashed(Inserted(added, newIds)) == []
  {
    if added != [] {
      var n := |added| - 1;
      InsertedUnder(added[..n], newIds[..n], h);
      assert Inserted(added, newIds)[..n] == Inserted(added[..n], newIds[..n]);
    }
  }

  lemma {:induction false} SurvivorsAre(pairs: seq<Pair>, removed: seq<int>)
    ensures forall p :: p in Survivors(pairs, removed) <==> p in pairs && p.0 !in removed
  {
    if pairs != [] {
      SurvivorsAre(pairs[..|pairs| - 1], removed);
      assert pairs == pairs[..|pairs| - 1] + [pairs[|pairs| - 1]];
    }
  }

  lemma {:induction false} SurvivorsDistinct(pairs: seq<Pair>, removed: seq<int>)
    requires Distinct(Ids(pairs))
    ensures Distinct(Ids(Survivors(pairs, removed)))
  {
    if pairs != [] {
      var earlier, last := pairs[..|pairs| - 1], pairs[|pairs| - 1];
      assert Ids(pairs) == Ids(earlier) + [last.0];
      DistinctAppend(Ids(earlier), [last.0]);
      SurvivorsDistinct(earlier, removed);
      SurvivorsAre(earlier, removed);
      var kept := Survivors(earlier, removed);
      forall i | 0 <= i < |kept| ensures Ids(kept)[i] != last.0 {
        assert kept[i] in earlier;
        var j :| 0 <= j < |earlier| && earlier[j] == kept[i];
        assert Ids(earlier)[j] in Elems(Ids(earlier));
      }
      DistinctAppend(Ids(kept), [last.0]);
      assert Ids(kept + [last]) == Ids(kept) + [last.0];
    }
  }

  lemma {:induction false} IdsOfExactly(pairs: seq<Pair>, h: ContentHash)
    requires Distinct(Ids(pairs))
    ensures Distinct(IdsOf(pairs, h))
    ensures forall id :: id in IdsOf(pairs, h) <==> (id, Some(h)) in pairs
  {
    if pairs != [] {
      var earlier, last := pairs[..|pairs| - 1], pairs[|pairs| - 1];
      assert pairs == earlier + [last] && last == (last.0, last.1);
      assert Ids(pairs) == Ids(earlier) + [last.0];
      DistinctAppend(Ids(earlier), [last.0]);
      IdsOfExactly(earlier, h);
      forall id | id in IdsOf(earlier, h) ensures id != last.0 {
        var j :| 0 <= j < |earlier| && earlier[j] == (id, Some(h));
        assert Ids(earlier)[j] in Elems(Ids(earlier));
      }
    }
  }

  lemma {:induction false} KeptUnderExactly(kept: seq<Assignment>, h: ContentHash)
    ensures |KeptUnder(kept, h)| == |CopiesOf(KeptChunks(kept), h)|
    ensures forall id :: id in KeptUnder(kept, h) <==> exists i :: 0 <= i < |kept| && kept[i].1 == id && kept[i].0.hash == h
    ensures Distinct(KeptIds(kept)) ==> Distinct(KeptUnder(kept, h))
  {
    if kept != [] {
      var n := |kept| - 1;
      KeptUnderExactly(kept[..n], h);
      assert KeptChunks(kept)[..n] == KeptChunks(kept[..n]);
      assert KeptIds(kept) == KeptIds(kept[..n]) + [kept[n].1];
      forall id ensures id in KeptUnder(kept, h) <==> exists i :: 0 <= i < |kept| && kept[i].1 == id && kept[i].0.hash == h {
        if i :| 0 <= i < n && kept[i].1 == id && kept[i].0.hash == h {
          assert kept[..n][i].1 == id && kept[..n][i].0.hash == h;
        }
      }
      if Distinct(KeptIds(kept)) {
        DistinctAppend(KeptIds(kept[..n]), [kept[n].1]);
        forall id | id in KeptUnder(kept[..n], h) ensures id != kept[n].1 {
          var i :| 0 <= i < n && kept[..n][i].1 == id;
          assert KeptIds(kept[..n])[i] in Elems(KeptIds(kept[..n]));
        }
        DistinctAppend(KeptUnder(kept[..n], h), if kept[n].0.hash == h then [kept[n].1] else []);
      }
    }
  }

  lemma SizesAdd<T>(a: seq<T>, b: seq<T>, whole: seq<T>)
    requires multiset(a) + multiset(b) == multiset(whole)
    ensures |a| + |b| == |whole|
  {
    assert multiset(a + b) == multiset(whole);
    assert |multiset(a + b)| == |a + b| && |multiset(whole)| == |whole|;
  }

  lemma CopiesCountOne(incoming: seq<Chunk>, h: ContentHash, c: Chunk)
    ensures multiset(CopiesOf(incoming, h))[c] == if c.hash == h then multiset(incoming)[c] else 0
  {
    CopiesCount(incoming, h);
  }

  lemma CopiesAdd(a: seq<Chunk>, b: seq<Chunk>, whole: seq<Chunk>, h: ContentHash)
    requires multiset(a) + multiset(b) == multiset(whole)
    ensures |CopiesOf(a, h)| + |CopiesOf(b, h)| == |CopiesOf(whole, h)|
  {
    var left, right := multiset(CopiesOf(a, h)) + multiset(CopiesOf(b, h)), multiset(CopiesOf(whole, h));
    forall c ensures left[c] == right[c] {
      CopiesCountOne(a, h, c);
      CopiesCountOne(b, h, c);
      CopiesCountOne(whole, h, c);
      assert (multiset(a) + multiset(b))[c] == multiset(whole)[c];
    }
    assert left == right;
    SizesAdd(CopiesOf(a, h), CopiesOf(b, h), CopiesOf(whole, h));
  }

  lemma SameElementsSameLength(xs: seq<int>, ys: seq<int>)
    requires Distinct(xs) && Distinct(ys) && forall x :: x in xs <==> x in ys
    ensures |xs| == |ys|
  {
    DistinctSize(xs);
    DistinctSize(ys);
    assert Elems(xs) == Elems(ys);
  }

  /** With distinct ids, an id is kept exactly when it is not removed. */
  lemma KeptOrRemoved(pairs: seq<Pair>, incoming: seq<Chunk>)
    requires Distinct(Ids(pairs))
    ensures var d := Diff(pairs, incoming);
            Distinct(KeptIds(d.kept)) && forall p :: p in pairs ==> (p.0 in d.removedIds <==> p.0 !in KeptIds(d.kept))
  {
    var d := Diff(pairs, incoming);
    DiffPartitions(pairs, incoming);
    DistinctMultiset(Ids(pairs));
    DistinctMultiset(KeptIds(d.kept));
    forall x ensures multiset(d.removedIds)[x] + multiset(KeptIds(d.kept))[x] == multiset(Ids(pairs))[x] {
      assert (multiset(d.removedIds) + multiset(KeptIds(d.kept)))[x] == multiset(Ids(pairs))[x];
    }
    forall p | p in pairs ensures p.0 in d.removedIds <==> p.0 !in KeptIds(d.kept) {
      var i :| 0 <= i < |pairs| && pairs[i] == p;
      assert Ids(pairs)[i] in Ids(pairs);
      assert multiset(Ids(pairs))[p.0] == 1;
      assert p.0 in d.removedIds <==> p.0 in multiset(d.removedIds);
      assert p.0 in KeptIds(d.kept) <==> p.0 in multiset(KeptIds(d.kept));
    }
  }

  lemma SurvivorsUnder(pairs: seq<Pair>, incoming: seq<Chunk>, h: ContentHash)
    requires Distinct(Ids(pairs))
    ensures var d := Diff(pairs, incoming);
            |IdsOf(Survivors(pairs, d.removedIds), h)| == |CopiesOf(KeptChunks(d.kept), h)|
  {
    var d := Diff(pairs, incoming);
    var rest := Survivors(pairs, d.removedIds);
    KeptOrRemoved(pairs, incoming);
    DiffKeepsEqualHashes(pairs, incoming);
    SurvivorsAre(pairs, d.removedIds);
    SurvivorsDistinct(pairs, d.removedIds);
    IdsOfExactly(rest, h);
    KeptUnderExactly(d.kept, h);
    forall id ensures id in IdsOf(rest, h) <==> id in KeptUnder(d.kept, h) {
      if id in IdsOf(rest, h) {
        assert (id, Some(h)) in pairs && id in KeptIds(d.kept);
        var i :| 0 <= i < |d.kept| && KeptIds(d.kept)[i] == id;
        assert d.kept[i] in d.kept;
        SameIdSameRow(pairs, (id, Some(h)), (id, Some(d.kept[i].0.hash)));
      }
      if id in KeptUnder(d.kept, h) {
        var i :| 0 <= i < |d.kept| && d.kept[i].1 == id && d.kept[i].0.hash == h;
        assert d.kept[i] in d.kept && KeptIds(d.kept)[i] == id;
        assert (id, Some(h)) in rest;
      }
    }
    SameElementsSameLength(IdsOf(rest, h), KeptUnder(d.kept, h));
  }

  lemma SameIdSameRow(pairs: seq<Pair>, p: Pair, q: Pair)
    requires Distinct(Ids(pairs)) && p in pairs && q in pairs && p.0 == q.0
    ensures p == q
  {
    var i :| 0 <= i < |pairs| && pairs[i] == p;
    var j :| 0 <= j < |pairs| && pairs[j] == q;
    assert Ids(pairs)[i] == Ids(pairs)[j];
  }

  lemma {:induction false} UnhashedAre(pairs: seq<Pair>)
    ensures forall id :: id in Unhashed(pairs) <==> (id, None) in pairs
  {
    if pairs != [] {
      var earlier, last := pairs[..|pairs| - 1], pairs[|pairs| - 1];
      UnhashedAre(earlier);
      assert pairs == earlier + [last] && last == (last.0, last.1);
    }
  }

  lemma NoSurvivorUnhashed(pairs: seq<Pair>, incoming: seq<Chunk>)
    requires Distinct(Ids(pairs))
    ensures Unhashed(Survivors(pairs, Diff(pairs, incoming).removedIds)) == []
  {
    var d := Diff(pairs, incoming);
    var rest := Survivors(pairs, d.removedIds);
    KeptOrRemoved(pairs, incoming);
    DiffKeepsEqualHashes(pairs, incoming);
    SurvivorsAre(pairs, d.removedIds);
    UnhashedAre(rest);
    if Unhashed(rest) != [] {
      var id := Unhashed(rest)[0];
      assert (id, None) in rest;
      var i :| 0 <= i < |d.kept| && KeptIds(d.kept)[i] == id;
      assert d.kept[i] in d.kept;
      SameIdSameRow(pairs, (id, None), (id, Some(d.kept[i].0.hash)));
      assert false;
    }
  }

  lemma AppliedUnder(pairs: seq<Pair>, incoming: seq<Chunk>, newIds: seq<int>, h: ContentHash)
    requires Distinct(Ids(pairs)) && |newIds| == |Diff(pairs, incoming).addedChunks|
    ensures |IdsOf(Applied(pairs, Diff(pairs, incoming), newIds), h)| == |CopiesOf(incoming, h)|
  {
    var d := Diff(pairs, incoming);
    IdsOfAppend(Survivors(pairs, d.removedIds), Inserted(d.addedChunks, newIds), h);
    InsertedUnder(d.addedChunks, newIds, h);
    SurvivorsUnder(pairs, incoming, h);
    DiffPartitions(pairs, incoming);
    CopiesAdd(d.addedChunks, KeptChunks(d.kept), incoming, h);
  }

  /** Applying the diff makes the stored hash multiset equal the incoming one. */
  lemma ApplyingReachesIncoming(pairs: seq<Pair>, incoming: seq<Chunk>, newIds: seq<int>)
    requires Distinct(Ids(pairs)) && |newIds| == |Diff(pairs, incoming).addedChunks|
    ensures var applied := Applied(pairs, Diff(pairs, incoming), newIds);
            Unhashed(applied) == [] && forall h :: |IdsOf(applied, h)| == |CopiesOf(incoming, h)|
  {
    var d := Diff(pairs, incoming);
    forall h ensures |IdsOf(Applied(pairs, d, newIds), h)| == |CopiesOf(incoming, h)| {
      AppliedUnder(pairs, incoming, newIds, h);
    }
    var none := ContentHash("", "", "", "", "");
    NoSurvivorUnhashed(pairs, incoming);
    IdsOfAppend(Survivors(pairs, d.removedIds), Inserted(d.addedChunks, newIds), none);
    InsertedUnder(d.addedChunks, newIds, none);
  }

  lemma {:induction false} MatchedGroupsAreInert(hashes: seq<ContentHash>, pairs: seq<Pair>, incoming: seq<Chunk>)
    requires Unhashed(pairs) == [] && forall h :: |IdsOf(pairs, h)| == |CopiesOf(incoming, h)|
    ensures DiffGroups(hashes, pairs, incoming).removedIds == [] && DiffGroups(hashes, pairs, incoming).addedChunks == []
  {
    if hashes != [] {
      MatchedGroupsAreInert(hashes[..|hashes| - 1], pairs, incoming);
    }
  }

  lemma {:induction false} NothingUnmatched(hashes: seq<ContentHash>, pairs: seq<Pair>, incoming: seq<Chunk>)
    requires forall h :: |IdsOf(pairs, h)| == |CopiesOf(incoming, h)|
    ensures Unmatched(hashes, HashOrder(pairs), incoming) == []
  {
    if hashes != [] {
      NothingUnmatched(hashes[..|hashes| - 1], pairs, incoming);
      var h := hashes[|hashes| - 1];
      if h !in HashOrder(pairs) {
        IdsOfUnseen(pairs, h);
        assert |CopiesOf(incoming, h)| == 0;
      }
    }
  }

  /** Diffing the applied rows against the same chunks adds and removes nothing. */
  lemma DiffingAgainIsInert(pairs: seq<Pair>, incoming: seq<Chunk>, newIds: seq<int>)
    requires Distinct(Ids(pairs)) && |newIds| == |Diff(pairs, incoming).addedChunks|
    ensures var again := Diff(Applied(pairs, Diff(pairs, incoming), newIds), incoming);
            again.removedIds == [] && again.addedChunks == []
  {
    var applied := Applied(pairs, Diff(pairs, incoming), newIds);
    ApplyingReachesIncoming(pairs, incoming, newIds);
    MatchedGroupsAreInert(HashOrder(applied), applied, incoming);
    NothingUnmatched(ChunkHashOrder(incoming), applied, incoming);
  }
}
