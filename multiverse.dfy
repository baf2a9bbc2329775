/** The cross-world views of the multiverse routes: resonance rows between
    two worlds are aggregated per unordered world pair (the similarity map)
    or per neighbour of one world, averaged, filtered, ranked and cut; the
    global search ranks wiki and agent hits by a fixed score. */
module Multiverse {
  import opened Envelopes
  import Text
  import Sorting

  /** A `resonance_links` row as the queries select it. World ids are
      compared by their string form. */
  datatype Row = Row(worldA: WorldId, worldB: WorldId, strength: real)

  // ---------------------------------------------------------------------------
  // Unordered pairs
  // ---------------------------------------------------------------------------

  /** `_unordered_pair`: the two ids in the order of their string forms; the
      stable sort keeps `(a, b)` when they compare equal. */
  function UnorderedPair(a: WorldId, b: WorldId): (r: (WorldId, WorldId))
    ensures Text.LexLe(r.0, r.1)
    ensures r == (a, b) || r == (b, a)
  {
    if Text.LexLe(a, b) then (a, b)
    else
      Text.LexLeTotal(a, b);
      (b, a)
  }

  /** A-B and B-A give the same key. */
  lemma PairSymmetric(a: WorldId, b: WorldId)
    ensures UnorderedPair(a, b) == UnorderedPair(b, a)
  {
    if Text.LexLe(a, b) && Text.LexLe(b, a) {
      Text.LexLeAntisymmetric(a, b);
    }
  }

  /** Two rows share a key exactly when they join the same two worlds, in
      either direction. */
  lemma PairKey(a: WorldId, b: WorldId, x: WorldId, y: WorldId)
    ensures UnorderedPair(a, b) == UnorderedPair(x, y) <==> (a == x && b == y) || (a == y && b == x)
  {
    PairSymmetric(a, b);
    PairSymmetric(x, y);
    if (a == y && b == x) {
      assert UnorderedPair(a, b) == UnorderedPair(b, a);
    }
  }

  /** A key already in order is its own key. */
  lemma OrderedPairIsKey(a: WorldId, b: WorldId)
    requires Text.LexLe(a, b)
    ensures UnorderedPair(a, b) == (a, b)
  {
  }

  // ---------------------------------------------------------------------------
  // Aggregation in a dictionary
  // ---------------------------------------------------------------------------

  /** `{"strength_sum": ..., "count": ...}`. */
  datatype Metrics = Metrics(strengthSum: real, count: nat)

  /** A dictionary of metrics: its keys in insertion order, and its entries. */
  datatype Tally<K> = Tally(order: seq<K>, metrics: map<K, Metrics>)

  /** One row folded in: a missing key starts at zero and is appended to
      the insertion order; then the strength is added and the count raised. */
  function AddRow<K>(t: Tally<K>, key: K, strength: real): Tally<K> {
    var m := if key in t.metrics then t.metrics[key] else Metrics(0.0, 0);
    Tally(if key in t.metrics then t.order else t.order + [key],
          t.metrics[key := Metrics(m.strengthSum + strength, m.count + 1)])
  }

  /** The dictionary after folding in every `(key, strength)` in order. */
  function Aggregate<K>(entries: seq<(K, real)>): Tally<K> {
    if entries == [] then Tally([], map[])
    else
      var last := entries[|entries| - 1];
      AddRow(Aggregate(entries[..|entries| - 1]), last.0, last.1)
  }

  /** How many entries carry `key`. */
  function CountKey<K(==)>(entries: seq<(K, real)>, key: K): nat {
    if entries == [] then 0
    else CountKey(entries[..|entries| - 1], key) + (if entries[|entries| - 1].0 == key then 1 else 0)
  }

  /** The strengths of the entries that carry `key`, added up. */
  function SumKey<K(==)>(entries: seq<(K, real)>, key: K): real {
    if entries == [] then 0.0
    else SumKey(entries[..|entries| - 1], key) + (if entries[|entries| - 1].0 == key then entries[|entries| - 1].1 else 0.0)
  }

  /** Keys in insertion order are distinct, are exactly the dictionary's
      keys, and every entry counts at least one row. */
  ghost predicate WellFormed<K(!new)>(t: Tally<K>) {
    && (forall i, j :: 0 <= i < j < |t.order| ==> t.order[i] != t.order[j])
    && (forall k :: k in t.metrics <==> k in t.order)
    && (forall k :: k in t.metrics ==> t.metrics[k].count > 0)
  }

  /** The dictionary holds, for each key met, the number of entries and the
      sum of strengths that carry it, and nothing for keys never met; the
      insertion order lists each key once. */
  lemma {:induction false} AggregateSound<K(!new)>(entries: seq<(K, real)>)
    ensures WellFormed(Aggregate(entries))
    ensures forall k :: k in Aggregate(entries).metrics <==> CountKey(entries, k) > 0
    ensures forall k :: k in Aggregate(entries).metrics ==>
      Aggregate(entries).metrics[k] == Metrics(SumKey(entries, k), CountKey(entries, k))
  {
    if entries != [] {
      var init := entries[..|entries| - 1];
      var last := entries[|entries| - 1];
      AggregateSound(init);
      var t := Aggregate(init);
      var t' := AddRow(t, last.0, last.1);
      assert Aggregate(entries) == t';
      if last.0 !in t.metrics {
        SumKeyZero(init, last.0);
        forall i, j | 0 <= i < j < |t'.order| ensures t'.order[i] != t'.order[j] {
          if j == |t.order| {
            assert t'.order[i] == t.order[i];
            assert t.order[i] in t.metrics;
          }
        }
      }
    }
  }

  lemma {:induction false} SumKeyZero<K>(entries: seq<(K, real)>, k: K)
    requires CountKey(entries, k) == 0
    ensures SumKey(entries, k) == 0.0
  {
    if entries != [] {
      SumKeyZero(entries[..|entries| - 1], k);
    }
  }

  /** The dictionary has no more keys than entries folded in. */
  lemma {:induction false} OrderSize<K>(entries: seq<(K, real)>)
    ensures |Aggregate(entries).order| <= |entries|
  {
    if entries != [] {
      OrderSize(entries[..|entries| - 1]);
    }
  }

  /** Every key of the dictionary was carried by some entry. */
  lemma {:induction false} AggregateKeys<K>(entries: seq<(K, real)>, k: K)
    requires k in Aggregate(entries).metrics
    ensures exists i :: 0 <= i < |entries| && entries[i].0 == k
  {
    var init := entries[..|entries| - 1];
    if entries[|entries| - 1].0 != k {
      AggregateKeys(init, k);
      var i :| 0 <= i < |init| && init[i].0 == k;
      assert entries[i] == init[i];
    }
  }

  /** `pair_metrics` and `neighbor_metrics`: the loop over the query's rows,
      with each row's key and strength given by `entries`. */
  method Tabulate<K>(entries: seq<(K, real)>) returns (t: Tally<K>)
    ensures t == Aggregate(entries)
  {
    t := Tally([], map[]);
    var i := 0;
    while i < |entries|
      invariant 0 <= i <= |entries|
      invariant t == Aggregate(entries[..i])
    {
      var key := entries[i].0;
      if key !in t.metrics {
        t := Tally(t.order + [key], t.metrics[key := Metrics(0.0, 0)]);
      }
      t := Tally(t.order, t.metrics[key := Metrics(t.metrics[key].strengthSum + entries[i].1, t.metrics[key].count + 1)]);
      assert entries[..i + 1][..i] == entries[..i];
      i := i + 1;
    }
    assert entries[..|entries|] == entries;
  }

  // ---------------------------------------------------------------------------
  // Averages, filters and ranking
  // ---------------------------------------------------------------------------

  /** A ranked key: a world pair of the map, or a neighbour of one world. */
  datatype Scored<K> = Scored(key: K, strength: real, count: nat)

  function Average(m: Metrics): real
    requires m.count > 0
  {
    m.strengthSum / m.count as real
  }

  /** The loop over the dictionary's items: keys in insertion order whose
      count and average reach the two minima, with their average and count. */
  function Candidates<K(!new)>(t: Tally<K>, minCount: int, minStrength: real, n: nat): (r: seq<Scored<K>>)
    requires WellFormed(t) && n <= |t.order|
    ensures |r| <= n
  {
    if n == 0 then []
    else
      var rest := Candidates(t, minCount, minStrength, n - 1);
      var k := t.order[n - 1];
      var m := t.metrics[k];
      if m.count < minCount || Average(m) < minStrength then rest
      else rest + [Scored(k, Average(m), m.count)]
  }

  /** Each candidate is a key of the dictionary with its average and count,
      and reaches both minima. */
  lemma {:induction false} CandidatesSound<K(!new)>(t: Tally<K>, minCount: int, minStrength: real, n: nat)
    requires WellFormed(t) && n <= |t.order|
    ensures forall s :: s in Candidates(t, minCount, minStrength, n) ==>
      && s.key in t.metrics
      && s.count == t.metrics[s.key].count && s.strength == Average(t.metrics[s.key])
      && s.count >= minCount && s.strength >= minStrength
  {
    if n > 0 {
      CandidatesSound(t, minCount, minStrength, n - 1);
    }
  }

  /** Each key of the first `n` that reaches both minima is a candidate. */
  lemma {:induction false} CandidatesComplete<K(!new)>(t: Tally<K>, minCount: int, minStrength: real, n: nat, k: K)
    requires WellFormed(t) && n <= |t.order|
    requires k in t.order[..n] && t.metrics[k].count >= minCount && Average(t.metrics[k]) >= minStrength
    ensures exists s :: s in Candidates(t, minCount, minStrength, n) && s.key == k
  {
    if t.order[n - 1] != k {
      assert t.order[..n] == t.order[..n - 1] + [t.order[n - 1]];
      CandidatesComplete(t, minCount, minStrength, n - 1, k);
      var s :| s in Candidates(t, minCount, minStrength, n - 1) && s.key == k;
      assert s in Candidates(t, minCount, minStrength, n);
    } else {
      var m := t.metrics[k];
      assert Scored(k, Average(m), m.count) in Candidates(t, minCount, minStrength, n);
    }
  }

  /** The candidates follow the insertion order, so no key appears twice. */
  lemma {:induction false} CandidatesDistinct<K(!new)>(t: Tally<K>, minCount: int, minStrength: real, n: nat)
    requires WellFormed(t) && n <= |t.order|
    ensures forall s :: s in Candidates(t, minCount, minStrength, n) ==> s.key in t.order[..n]
    ensures DistinctKeys(Candidates(t, minCount, minStrength, n))
  {
    if n > 0 {
      CandidatesDistinct(t, minCount, minStrength, n - 1);
      var k := t.order[n - 1];
      assert t.order[..n] == t.order[..n - 1] + [k];
      assert k !in t.order[..n - 1];
    }
  }

  /** `key=lambda item: (strength, count), reverse=True`: larger strength
      first, then larger count. */
  predicate StrongerFirst<K>(x: Scored<K>, y: Scored<K>) {
    x.strength > y.strength || (x.strength == y.strength && x.count >= y.count)
  }

  lemma StrongerFirstPreorder<K(!new)>()
    ensures Sorting.TotalPreorder((x: Scored<K>, y: Scored<K>) => StrongerFirst(x, y))
  {
  }

  /** Sorted strongest first and cut to `limit`. */
  function Rank<K>(candidates: seq<Scored<K>>, limit: int): seq<Scored<K>> {
    Text.Take(Sorting.Sort(candidates, (x: Scored<K>, y: Scored<K>) => StrongerFirst(x, y)), limit)
  }

  /** No key is ranked twice. */
  predicate DistinctKeys<K(==)>(s: seq<Scored<K>>) {
    forall i, j :: 0 <= i < j < |s| ==> s[i].key != s[j].key
  }

  /** The keys of a ranking. */
  function Keys<K>(s: seq<Scored<K>>): set<K> {
    set x | x in s :: x.key
  }

  /** The ranking is ordered strongest first and holds the `limit`
      strongest candidates (all of them when there are no more than
      `limit`): none of those cut off is stronger than one kept. Distinct
      keys stay distinct. */
  lemma RankSound<K(!new)>(candidates: seq<Scored<K>>, limit: int)
    ensures var r := Rank(candidates, limit);
      && Sorting.SortedBy(r, (x: Scored<K>, y: Scored<K>) => StrongerFirst(x, y))
      && (limit >= 0 ==> |r| == if limit < |candidates| then limit else |candidates|)
      && multiset(r) <= multiset(candidates)
      && (forall s :: s in r ==> s in candidates)
      && (forall x, c :: x in r && c in multiset(candidates) - multiset(r) ==> StrongerFirst(x, c))
      && (|candidates| <= limit ==> multiset(r) == multiset(candidates))
      && (DistinctKeys(candidates) ==> DistinctKeys(r))
  {
    var le := (x: Scored<K>, y: Scored<K>) => StrongerFirst(x, y);
    StrongerFirstPreorder<K>();
    Sorting.SortedPrefix(candidates, le, limit);
    var r := Rank(candidates, limit);
    forall x, c | x in r && c in multiset(candidates) - multiset(r) ensures StrongerFirst(x, c) {
      assert le(x, c);
    }
    if DistinctKeys(candidates) {
      KeysStayDistinct(r, candidates);
    }
  }

  lemma KeysStayDistinct<K(!new)>(r: seq<Scored<K>>, candidates: seq<Scored<K>>)
    requires multiset(r) <= multiset(candidates) && DistinctKeys(candidates)
    ensures DistinctKeys(r)
  {
    Sorting.NoDuplicatesSub(r, candidates);
    forall i, j | 0 <= i < j < |r| ensures r[i].key != r[j].key {
      assert r[i] in multiset(candidates) && r[j] in multiset(candidates);
      var a :| 0 <= a < |candidates| && candidates[a] == r[i];
      var b :| 0 <= b < |candidates| && candidates[b] == r[j];
    }
  }

  lemma CandidatesStep<K(!new)>(t: Tally<K>, minCount: int, minStrength: real, i: nat)
    requires WellFormed(t) && i < |t.order|
    ensures var k := t.order[i];
      var m := t.metrics[k];
      Candidates(t, minCount, minStrength, i + 1)
        == Candidates(t, minCount, minStrength, i) + (if m.count < minCount || Average(m) < minStrength then [] else [Scored(k, Average(m), m.count)])
  {
  }

  /** The loop that collects the candidates. */
  method CollectCandidates<K(!new)>(t: Tally<K>, minCount: int, minStrength: real) returns (r: seq<Scored<K>>)
    requires WellFormed(t)
    ensures r == Candidates(t, minCount, minStrength, |t.order|)
  {
    r := [];
    var i := 0;
    while i < |t.order|
      invariant 0 <= i <= |t.order|
      invariant r == Candidates(t, minCount, minStrength, i)
    {
      var k := t.order[i];
      assert k in t.metrics;
      var count := t.metrics[k].count;
      var avg := t.metrics[k].strengthSum / count as real;
      CandidatesStep(t, minCount, minStrength, i);
      if !(count < minCount || avg < minStrength) {
        r := r + [Scored(k, avg, count)];
      }
      i := i + 1;
    }
  }

  // ---------------------------------------------------------------------------
  // The similarity map
  // ---------------------------------------------------------------------------

  function PairEntries(rows: seq<Row>): (r: seq<((WorldId, WorldId), real)>)
    ensures |r| == |rows|
    ensures forall i :: 0 <= i < |rows| ==> r[i] == (UnorderedPair(rows[i].worldA, rows[i].worldB), rows[i].strength)
  {
    seq(|rows|, i requires 0 <= i < |rows| => (UnorderedPair(rows[i].worldA, rows[i].worldB), rows[i].strength))
  }

  /** The links of `worlds_similarity_map` for the rows the query returned. */
  function MapLinks(rows: seq<Row>, minStrength: real, minCount: int, linkLimit: int): seq<Scored<(WorldId, WorldId)>> {
    var t := Aggregate(PairEntries(rows));
    AggregateSound(PairEntries(rows));
    Rank(Candidates(t, minCount, minStrength, |t.order|), linkLimit)
  }

  /** The rows joining `x` and `y`, in either direction, in query order. */
  function Between(rows: seq<Row>, x: WorldId, y: WorldId): (r: seq<Row>)
    ensures |r| <= |rows|
  {
    if rows == [] then []
    else
      var r := rows[|rows| - 1];
      Between(rows[..|rows| - 1], x, y) + (if (r.worldA == x && r.worldB == y) || (r.worldA == y && r.worldB == x) then [r] else [])
  }

  function TotalStrength(rows: seq<Row>): real {
    if rows == [] then 0.0 else TotalStrength(rows[..|rows| - 1]) + rows[|rows| - 1].strength
  }

  lemma TotalStrengthAppend(rows: seq<Row>, r: Row)
    ensures TotalStrength(rows + [r]) == TotalStrength(rows) + r.strength
  {
    assert (rows + [r])[..|rows|] == rows;
  }

  /** The key of a pair counts and sums exactly the rows between its two
      worlds, in either direction. */
  lemma {:induction false} PairTotals(rows: seq<Row>, x: WorldId, y: WorldId)
    ensures CountKey(PairEntries(rows), UnorderedPair(x, y)) == |Between(rows, x, y)|
    ensures SumKey(PairEntries(rows), UnorderedPair(x, y)) == TotalStrength(Between(rows, x, y))
  {
    if rows != [] {
      var init := rows[..|rows| - 1];
      var r := rows[|rows| - 1];
      assert PairEntries(rows)[..|rows| - 1] == PairEntries(init);
      PairTotals(init, x, y);
      PairKey(r.worldA, r.worldB, x, y);
      assert PairEntries(rows)[|rows| - 1] == (UnorderedPair(r.worldA, r.worldB), r.strength);
      if (r.worldA == x && r.worldB == y) || (r.worldA == y && r.worldB == x) {
        assert Between(rows, x, y) == Between(init, x, y) + [r];
        TotalStrengthAppend(Between(init, x, y), r);
      } else {
        assert Between(rows, x, y) == Between(init, x, y);
      }
    }
  }

  /** `worlds_similarity_map`: the two loops, then the sort and the cut. */
  method WorldsSimilarityMap(rows: seq<Row>, minStrength: real, minCount: int, linkLimit: int)
    returns (links: seq<Scored<(WorldId, WorldId)>>)
    ensures links == MapLinks(rows, minStrength, minCount, linkLimit)
  {
    var t := Tabulate(PairEntries(rows));
    AggregateSound(PairEntries(rows));
    links := CollectCandidates(t, minCount, minStrength);
    links := Text.Take(Sorting.Sort(links, (x: Scored<(WorldId, WorldId)>, y: Scored<(WorldId, WorldId)>) => StrongerFirst(x, y)), linkLimit);
  }

  /** The two worlds have rows between them, enough of them and strong
      enough on average to make a link. */
  predicate Qualifies(rows: seq<Row>, a: WorldId, b: WorldId, minCount: int, minStrength: real) {
    var n := |Between(rows, a, b)|;
    n >= 1 && n >= minCount && TotalStrength(Between(rows, a, b)) / n as real >= minStrength
  }

  /** The link the rows between two worlds make. */
  function PairScore(rows: seq<Row>, a: WorldId, b: WorldId): Scored<(WorldId, WorldId)>
    requires |Between(rows, a, b)| >= 1
  {
    var n := |Between(rows, a, b)|;
    Scored(UnorderedPair(a, b), TotalStrength(Between(rows, a, b)) / n as real, n)
  }

  /** Every link is a key in string order whose count and strength are the
      number and the average strength of the rows between its two worlds in
      either direction, reaching both minima; the list is ranked strongest
      first, holds each pair once, and is cut to `linkLimit`: a qualifying
      pair left out is no stronger than any link kept. */
  lemma MapLinksSound(rows: seq<Row>, minStrength: real, minCount: int, linkLimit: int)
    ensures var links := MapLinks(rows, minStrength, minCount, linkLimit);
      && Sorting.SortedBy(links, (x: Scored<(WorldId, WorldId)>, y: Scored<(WorldId, WorldId)>) => StrongerFirst(x, y))
      && (linkLimit >= 0 ==> |links| <= linkLimit)
      && DistinctKeys(links)
      && (forall l, a, b :: l in links && Qualifies(rows, a, b, minCount, minStrength) && UnorderedPair(a, b) !in Keys(links) ==>
            StrongerFirst(l, PairScore(rows, a, b)))
      && (forall l :: l in links ==>
            && Text.LexLe(l.key.0, l.key.1)
            && l.count == |Between(rows, l.key.0, l.key.1)| && l.count >= 1
            && l.strength == TotalStrength(Between(rows, l.key.0, l.key.1)) / l.count as real
            && l.count >= minCount && l.strength >= minStrength)
  {
    var entries := PairEntries(rows);
    var t := Aggregate(entries);
    AggregateSound(entries);
    var cands := Candidates(t, minCount, minStrength, |t.order|);
    CandidatesSound(t, minCount, minStrength, |t.order|);
    CandidatesDistinct(t, minCount, minStrength, |t.order|);
    RankSound(cands, linkLimit);
    var links := MapLinks(rows, minStrength, minCount, linkLimit);
    LinksOutrankLeftOut(rows, minStrength, minCount, linkLimit);
    forall l | l in links
      ensures Text.LexLe(l.key.0, l.key.1) && l.count == |Between(rows, l.key.0, l.key.1)|
      ensures l.strength == TotalStrength(Between(rows, l.key.0, l.key.1)) / l.count as real
    {
      LinkTotals(rows, minStrength, minCount, linkLimit, l);
    }
  }

  /** A link's key is in string order and its count and strength are those
      of the rows between its two worlds. */
  lemma LinkTotals(rows: seq<Row>, minStrength: real, minCount: int, linkLimit: int, l: Scored<(WorldId, WorldId)>)
    requires l in MapLinks(rows, minStrength, minCount, linkLimit)
    ensures Text.LexLe(l.key.0, l.key.1) && l.count == |Between(rows, l.key.0, l.key.1)| && l.count >= 1
    ensures l.strength == TotalStrength(Between(rows, l.key.0, l.key.1)) / l.count as real
  {
    var entries := PairEntries(rows);
    var t := Aggregate(entries);
    AggregateSound(entries);
    var cands := Candidates(t, minCount, minStrength, |t.order|);
    CandidatesSound(t, minCount, minStrength, |t.order|);
    RankSound(cands, linkLimit);
    assert l in cands;
    AggregateKeys(entries, l.key);
    var i :| 0 <= i < |entries| && entries[i].0 == l.key;
    assert l.key == UnorderedPair(rows[i].worldA, rows[i].worldB);
    OrderedPairIsKey(l.key.0, l.key.1);
    PairTotals(rows, l.key.0, l.key.1);
  }

  /** No qualifying pair left out of the links is stronger than a link. */
  lemma LinksOutrankLeftOut(rows: seq<Row>, minStrength: real, minCount: int, linkLimit: int)
    ensures var links := MapLinks(rows, minStrength, minCount, linkLimit);
      forall l, a, b :: l in links && Qualifies(rows, a, b, minCount, minStrength) && UnorderedPair(a, b) !in Keys(links) ==>
        StrongerFirst(l, PairScore(rows, a, b))
  {
    var t := Aggregate(PairEntries(rows));
    AggregateSound(PairEntries(rows));
    var cands := Candidates(t, minCount, minStrength, |t.order|);
    var links := MapLinks(rows, minStrength, minCount, linkLimit);
    RankOutranksLeftOut(cands, linkLimit);
    forall l, a, b | l in links && Qualifies(rows, a, b, minCount, minStrength) && UnorderedPair(a, b) !in Keys(links)
      ensures StrongerFirst(l, PairScore(rows, a, b))
    {
      LeftOutCandidate(rows, minStrength, minCount, linkLimit, a, b);
    }
  }

  /** The top-`limit` half of RankSound on its own. */
  lemma RankOutranksLeftOut<K(!new)>(candidates: seq<Scored<K>>, limit: int)
    ensures var r := Rank(candidates, limit);
      forall x, c :: x in r && c in multiset(candidates) - multiset(r) ==> StrongerFirst(x, c)
  {
    RankSound(candidates, limit);
  }

  /** A qualifying pair whose key is not among the links is a candidate
      the cut left out. */
  lemma LeftOutCandidate(rows: seq<Row>, minStrength: real, minCount: int, linkLimit: int, a: WorldId, b: WorldId)
    requires Qualifies(rows, a, b, minCount, minStrength)
    requires UnorderedPair(a, b) !in Keys(MapLinks(rows, minStrength, minCount, linkLimit))
    ensures var t := Aggregate(PairEntries(rows));
      var links := MapLinks(rows, minStrength, minCount, linkLimit);
      WellFormed(t) && PairScore(rows, a, b) in multiset(Candidates(t, minCount, minStrength, |t.order|)) - multiset(links)
  {
    AggregateSound(PairEntries(rows));
    var links := MapLinks(rows, minStrength, minCount, linkLimit);
    var s := QualifyingCandidate(rows, minStrength, minCount, a, b);
    assert s in links ==> s.key in Keys(links);
  }

  /** A qualifying pair is a candidate of the map, with its count and
      average strength. */
  lemma QualifyingCandidate(rows: seq<Row>, minStrength: real, minCount: int, a: WorldId, b: WorldId)
    returns (s: Scored<(WorldId, WorldId)>)
    requires Qualifies(rows, a, b, minCount, minStrength)
    ensures var t := Aggregate(PairEntries(rows));
      WellFormed(t) && s in Candidates(t, minCount, minStrength, |t.order|) && s == PairScore(rows, a, b)
  {
    var entries := PairEntries(rows);
    var t := Aggregate(entries);
    AggregateSound(entries);
    PairTotals(rows, a, b);
    var k := UnorderedPair(a, b);
    assert k in t.order;
    assert t.order[..|t.order|] == t.order;
    CandidatesComplete(t, minCount, minStrength, |t.order|, k);
    CandidatesSound(t, minCount, minStrength, |t.order|);
    s :| s in Candidates(t, minCount, minStrength, |t.order|) && s.key == k;
  }

  /** Every pair whose rows are enough in number and strong enough on
      average is among the links, when there are no more rows than
      `linkLimit` or the map holds fewer than `linkLimit` links. */
  lemma MapLinksComplete(rows: seq<Row>, minStrength: real, minCount: int, linkLimit: int, a: WorldId, b: WorldId)
    requires |rows| <= linkLimit || |MapLinks(rows, minStrength, minCount, linkLimit)| < linkLimit
    requires Qualifies(rows, a, b, minCount, minStrength)
    ensures PairScore(rows, a, b) in MapLinks(rows, minStrength, minCount, linkLimit)
  {
    var entries := PairEntries(rows);
    var t := Aggregate(entries);
    var s := QualifyingCandidate(rows, minStrength, minCount, a, b);
    var cands := Candidates(t, minCount, minStrength, |t.order|);
    OrderSize(entries);
    RankSound(cands, linkLimit);
    assert s in multiset(MapLinks(rows, minStrength, minCount, linkLimit));
  }

  /** `linked_world_ids`: both ends of every link. */
  function LinkedWorlds(links: seq<Scored<(WorldId, WorldId)>>): (r: set<WorldId>)
    ensures forall w :: w in r <==> exists l :: l in links && (l.key.0 == w || l.key.1 == w)
  {
    (set l | l in links :: l.key.0) + (set l | l in links :: l.key.1)
  }

  // ---------------------------------------------------------------------------
  // Neighbours of one world
  // ---------------------------------------------------------------------------

  /** `row.world_b if row.world_a == world_id else row.world_a`. */
  function NeighborOf(r: Row, w: WorldId): WorldId {
    if r.worldA == w then r.worldB else r.worldA
  }

  function NeighborEntries(rows: seq<Row>, w: WorldId): (r: seq<(WorldId, real)>)
    ensures |r| == |rows|
    ensures forall i :: 0 <= i < |rows| ==> r[i] == (NeighborOf(rows[i], w), rows[i].strength)
  {
    seq(|rows|, i requires 0 <= i < |rows| => (NeighborOf(rows[i], w), rows[i].strength))
  }

  /** The query returns only rows with `w` at one end. */
  predicate Touches(rows: seq<Row>, w: WorldId) {
    forall r :: r in rows ==> r.worldA == w || r.worldB == w
  }

  /** A neighbour other than `w` counts and sums the rows between it and
      `w`, from both directions. */
  lemma {:induction false} NeighborTotals(rows: seq<Row>, w: WorldId, n: WorldId)
    requires Touches(rows, w) && n != w
    ensures CountKey(NeighborEntries(rows, w), n) == |Between(rows, w, n)|
    ensures SumKey(NeighborEntries(rows, w), n) == TotalStrength(Between(rows, w, n))
  {
    if rows != [] {
      var init := rows[..|rows| - 1];
      var r := rows[|rows| - 1];
      var es := NeighborEntries(rows, w);
      var ei := NeighborEntries(init, w);
      assert es[..|rows| - 1] == ei;
      assert es[|rows| - 1] == (NeighborOf(r, w), r.strength);
      assert CountKey(es, n) == CountKey(ei, n) + (if NeighborOf(r, w) == n then 1 else 0);
      assert SumKey(es, n) == SumKey(ei, n) + (if NeighborOf(r, w) == n then r.strength else 0.0);
      assert Touches(init, w) by {
        forall x | x in init ensures x.worldA == w || x.worldB == w {
          assert x in rows;
        }
      }
      NeighborTotals(init, w, n);
      assert r in rows;
      var between := (r.worldA == w && r.worldB == n) || (r.worldA == n && r.worldB == w);
      assert Between(rows, w, n) == Between(init, w, n) + (if between then [r] else []);
      if between {
        assert NeighborOf(r, w) == n;
        TotalStrengthAppend(Between(init, w, n), r);
      } else {
        assert NeighborOf(r, w) != n;
        assert Between(init, w, n) + [] == Between(init, w, n);
      }
    }
  }

  /** What the route reads of a `worlds` row. */
  datatype WorldInfo = WorldInfo(seedPrompt: string, status: string)

  datatype NeighborOut = NeighborOut(worldId: WorldId, seedPrompt: string, status: string, strength: real, count: nat)

  /** The ranked neighbours that have a world row, in rank order. */
  function Resolve(ranked: seq<Scored<WorldId>>, worlds: map<WorldId, WorldInfo>): (r: seq<NeighborOut>)
    ensures |r| <= |ranked|
    ensures forall o :: o in r ==> o.worldId in worlds && exists s :: s in ranked && s.key == o.worldId && s.strength == o.strength && s.count == o.count
  {
    if ranked == [] then []
    else
      var rest := Resolve(ranked[..|ranked| - 1], worlds);
      var s := ranked[|ranked| - 1];
      assert forall x :: x in ranked[..|ranked| - 1] ==> x in ranked;
      if s.key in worlds then rest + [NeighborOutOf(s, worlds)]
      else rest
  }

  /** `world_neighbors` for the rows the query returned and the world rows
      of the ranked ids. The count filter is absent: every neighbour has at
      least one row. */
  function Neighbors(rows: seq<Row>, w: WorldId, limit: int, minStrength: real, worlds: map<WorldId, WorldInfo>): seq<NeighborOut> {
    var t := Aggregate(NeighborEntries(rows, w));
    AggregateSound(NeighborEntries(rows, w));
    Resolve(Rank(Candidates(t, 0, minStrength, |t.order|), limit), worlds)
  }

  /** `world_neighbors`: the aggregation loop, the filter loop, the sort and
      cut, then the loop that drops ids without a world row. */
  method WorldNeighbors(rows: seq<Row>, w: WorldId, limit: int, minStrength: real, worlds: map<WorldId, WorldInfo>)
    returns (out: seq<NeighborOut>)
    ensures out == Neighbors(rows, w, limit, minStrength, worlds)
  {
    var t := Tabulate(NeighborEntries(rows, w));
    AggregateSound(NeighborEntries(rows, w));
    var ranked := CollectCandidates(t, 0, minStrength);
    if ranked == [] {
      assert Rank(ranked, limit) == [];
      return [];
    }
    ranked := Text.Take(Sorting.Sort(ranked, (x: Scored<WorldId>, y: Scored<WorldId>) => StrongerFirst(x, y)), limit);
    out := ResolveWorlds(ranked, worlds);
  }

  /** The last loop of `world_neighbors`. */
  method ResolveWorlds(ranked: seq<Scored<WorldId>>, worlds: map<WorldId, WorldInfo>) returns (out: seq<NeighborOut>)
    ensures out == Resolve(ranked, worlds)
  {
    out := [];
    var i := 0;
    while i < |ranked|
      invariant 0 <= i <= |ranked|
      invariant out == Resolve(ranked[..i], worlds)
    {
      var s := ranked[i];
      assert ranked[..i + 1][..i] == ranked[..i];
      if s.key in worlds {
        out := out + [NeighborOut(s.key, worlds[s.key].seedPrompt, worlds[s.key].status, s.strength, s.count)];
      }
      i := i + 1;
    }
    assert ranked[..|ranked|] == ranked;
  }

  /** The order of the ranking, on the neighbours it resolves to. */
  predicate NeighborFirst(x: NeighborOut, y: NeighborOut) {
    x.strength > y.strength || (x.strength == y.strength && x.count >= y.count)
  }

  /** Dropping the ids without a world row keeps the rank order and the
      distinct ids. */
  lemma {:induction false} ResolveOrdered(ranked: seq<Scored<WorldId>>, worlds: map<WorldId, WorldInfo>)
    requires Sorting.SortedBy(ranked, (x: Scored<WorldId>, y: Scored<WorldId>) => StrongerFirst(x, y))
    requires DistinctKeys(ranked)
    ensures var out := Resolve(ranked, worlds);
      Sorting.SortedBy(out, NeighborFirst)
      && forall i, j :: 0 <= i < j < |out| ==> out[i].worldId != out[j].worldId
  {
    if ranked != [] {
      var n := |ranked| - 1;
      var init := ranked[..n];
      var s := ranked[n];
      assert forall i :: 0 <= i < n ==> init[i] == ranked[i];
      ResolveOrdered(init, worlds);
      var rest := Resolve(init, worlds);
      if s.key in worlds {
        var o := NeighborOut(s.key, worlds[s.key].seedPrompt, worlds[s.key].status, s.strength, s.count);
        var out := rest + [o];
        assert Resolve(ranked, worlds) == out;
        forall x | x in rest ensures NeighborFirst(x, o) && x.worldId != o.worldId {
          var y :| y in init && y.key == x.worldId && y.strength == x.strength && y.count == x.count;
          var i :| 0 <= i < n && init[i] == y;
          assert StrongerFirst(ranked[i], ranked[n]);
        }
        forall i, j | 0 <= i < j < |out| ensures NeighborFirst(out[i], out[j]) && out[i].worldId != out[j].worldId {
          assert out[i] == rest[i];
          if j < |rest| {
            assert out[j] == rest[j];
          } else {
            assert out[i] in rest;
          }
        }
      }
    }
  }

  /** The entry the route gives a ranked id that has a world row. */
  function NeighborOutOf(s: Scored<WorldId>, worlds: map<WorldId, WorldInfo>): NeighborOut
    requires s.key in worlds
  {
    NeighborOut(s.key, worlds[s.key].seedPrompt, worlds[s.key].status, s.strength, s.count)
  }

  /** Only the ids without a world row are dropped: every ranked id that
      has one is returned, so nothing is lost when every id has a row. */
  lemma {:induction false} ResolveComplete(ranked: seq<Scored<WorldId>>, worlds: map<WorldId, WorldInfo>)
    ensures forall s :: s in ranked && s.key in worlds ==> NeighborOutOf(s, worlds) in Resolve(ranked, worlds)
    ensures (forall s :: s in ranked ==> s.key in worlds) ==> |Resolve(ranked, worlds)| == |ranked|
  {
    if ranked != [] {
      var init := ranked[..|ranked| - 1];
      var last := ranked[|ranked| - 1];
      ResolveComplete(init, worlds);
      var rest := Resolve(init, worlds);
      forall s | s in ranked && s.key in worlds ensures NeighborOutOf(s, worlds) in Resolve(ranked, worlds) {
        if s != last {
          assert s in init;
        }
      }
      if forall s :: s in ranked ==> s.key in worlds {
        assert forall s :: s in init ==> s in ranked;
        assert last in ranked;
      }
    }
  }

  /** The ids of the neighbours returned. */
  function WorldIds(out: seq<NeighborOut>): set<WorldId> {
    set o | o in out :: o.worldId
  }

  /** `v` is a neighbour of `w` the route's filter keeps: another world
      joined to `w` by at least one row, strong enough on average. */
  predicate IsNeighbor(rows: seq<Row>, w: WorldId, v: WorldId, minStrength: real) {
    var n := |Between(rows, w, v)|;
    v != w && n >= 1 && TotalStrength(Between(rows, w, v)) / n as real >= minStrength
  }

  /** The ranking entry the rows between `w` and `v` make. */
  function NeighborScore(rows: seq<Row>, w: WorldId, v: WorldId): Scored<WorldId>
    requires |Between(rows, w, v)| >= 1
  {
    var n := |Between(rows, w, v)|;
    Scored(v, TotalStrength(Between(rows, w, v)) / n as real, n)
  }

  /** A neighbour the filter keeps is a candidate, with its count and
      average strength. */
  lemma NeighborCandidate(rows: seq<Row>, w: WorldId, minStrength: real, v: WorldId)
    returns (s: Scored<WorldId>)
    requires Touches(rows, w) && IsNeighbor(rows, w, v, minStrength)
    ensures var t := Aggregate(NeighborEntries(rows, w));
      WellFormed(t) && s in Candidates(t, 0, minStrength, |t.order|) && s == NeighborScore(rows, w, v)
  {
    var entries := NeighborEntries(rows, w);
    var t := Aggregate(entries);
    AggregateSound(entries);
    NeighborTotals(rows, w, v);
    assert v in t.order;
    assert t.order[..|t.order|] == t.order;
    CandidatesComplete(t, 0, minStrength, |t.order|, v);
    CandidatesSound(t, 0, minStrength, |t.order|);
    s :| s in Candidates(t, 0, minStrength, |t.order|) && s.key == v;
  }

  /** With no more rows than `limit`, every neighbour the filter keeps and
      that has a world row is returned, with its count and average. */
  lemma NeighborsComplete(rows: seq<Row>, w: WorldId, limit: int, minStrength: real, worlds: map<WorldId, WorldInfo>, v: WorldId)
    requires Touches(rows, w) && |rows| <= limit
    requires IsNeighbor(rows, w, v, minStrength) && v in worlds
    ensures NeighborOutOf(NeighborScore(rows, w, v), worlds) in Neighbors(rows, w, limit, minStrength, worlds)
  {
    var entries := NeighborEntries(rows, w);
    var t := Aggregate(entries);
    var s := NeighborCandidate(rows, w, minStrength, v);
    var cands := Candidates(t, 0, minStrength, |t.order|);
    OrderSize(entries);
    RankSound(cands, limit);
    var ranked := Rank(cands, limit);
    assert s in multiset(ranked);
    ResolveComplete(ranked, worlds);
  }

  /** No neighbour with a world row that the cut to `limit` left out is
      stronger than one returned. */
  lemma NeighborsOutrankLeftOut(rows: seq<Row>, w: WorldId, limit: int, minStrength: real, worlds: map<WorldId, WorldInfo>)
    requires Touches(rows, w)
    ensures var out := Neighbors(rows, w, limit, minStrength, worlds);
      forall o, v :: o in out && IsNeighbor(rows, w, v, minStrength) && v in worlds && v !in WorldIds(out) ==>
        NeighborFirst(o, NeighborOutOf(NeighborScore(rows, w, v), worlds))
  {
    var t := Aggregate(NeighborEntries(rows, w));
    AggregateSound(NeighborEntries(rows, w));
    var cands := Candidates(t, 0, minStrength, |t.order|);
    var ranked := Rank(cands, limit);
    var out := Neighbors(rows, w, limit, minStrength, worlds);
    RankOutranksLeftOut(cands, limit);
    ResolveComplete(ranked, worlds);
    forall o, v | o in out && IsNeighbor(rows, w, v, minStrength) && v in worlds && v !in WorldIds(out)
      ensures NeighborFirst(o, NeighborOutOf(NeighborScore(rows, w, v), worlds))
    {
      var s := NeighborCandidate(rows, w, minStrength, v);
      assert s in ranked ==> NeighborOutOf(s, worlds) in out;
      assert NeighborOutOf(s, worlds) in out ==> v in WorldIds(out);
      assert s in multiset(cands) - multiset(ranked);
      var x :| x in ranked && x.key == o.worldId && x.strength == o.strength && x.count == o.count;
      assert StrongerFirst(x, s);
    }
  }

  /** The neighbours are distinct worlds with a row, at most `limit`, ranked
      strongest first, each reaching `minStrength` and counting the rows
      between it and `w` in both directions. */
  lemma NeighborsSound(rows: seq<Row>, w: WorldId, limit: int, minStrength: real, worlds: map<WorldId, WorldInfo>)
    requires Touches(rows, w)
    ensures var out := Neighbors(rows, w, limit, minStrength, worlds);
      && (limit >= 0 ==> |out| <= limit)
      && Sorting.SortedBy(out, NeighborFirst)
      && (forall i, j :: 0 <= i < j < |out| ==> out[i].worldId != out[j].worldId)
      && (forall o :: o in out ==> o.worldId in worlds && o.strength >= minStrength && o.count >= 1)
      && (forall o :: o in out && o.worldId != w ==>
            && o.count == |Between(rows, w, o.worldId)|
            && o.strength == TotalStrength(Between(rows, w, o.worldId)) / o.count as real)
  {
    var entries := NeighborEntries(rows, w);
    var t := Aggregate(entries);
    AggregateSound(entries);
    var cands := Candidates(t, 0, minStrength, |t.order|);
    CandidatesSound(t, 0, minStrength, |t.order|);
    CandidatesDistinct(t, 0, minStrength, |t.order|);
    RankSound(cands, limit);
    var ranked := Rank(cands, limit);
    ResolveOrdered(ranked, worlds);
    forall o | o in Neighbors(rows, w, limit, minStrength, worlds)
      ensures o.strength >= minStrength && o.count >= 1
      ensures o.worldId != w ==> o.count == |Between(rows, w, o.worldId)|
      ensures o.worldId != w ==> o.strength == TotalStrength(Between(rows, w, o.worldId)) / o.count as real
    {
      var s :| s in ranked && s.key == o.worldId && s.strength == o.strength && s.count == o.count;
      assert s in cands;
      if o.worldId != w {
        NeighborTotals(rows, w, o.worldId);
      }
    }
  }

  // ---------------------------------------------------------------------------
  // Global search
  // ---------------------------------------------------------------------------

  datatype WikiRow = WikiRow(id: string, worldId: WorldId, title: string, content: string)
  datatype AgentRow = AgentRow(id: string, worldId: WorldId, name: string, role: string)

  datatype Hit = Hit(entityType: string, entityId: string, worldId: WorldId, title: string, snippet: string, score: real)

  const SearchLimit: int := 20
  const SnippetWidth: int := 150

  /** A wiki hit scores 1.0 when the query occurs in the title, ignoring
      case, and 0.5 when it only matched the content. */
  function WikiHit(q: string, p: WikiRow): (h: Hit)
    ensures h.score == 1.0 <==> Text.Contains(Text.Lower(p.title), Text.Lower(q))
    ensures h.score == 0.5 <==> !Text.Contains(Text.Lower(p.title), Text.Lower(q))
    ensures h.entityType == "wiki_page" && h.title == p.title && |h.snippet| <= 150
  {
    Hit("wiki_page", p.id, p.worldId, p.title, Text.Take(p.content, SnippetWidth),
        if Text.Contains(Text.Lower(p.title), Text.Lower(q)) then 1.0 else 0.5)
  }

  /** An agent hit always scores 0.8; its snippet is the persona's role. */
  function AgentHit(a: AgentRow): (h: Hit)
    ensures h.entityType == "agent" && h.score == 0.8 && h.title == a.name
  {
    Hit("agent", a.id, a.worldId, a.name, a.role, 0.8)
  }

  predicate HigherScore(x: Hit, y: Hit) {
    x.score >= y.score
  }

  /** Wiki hits, then agent hits, in query order. */
  function Hits(q: string, pages: seq<WikiRow>, agents: seq<AgentRow>): (r: seq<Hit>)
    ensures |r| == |pages| + |agents|
    ensures forall h :: h in r && h.entityType == "agent" ==> exists a :: a in agents && h == AgentHit(a)
    ensures forall h :: h in r && h.entityType == "wiki_page" ==> exists p :: p in pages && h == WikiHit(q, p)
    ensures forall h :: h in r ==> h.score == 1.0 || h.score == 0.8 || h.score == 0.5
  {
    var r := seq(|pages|, i requires 0 <= i < |pages| => WikiHit(q, pages[i]))
           + seq(|agents|, i requires 0 <= i < |agents| => AgentHit(agents[i]));
    assert forall h :: h in r ==> exists i :: 0 <= i < |r| && r[i] == h;
    r
  }

  /** Sorted by score descending and cut to 20. */
  function Search(q: string, pages: seq<WikiRow>, agents: seq<AgentRow>): seq<Hit> {
    Text.Take(Sorting.Sort(Hits(q, pages, agents), HigherScore), SearchLimit)
  }

  /** `global_search` on the pages and agents the two queries returned. */
  method GlobalSearch(q: string, pages: seq<WikiRow>, agents: seq<AgentRow>) returns (results: seq<Hit>)
    ensures results == Search(q, pages, agents)
  {
    results := [];
    var i := 0;
    while i < |pages|
      invariant 0 <= i <= |pages|
      invariant results == seq(i, k requires 0 <= k < i => WikiHit(q, pages[k]))
    {
      var p := pages[i];
      var titleMatch := Text.Contains(Text.Lower(p.title), Text.Lower(q));
      results := results + [Hit("wiki_page", p.id, p.worldId, p.title, Text.Take(p.content, SnippetWidth), if titleMatch then 1.0 else 0.5)];
      i := i + 1;
    }
    ghost var wiki := results;
    var j := 0;
    while j < |agents|
      invariant 0 <= j <= |agents|
      invariant results == wiki + seq(j, k requires 0 <= k < j => AgentHit(agents[k]))
    {
      var a := agents[j];
      results := results + [Hit("agent", a.id, a.worldId, a.name, a.role, 0.8)];
      j := j + 1;
    }
    assert results == Hits(q, pages, agents);
    results := Text.Take(Sorting.Sort(results, HigherScore), SearchLimit);
  }

  /** The 20 best-scored hits (all of them when there are no more than 20),
      best score first, each one a hit of the two queries with one of the
      three scores; no hit left out scores higher than one kept. */
  lemma SearchSound(q: string, pages: seq<WikiRow>, agents: seq<AgentRow>)
    ensures var r := Search(q, pages, agents);
      && |r| == (if |pages| + |agents| < 20 then |pages| + |agents| else 20)
      && Sorting.SortedBy(r, HigherScore)
      && multiset(r) <= multiset(Hits(q, pages, agents))
      && (forall h, x :: h in r && x in multiset(Hits(q, pages, agents)) - multiset(r) ==> h.score >= x.score)
      && (forall h :: h in r ==> h.score == 1.0 || h.score == 0.8 || h.score == 0.5)
      && (forall h :: h in r && h.entityType == "agent" ==> exists a :: a in agents && h == AgentHit(a))
      && (forall h :: h in r && h.entityType == "wiki_page" ==> exists p :: p in pages && h == WikiHit(q, p))
  {
    var hits := Hits(q, pages, agents);
    Sorting.SortedPrefix(hits, HigherScore, SearchLimit);
    var r := Search(q, pages, agents);
    forall h, x | h in r && x in multiset(hits) - multiset(r) ensures h.score >= x.score {
      assert HigherScore(h, x);
    }
  }
}
