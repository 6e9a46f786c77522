/**
 The Q-Range key-value store: an append-only list of `(low, high, value)` triples keyed
 by half-open ranges `[low, high)`. A point query returns, in insertion order, the values
 of every triple whose range contains the point.
 */
module RangeStore {

  /** One stored triple: `value` holds over the half-open range `[low, high)`. */
  datatype Record<V> = Record(low: real, high: real, value: V)

  /** The two `IndexError` messages of the store. */
  datatype StoreError = InvalidRange | NotFound

  /** The result of a query: the matching values, or an error. */
  datatype Result<T> = Ok(value: T) | Err(error: StoreError)

  /** The result of an insertion. */
  datatype Outcome = Pass | Fail(error: StoreError)

  /** The range of `r` contains `key`: left-inclusive, right-exclusive. */
  predicate Covers<V>(r: Record<V>, key: real) {
    r.low <= key < r.high
  }

  /** The values of the records whose range contains `key`, scanned front to back. */
  function Matching<V>(recs: seq<Record<V>>, key: real): (vs: seq<V>)
    ensures |vs| <= |recs|
  {
    if recs == [] then []
    else (if Covers(recs[0], key) then [recs[0].value] else []) + Matching(recs[1..], key)
  }

  /** Reference definition of a query: the positions of the covering records, in increasing order. */
  function Hits<V>(recs: seq<Record<V>>, key: real): (hs: seq<nat>)
    ensures forall j :: 0 <= j < |hs| ==> hs[j] < |recs| && Covers(recs[hs[j]], key)
    ensures forall j, k :: 0 <= j < k < |hs| ==> hs[j] < hs[k]
    ensures forall i :: 0 <= i < |recs| && Covers(recs[i], key) ==> i in hs
    decreases |recs|
  {
    if recs == [] then []
    else
      var n := |recs| - 1;
      Hits(recs[..n], key) + (if Covers(recs[n], key) then [n] else [])
  }

  /** Appending a record extends the answer of every query by that record's value exactly
      when its range contains the key; the earlier answer is kept in front, unchanged. */
  lemma {:induction false} MatchingSnoc<V>(recs: seq<Record<V>>, r: Record<V>, key: real)
    ensures Matching(recs + [r], key) == Matching(recs, key) + (if Covers(r, key) then [r.value] else [])
  {
    if recs == [] {
      assert [r][1..] == [];
    } else {
      assert (recs + [r])[1..] == recs[1..] + [r];
      MatchingSnoc(recs[1..], r, key);
    }
  }

  /** A query answers exactly the values of the covering records, in insertion order. */
  lemma {:induction false} MatchingByHits<V>(recs: seq<Record<V>>, key: real)
    ensures |Matching(recs, key)| == |Hits(recs, key)|
    ensures forall j :: 0 <= j < |Hits(recs, key)| ==> Matching(recs, key)[j] == recs[Hits(recs, key)[j]].value
  {
    if recs != [] {
      var n := |recs| - 1;
      MatchingByHits(recs[..n], key);
      assert recs == recs[..n] + [recs[n]];
      MatchingSnoc(recs[..n], recs[n], key);
    }
  }

  /** A query finds nothing exactly when no stored range contains the key. */
  lemma MatchingEmptyIff<V>(recs: seq<Record<V>>, key: real)
    ensures Matching(recs, key) == [] <==> forall i :: 0 <= i < |recs| ==> !Covers(recs[i], key)
  {
    MatchingByHits(recs, key);
    var hs := Hits(recs, key);
    if hs != [] {
      assert Covers(recs[hs[0]], key);
    }
  }

  /** The store object. Its only state is the list of triples, which only ever grows. */
  class QRangeStore<V> {
    var records: seq<Record<V>>

    constructor ()
      ensures records == []
    {
      records := [];
    }

    /** `store[low, high] = value`: rejects an empty or inverted range, otherwise appends. */
    method Insert(low: real, high: real, value: V) returns (res: Outcome)
      modifies this
      ensures res.Fail? <==> !(low < high)
      ensures res.Fail? ==> res.error == InvalidRange && records == old(records)
      ensures res.Pass? ==> records == old(records) + [Record(low, high, value)]
    {
      if !(low < high) {
        return Fail(InvalidRange);
      }
      records := records + [Record(low, high, value)];
      res := Pass;
    }

    /** `store[key]`: the values whose range contains `key`, or `NotFound` when there are none. */
    function Get(key: real): (r: Result<seq<V>>)
      reads this
      ensures r.Err? <==> forall i :: 0 <= i < |records| ==> !Covers(records[i], key)
      ensures r.Err? ==> r.error == NotFound
      ensures r.Ok? ==> r.value == Matching(records, key) && r.value != []
    {
      MatchingEmptyIff(records, key);
      var ret := Matching(records, key);
      if ret == [] then Err(NotFound) else Ok(ret)
    }
  }

  /** The five records of the store's usage example, in insertion order. */
  function DocRecords(): seq<Record<string>> {
    [Record(0.0, 3.0, "Record A"), Record(3.0, 4.0, "Record B"), Record(0.0, 2.0, "Record C"),
     Record(2.0, 4.0, "Record D"), Record(8.0, 9.0, "Record E")]
  }

  /** The answer of a query at `key` contributed by one record: its value, or nothing. */
  function Hit<V>(r: Record<V>, key: real): seq<V> {
    if Covers(r, key) then [r.value] else []
  }

  /** A query over five records, unrolled. */
  lemma MatchingFive<V>(a: Record<V>, b: Record<V>, c: Record<V>, d: Record<V>, e: Record<V>, key: real)
    ensures Matching([a, b, c, d, e], key) == Hit(a, key) + Hit(b, key) + Hit(c, key) + Hit(d, key) + Hit(e, key)
  {
    var s1 := [] + [a];
    var s2 := s1 + [b];
    var s3 := s2 + [c];
    var s4 := s3 + [d];
    var s5 := s4 + [e];
    MatchingSnoc([], a, key);
    MatchingSnoc(s1, b, key);
    MatchingSnoc(s2, c, key);
    MatchingSnoc(s3, d, key);
    MatchingSnoc(s4, e, key);
    assert s5 == [a, b, c, d, e];
  }

  /** The usage example's queries over those records: overlapping ranges both answer, in
      insertion order, and a point on a range's upper bound is outside it. */
  lemma DocQueries()
    ensures Matching(DocRecords(), 2.1) == ["Record A", "Record D"]
    ensures Matching(DocRecords(), 8.0) == ["Record E"]
    ensures Matching(DocRecords(), 5.0) == [] && Matching(DocRecords(), 9.0) == []
  {
    var recs := DocRecords();
    MatchingFive(recs[0], recs[1], recs[2], recs[3], recs[4], 2.1);
    MatchingFive(recs[0], recs[1], recs[2], recs[3], recs[4], 8.0);
    MatchingFive(recs[0], recs[1], recs[2], recs[3], recs[4], 5.0);
    MatchingFive(recs[0], recs[1], recs[2], recs[3], recs[4], 9.0);
  }

  /** The store's own usage example: five insertions, one rejected range and four queries. */
  method DocExample() returns (bad: Outcome, at2_1: Result<seq<string>>, at8: Result<seq<string>>,
                               at5: Result<seq<string>>, at9: Result<seq<string>>)
    ensures bad == Fail(InvalidRange)
    ensures at2_1 == Ok(["Record A", "Record D"])
    ensures at8 == Ok(["Record E"])
    ensures at5 == Err(NotFound) && at9 == Err(NotFound)
  {
    var store := new QRangeStore<string>();
    var ok := store.Insert(0.0, 3.0, "Record A");
    ok := store.Insert(3.0, 4.0, "Record B");
    ok := store.Insert(0.0, 2.0, "Record C");
    ok := store.Insert(2.0, 4.0, "Record D");
    ok := store.Insert(8.0, 9.0, "Record E");
    bad := store.Insert(2.0, 0.0, "Record F");
    assert store.records == DocRecords();
    DocQueries();
    at2_1 := store.Get(2.1);
    at8 := store.Get(8.0);
    at5 := store.Get(5.0);
    at9 := store.Get(9.0);
  }
}
