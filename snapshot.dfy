/**
 The snapshot reader: the state of the universe at one instant, merged from every stored
 single-agent record whose range contains that instant. Later records win on a shared agent.
 */
module Snapshot {
  import opened Agents
  import opened RangeStore

  /** `reduce(__or__, ms, acc)`: fold the maps left to right with right-biased union. */
  function Merge<K, W>(acc: map<K, W>, ms: seq<map<K, W>>): (m: map<K, W>)
    ensures acc.Keys <= m.Keys
    ensures ms != [] ==> forall k :: k in ms[|ms| - 1] ==> k in m && m[k] == ms[|ms| - 1][k]
    decreases |ms|
  {
    if ms == [] then acc else Merge(acc + ms[0], ms[1..])
  }

  /** The index of the last map holding `k`, or -1 when none does. */
  function LastWith<K, W>(ms: seq<map<K, W>>, k: K): (j: int)
    ensures -1 <= j < |ms|
    ensures j >= 0 ==> k in ms[j]
    ensures forall j' :: j < j' < |ms| ==> k !in ms[j']
    decreases |ms|
  {
    if ms == [] then -1
    else if k in ms[|ms| - 1] then |ms| - 1
    else LastWith(ms[..|ms| - 1], k)
  }

  /** What the fold gives for one key: the value of the last map holding it, or, when no map
      holds it, whatever the starting map had. */
  lemma {:induction false} MergeAt<K, W>(acc: map<K, W>, ms: seq<map<K, W>>, k: K, j: int)
    requires -1 <= j < |ms|
    requires j >= 0 ==> k in ms[j]
    requires forall j' :: j < j' < |ms| ==> k !in ms[j']
    ensures j >= 0 ==> k in Merge(acc, ms) && Merge(acc, ms)[k] == ms[j][k]
    ensures j < 0 ==> (k in Merge(acc, ms) <==> k in acc)
    ensures j < 0 && k in acc ==> Merge(acc, ms)[k] == acc[k]
    decreases |ms|
  {
    if ms != [] {
      MergeAt(acc + ms[0], ms[1..], k, if j >= 1 then j - 1 else -1);
    }
  }

  /** The snapshot at `t`: the fold of every answer of a query at `t`. */
  function SnapshotAt(recs: seq<Record<Universe>>, t: real): Universe {
    Merge(map[], Matching(recs, t))
  }

  /** `read(t)`: a query that finds nothing gives the empty snapshot, otherwise the fold of its
      answers; both paths agree with `SnapshotAt`. */
  function Read(store: QRangeStore<Universe>, t: real): (u: Universe)
    reads store
    ensures store.Get(t).Err? ==> u == map[]
    ensures u == SnapshotAt(store.records, t)
  {
    MatchingEmptyIff(store.records, t);
    match store.Get(t)
    case Err(_) => map[]
    case Ok(data) => Merge(map[], data)
  }

  /** Record `i` is the last record covering `t` that holds agent `a`. */
  ghost predicate LastCovering(recs: seq<Record<Universe>>, t: real, a: AgentId, i: int) {
    && 0 <= i < |recs| && Covers(recs[i], t) && a in recs[i].value
    && forall i' :: i < i' < |recs| && Covers(recs[i'], t) ==> a !in recs[i'].value
  }

  /** The last answer of a query holding `a` comes from the last covering record holding `a`. */
  lemma LastHitIsLastCovering(recs: seq<Record<Universe>>, t: real, a: AgentId)
    requires LastWith(Matching(recs, t), a) >= 0
    ensures |Hits(recs, t)| == |Matching(recs, t)|
    ensures LastCovering(recs, t, a, Hits(recs, t)[LastWith(Matching(recs, t), a)])
  {
    MatchingByHits(recs, t);
    var hs := Hits(recs, t);
    var data := Matching(recs, t);
    var j := LastWith(data, a);
    var i := hs[j];
    assert data[j] == recs[i].value;
    forall i' | i < i' < |recs| && Covers(recs[i'], t)
      ensures a !in recs[i'].value
    {
      assert i' in hs;
      var j' :| 0 <= j' < |hs| && hs[j'] == i';
      if j' <= j {
        assert false;
      }
      assert data[j'] == recs[i'].value;
    }
  }

  /** When no answer of a query holds `a`, no covering record holds it. */
  lemma NoHitNoCovering(recs: seq<Record<Universe>>, t: real, a: AgentId)
    requires LastWith(Matching(recs, t), a) < 0
    ensures forall i :: 0 <= i < |recs| && Covers(recs[i], t) ==> a !in recs[i].value
  {
    MatchingByHits(recs, t);
    var hs := Hits(recs, t);
    var data := Matching(recs, t);
    forall i | 0 <= i < |recs| && Covers(recs[i], t)
      ensures a !in recs[i].value
    {
      var j' :| 0 <= j' < |hs| && hs[j'] == i;
      assert data[j'] == recs[i].value;
    }
  }

  /** An agent is in the snapshot at `t` exactly when some record covering `t` holds it, and its
      state there is the one from the LAST such record in insertion order. */
  lemma ReadAgrees(recs: seq<Record<Universe>>, t: real, a: AgentId)
    ensures a in SnapshotAt(recs, t) <==> exists i :: 0 <= i < |recs| && Covers(recs[i], t) && a in recs[i].value
    ensures a in SnapshotAt(recs, t) ==>
              exists i :: LastCovering(recs, t, a, i) && SnapshotAt(recs, t)[a] == recs[i].value[a]
  {
    MatchingByHits(recs, t);
    var data := Matching(recs, t);
    var j := LastWith(data, a);
    MergeAt(map[], data, a, j);
    if j >= 0 {
      LastHitIsLastCovering(recs, t, a);
      var i := Hits(recs, t)[j];
      assert data[j] == recs[i].value;
    } else {
      NoHitNoCovering(recs, t, a);
    }
  }

  /** The agents held by some record whose range contains `t`. */
  ghost function CoveredAgents(recs: seq<Record<Universe>>, t: real): set<AgentId> {
    set i, a | 0 <= i < |recs| && Covers(recs[i], t) && a in recs[i].value :: a
  }

  /** The snapshot's key set is the set of agents some covering record holds. */
  lemma ReadKeys(recs: seq<Record<Universe>>, t: real)
    ensures SnapshotAt(recs, t).Keys == CoveredAgents(recs, t)
  {
    forall a ensures a in SnapshotAt(recs, t) <==> a in CoveredAgents(recs, t) {
      ReadAgrees(recs, t, a);
    }
  }

  /** When exactly one record covers `t`, the snapshot at `t` is that record's value. */
  lemma ReadSingleCover(recs: seq<Record<Universe>>, t: real, k: nat)
    requires k < |recs| && Covers(recs[k], t)
    requires forall i :: 0 <= i < |recs| && i != k ==> !Covers(recs[i], t)
    ensures SnapshotAt(recs, t) == recs[k].value
  {
    forall a ensures a in SnapshotAt(recs, t) <==> a in recs[k].value {
      ReadAgrees(recs, t, a);
    }
    forall a | a in SnapshotAt(recs, t) ensures SnapshotAt(recs, t)[a] == recs[k].value[a] {
      ReadAgrees(recs, t, a);
    }
  }
}
