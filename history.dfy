/**
 * The hidden-state cache shared by the recurrent layers (gru.h:30-34, gru.h:101-103 and
 * lstm.h:30-34, lstm.h:101-103): an h x cache matrix H whose column k holds time step
 * k+1. While fewer than `cache` steps have run, step t writes column t; after that every
 * step shifts the columns one place left, dropping the oldest, and writes the newest state
 * into the last column.
 */
module History {
  import opened Matrix

  function Min(a: nat, b: nat): nat
  {
    if a <= b then a else b
  }

  /**
   * H is an h x cache matrix holding, in order, the last min(|states|, cache) of the
   * states produced so far in its first columns, and zeros in the columns after them.
   */
  ghost predicate Holds(H: Mat, h: nat, cache: nat, states: seq<Vector>)
  {
    HasShape(H, h, cache)
    && (forall s :: 0 <= s < |states| ==> |states[s]| == h)
    && (forall i, k :: 0 <= i < h && 0 <= k < Min(|states|, cache) ==>
          H[i][k] == states[|states| - Min(|states|, cache) + k][i])
    && (forall i, k :: 0 <= i < h && Min(|states|, cache) <= k < cache ==> H[i][k] == 0.0)
  }

  /** A cleared cache holds the empty history. */
  lemma EmptyHistory(h: nat, cache: nat)
    ensures Holds(Zeros(h, cache), h, cache, [])
  {
  }

  /** The previous hidden state after t steps: the zero vector before the first step. */
  function Prev(H: Mat, h: nat, cache: nat, t: nat): (p: Vector)
    requires HasShape(H, h, cache)
    ensures |p| == h
    ensures t == 0 || cache == 0 ==> p == ZeroVector(h)
  {
    if t == 0 || cache == 0 then ZeroVector(h) else Column(H, cache, Min(t, cache) - 1)
  }

  /** The cache after step t stores the state v. */
  function Record(H: Mat, h: nat, cache: nat, t: nat, v: Vector): (H': Mat)
    requires HasShape(H, h, cache) && |v| == h && 1 <= cache
    ensures HasShape(H', h, cache)
    ensures t < cache ==> (forall i :: 0 <= i < h ==> H'[i][t] == v[i])
                          && (forall i, k :: 0 <= i < h && 0 <= k < cache && k != t ==> H'[i][k] == H[i][k])
    ensures cache <= t ==> (forall i, k :: 0 <= i < h && 0 <= k < cache - 1 ==> H'[i][k] == H[i][k + 1])
                           && (forall i :: 0 <= i < h ==> H'[i][cache - 1] == v[i])
  {
    if t < cache then SetColumn(H, cache, t, v) else ShiftLeft(H, cache, v)
  }

  /** Recording the next state keeps the cache holding the last `cache` states, oldest first. */
  lemma RecordKeepsWindow(H: Mat, h: nat, cache: nat, states: seq<Vector>, v: Vector)
    requires 1 <= cache && Holds(H, h, cache, states) && |v| == h
    ensures Holds(Record(H, h, cache, |states|, v), h, cache, states + [v])
  {
    if |states| < cache {
      RecordWhileFilling(H, h, cache, states, v);
    } else {
      RecordWhenFull(H, h, cache, states, v);
    }
  }

  /** While the cache has room, the new state goes into the first zero column. */
  lemma RecordWhileFilling(H: Mat, h: nat, cache: nat, states: seq<Vector>, v: Vector)
    requires 1 <= cache && Holds(H, h, cache, states) && |v| == h && |states| < cache
    ensures Holds(Record(H, h, cache, |states|, v), h, cache, states + [v])
  {
    var H' := Record(H, h, cache, |states|, v);
    var states' := states + [v];
    assert Min(|states|, cache) == |states| && Min(|states'|, cache) == |states'|;
    forall i, k | 0 <= i < h && 0 <= k < |states'|
      ensures H'[i][k] == states'[k][i]
    {
      if k < |states| {
        assert H'[i][k] == H[i][k];
      }
    }
  }

  /** Once the cache is full, the oldest state drops out and the new one takes the last column. */
  lemma RecordWhenFull(H: Mat, h: nat, cache: nat, states: seq<Vector>, v: Vector)
    requires 1 <= cache && Holds(H, h, cache, states) && |v| == h && cache <= |states|
    ensures Holds(Record(H, h, cache, |states|, v), h, cache, states + [v])
  {
    var H' := Record(H, h, cache, |states|, v);
    var states' := states + [v];
    assert Min(|states|, cache) == cache && Min(|states'|, cache) == cache;
    forall i, k | 0 <= i < h && 0 <= k < cache
      ensures H'[i][k] == states'[|states'| - cache + k][i]
    {
      if k < cache - 1 {
        assert H'[i][k] == H[i][k + 1];
      }
    }
  }

  /** After at least one step the previous state is the last state produced. */
  lemma PrevIsLatest(H: Mat, h: nat, cache: nat, states: seq<Vector>)
    requires 1 <= cache && Holds(H, h, cache, states) && 0 < |states|
    ensures Prev(H, h, cache, |states|) == states[|states| - 1]
  {
    var p := Prev(H, h, cache, |states|);
    assert forall i :: 0 <= i < h ==> p[i] == states[|states| - 1][i];
  }

  /**
   * What a recurrent layer outputs after t steps: the latest state, or the zero vector
   * before the first step.
   */
  function Latest(H: Mat, h: nat, cache: nat, ghost states: seq<Vector>, t: nat): (y: Vector)
    requires 1 <= cache && Holds(H, h, cache, states) && t == |states|
    ensures |y| == h
    ensures t == 0 ==> y == ZeroVector(h)
    ensures 0 < t ==> y == states[t - 1]
  {
    if t == 0 then Prev(H, h, cache, t)
    else
      PrevIsLatest(H, h, cache, states);
      Prev(H, h, cache, t)
  }

  /**
   * Stores the state of step t in place: a column write while the cache has room,
   * otherwise a left shift of every column followed by a write into the last one.
   */
  method Store(H: Mat, h: nat, cache: nat, t: nat, v: Vector) returns (H': Mat)
    requires HasShape(H, h, cache) && |v| == h && 1 <= cache
    ensures H' == Record(H, h, cache, t, v)
  {
    if t < cache {
      H' := SetColumn(H, cache, t, v);
      return;
    }
    H' := H;
    var k := 0;
    while k < cache - 1
      invariant 0 <= k <= cache - 1 && HasShape(H', h, cache)
      invariant forall i, c :: 0 <= i < h && 0 <= c < k ==> H'[i][c] == H[i][c + 1]
      invariant forall i, c :: 0 <= i < h && k <= c < cache ==> H'[i][c] == H[i][c]
    {
      H' := SetColumn(H', cache, k, Column(H', cache, k + 1));
      k := k + 1;
    }
    H' := SetColumn(H', cache, cache - 1, v);
    SameEntries(H', ShiftLeft(H, cache, v), h, cache);
  }
}
