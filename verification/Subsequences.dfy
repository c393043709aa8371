/** Subsequences by index: order, membership and completeness in one statement. */
module Subsequences {

  ghost predicate Ascending(idx: seq<nat>, n: nat) {
    && (forall i, j :: 0 <= i < j < |idx| ==> idx[i] < idx[j])
    && forall i :: 0 <= i < |idx| ==> idx[i] < n
  }

  /** `out` are the elements of `ts` at the places `idx`. */
  ghost predicate At<T>(ts: seq<T>, idx: seq<nat>, out: seq<T>) {
    |out| == |idx| && forall i :: 0 <= i < |idx| ==> idx[i] < |ts| && out[i] == ts[idx[i]]
  }

  /** `out` is the subsequence of the elements of `ts` that `f` picks. */
  ghost predicate Picks<T(!new)>(ts: seq<T>, f: T -> bool, out: seq<T>) {
    exists idx: seq<nat> :: PicksAt(ts, f, out, idx)
  }

  ghost predicate PicksAt<T>(ts: seq<T>, f: T -> bool, out: seq<T>, idx: seq<nat>) {
    && Ascending(idx, |ts|) && At(ts, idx, out)
    && forall j :: 0 <= j < |ts| ==> (j in idx <==> f(ts[j]))
  }

  lemma PicksNone<T(!new)>(f: T -> bool)
    ensures Picks([], f, [])
  {
    assert PicksAt([], f, [], []);
  }

  lemma PickedAtEnd<T>(ts: seq<T>, x: T, f: T -> bool, out: seq<T>, idx: seq<nat>, more: seq<T>, idx': seq<nat>)
    requires PicksAt(ts, f, out, idx) && f(x) && more == ts + [x] && idx' == idx + [|ts|]
    ensures PicksAt(more, f, out + [x], idx')
  {
    assert Ascending(idx', |more|);
    assert At(more, idx', out + [x]);
    forall j | 0 <= j < |more| ensures j in idx' <==> f(more[j]) {
      if j < |ts| {
        assert more[j] == ts[j];
      } else {
        assert idx'[|idx|] == j;
      }
    }
  }

  lemma SkippedAtEnd<T>(ts: seq<T>, x: T, f: T -> bool, out: seq<T>, idx: seq<nat>, more: seq<T>)
    requires PicksAt(ts, f, out, idx) && !f(x) && more == ts + [x]
    ensures PicksAt(more, f, out, idx)
  {
    assert At(more, idx, out);
    forall j | 0 <= j < |more| ensures j in idx <==> f(more[j]) {
      if j < |ts| {
        assert more[j] == ts[j];
      } else {
        assert j !in idx;
      }
    }
  }

  lemma PicksSnoc<T(!new)>(ts: seq<T>, x: T, f: T -> bool, out: seq<T>)
    requires Picks(ts, f, out)
    ensures Picks(ts + [x], f, if f(x) then out + [x] else out)
  {
    var idx: seq<nat> :| PicksAt(ts, f, out, idx);
    if f(x) {
      PickedAtEnd(ts, x, f, out, idx, ts + [x], idx + [|ts|]);
    } else {
      SkippedAtEnd(ts, x, f, out, idx, ts + [x]);
    }
  }

  lemma Rejoin<T>(ts: seq<T>, init: seq<T>, x: T)
    requires ts != [] && init == ts[..|ts| - 1] && x == ts[|ts| - 1]
    ensures ts == init + [x]
  {
  }

  /** The last element of `ts`, and what is picked with it. */
  lemma PicksLast<T(!new)>(ts: seq<T>, init: seq<T>, x: T, f: T -> bool, out: seq<T>, more: seq<T>)
    requires ts != [] && init == ts[..|ts| - 1] && x == ts[|ts| - 1] && Picks(init, f, out)
    requires if f(x) then more == out + [x] else more == out
    ensures Picks(ts, f, more)
  {
    var idx: seq<nat> :| PicksAt(init, f, out, idx);
    Rejoin(ts, init, x);
    if f(x) {
      PickedAtEnd(init, x, f, out, idx, ts, idx + [|init|]);
    } else {
      SkippedAtEnd(init, x, f, out, idx, ts);
    }
  }

  function Shifted(idx: seq<nat>): seq<nat> {
    seq(|idx|, i requires 0 <= i < |idx| => idx[i] + 1)
  }

  lemma ShiftedHas(idx: seq<nat>, j: nat)
    ensures j > 0 ==> (j in Shifted(idx) <==> j - 1 in idx)
    ensures 0 !in Shifted(idx)
  {
    if j > 0 && j - 1 in idx {
      var i :| 0 <= i < |idx| && idx[i] == j - 1;
      assert Shifted(idx)[i] == j;
    }
  }

  lemma PickedAtFront<T>(x: T, ts: seq<T>, f: T -> bool, out: seq<T>, idx: seq<nat>, more: seq<T>)
    requires PicksAt(ts, f, out, idx) && f(x) && more == [x] + ts
    ensures PicksAt(more, f, [x] + out, [0] + Shifted(idx))
  {
    var idx': seq<nat> := [0] + Shifted(idx);
    assert Ascending(idx', |more|);
    assert At(more, idx', [x] + out);
    forall j: nat | j < |more| ensures j in idx' <==> f(more[j]) {
      ShiftedHas(idx, j);
      if j > 0 { assert more[j] == ts[j - 1]; } else { assert idx'[0] == 0; }
    }
  }

  lemma SkippedAtFront<T>(x: T, ts: seq<T>, f: T -> bool, out: seq<T>, idx: seq<nat>, more: seq<T>)
    requires PicksAt(ts, f, out, idx) && !f(x) && more == [x] + ts
    ensures PicksAt(more, f, out, Shifted(idx))
  {
    assert Ascending(Shifted(idx), |more|);
    assert At(more, Shifted(idx), out);
    forall j: nat | j < |more| ensures j in Shifted(idx) <==> f(more[j]) {
      ShiftedHas(idx, j);
      if j > 0 { assert more[j] == ts[j - 1]; }
    }
  }

  lemma PicksCons<T(!new)>(x: T, ts: seq<T>, f: T -> bool, out: seq<T>)
    requires Picks(ts, f, out)
    ensures Picks([x] + ts, f, if f(x) then [x] + out else out)
  {
    var idx: seq<nat> :| PicksAt(ts, f, out, idx);
    if f(x) {
      PickedAtFront(x, ts, f, out, idx, [x] + ts);
    } else {
      SkippedAtFront(x, ts, f, out, idx, [x] + ts);
    }
  }

  function Reversed<T>(s: seq<T>): seq<T> {
    if s == [] then [] else Reversed(s[1..]) + [s[0]]
  }
}
