/** Picking values out of a sequence: what a loop collects, and from which positions. */
module Sequences {
  import opened Wrappers

  /** The values that are present, in order. */
  function Collect<T>(xs: seq<Option<T>>): seq<T> {
    if xs == [] then []
    else
      var last := xs[|xs| - 1];
      Collect(xs[..|xs| - 1]) + (if last.Some? then [last.value] else [])
  }

  lemma CollectSnoc<T>(xs: seq<Option<T>>, x: Option<T>)
    ensures Collect(xs + [x]) == Collect(xs) + (if x.Some? then [x.value] else [])
  {
    assert (xs + [x])[..|xs|] == xs;
  }

  ghost predicate Ascending(at: seq<nat>, n: nat) {
    (forall k :: 0 <= k < |at| ==> at[k] < n) && forall j, k :: 0 <= j < k < |at| ==> at[j] < at[k]
  }

  /** The values come from exactly these positions, in order. */
  ghost predicate CollectedFrom<T>(at: seq<nat>, xs: seq<Option<T>>) {
    && Ascending(at, |xs|)
    && (forall i: nat :: i in at <==> i < |xs| && xs[i].Some?)
    && |Collect(xs)| == |at|
    && forall k :: 0 <= k < |at| ==> at[k] < |xs| && xs[at[k]] == Some(Collect(xs)[k])
  }

  lemma AppendLast(at: seq<nat>, n: nat)
    requires Ascending(at, n)
    ensures Ascending(at, n + 1) && Ascending(at + [n], n + 1) && n !in at
    ensures forall i: nat :: i in at + [n] <==> i in at || i == n
  {
  }

  lemma CollectedSnoc<T>(at: seq<nat>, xs: seq<Option<T>>, x: Option<T>)
    requires CollectedFrom(at, xs)
    ensures CollectedFrom(if x.Some? then at + [|xs|] else at, xs + [x])
  {
    AppendLast(at, |xs|);
    CollectSnoc(xs, x);
    hide Collect, Ascending;
    assert forall k :: 0 <= k < |at| ==> at[k] in at;
  }

  lemma {:induction false} Positions<T>(xs: seq<Option<T>>) returns (at: seq<nat>)
    ensures CollectedFrom(at, xs)
  {
    if xs == [] {
      at := [];
    } else {
      var init, x := xs[..|xs| - 1], xs[|xs| - 1];
      at := Positions(init);
      CollectedSnoc(at, init, x);
      assert init + [x] == xs;
      at := if x.Some? then at + [|init|] else at;
    }
  }
}
