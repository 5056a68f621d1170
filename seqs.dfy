/** `xs.map((x, i) => dropped(x) ? null : f(i + 1, x)).filter(Boolean)`: a map that numbers
    every element by its 1-based position and then drops some of the results, so the
    numbers of the kept results can skip. */
module Seqs {

  function MapKept<T, U>(xs: seq<T>, dropped: T -> bool, f: (nat, T) -> U): (ys: seq<U>)
    ensures |ys| <= |xs|
  {
    if xs == [] then []
    else
      MapKept(xs[..|xs| - 1], dropped, f)
      + (if dropped(xs[|xs| - 1]) then [] else [f(|xs|, xs[|xs| - 1])])
  }

  /** The 0-based indices of the elements that are kept, in increasing order. */
  function KeptIndices<T>(xs: seq<T>, dropped: T -> bool): (ks: seq<nat>)
    ensures forall j :: 0 <= j < |ks| ==> ks[j] < |xs|
  {
    if xs == [] then []
    else KeptIndices(xs[..|xs| - 1], dropped) + (if dropped(xs[|xs| - 1]) then [] else [|xs| - 1])
  }

  /** Exactly the kept elements' indices, each once, in increasing order. */
  lemma {:induction false} KeptIndicesSpec<T>(xs: seq<T>, dropped: T -> bool)
    ensures var ks := KeptIndices(xs, dropped);
      && (forall j :: 0 <= j < |ks| ==> !dropped(xs[ks[j]]))
      && (forall j, k :: 0 <= j < k < |ks| ==> ks[j] < ks[k])
      && (forall i :: 0 <= i < |xs| && !dropped(xs[i]) ==> i in ks)
  {
    if xs != [] {
      var front := xs[..|xs| - 1];
      KeptIndicesSpec(front, dropped);
      var kf := KeptIndices(front, dropped);
      assert forall j :: 0 <= j < |kf| ==> front[kf[j]] == xs[kf[j]];
    }
  }

  /** The kept positions strictly increase. */
  lemma KeptIndicesIncrease<T>(xs: seq<T>, dropped: T -> bool, j: nat, k: nat)
    requires j < k < |KeptIndices(xs, dropped)|
    ensures KeptIndices(xs, dropped)[j] < KeptIndices(xs, dropped)[k]
  {
    KeptIndicesSpec(xs, dropped);
  }

  /** One result per kept element. */
  lemma {:induction false} MapKeptLength<T, U>(xs: seq<T>, dropped: T -> bool, f: (nat, T) -> U)
    ensures |MapKept(xs, dropped, f)| == |KeptIndices(xs, dropped)|
  {
    if xs != [] {
      MapKeptLength(xs[..|xs| - 1], dropped, f);
    }
  }

  /** The `j`-th result is built from the `j`-th kept element and its 1-based position. */
  lemma {:induction false} MapKeptAt<T, U>(xs: seq<T>, dropped: T -> bool, f: (nat, T) -> U, j: nat)
    requires j < |KeptIndices(xs, dropped)|
    ensures |MapKept(xs, dropped, f)| == |KeptIndices(xs, dropped)|
    ensures MapKept(xs, dropped, f)[j] == f(KeptIndices(xs, dropped)[j] + 1, xs[KeptIndices(xs, dropped)[j]])
  {
    MapKeptLength(xs, dropped, f);
    var n := |xs|;
    var front := xs[..n - 1];
    var kf := KeptIndices(front, dropped);
    MapKeptLength(front, dropped, f);
    if j < |kf| {
      MapKeptAt(front, dropped, f, j);
      assert front[kf[j]] == xs[kf[j]];
    }
  }

  /** Both facts for every kept element. */
  lemma MapKeptSpec<T, U>(xs: seq<T>, dropped: T -> bool, f: (nat, T) -> U)
    ensures |MapKept(xs, dropped, f)| == |KeptIndices(xs, dropped)|
    ensures forall j :: 0 <= j < |KeptIndices(xs, dropped)| ==>
      MapKept(xs, dropped, f)[j] == f(KeptIndices(xs, dropped)[j] + 1, xs[KeptIndices(xs, dropped)[j]])
  {
    MapKeptLength(xs, dropped, f);
    forall j | 0 <= j < |KeptIndices(xs, dropped)|
      ensures MapKept(xs, dropped, f)[j] == f(KeptIndices(xs, dropped)[j] + 1, xs[KeptIndices(xs, dropped)[j]])
    {
      MapKeptAt(xs, dropped, f, j);
    }
  }

  /** When every element is dropped nothing is left. */
  lemma {:induction false} MapKeptAllDropped<T, U>(xs: seq<T>, dropped: T -> bool, f: (nat, T) -> U)
    requires forall i :: 0 <= i < |xs| ==> dropped(xs[i])
    ensures MapKept(xs, dropped, f) == []
  {
    if xs != [] {
      MapKeptAllDropped(xs[..|xs| - 1], dropped, f);
    }
  }
}
