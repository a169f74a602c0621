/** A consumer that looks at a queue now and then and takes at most one item per look. Each look is
    recorded as the number of items the queue had accepted by then. */
module Polls {
  import opened Basics

  /** How many looks found an item. */
  function Found(looks: seq<nat>): nat {
    if looks == [] then 0
    else var before := Found(looks[..|looks| - 1]); before + One(before < looks[|looks| - 1])
  }

  /** How many looks came after more than `j` items had been accepted. */
  function LooksAfter(looks: seq<nat>, j: nat): nat {
    if looks == [] then 0 else LooksAfter(looks[..|looks| - 1], j) + One(looks[|looks| - 1] > j)
  }

  /** The number accepted only grows, up to `n` now. */
  predicate Rising(looks: seq<nat>, n: nat) {
    && (forall i | 0 <= i < |looks| :: looks[i] <= n)
    && (forall i, j | 0 <= i < j < |looks| :: looks[i] <= looks[j])
  }

  lemma RisingLast(looks: seq<nat>, n: nat)
    requires Rising(looks, n) && looks != []
    ensures Rising(looks[..|looks| - 1], looks[|looks| - 1])
  {
  }

  lemma RisingMore(looks: seq<nat>, n: nat, m: nat)
    requires Rising(looks, n) && n <= m
    ensures Rising(looks, m) && Rising(looks + [n], m)
  {
  }

  lemma {:induction false} NoneAfter(looks: seq<nat>, n: nat)
    requires Rising(looks, n)
    ensures LooksAfter(looks, n) == 0
    decreases |looks|
  {
    if looks != [] { NoneAfter(looks[..|looks| - 1], n); }
  }

  /** Looks before an item came cannot have found it. */
  lemma {:induction false} FoundAtMost(looks: seq<nat>, n: nat, j: nat)
    requires Rising(looks, n)
    ensures Found(looks) <= n && Found(looks) <= j + LooksAfter(looks, j) && Found(looks) <= |looks|
    decreases |looks|
  {
    if looks != [] {
      RisingLast(looks, n);
      FoundAtMost(looks[..|looks| - 1], looks[|looks| - 1], j);
    }
  }

  /** ... and from some point on every look found one. */
  lemma {:induction false} FoundExactly(looks: seq<nat>, n: nat) returns (j: nat)
    requires Rising(looks, n)
    ensures Found(looks) == j + LooksAfter(looks, j) && j <= n
    decreases |looks|
  {
    if looks == [] {
      j := 0;
    } else {
      var before, last := looks[..|looks| - 1], looks[|looks| - 1];
      RisingLast(looks, n);
      FoundAtMost(before, last, 0);
      if Found(before) < last {
        j := FoundExactly(before, last);
      } else {
        j := last;
        NoneAfter(before, last);
      }
    }
  }

  /** Each of `n` items was followed by enough looks for itself and all that came after it. */
  ghost predicate EnoughLooks(looks: seq<nat>, n: nat) { forall j: nat | j < n :: j + LooksAfter(looks, j) >= n }

  /** Exactly then every one of them was found. */
  lemma FoundAllIff(looks: seq<nat>, n: nat)
    requires Rising(looks, n)
    ensures Found(looks) == n <==> EnoughLooks(looks, n)
  {
    forall j: nat | j < n ensures Found(looks) <= j + LooksAfter(looks, j) { FoundAtMost(looks, n, j); }
    var j := FoundExactly(looks, n);
    FoundAtMost(looks, n, 0);
    assert EnoughLooks(looks, n) && j < n ==> j + LooksAfter(looks, j) >= n;
  }
}
