/** The choice of vehicles to show: a copy of the fleet list is shuffled
    by Fisher-Yates swaps and its first four entries are kept.

    The random index of each step is not modelled as a random number
    generator: it is given as `draws[i]`, the index drawn at step `i`,
    which is in 0..i just as Math.floor(Math.random() * (i + 1)) is. */
module Shuffle {

  /** The number of vehicles shown. */
  const PickCount: nat := 4

  /** `draws` holds one admissible random index for each position of a list
      of length `n`: the index drawn at position `i` is at most `i`. */
  predicate ValidDraws(draws: seq<nat>, n: nat) {
    |draws| == n && forall i :: 0 <= i < n ==> draws[i] <= i
  }

  /** `s` with the elements at `i` and `j` exchanged. */
  function Swap<T>(s: seq<T>, i: nat, j: nat): (r: seq<T>)
    requires i < |s| && j < |s|
    ensures |r| == |s| && r[i] == s[j] && r[j] == s[i]
    ensures forall k :: 0 <= k < |s| && k != i && k != j ==> r[k] == s[k]
  {
    s[i := s[j]][j := s[i]]
  }

  /** A swap rearranges the elements and neither adds nor loses any. */
  lemma SwapPermutes<T>(s: seq<T>, i: nat, j: nat)
    requires i < |s| && j < |s|
    ensures multiset(Swap(s, i, j)) == multiset(s)
  {
  }

  /** The steps of the loop from position `i` down to position 1, applied
      to `s`: at each position the element there is swapped with the one at
      the drawn index. */
  function SwapsFrom<T>(s: seq<T>, draws: seq<nat>, i: int): (r: seq<T>)
    requires ValidDraws(draws, |s|) && i < |s|
    ensures |r| == |s|
    decreases i
  {
    if i <= 0 then s else SwapsFrom(Swap(s, i, draws[i]), draws, i - 1)
  }

  /** The whole shuffle of `s` with the given draws. */
  function Shuffled<T>(s: seq<T>, draws: seq<nat>): (r: seq<T>)
    requires ValidDraws(draws, |s|)
    ensures |r| == |s|
  {
    SwapsFrom(s, draws, |s| - 1)
  }

  /** The first four entries of `s`, or all of them when there are fewer. */
  function FirstFour<T>(s: seq<T>): seq<T> {
    s[..if |s| < PickCount then |s| else PickCount]
  }

  /** Shuffling rearranges the list: same length, same elements with the
      same multiplicities. */
  lemma {:induction false} ShuffledPermutes<T>(s: seq<T>, draws: seq<nat>, i: int)
    requires ValidDraws(draws, |s|) && i < |s|
    ensures |SwapsFrom(s, draws, i)| == |s|
    ensures multiset(SwapsFrom(s, draws, i)) == multiset(s)
    decreases i
  {
    if i > 0 {
      SwapPermutes(s, i, draws[i]);
      ShuffledPermutes(Swap(s, i, draws[i]), draws, i - 1);
    }
  }

  /** The elements of a prefix are drawn from the whole list, each at most
      as often as it occurs there. */
  lemma PrefixSubMultiset<T>(s: seq<T>, k: nat)
    requires k <= |s|
    ensures multiset(s[..k]) <= multiset(s)
  {
    assert s == s[..k] + s[k..];
    assert multiset(s) == multiset(s[..k]) + multiset(s[k..]);
  }

  /** When the fleet holds no vehicle twice, neither does the selection. */
  lemma DistinctSelection<T>(s: seq<T>, picked: seq<T>)
    requires forall a, b :: 0 <= a < b < |s| ==> s[a] != s[b]
    requires multiset(picked) <= multiset(s)
    ensures forall a, b :: 0 <= a < b < |picked| ==> picked[a] != picked[b]
  {
    forall a, b | 0 <= a < b < |picked|
      ensures picked[a] != picked[b]
    {
      if picked[a] == picked[b] {
        var x := picked[a];
        assert multiset{x, x} <= multiset(picked) by {
          assert picked == picked[..a] + [x] + picked[a + 1..b] + [x] + picked[b + 1..];
        }
        CountAtMostOne(s, x);
        assert false;
      }
    }
  }

  /** In a list without repetitions every element occurs at most once. */
  lemma {:induction false} CountAtMostOne<T>(s: seq<T>, x: T)
    requires forall a, b :: 0 <= a < b < |s| ==> s[a] != s[b]
    ensures multiset(s)[x] <= 1
    decreases |s|
  {
    if s != [] {
      var init := s[..|s| - 1];
      assert s == init + [s[|s| - 1]];
      CountAtMostOne(init, x);
      if s[|s| - 1] == x {
        assert x !in init;
      }
    }
  }

  /** The Fisher-Yates loop: from the last position down to position 1,
      the element at each position is swapped with the one at the index
      drawn for it. Every swap keeps `a` a permutation of what it held. */
  method ShuffleInPlace<T>(a: array<T>, draws: seq<nat>)
    requires ValidDraws(draws, a.Length)
    modifies a
    ensures a[..] == Shuffled(old(a[..]), draws)
    ensures multiset(a[..]) == multiset(old(a[..]))
  {
    var i := a.Length - 1;
    while i > 0
      invariant -1 <= i < a.Length
      invariant multiset(a[..]) == multiset(old(a[..]))
      invariant SwapsFrom(a[..], draws, i) == Shuffled(old(a[..]), draws)
    {
      var j := draws[i];
      ghost var before := a[..];
      a[i], a[j] := a[j], a[i];
      assert a[..] == Swap(before, i, j);
      SwapPermutes(before, i, j);
      i := i - 1;
    }
  }

  /** Picks the vehicles to show from `arr`: a copy of `arr` is shuffled in
      place and its first four entries (all of them if there are fewer) are
      returned. `arr` itself is not modified: the method has no modifies
      clause, so only the fresh copy can change. */
  method PickRandomFour<T>(arr: array<T>, draws: seq<nat>) returns (picked: seq<T>)
    requires ValidDraws(draws, arr.Length)
    ensures picked == FirstFour(Shuffled(arr[..], draws))
    ensures |picked| == if arr.Length < PickCount then arr.Length else PickCount
    ensures multiset(picked) <= multiset(arr[..])
  {
    var copy := new T[arr.Length](k reads arr requires 0 <= k < arr.Length => arr[k]);
    assert copy[..] == arr[..];
    ShuffleInPlace(copy, draws);
    picked := copy[..if copy.Length < PickCount then copy.Length else PickCount];
    PrefixSubMultiset(copy[..], |picked|);
    assert copy[..][..|picked|] == picked;
  }
}
