/**
 * Voting.do_borda: for n options, each option's `votes` is a vector and its
 * `borda` score is the weighted sum of the first n entries, position i
 * (0-based) weighing n - i.
 */
module Borda {
  import opened Wrappers

  /** A record for do_borda: its label, its vote vector and the added `borda` key. */
  datatype RankedOption = RankedOption(option: string, votes: seq<int>, borda: Option<int>)

  /** The first m terms of the weighted sum: `(n - i) * votes[i]` for i < m. */
  function WeightedPrefix(votes: seq<int>, n: nat, m: nat): (w: int)
    requires m <= |votes|
    ensures m <= n && (forall j :: 0 <= j < m ==> votes[j] >= 0) ==> w >= 0
  {
    if m == 0 then 0 else WeightedPrefix(votes, n, m - 1) + (n - (m - 1)) * votes[m - 1]
  }

  /** The Borda score over n options. */
  function BordaScore(votes: seq<int>, n: nat): (b: int)
    requires n <= |votes|
    ensures (forall j :: 0 <= j < n ==> votes[j] >= 0) ==> b >= 0
  {
    WeightedPrefix(votes, n, n)
  }

  /** Sum of the first j entries of the vector. */
  function PrefixSum(votes: seq<int>, j: nat): int
    requires j <= |votes|
  {
    if j == 0 then 0 else PrefixSum(votes, j - 1) + votes[j - 1]
  }

  /** Sum of the prefix sums of lengths m + 1 .. n. */
  function SumOfPrefixSums(votes: seq<int>, m: nat, n: nat): int
    requires m <= n <= |votes|
    decreases n - m
  {
    if m == n then 0 else PrefixSum(votes, m + 1) + SumOfPrefixSums(votes, m + 1, n)
  }

  lemma {:induction false} SumOfPrefixSumsSplit(votes: seq<int>, m: nat, n: nat)
    requires m <= n <= |votes|
    ensures SumOfPrefixSums(votes, m, n) == (n - m) * PrefixSum(votes, m) + (WeightedPrefix(votes, n, n) - WeightedPrefix(votes, n, m))
    decreases n - m
  {
    if m < n {
      SumOfPrefixSumsSplit(votes, m + 1, n);
    }
  }

  /**
   * An independent reading of the Borda score: entry i is counted once in
   * each of the prefix sums of lengths i + 1 .. n, that is n - i times.
   */
  lemma BordaIsSumOfPrefixSums(votes: seq<int>, n: nat)
    requires n <= |votes|
    ensures BordaScore(votes, n) == SumOfPrefixSums(votes, 0, n)
  {
    SumOfPrefixSumsSplit(votes, 0, n);
  }

  /** Non-negative weights: raising one entry never lowers the score. */
  lemma {:induction false} BordaMonotone(votes: seq<int>, n: nat, m: nat, i: nat, d: nat)
    requires m <= n <= |votes| && i < |votes|
    ensures WeightedPrefix(votes[i := votes[i] + d], n, m) >= WeightedPrefix(votes, n, m)
  {
    if m > 0 {
      var raised := votes[i := votes[i] + d];
      var c := n - (m - 1);
      BordaMonotone(votes, n, m - 1, i, d);
      assert raised[m - 1] >= votes[m - 1];
      assert c * raised[m - 1] >= c * votes[m - 1] by {
        assert c * (raised[m - 1] - votes[m - 1]) >= 0;
      }
    }
  }

  /** Index of the first record whose vector is shorter than n (or the length). */
  function FirstShort(opts: seq<RankedOption>, n: nat): (f: nat)
    ensures f <= |opts|
    ensures forall k :: 0 <= k < f ==> |opts[k].votes| >= n
    ensures f < |opts| ==> |opts[f].votes| < n
  {
    if opts == [] then 0
    else if |opts[0].votes| < n then 0
    else 1 + FirstShort(opts[1..], n)
  }

  /**
   * do_borda in place over n = opts.Length records. On the first record whose
   * vector has fewer than n entries Python raises an IndexError: the records
   * before it already carry their score, it and the rest are untouched, and
   * the method returns false.
   */
  method DoBorda(opts: array<RankedOption>) returns (ok: bool)
    modifies opts
    ensures ok <==> forall k :: 0 <= k < opts.Length ==> |old(opts[k]).votes| >= opts.Length
    ensures forall k :: 0 <= k < opts.Length ==>
      opts[k] == if k < FirstShort(old(opts[..]), opts.Length)
                 then old(opts[k]).(borda := Some(BordaScore(old(opts[k]).votes, opts.Length)))
                 else old(opts[k])
  {
    ghost var original := opts[..];
    var n := opts.Length;
    for k := 0 to n
      invariant forall j :: 0 <= j < k ==> |original[j].votes| >= n
      invariant forall j :: 0 <= j < k ==> opts[j] == original[j].(borda := Some(BordaScore(original[j].votes, n)))
      invariant forall j :: k <= j < n ==> opts[j] == original[j]
    {
      var votes := opts[k].votes;
      var borda := 0;
      for i := 0 to n
        invariant i <= |votes| ==> borda == WeightedPrefix(votes, n, i)
        invariant i <= |votes|
      {
        if i >= |votes| {
          // votes[i] raises IndexError
          FirstShortAt(original, n, k);
          return false;
        }
        borda := borda + (n - i) * votes[i];
      }
      opts[k] := opts[k].(borda := Some(borda));
    }
    FirstShortAll(original, n);
    ok := true;
  }

  lemma {:induction false} FirstShortAt(opts: seq<RankedOption>, n: nat, k: nat)
    requires k < |opts| && |opts[k].votes| < n
    requires forall j :: 0 <= j < k ==> |opts[j].votes| >= n
    ensures FirstShort(opts, n) == k
  {
    if k > 0 {
      FirstShortAt(opts[1..], n, k - 1);
    }
  }

  lemma {:induction false} FirstShortAll(opts: seq<RankedOption>, n: nat)
    requires forall j :: 0 <= j < |opts| ==> |opts[j].votes| >= n
    ensures FirstShort(opts, n) == |opts|
  {
    if opts != [] {
      FirstShortAll(opts[1..], n);
    }
  }
}
