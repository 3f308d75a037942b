/**
 * Voting.do_saintLague: a competitive divisor loop run on a deep copy of the
 * records. In round i every option's quotient is `working_votes / (2i - 1)`;
 * the first option (in input order) with the largest quotient wins the round,
 * its seat count on the caller's records rises by one, and its working votes
 * in the copy are divided by `2i + 1`. The caller's records only gain the
 * `saintLague` field.
 */
module SaintLague {
  import opened Wrappers
  import opened Records

  /** `{name: votes / (2i - 1)}`: the quotient of every option in round i. */
  function Quotients(working: seq<real>, i: nat): (q: seq<real>)
    requires i >= 1
    ensures |q| == |working|
  {
    seq(|working|, k requires 0 <= k < |working| => working[k] / (2 * i - 1) as real)
  }

  /** m is the first position that holds the maximum of q. */
  predicate IsFirstMax(q: seq<real>, m: nat)
  {
    m < |q| &&
    (forall j :: 0 <= j < |q| ==> q[j] <= q[m]) &&
    (forall j :: 0 <= j < m ==> q[j] < q[m])
  }

  /**
   * `max(quotients, key=quotients.get)`: Python's max keeps the first of
   * several equal maxima, scanning in insertion (input) order.
   */
  function FirstMax(q: seq<real>): (m: nat)
    requires |q| > 0
    ensures IsFirstMax(q, m)
  {
    if |q| == 1 then 0
    else
      var p := FirstMax(q[..|q| - 1]);
      if q[|q| - 1] > q[p] then |q| - 1 else p
  }

  /** At most one position is the first maximum. */
  lemma FirstMaxUnique(q: seq<real>, m: nat)
    requires IsFirstMax(q, m)
    ensures m == FirstMax(q)
  {
  }

  /** The state of the loop: working votes of the copy and seats of the originals. */
  datatype Allocation = Allocation(working: seq<real>, seats: seq<nat>)

  /** The option that wins round i. */
  function Winner(a: Allocation, i: nat): (k: nat)
    requires |a.working| > 0 && i >= 1
    ensures k < |a.working|
  {
    FirstMax(Quotients(a.working, i))
  }

  /** One round: the winner gains a seat and its working votes shrink by 2i + 1. */
  function Round(a: Allocation, i: nat): (b: Allocation)
    requires 0 < |a.working| == |a.seats| && i >= 1
    ensures |b.working| == |b.seats| == |a.working|
  {
    var k := Winner(a, i);
    Allocation(a.working[k := a.working[k] / (2 * i + 1) as real], a.seats[k := a.seats[k] + 1])
  }

  /** The state after rounds 1 .. n, starting from the votes and no seats. */
  function Rounds(votes: seq<real>, n: nat): (a: Allocation)
    requires |votes| > 0
    ensures |a.working| == |a.seats| == |votes|
  {
    if n == 0 then Allocation(votes, seq(|votes|, _ => 0))
    else Round(Rounds(votes, n - 1), n)
  }

  /** The working copy's initial votes, as exact reals. */
  function InitialWorking(opts: seq<OptionResult>): (w: seq<real>)
    ensures |w| == |opts|
  {
    seq(|opts|, k requires 0 <= k < |opts| => opts[k].votes as real)
  }

  /**
   * What do_saintLague leaves in the caller's records, or the failure of
   * `max()` over the empty dict when there are no options but seats remain.
   */
  function SaintLagueApplied(opts: seq<OptionResult>, totalSeats: nat): (r: Result<seq<OptionResult>, ApportionError>)
    ensures r.Success? <==> |opts| > 0 || totalSeats == 0
    ensures r.Success? ==> |r.value| == |opts| && Labels(r.value) == Labels(opts)
  {
    if |opts| == 0 then
      if totalSeats == 0 then Success([]) else Failure(EmptyOptions)
    else
      Success(WithSeats(opts, Rounds(InitialWorking(opts), totalSeats).seats))
  }

  /** The seat counts of records that carry one (0 for a record without). */
  function SeatCounts(opts: seq<OptionResult>): (s: seq<int>)
    ensures |s| == |opts|
  {
    seq(|opts|, k requires 0 <= k < |opts| => if opts[k].saintLague.Some? then opts[k].saintLague.value else 0)
  }

  /** Every round hands out exactly one seat, so n rounds hand out n seats. */
  lemma {:induction false} SeatsSum(votes: seq<real>, n: nat)
    requires |votes| > 0
    ensures Sum(Rounds(votes, n).seats) == n
  {
    if n == 0 {
      SumZeros(|votes|);
    } else {
      var a := Rounds(votes, n - 1);
      SeatsSum(votes, n - 1);
      SumUpdate(a.seats, Winner(a, n), 1);
    }
  }

  /**
   * Seat conservation and non-mutation: for a non-empty list the call
   * succeeds; every record keeps its label, number, votes and ladder and gains
   * a seat count, and the counts sum to the number of seats.
   */
  lemma SaintLagueConservesSeats(opts: seq<OptionResult>, totalSeats: nat)
    requires |opts| > 0
    ensures SaintLagueApplied(opts, totalSeats).Success?
    ensures |SaintLagueApplied(opts, totalSeats).value| == |opts|
    ensures forall k :: 0 <= k < |opts| ==>
      var r := SaintLagueApplied(opts, totalSeats).value[k];
      r.option == opts[k].option && r.number == opts[k].number && r.votes == opts[k].votes &&
      r.dhont == opts[k].dhont && r.saintLague.Some?
    ensures Sum(SeatCounts(SaintLagueApplied(opts, totalSeats).value)) == totalSeats
  {
    var seats := Rounds(InitialWorking(opts), totalSeats).seats;
    assert SeatCounts(SaintLagueApplied(opts, totalSeats).value) == seats;
    SeatsSum(InitialWorking(opts), totalSeats);
  }

  /** With no options, no seats succeed trivially and any seat makes `max()` fail. */
  lemma SaintLagueEmpty(totalSeats: nat)
    ensures SaintLagueApplied([], totalSeats) == if totalSeats == 0 then Success([]) else Failure(EmptyOptions)
  {
  }

  /**
   * The round's divisor 2i - 1 is the same for every option, so it never
   * decides the round: the winner is the first option with the most working votes.
   */
  lemma WinnerIgnoresRoundDivisor(working: seq<real>, i: nat)
    requires |working| > 0 && i >= 1
    ensures FirstMax(Quotients(working, i)) == FirstMax(working)
  {
    var d := (2 * i - 1) as real;
    var m := FirstMax(working);
    var q := Quotients(working, i);
    forall j | 0 <= j < |working|
      ensures working[j] <= working[m] ==> q[j] <= q[m]
      ensures working[j] < working[m] ==> q[j] < q[m]
    {
      DivisionKeepsOrder(working[j], working[m], d);
    }
    FirstMaxUnique(q, m);
  }

  lemma DivisionKeepsOrder(x: real, y: real, d: real)
    requires d > 0.0
    ensures x <= y ==> x / d <= y / d
    ensures x < y ==> x / d < y / d
  {
    assert x / d * d == x && y / d * d == y;
  }

  /** A round whose working votes have their first maximum at k is won by k. */
  lemma RoundWonBy(a: Allocation, i: nat, k: nat)
    requires 0 < |a.working| == |a.seats| && i >= 1
    requires IsFirstMax(a.working, k)
    ensures Winner(a, i) == k
    ensures Round(a, i) == Allocation(a.working[k := a.working[k] / (2 * i + 1) as real], a.seats[k := a.seats[k] + 1])
  {
    WinnerIgnoresRoundDivisor(a.working, i);
    FirstMaxUnique(a.working, k);
  }

  /** Rounds(votes, n) is one round past Rounds(votes, n - 1), won by k. */
  lemma RoundsStep(votes: seq<real>, n: nat, k: nat, a: Allocation, b: Allocation)
    requires |votes| > 0 && n >= 1 && Rounds(votes, n - 1) == a
    requires IsFirstMax(a.working, k)
    requires b == Allocation(a.working[k := a.working[k] / (2 * n + 1) as real], a.seats[k := a.seats[k] + 1])
    ensures Rounds(votes, n) == b
  {
    RoundWonBy(a, n, k);
  }

  /** The state of that case after 2 rounds. */
  lemma FiveEqualOptionsTenSeatsAfter2(v: seq<real>)
    requires v == [5.0, 5.0, 5.0, 5.0, 5.0]
    ensures Rounds(v, 2) == Allocation([5.0 / 3.0, 1.0, 5.0, 5.0, 5.0], [1, 1, 0, 0, 0])
  {
    var a0 := Allocation(v, [0, 0, 0, 0, 0]);
    assert Rounds(v, 0) == a0;
    var a1 := Allocation([5.0 / 3.0, 5.0, 5.0, 5.0, 5.0], [1, 0, 0, 0, 0]);
    RoundsStep(v, 1, 0, a0, a1);
    var a2 := Allocation([5.0 / 3.0, 1.0, 5.0, 5.0, 5.0], [1, 1, 0, 0, 0]);
    RoundsStep(v, 2, 1, a1, a2);
  }

  /** The state of that case after 4 rounds. */
  lemma FiveEqualOptionsTenSeatsAfter4(v: seq<real>)
    requires v == [5.0, 5.0, 5.0, 5.0, 5.0]
    ensures Rounds(v, 4) == Allocation([5.0 / 3.0, 1.0, 5.0 / 7.0, 5.0 / 9.0, 5.0], [1, 1, 1, 1, 0])
  {
    FiveEqualOptionsTenSeatsAfter2(v);
    var a2 := Allocation([5.0 / 3.0, 1.0, 5.0, 5.0, 5.0], [1, 1, 0, 0, 0]);
    var a3 := Allocation([5.0 / 3.0, 1.0, 5.0 / 7.0, 5.0, 5.0], [1, 1, 1, 0, 0]);
    RoundsStep(v, 3, 2, a2, a3);
    var a4 := Allocation([5.0 / 3.0, 1.0, 5.0 / 7.0, 5.0 / 9.0, 5.0], [1, 1, 1, 1, 0]);
    RoundsStep(v, 4, 3, a3, a4);
  }

  /** The state of that case after 5 rounds. */
  lemma FiveEqualOptionsTenSeatsAfter5(v: seq<real>)
    requires v == [5.0, 5.0, 5.0, 5.0, 5.0]
    ensures Rounds(v, 5) == Allocation([5.0 / 3.0, 1.0, 5.0 / 7.0, 5.0 / 9.0, 5.0 / 11.0], [1, 1, 1, 1, 1])
  {
    FiveEqualOptionsTenSeatsAfter4(v);
    var a4 := Allocation([5.0 / 3.0, 1.0, 5.0 / 7.0, 5.0 / 9.0, 5.0], [1, 1, 1, 1, 0]);
    var a5 := Allocation([5.0 / 3.0, 1.0, 5.0 / 7.0, 5.0 / 9.0, 5.0 / 11.0], [1, 1, 1, 1, 1]);
    RoundsStep(v, 5, 4, a4, a5);
  }

  /** The state of that case after 6 rounds. */
  lemma FiveEqualOptionsTenSeatsAfter6(v: seq<real>)
    requires v == [5.0, 5.0, 5.0, 5.0, 5.0]
    ensures Rounds(v, 6) == Allocation([5.0 / 39.0, 1.0, 5.0 / 7.0, 5.0 / 9.0, 5.0 / 11.0], [2, 1, 1, 1, 1])
  {
    FiveEqualOptionsTenSeatsAfter5(v);
    var a5 := Allocation([5.0 / 3.0, 1.0, 5.0 / 7.0, 5.0 / 9.0, 5.0 / 11.0], [1, 1, 1, 1, 1]);
    var a6 := Allocation([5.0 / 39.0, 1.0, 5.0 / 7.0, 5.0 / 9.0, 5.0 / 11.0], [2, 1, 1, 1, 1]);
    RoundsStep(v, 6, 0, a5, a6);
  }

  /** The state of that case after 7 rounds. */
  lemma FiveEqualOptionsTenSeatsAfter7(v: seq<real>)
    requires v == [5.0, 5.0, 5.0, 5.0, 5.0]
    ensures Rounds(v, 7) == Allocation([5.0 / 39.0, 1.0 / 15.0, 5.0 / 7.0, 5.0 / 9.0, 5.0 / 11.0], [2, 2, 1, 1, 1])
  {
    FiveEqualOptionsTenSeatsAfter6(v);
    var a6 := Allocation([5.0 / 39.0, 1.0, 5.0 / 7.0, 5.0 / 9.0, 5.0 / 11.0], [2, 1, 1, 1, 1]);
    var a7 := Allocation([5.0 / 39.0, 1.0 / 15.0, 5.0 / 7.0, 5.0 / 9.0, 5.0 / 11.0], [2, 2, 1, 1, 1]);
    RoundsStep(v, 7, 1, a6, a7);
  }

  /** The state of that case after 8 rounds. */
  lemma FiveEqualOptionsTenSeatsAfter8(v: seq<real>)
    requires v == [5.0, 5.0, 5.0, 5.0, 5.0]
    ensures Rounds(v, 8) == Allocation([5.0 / 39.0, 1.0 / 15.0, 5.0 / 119.0, 5.0 / 9.0, 5.0 / 11.0], [2, 2, 2, 1, 1])
  {
    FiveEqualOptionsTenSeatsAfter7(v);
    var a7 := Allocation([5.0 / 39.0, 1.0 / 15.0, 5.0 / 7.0, 5.0 / 9.0, 5.0 / 11.0], [2, 2, 1, 1, 1]);
    var a8 := Allocation([5.0 / 39.0, 1.0 / 15.0, 5.0 / 119.0, 5.0 / 9.0, 5.0 / 11.0], [2, 2, 2, 1, 1]);
    RoundsStep(v, 8, 2, a7, a8);
  }

  /** The state of that case after 9 rounds. */
  lemma FiveEqualOptionsTenSeatsAfter9(v: seq<real>)
    requires v == [5.0, 5.0, 5.0, 5.0, 5.0]
    ensures Rounds(v, 9) == Allocation([5.0 / 39.0, 1.0 / 15.0, 5.0 / 119.0, 5.0 / 171.0, 5.0 / 11.0], [2, 2, 2, 2, 1])
  {
    FiveEqualOptionsTenSeatsAfter8(v);
    var a8 := Allocation([5.0 / 39.0, 1.0 / 15.0, 5.0 / 119.0, 5.0 / 9.0, 5.0 / 11.0], [2, 2, 2, 1, 1]);
    var a9 := Allocation([5.0 / 39.0, 1.0 / 15.0, 5.0 / 119.0, 5.0 / 171.0, 5.0 / 11.0], [2, 2, 2, 2, 1]);
    RoundsStep(v, 9, 3, a8, a9);
  }

  /** Five options with five votes each share ten seats two apiece. */
  lemma FiveEqualOptionsTenSeats(v: seq<real>)
    requires v == [5.0, 5.0, 5.0, 5.0, 5.0]
    ensures Rounds(v, 10).seats == [2, 2, 2, 2, 2]
  {
    FiveEqualOptionsTenSeatsAfter9(v);
    var a9 := Allocation([5.0 / 39.0, 1.0 / 15.0, 5.0 / 119.0, 5.0 / 171.0, 5.0 / 11.0], [2, 2, 2, 2, 1]);
    var a10 := Allocation([5.0 / 39.0, 1.0 / 15.0, 5.0 / 119.0, 5.0 / 171.0, 5.0 / 231.0], [2, 2, 2, 2, 2]);
    RoundsStep(v, 10, 4, a9, a10);
  }

  /** The state of that case after 2 rounds. */
  lemma HundredAndEightyFiveSeatsAfter2(v: seq<real>)
    requires v == [100.0, 80.0]
    ensures Rounds(v, 2) == Allocation([100.0 / 3.0, 16.0], [1, 1])
  {
    var a0 := Allocation(v, [0, 0]);
    assert Rounds(v, 0) == a0;
    var a1 := Allocation([100.0 / 3.0, 80.0], [1, 0]);
    RoundsStep(v, 1, 0, a0, a1);
    var a2 := Allocation([100.0 / 3.0, 16.0], [1, 1]);
    RoundsStep(v, 2, 1, a1, a2);
  }

  /** The state of that case after 4 rounds. */
  lemma HundredAndEightyFiveSeatsAfter4(v: seq<real>)
    requires v == [100.0, 80.0]
    ensures Rounds(v, 4) == Allocation([100.0 / 21.0, 16.0 / 9.0], [2, 2])
  {
    HundredAndEightyFiveSeatsAfter2(v);
    var a2 := Allocation([100.0 / 3.0, 16.0], [1, 1]);
    var a3 := Allocation([100.0 / 21.0, 16.0], [2, 1]);
    RoundsStep(v, 3, 0, a2, a3);
    var a4 := Allocation([100.0 / 21.0, 16.0 / 9.0], [2, 2]);
    RoundsStep(v, 4, 1, a3, a4);
  }

  /** Votes 100 and 80 over five seats split three and two. */
  lemma HundredAndEightyFiveSeats(v: seq<real>)
    requires v == [100.0, 80.0]
    ensures Rounds(v, 5).seats == [3, 2]
  {
    HundredAndEightyFiveSeatsAfter4(v);
    var a4 := Allocation([100.0 / 21.0, 16.0 / 9.0], [2, 2]);
    var a5 := Allocation([100.0 / 231.0, 16.0 / 9.0], [3, 2]);
    RoundsStep(v, 5, 0, a4, a5);
  }

  /**
   * Textbook Sainte-Lague, as a reference: each round goes to the first
   * option with the largest `votes / (2s + 1)`, s being the seats it holds.
   */
  function TextbookQuotients(votes: seq<real>, seats: seq<nat>): (q: seq<real>)
    requires |seats| == |votes|
    ensures |q| == |votes|
  {
    seq(|votes|, k requires 0 <= k < |votes| => votes[k] / (2 * seats[k] + 1) as real)
  }

  function TextbookSeats(votes: seq<real>, n: nat): (s: seq<nat>)
    requires |votes| > 0
    ensures |s| == |votes|
  {
    if n == 0 then seq(|votes|, _ => 0)
    else
      var p := TextbookSeats(votes, n - 1);
      var k := FirstMax(TextbookQuotients(votes, p));
      p[k := p[k] + 1]
  }

  lemma TextbookStep(votes: seq<real>, n: nat, k: nat, p: seq<nat>)
    requires |votes| > 0 && n >= 1 && TextbookSeats(votes, n - 1) == p
    requires IsFirstMax(TextbookQuotients(votes, p), k)
    ensures TextbookSeats(votes, n) == p[k := p[k] + 1]
  {
    FirstMaxUnique(TextbookQuotients(votes, p), k);
  }

  /** The carried-forward rule on votes 100 and 1 over four seats. */
  lemma HundredAndOneCarriedForward(v: seq<real>)
    requires v == [100.0, 1.0]
    ensures Rounds(v, 4).seats == [3, 1]
  {
    var a0 := Allocation(v, [0, 0]);
    assert Rounds(v, 0) == a0;
    var a1 := Allocation([100.0 / 3.0, 1.0], [1, 0]);
    RoundsStep(v, 1, 0, a0, a1);
    var a2 := Allocation([20.0 / 3.0, 1.0], [2, 0]);
    RoundsStep(v, 2, 0, a1, a2);
    var a3 := Allocation([20.0 / 21.0, 1.0], [3, 0]);
    RoundsStep(v, 3, 0, a2, a3);
    var a4 := Allocation([20.0 / 21.0, 1.0 / 9.0], [3, 1]);
    RoundsStep(v, 4, 1, a3, a4);
  }

  /** Textbook Sainte-Lague on votes 100 and 1 over four seats. */
  lemma HundredAndOneTextbook(v: seq<real>)
    requires v == [100.0, 1.0]
    ensures TextbookSeats(v, 4) == [4, 0]
  {
    assert TextbookSeats(v, 0) == [0, 0];
    TextbookStep(v, 1, 0, [0, 0]);
    TextbookStep(v, 2, 0, [1, 0]);
    TextbookStep(v, 3, 0, [2, 0]);
    TextbookStep(v, 4, 0, [3, 0]);
  }

  /**
   * The carried-forward divisor is not textbook Sainte-Lague: with votes 100
   * and 1 and four seats, the rule gives 3 and 1 where the textbook method
   * gives 4 and 0.
   */
  lemma CarriedForwardDiffersFromTextbook()
    ensures exists v: seq<real>, n: nat :: |v| > 0 && Rounds(v, n).seats != TextbookSeats(v, n)
  {
    var v := [100.0, 1.0];
    HundredAndOneCarriedForward(v);
    HundredAndOneTextbook(v);
    assert Rounds(v, 4).seats != TextbookSeats(v, 4);
  }

  /**
   * The first index holding name: the scans that stop at the first record
   * carrying the winning label.
   */
  method FindByName(names: seq<string>, name: string) returns (k: nat)
    requires name in names
    ensures k < |names| && names[k] == name
    ensures forall j :: 0 <= j < k ==> names[j] != name
  {
    k := 0;
    while names[k] != name
      invariant k < |names| && name in names[k..]
      invariant forall j :: 0 <= j < k ==> names[j] != name
      decreases |names| - k
    {
      assert names[k..] == [names[k]] + names[k + 1..];
      k := k + 1;
    }
  }

  /**
   * The comprehension `{name: votes / (2i - 1)}` and the `max` over it: the
   * first position with the largest quotient of round i.
   */
  method BestOption(working: array<real>, i: nat) returns (best: nat)
    requires working.Length > 0 && i >= 1
    ensures best < working.Length
    ensures best == FirstMax(Quotients(working[..], i))
  {
    var d := (2 * i - 1) as real;
    var bestQ := working[0] / d;
    best := 0;
    assert Quotients(working[..1], i) == [bestQ];
    for k := 1 to working.Length
      invariant best < k && bestQ == working[best] / d
      invariant best == FirstMax(Quotients(working[..k], i))
    {
      assert Quotients(working[..k + 1], i)[..k] == Quotients(working[..k], i);
      var q := working[k] / d;
      if q > bestQ {
        best, bestQ := k, q;
      }
    }
    assert working[..working.Length] == working[..];
  }

  /** The state after round n, given the winner of that round. */
  lemma RoundsAfter(votes: seq<real>, n: nat, k: nat, b: Allocation)
    requires |votes| > 0 && n >= 1
    requires k == Winner(Rounds(votes, n - 1), n)
    requires b == Allocation(Rounds(votes, n - 1).working[k := Rounds(votes, n - 1).working[k] / (2 * n + 1) as real],
                             Rounds(votes, n - 1).seats[k := Rounds(votes, n - 1).seats[k] + 1])
    ensures Rounds(votes, n) == b
  {
  }

  /** The records with their `saintLague` field set from seats. */
  function WithSeats(opts: seq<OptionResult>, seats: seq<nat>): (r: seq<OptionResult>)
    requires |seats| == |opts|
    ensures |r| == |opts| && Labels(r) == Labels(opts)
  {
    seq(|opts|, k requires 0 <= k < |opts| => opts[k].(saintLague := Some(seats[k])))
  }

  /** Giving one more seat to record k changes record k only. */
  lemma WithSeatsIncrement(opts: seq<OptionResult>, seats: seq<nat>, k: nat)
    requires |seats| == |opts| && k < |opts|
    ensures WithSeats(opts, seats[k := seats[k] + 1])
         == WithSeats(opts, seats)[k := WithSeats(opts, seats)[k].(saintLague := Some(seats[k] + 1))]
  {
  }

  /** Under unique labels, the first record carrying record k's label is k itself. */
  lemma FirstWithLabel(opts: seq<OptionResult>, k: nat, j: nat)
    requires UniqueLabels(opts) && k < |opts| && j < |opts|
    requires Labels(opts)[j] == Labels(opts)[k]
    ensures j == k
  {
  }

  /** Before the first round every record's seat count is set to 0. */
  method ResetSeats(opts: array<OptionResult>)
    modifies opts
    ensures opts[..] == WithSeats(old(opts[..]), seq(opts.Length, _ => 0))
  {
    ghost var original := opts[..];
    for k := 0 to opts.Length
      invariant forall j :: 0 <= j < k ==> opts[j] == original[j].(saintLague := Some(0))
      invariant forall j :: k <= j < opts.Length ==> opts[j] == original[j]
    {
      opts[k] := opts[k].(saintLague := Some(0));
    }
  }

  /**
   * One pass of the round loop: pick the best option, divide its working
   * votes in the copy by 2i + 1 and give it a seat in the caller's records.
   */
  method SaintLagueRound(opts: array<OptionResult>, aux: array<real>, names: seq<string>, i: nat,
                         ghost original: seq<OptionResult>, ghost w0: seq<real>)
    requires aux.Length == opts.Length == |original| == |w0| > 0 && i >= 1
    requires UniqueLabels(original) && names == Labels(original)
    requires aux[..] == Rounds(w0, i - 1).working
    requires opts[..] == WithSeats(original, Rounds(w0, i - 1).seats)
    modifies opts, aux
    ensures aux[..] == Rounds(w0, i).working
    ensures opts[..] == WithSeats(original, Rounds(w0, i).seats)
  {
    ghost var a := Rounds(w0, i - 1);
    var best := BestOption(aux, i);
    ghost var b := Allocation(a.working[best := a.working[best] / (2 * i + 1) as real], a.seats[best := a.seats[best] + 1]);
    RoundsAfter(w0, i, best, b);
    var bestOption := names[best];
    // the scan over the copy
    var k1 := FindByName(names, bestOption);
    FirstWithLabel(original, best, k1);
    aux[k1] := aux[k1] / (2 * i + 1) as real;
    assert aux[..] == b.working;
    // the scan over the caller's records
    var k2 := FindByName(Labels(opts[..]), bestOption);
    FirstWithLabel(original, best, k2);
    WithSeatsIncrement(original, a.seats, best);
    opts[k2] := opts[k2].(saintLague := Some(opts[k2].saintLague.value + 1));
    assert opts[..] == WithSeats(original, b.seats);
  }

  /**
   * do_saintLague on the caller's records, in place. The deep copy is an
   * array of working votes; labels are unique, as the quotient dict is keyed
   * by label. Returns false where Python raises (`max()` of an empty dict).
   */
  method DoSaintLague(opts: array<OptionResult>, totalSeats: nat) returns (ok: bool)
    requires UniqueLabels(opts[..])
    modifies opts
    ensures ok == (opts.Length > 0 || totalSeats == 0)
    ensures ok ==> SaintLagueApplied(old(opts[..]), totalSeats) == Success(opts[..])
    ensures !ok ==> SaintLagueApplied(old(opts[..]), totalSeats).Failure? && opts[..] == old(opts[..])
  {
    var n := opts.Length;
    ghost var original := opts[..];
    var names := Labels(opts[..]);
    var aux := new real[n](k requires 0 <= k < n reads opts => opts[k].votes as real);
    ghost var w0 := aux[..];
    assert w0 == InitialWorking(original);

    ResetSeats(opts);
    if n == 0 {
      // Round 1 would take max() over an empty dict, which raises.
      return totalSeats == 0;
    }
    for i := 1 to totalSeats + 1
      invariant aux[..] == Rounds(w0, i - 1).working
      invariant opts[..] == WithSeats(original, Rounds(w0, i - 1).seats)
    {
      SaintLagueRound(opts, aux, names, i, original, w0);
    }
    ok := true;
  }
}
