/**
 * Voting.do_dhont: every option gets its own ladder of quotients
 * `votes / seat`, rounded to four decimals, for seat = 1 .. total_seats.
 * Options do not compete for seats here; each ladder depends only on that
 * option's votes.
 */
module Dhont {
  import opened Wrappers
  import opened Records

  /**
   * `round(x, 4)` over exact reals: the nearest multiple of 1/10000, with an
   * exact half rounded up.
   */
  function Round4(x: real): (r: real)
    ensures x - 1.0 / 20000.0 < r <= x + 1.0 / 20000.0
    ensures (r * 10000.0).Floor as real == r * 10000.0
  {
    (x * 10000.0 + 0.5).Floor as real / 10000.0
  }

  /** Rounding to four decimals never reverses an order. */
  lemma Round4Monotone(x: real, y: real)
    requires x <= y
    ensures Round4(x) <= Round4(y)
  {
    var fx, fy := (x * 10000.0 + 0.5).Floor, (y * 10000.0 + 0.5).Floor;
    assert fx as real <= y * 10000.0 + 0.5;
    assert fx <= fy;
  }

  /** A whole number is its own rounding. */
  lemma Round4OfInteger(v: int)
    ensures Round4(v as real) == v as real
  {
    assert (v as real * 10000.0 + 0.5).Floor == v * 10000;
  }

  /** The quotient of one rung: `round(votes / seat, 4)`. */
  function Quotient(votes: int, seat: nat): (q: real)
    requires seat >= 1
    ensures votes as real / seat as real - 1.0 / 20000.0 < q <= votes as real / seat as real + 1.0 / 20000.0
    ensures votes >= 0 ==> q >= 0.0
  {
    Round4(votes as real / seat as real)
  }

  /** The ladder: for each seat s from 1 to seats, the rung of s carrying votes / s to four decimals. */
  function Ladder(votes: int, seats: nat): (l: seq<DhontEntry>)
    ensures |l| == seats
  {
    if seats == 0 then [] else Ladder(votes, seats - 1) + [DhontEntry(seats, Quotient(votes, seats))]
  }

  /** Rung j (0-based) of the ladder is for seat j + 1. */
  lemma {:induction false} LadderAt(votes: int, seats: nat, j: nat)
    requires j < seats
    ensures Ladder(votes, seats)[j] == DhontEntry(j + 1, Quotient(votes, j + 1))
  {
    if j < seats - 1 {
      LadderAt(votes, seats - 1, j);
    }
  }

  /**
   * Shape of the ladder: exactly `seats` rungs whose seats run 1, 2, ...,
   * seats in order; no seats gives the empty ladder.
   */
  lemma LadderShape(votes: int, seats: nat)
    ensures |Ladder(votes, seats)| == seats
    ensures seats == 0 ==> Ladder(votes, seats) == []
    ensures forall j :: 0 <= j < seats ==> Ladder(votes, seats)[j].seat == j + 1
    ensures forall j :: 0 <= j < seats ==>
      Ladder(votes, seats)[j].percentaje == Round4(votes as real / (j + 1) as real)
  {
    forall j | 0 <= j < seats
      ensures Ladder(votes, seats)[j] == DhontEntry(j + 1, Quotient(votes, j + 1))
    {
      LadderAt(votes, seats, j);
    }
  }

  /** Dividing a non-negative number by a larger divisor gives no more. */
  lemma DivideByLarger(v: real, a: real, b: real)
    requires v >= 0.0 && 0.0 < a <= b
    ensures v / b <= v / a
  {
    var qa, qb := v / a, v / b;
    assert qb * b == v && qa * a == v;
    assert qb * (b - a) >= 0.0;
  }

  /** For non-negative votes the quotients never rise from one seat to the next. */
  lemma LadderNonIncreasing(votes: nat, seats: nat, i: nat, j: nat)
    requires i <= j < seats
    ensures Ladder(votes, seats)[j].percentaje <= Ladder(votes, seats)[i].percentaje
  {
    LadderAt(votes, seats, i);
    LadderAt(votes, seats, j);
    var a, b := (i + 1) as real, (j + 1) as real;
    DivideByLarger(votes as real, a, b);
    Round4Monotone(votes as real / b, votes as real / a);
  }

  /** The first rung carries the votes themselves. */
  lemma LadderFirstIsVotes(votes: int, seats: nat)
    requires seats >= 1
    ensures Ladder(votes, seats)[0] == DhontEntry(1, votes as real)
  {
    LadderAt(votes, seats, 0);
    assert votes as real / 1 as real == votes as real;
    Round4OfInteger(votes);
  }

  /** The ladder of an option with 5 votes over 10 seats, to four decimals. */
  lemma LadderOfFiveOverTenSeats()
    ensures |Ladder(5, 10)| == 10
    ensures forall j :: 0 <= j < 10 ==> Ladder(5, 10)[j].seat == j + 1
    ensures Ladder(5, 10)[0].percentaje == 5.0
    ensures Ladder(5, 10)[1].percentaje == 2.5
    ensures Ladder(5, 10)[2].percentaje == 1.6667
    ensures Ladder(5, 10)[3].percentaje == 1.25
    ensures Ladder(5, 10)[4].percentaje == 1.0
    ensures Ladder(5, 10)[5].percentaje == 0.8333
    ensures Ladder(5, 10)[6].percentaje == 0.7143
    ensures Ladder(5, 10)[7].percentaje == 0.625
    ensures Ladder(5, 10)[8].percentaje == 0.5556
    ensures Ladder(5, 10)[9].percentaje == 0.5
  {
    LadderShape(5, 10);
    assert (50000.0 / 1.0 + 0.5).Floor == 50000;
    assert (50000.0 / 2.0 + 0.5).Floor == 25000;
    assert (50000.0 / 3.0 + 0.5).Floor == 16667;
    assert (50000.0 / 4.0 + 0.5).Floor == 12500;
    assert (50000.0 / 5.0 + 0.5).Floor == 10000;
    assert (50000.0 / 6.0 + 0.5).Floor == 8333;
    assert (50000.0 / 7.0 + 0.5).Floor == 7143;
    assert (50000.0 / 8.0 + 0.5).Floor == 6250;
    assert (50000.0 / 9.0 + 0.5).Floor == 5556;
    assert (50000.0 / 10.0 + 0.5).Floor == 5000;
  }

  /** The records after do_dhont: each gains its ladder, nothing else changes. */
  function WithDhont(opts: seq<OptionResult>, seats: nat): (r: seq<OptionResult>)
    ensures |r| == |opts|
  {
    seq(|opts|, k requires 0 <= k < |opts| => opts[k].(dhont := Some(Ladder(opts[k].votes, seats))))
  }

  /** WithDhont keeps label, number, votes and seat count, and attaches the option's own ladder. */
  lemma WithDhontKeepsFields(opts: seq<OptionResult>, seats: nat, k: nat)
    requires k < |opts|
    ensures WithDhont(opts, seats)[k].option == opts[k].option
    ensures WithDhont(opts, seats)[k].number == opts[k].number
    ensures WithDhont(opts, seats)[k].votes == opts[k].votes
    ensures WithDhont(opts, seats)[k].saintLague == opts[k].saintLague
    ensures WithDhont(opts, seats)[k].dhont == Some(Ladder(opts[k].votes, seats))
  {
  }

  /** do_dhont: sets `option["dhont"]` on every record of `opts`, in place. */
  method DoDhont(opts: array<OptionResult>, totalSeats: nat)
    modifies opts
    ensures opts[..] == WithDhont(old(opts[..]), totalSeats)
  {
    for k := 0 to opts.Length
      invariant forall j :: 0 <= j < k ==> opts[j] == old(opts[j]).(dhont := Some(Ladder(old(opts[j]).votes, totalSeats)))
      invariant forall j :: k <= j < opts.Length ==> opts[j] == old(opts[j])
    {
      var votes := opts[k].votes;
      var dhontValues := [];
      for seat := 1 to totalSeats + 1
        invariant dhontValues == Ladder(votes, seat - 1)
      {
        var dhont := Round4(votes as real / seat as real);
        dhontValues := dhontValues + [DhontEntry(seat, dhont)];
      }
      opts[k] := opts[k].(dhont := Some(dhontValues));
    }
  }
}
