/**
 * Voting.do_postproc on the central side: count the tally per option, attach
 * the D'Hondt ladders and the Sainte-Lague seats, and build the IDENTITY
 * payload `{type: 'IDENTITY', options: opts}` that is posted to the
 * post-processing service.
 */
module Postproc {
  import opened Wrappers
  import opened Records
  import opened Counting
  import Dhont
  import SaintLague

  /**
   * The payload's `options`: counted, then ladders, then Sainte-Lague seats;
   * or the failure of `max()` when there are no options but some seats.
   */
  function Postprocessed(tally: Tally, options: seq<QuestionOption>, seats: nat): (r: Result<seq<OptionResult>, ApportionError>)
    ensures r.Success? <==> |options| > 0 || seats == 0
    ensures r.Success? ==> |r.value| == |options| && Labels(r.value) == OptionLabels(options)
  {
    assert Labels(Dhont.WithDhont(CountedAll(tally, options), seats)) == OptionLabels(options);
    SaintLague.SaintLagueApplied(Dhont.WithDhont(CountedAll(tally, options), seats), seats)
  }

  /**
   * The labels of question options. The question's options and the records
   * built from them are different types, so this mirrors `Records.Labels`,
   * which is stated on the records.
   */
  function OptionLabels(options: seq<QuestionOption>): (ls: seq<string>)
    ensures |ls| == |options|
    ensures forall k :: 0 <= k < |options| ==> ls[k] == options[k].option
  {
    seq(|options|, k requires 0 <= k < |options| => options[k].option)
  }

  /**
   * No two question options share a label: the precondition the records
   * inherit as `Records.UniqueLabels`, since do_saintLague keys its dict by
   * label.
   */
  predicate DistinctLabels(options: seq<QuestionOption>)
  {
    forall i, j :: 0 <= i < j < |options| ==> options[i].option != options[j].option
  }

  /**
   * What the payload says: it exists unless there are no options but some
   * seats; then every option has one record, in order, with its label and
   * number, its count in the tally, its ladder over the seats and a seat count,
   * and the seat counts add up to the seats.
   */
  lemma PostprocessedPayload(tally: Tally, options: seq<QuestionOption>, seats: nat)
    ensures Postprocessed(tally, options, seats).Success? <==> (|options| > 0 || seats == 0)
    ensures Postprocessed(tally, options, seats).Success? ==>
      var opts := Postprocessed(tally, options, seats).value;
      |opts| == |options| &&
      (forall k :: 0 <= k < |opts| ==>
        opts[k].option == options[k].option && opts[k].number == options[k].number &&
        opts[k].votes == VotesFor(tally, options[k].number) &&
        opts[k].dhont == Some(Dhont.Ladder(opts[k].votes, seats)) && opts[k].saintLague.Some?) &&
      Sum(SaintLague.SeatCounts(opts)) == seats
  {
    var counted := CountedAll(tally, options);
    var withLadders := Dhont.WithDhont(counted, seats);
    if |options| > 0 {
      SaintLague.SaintLagueConservesSeats(withLadders, seats);
    } else {
      assert Postprocessed(tally, options, seats) == SaintLague.SaintLagueApplied([], seats);
      SaintLague.SaintLagueEmpty(seats);
    }
  }

  /**
   * do_postproc from the stored tally, the question's options and the seats:
   * the IDENTITY payload's options, or the error do_saintLague raises. The
   * ladders and seats are computed in place on one list, as in the source.
   */
  method DoPostproc(tally: Tally, options: seq<QuestionOption>, seats: nat)
      returns (r: Result<seq<OptionResult>, ApportionError>)
    requires DistinctLabels(options)
    ensures r == Postprocessed(tally, options, seats)
  {
    var counted := CountVotes(tally, options);
    var opts := new OptionResult[|counted|](k requires 0 <= k < |counted| => counted[k]);
    assert opts[..] == counted;
    Dhont.DoDhont(opts, seats);
    assert Labels(opts[..]) == OptionLabels(options);
    var ok := SaintLague.DoSaintLague(opts, seats);
    if ok {
      r := Success(opts[..]);
    } else {
      r := Failure(EmptyOptions);
    }
  }
}
