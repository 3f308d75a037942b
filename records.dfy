/**
 * The values that flow through the tally and post-processing code of
 * decide/voting/models.py: a question option as stored, the decrypted tally,
 * and the per-option result record (a Python dict whose optional keys are
 * modelled as Option fields: None means the key is absent).
 */
module Records {
  import opened Wrappers

  /** A QuestionOption row: its label (`option`) and nullable `number`. */
  datatype QuestionOption = QuestionOption(option: string, number: Option<int>)

  /**
   * The voting's JSON `tally` field: either a list of decrypted option
   * numbers, or anything that is not a list (null before the tally ran).
   */
  datatype Tally = Selections(numbers: seq<int>) | NotAList

  /** One rung of an option's D'Hondt ladder: `{seat, percentaje}`. */
  datatype DhontEntry = DhontEntry(seat: nat, percentaje: real)

  /**
   * The dict `{option, number, votes}` built per option by do_postproc,
   * with the keys `dhont` and `saintLague` that the apportionment steps add.
   */
  datatype OptionResult = OptionResult(
    option: string,
    number: Option<int>,
    votes: int,
    dhont: Option<seq<DhontEntry>>,
    saintLague: Option<nat>)

  /** The exception do_saintLague raises: `max()` over an empty dict. */
  datatype ApportionError = EmptyOptions

  /** No two records share a label (the Sainte-Lague dict is keyed by label). */
  predicate UniqueLabels(opts: seq<OptionResult>)
  {
    forall i, j :: 0 <= i < j < |opts| ==> opts[i].option != opts[j].option
  }

  /** The labels of the records, in order. */
  function Labels(opts: seq<OptionResult>): (ls: seq<string>)
    ensures |ls| == |opts|
    ensures forall k :: 0 <= k < |opts| ==> ls[k] == opts[k].option
  {
    seq(|opts|, k requires 0 <= k < |opts| => opts[k].option)
  }

  /** Sum of a sequence of integers. */
  function Sum(s: seq<int>): int
  {
    if s == [] then 0 else Sum(s[..|s| - 1]) + s[|s| - 1]
  }

  /** Adding d to one entry adds d to the sum. */
  lemma {:induction false} SumUpdate(s: seq<int>, k: nat, d: int)
    requires k < |s|
    ensures Sum(s[k := s[k] + d]) == Sum(s) + d
  {
    var n := |s| - 1;
    var t := s[k := s[k] + d];
    assert t[..n] == if k < n then s[..n][k := s[k] + d] else s[..n];
    if k < n {
      SumUpdate(s[..n], k, d);
    }
  }

  /** The sum of a sequence of zeros is zero. */
  lemma {:induction false} SumZeros(n: nat)
    ensures Sum(seq(n, _ => 0)) == 0
  {
    if n > 0 {
      assert seq(n, _ => 0)[..n - 1] == seq(n - 1, _ => 0);
      SumZeros(n - 1);
    }
  }
}
