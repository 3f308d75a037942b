/**
 * The counting half of Voting.do_postproc: one `{option, number, votes}`
 * record per question option, where `votes` is how often the option's number
 * occurs in the decrypted tally (`tally.count(number)`), or 0 when the tally
 * is not a list.
 */
module Counting {
  import opened Wrappers
  import opened Records

  /** Number of occurrences of x in xs, as Python's `list.count`. */
  function Occurrences(xs: seq<int>, x: int): (c: nat)
    ensures c <= |xs|
    ensures c == 0 <==> x !in xs
  {
    if xs == [] then 0
    else Occurrences(xs[..|xs| - 1], x) + (if xs[|xs| - 1] == x then 1 else 0)
  }

  /** Occurrences agrees with the multiplicity of x in the multiset of the tally. */
  lemma {:induction false} OccurrencesIsMultiplicity(xs: seq<int>, x: int)
    ensures Occurrences(xs, x) == multiset(xs)[x]
  {
    if xs != [] {
      var n := |xs| - 1;
      assert xs == xs[..n] + [xs[n]];
      assert multiset(xs) == multiset(xs[..n]) + multiset{xs[n]};
      OccurrencesIsMultiplicity(xs[..n], x);
    }
  }

  /** The `votes` value of one option: `tally.count(number)` or 0. */
  function VotesFor(tally: Tally, number: Option<int>): (v: nat)
    ensures tally.Selections? && number.Some? ==> v == multiset(tally.numbers)[number.value]
    ensures tally.NotAList? || number.None? ==> v == 0
  {
    match tally
    case NotAList => 0
    case Selections(xs) =>
      match number
      case None => 0
      case Some(n) => OccurrencesIsMultiplicity(xs, n); Occurrences(xs, n)
  }

  /** The record do_postproc appends for option o. */
  function Counted(tally: Tally, o: QuestionOption): (r: OptionResult)
    ensures r.option == o.option && r.number == o.number
    ensures r.dhont.None? && r.saintLague.None?
    ensures r.votes == 0 <==> (tally.NotAList? || o.number.None? || o.number.value !in tally.numbers)
  {
    OptionResult(o.option, o.number, VotesFor(tally, o.number), None, None)
  }

  /** The records for all options, in option order. */
  function CountedAll(tally: Tally, options: seq<QuestionOption>): (opts: seq<OptionResult>)
    ensures |opts| == |options|
  {
    seq(|options|, k requires 0 <= k < |options| => Counted(tally, options[k]))
  }

  /** The loop of do_postproc that builds `opts` by appending one record per option. */
  method CountVotes(tally: Tally, options: seq<QuestionOption>) returns (opts: seq<OptionResult>)
    ensures |opts| == |options|
    ensures forall k :: 0 <= k < |options| ==>
      opts[k].option == options[k].option && opts[k].number == options[k].number &&
      opts[k].dhont.None? && opts[k].saintLague.None?
    ensures forall k :: 0 <= k < |options| ==>
      opts[k].votes == (if tally.Selections? && options[k].number.Some?
                        then multiset(tally.numbers)[options[k].number.value] else 0)
    ensures opts == CountedAll(tally, options)
  {
    opts := [];
    for k := 0 to |options|
      invariant opts == CountedAll(tally, options[..k])
    {
      var opt := options[k];
      var votes := 0;
      if tally.Selections? {
        votes := VotesFor(tally, opt.number);
      }
      opts := opts + [OptionResult(opt.option, opt.number, votes, None, None)];
      assert options[..k + 1] == options[..k] + [opt];
    }
    assert options[..|options|] == options;
    forall k | 0 <= k < |options| && tally.Selections? && options[k].number.Some?
      ensures opts[k].votes == multiset(tally.numbers)[options[k].number.value]
    {
      OccurrencesIsMultiplicity(tally.numbers, options[k].number.value);
    }
  }

  /** Sum of Occurrences(xs, n) over every number n in ns. */
  function OccurrencesOfAll(ns: seq<int>, xs: seq<int>): nat
  {
    if ns == [] then 0 else OccurrencesOfAll(ns[..|ns| - 1], xs) + Occurrences(xs, ns[|ns| - 1])
  }

  lemma {:induction false} OccurrencesOfAllSnoc(ns: seq<int>, xs: seq<int>, x: int)
    ensures OccurrencesOfAll(ns, xs + [x]) == OccurrencesOfAll(ns, xs) + Occurrences(ns, x)
  {
    var ys := xs + [x];
    assert ys[..|ys| - 1] == xs;
    if ns != [] {
      OccurrencesOfAllSnoc(ns[..|ns| - 1], xs, x);
    }
  }

  lemma {:induction false} OccurrencesOfDistinct(ns: seq<int>, x: int)
    requires forall i, j :: 0 <= i < j < |ns| ==> ns[i] != ns[j]
    ensures Occurrences(ns, x) <= 1
    ensures x in ns ==> Occurrences(ns, x) == 1
  {
    if ns != [] {
      var n := |ns| - 1;
      assert ns == ns[..n] + [ns[n]];
      OccurrencesOfDistinct(ns[..n], x);
      if ns[n] == x {
        assert x !in ns[..n];
      }
    }
  }

  /**
   * When the option numbers are distinct and every decrypted selection is one
   * of them, the counts add up to the number of selections.
   */
  lemma {:induction false} CountsCoverTally(ns: seq<int>, xs: seq<int>)
    requires forall i, j :: 0 <= i < j < |ns| ==> ns[i] != ns[j]
    requires forall k :: 0 <= k < |xs| ==> xs[k] in ns
    ensures OccurrencesOfAll(ns, xs) == |xs|
  {
    if xs == [] {
      ZeroOccurrences(ns);
    } else {
      var n := |xs| - 1;
      assert xs == xs[..n] + [xs[n]];
      CountsCoverTally(ns, xs[..n]);
      OccurrencesOfAllSnoc(ns, xs[..n], xs[n]);
      OccurrencesOfDistinct(ns, xs[n]);
    }
  }

  lemma {:induction false} ZeroOccurrences(ns: seq<int>)
    ensures OccurrencesOfAll(ns, []) == 0
  {
    if ns != [] {
      ZeroOccurrences(ns[..|ns| - 1]);
    }
  }

  /** The votes of the counted records, in order. */
  function VotesOf(opts: seq<OptionResult>): (vs: seq<int>)
    ensures |vs| == |opts|
  {
    seq(|opts|, k requires 0 <= k < |opts| => opts[k].votes)
  }

  function NumbersOf(options: seq<QuestionOption>): seq<int>
    requires forall k :: 0 <= k < |options| ==> options[k].number.Some?
  {
    seq(|options|, k requires 0 <= k < |options| => options[k].number.value)
  }

  lemma {:induction false} SumVotesIsOccurrences(tally: seq<int>, options: seq<QuestionOption>)
    requires forall k :: 0 <= k < |options| ==> options[k].number.Some?
    ensures Sum(VotesOf(CountedAll(Selections(tally), options))) == OccurrencesOfAll(NumbersOf(options), tally)
  {
    if options != [] {
      var n := |options| - 1;
      assert VotesOf(CountedAll(Selections(tally), options))[..n]
          == VotesOf(CountedAll(Selections(tally), options[..n]));
      assert NumbersOf(options)[..n] == NumbersOf(options[..n]);
      SumVotesIsOccurrences(tally, options[..n]);
    }
  }

  /**
   * Every ballot is counted exactly once: with distinct option numbers and a
   * tally that only holds those numbers, the votes of the records sum to the
   * length of the tally.
   */
  lemma CountingConservesBallots(tally: seq<int>, options: seq<QuestionOption>)
    requires forall k :: 0 <= k < |options| ==> options[k].number.Some?
    requires forall i, j :: 0 <= i < j < |options| ==> options[i].number != options[j].number
    requires forall k :: 0 <= k < |tally| ==> exists j :: 0 <= j < |options| && options[j].number == Some(tally[k])
    ensures Sum(VotesOf(CountedAll(Selections(tally), options))) == |tally|
  {
    var ns := NumbersOf(options);
    forall k | 0 <= k < |tally| ensures tally[k] in ns {
      var j :| 0 <= j < |options| && options[j].number == Some(tally[k]);
      assert ns[j] == tally[k];
    }
    SumVotesIsOccurrences(tally, options);
    CountsCoverTally(ns, tally);
  }

  /** A tally that is not a list gives every option zero votes. */
  lemma NotAListCountsZero(options: seq<QuestionOption>)
    ensures forall k :: 0 <= k < |options| ==> CountedAll(NotAList, options)[k].votes == 0
  {
  }
}
