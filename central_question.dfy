/**
 * The central side of decide/voting/models.py: QuestionOption.save has no
 * guards and numbers an option that has no number (None or 0) as the
 * question's option count plus 2.
 */
module CentralQuestion {
  import opened Wrappers
  import opened Records

  /** The number an option is saved with: its own when non-zero, else the option count plus 2. */
  function AutoNumber(number: Option<int>, count: nat): (r: int)
    ensures number.Some? && number.value != 0 ==> r == number.value
    ensures (number.None? || number.value == 0) ==> r == count + 2 && r >= 2
  {
    if number.None? || number.value == 0 then count + 2 else number.value
  }

  /** The options after saving each of the given new options in turn. */
  function SaveAll(options: seq<QuestionOption>, added: seq<QuestionOption>): (r: seq<QuestionOption>)
    ensures |r| == |options| + |added|
    decreases |added|
  {
    if added == [] then options
    else SaveAll(options + [added[0].(number := Some(AutoNumber(added[0].number, |options|)))], added[1..])
  }

  /** Options without a number. */
  predicate Unnumbered(added: seq<QuestionOption>)
  {
    forall k :: 0 <= k < |added| ==> added[k].number.None?
  }

  lemma {:induction false} SaveAllKeepsPrefix(options: seq<QuestionOption>, added: seq<QuestionOption>)
    ensures SaveAll(options, added)[..|options|] == options
    decreases |added|
  {
    if added != [] {
      var next := options + [added[0].(number := Some(AutoNumber(added[0].number, |options|)))];
      SaveAllKeepsPrefix(next, added[1..]);
      assert next[..|options|] == options;
    }
  }

  lemma {:induction false} SaveAllNumbers(options: seq<QuestionOption>, added: seq<QuestionOption>, k: nat)
    requires Unnumbered(added) && k < |added|
    ensures SaveAll(options, added)[|options| + k] == added[k].(number := Some(|options| + k + 2))
    decreases |added|
  {
    var next := options + [added[0].(number := Some(AutoNumber(added[0].number, |options|)))];
    if k == 0 {
      SaveAllKeepsPrefix(next, added[1..]);
      assert SaveAll(next, added[1..])[..|next|][|options|] == next[|options|];
    } else {
      SaveAllNumbers(next, added[1..], k - 1);
    }
  }

  /**
   * Saving unnumbered options one by one into a question without options
   * numbers them 2, 3, 4, ... in order, so their numbers are distinct.
   */
  lemma AutoNumbersFromEmpty(added: seq<QuestionOption>)
    requires Unnumbered(added)
    ensures |SaveAll([], added)| == |added|
    ensures forall k :: 0 <= k < |added| ==>
      SaveAll([], added)[k] == QuestionOption(added[k].option, Some(k + 2))
    ensures forall i, j :: 0 <= i < j < |added| ==> SaveAll([], added)[i].number != SaveAll([], added)[j].number
  {
    forall k | 0 <= k < |added|
      ensures SaveAll([], added)[k] == QuestionOption(added[k].option, Some(k + 2))
    {
      SaveAllNumbers([], added, k);
    }
  }

  /**
   * The count + 2 rule can repeat a number given explicitly: after an
   * option numbered 3, the next unnumbered option is numbered 3 as well.
   */
  lemma AutoNumberCanCollide()
    ensures SaveAll([], [QuestionOption("a", Some(3)), QuestionOption("b", None)])
         == [QuestionOption("a", Some(3)), QuestionOption("b", Some(3))]
  {
  }

  /** A question as the central side sees it: only its options. */
  class Question {
    var options: seq<QuestionOption>

    constructor ()
      ensures options == []
    {
      options := [];
    }

    /** QuestionOption.save for a new option opt; returns the option as saved. */
    method SaveOption(opt: QuestionOption) returns (saved: QuestionOption)
      modifies this
      ensures saved == opt.(number := Some(AutoNumber(opt.number, |old(options)|)))
      ensures options == old(options) + [saved]
      ensures options == SaveAll(old(options), [opt])
    {
      saved := opt;
      if saved.number.None? || saved.number.value == 0 {
        saved := saved.(number := Some(|options| + 2));
      }
      options := options + [saved];
    }
  }
}
