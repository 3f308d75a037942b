/**
 * The Yes/No option rules of a question (the HEAD side of
 * decide/voting/models.py). Two flags, `optionSiNo` and `third_option`,
 * limit how many options a question may hold and which labels options 1 and
 * 2 may carry; post-save hooks seed "Sí", "No" and "Depende"; the predefined
 * "Sí"/"No" options cannot be deleted under `optionSiNo`.
 */
module QuestionRules {
  import opened Wrappers
  import opened Records

  const Si: string := "S\U{ED}"
  const No: string := "No"
  const Depende: string := "Depende"

  /** The question's two flags. */
  datatype Flags = Flags(optionSiNo: bool, thirdOption: bool)

  /** `max_options`: a bound, or `float('inf')`. */
  datatype Limit = Unbounded | AtMost(max: nat)

  /** The `ValidationError`s the rules raise. */
  datatype QuestionError =
    | TooManyOptions
    | SiNoAfterThirdOption
    | OptionLimitReached(max: nat)
    | LabelMustBeSiNo
    | CannotDeletePredefined

  /** The user-facing text of each error. */
  function Message(e: QuestionError): (m: string)
    ensures e.OptionLimitReached? ==>
      |m| > |NatToString(e.max)| && m[|m| - |NatToString(e.max)| - 1..] == NatToString(e.max) + "."
  {
    match e
    case TooManyOptions => "Tienes demasiadas opciones para la configuraci\U{F3}n actual."
    case SiNoAfterThirdOption =>
      "No puede seleccionar la opci\U{F3}nSiNo si previamente se seleccion\U{F3} la tercera opci\U{F3}n."
    case OptionLimitReached(_) =>
      "No puedes a\U{F1}adir m\U{E1}s opciones, ni editar los valores ya predefinidos. El n\U{FA}mero m\U{E1}ximo de opciones permitidas es "
      + NatToString(e.max) + "."
    case LabelMustBeSiNo => "Debes rellenar el campo 1 Option con 'S\U{ED}' o 'No'."
    case CannotDeletePredefined => "No puedes eliminar las opciones predefinidas."
  }

  /** Decimal digits of a natural number. */
  function NatToString(n: nat): (s: string)
    ensures |s| > 0 && forall k :: 0 <= k < |s| ==> '0' <= s[k] <= '9'
  {
    if n < 10 then ["0123456789"[n]] else NatToString(n / 10) + ["0123456789"[n % 10]]
  }

  /** count >= max_options */
  predicate Reached(count: nat, limit: Limit)
  {
    limit.AtMost? && count >= limit.max
  }

  /** count > max_options */
  predicate Exceeded(count: nat, limit: Limit)
  {
    limit.AtMost? && count > limit.max
  }

  /** The limit Question.clean enforces: 2 with optionSiNo alone, 3 with both flags, else none. */
  function CleanLimit(f: Flags): (l: Limit)
    ensures l.AtMost? <==> f.optionSiNo
    ensures l.AtMost? ==> l.max == (if f.thirdOption then 3 else 2)
  {
    if f.optionSiNo && !f.thirdOption then AtMost(2)
    else if f.optionSiNo && f.thirdOption then AtMost(3)
    else Unbounded
  }

  /** The limit QuestionOption.save enforces: 3 whenever third_option is set, 2 with optionSiNo alone. */
  function SaveLimit(f: Flags): (l: Limit)
    ensures l.AtMost? <==> (f.optionSiNo || f.thirdOption)
    ensures l.AtMost? ==> l.max == (if f.thirdOption then 3 else 2)
  {
    if f.optionSiNo && f.thirdOption then AtMost(3)
    else if f.optionSiNo then AtMost(2)
    else if f.thirdOption then AtMost(3)
    else Unbounded
  }

  /**
   * The guards of QuestionOption.save for option opt when the question holds
   * count options: the capacity check (waived for number 3 under
   * third_option), then the label check for numbers 1 and 2 under optionSiNo.
   */
  function SaveCheck(f: Flags, count: nat, opt: QuestionOption): (e: Option<QuestionError>)
    ensures e.None? <==>
      (!Reached(count, SaveLimit(f)) || (f.thirdOption && opt.number == Some(3))) &&
      !(f.optionSiNo && opt.option !in {Si, No} && opt.number in {Some(1), Some(2)})
    ensures Reached(count, SaveLimit(f)) && !(f.thirdOption && opt.number == Some(3)) ==>
      e == Some(OptionLimitReached(SaveLimit(f).max))
    ensures e.Some? ==> e.value.OptionLimitReached? || e.value.LabelMustBeSiNo?
  {
    var limit := SaveLimit(f);
    if Reached(count, limit) && !(f.thirdOption && opt.number == Some(3)) then
      Some(OptionLimitReached(limit.max))
    else if f.optionSiNo && opt.option !in {Si, No} && opt.number in {Some(1), Some(2)} then
      Some(LabelMustBeSiNo)
    else None
  }

  /** The guard of QuestionOption.delete. */
  function DeleteCheck(f: Flags, opt: QuestionOption): (e: Option<QuestionError>)
    ensures e.Some? <==> f.optionSiNo && opt.option in {Si, No}
  {
    if f.optionSiNo && opt.option in {Si, No} then Some(CannotDeletePredefined) else None
  }

  /**
   * Question.clean on an existing question with new flags f, count options
   * and the stored flags old: too many options for f, or turning optionSiNo on
   * over a stored third_option.
   */
  function CleanCheck(f: Flags, count: nat, stored: Flags): (e: Option<QuestionError>)
    ensures e.None? <==>
      !Exceeded(count, CleanLimit(f)) && !(f.optionSiNo && !stored.optionSiNo && stored.thirdOption)
    ensures Exceeded(count, CleanLimit(f)) ==> e == Some(TooManyOptions)
    ensures e.Some? ==> e.value.TooManyOptions? || e.value.SiNoAfterThirdOption?
  {
    if Exceeded(count, CleanLimit(f)) then Some(TooManyOptions)
    else if f.optionSiNo && !stored.optionSiNo && stored.thirdOption then Some(SiNoAfterThirdOption)
    else None
  }

  /** The options post_SiNo_Option gives a new question with no options. */
  function Seeded(f: Flags): (s: seq<QuestionOption>)
    ensures |s| == (if f.optionSiNo then 2 else 0) + (if f.thirdOption then 1 else 0)
    ensures HasDepende(s) <==> f.thirdOption
    ensures WithinSiNoLimit(f, s)
    ensures forall k :: 0 <= k < |s| ==> s[k].number.Some? && s[k].number.value == (if f.optionSiNo then k + 1 else 3)
  {
    var s := (if f.optionSiNo then [QuestionOption(Si, Some(1)), QuestionOption(No, Some(2))] else [])
      + (if f.thirdOption then [QuestionOption(Depende, Some(3))] else []);
    assert Si != Depende && No != Depende by {
      assert Si[0] != Depende[0] && |No| != |Depende|;
    }
    assert f.thirdOption ==> s[|s| - 1].option == Depende;
    s
  }

  /** Some option is labelled "Depende". */
  predicate HasDepende(options: seq<QuestionOption>)
  {
    exists k :: 0 <= k < |options| && options[k].option == Depende
  }

  /** Under optionSiNo alone a question holds at most two options. */
  predicate WithinSiNoLimit(f: Flags, options: seq<QuestionOption>)
  {
    f.optionSiNo && !f.thirdOption ==> |options| <= 2
  }

  /** A saved question: its flags and its options (the `options` relation). */
  class Question {
    var optionSiNo: bool
    var thirdOption: bool
    var options: seq<QuestionOption>

    function CurrentFlags(): Flags
      reads this
    {
      Flags(optionSiNo, thirdOption)
    }

    /**
     * Creating a question: clean does nothing for a question that has no
     * primary key yet; the post_save hooks then run with created = True.
     */
    constructor Create(optionSiNo: bool, thirdOption: bool)
      ensures this.optionSiNo == optionSiNo && this.thirdOption == thirdOption
      ensures options == Seeded(Flags(optionSiNo, thirdOption))
      ensures WithinSiNoLimit(CurrentFlags(), options)
    {
      this.optionSiNo := optionSiNo;
      this.thirdOption := thirdOption;
      options := [];
      new;
      var err := PostSiNoOption(true);
      err := UpdateSiNoOption(true);
    }

    /** QuestionOption.save for a new option opt of this question. */
    method AddOption(opt: QuestionOption) returns (err: Option<QuestionError>)
      modifies this`options
      ensures err == SaveCheck(CurrentFlags(), |old(options)|, opt)
      ensures options == if err.None? then old(options) + [opt] else old(options)
      ensures old(WithinSiNoLimit(CurrentFlags(), options)) ==> WithinSiNoLimit(CurrentFlags(), options)
    {
      err := SaveCheck(CurrentFlags(), |options|, opt);
      if err.None? {
        options := options + [opt];
      }
    }

    /** QuestionOption.save for the existing option at index k, now opt (the count includes it). */
    method EditOption(k: nat, opt: QuestionOption) returns (err: Option<QuestionError>)
      requires k < |options|
      modifies this`options
      ensures err == SaveCheck(CurrentFlags(), |old(options)|, opt)
      ensures options == if err.None? then old(options)[k := opt] else old(options)
      ensures old(WithinSiNoLimit(CurrentFlags(), options)) ==> WithinSiNoLimit(CurrentFlags(), options)
    {
      err := SaveCheck(CurrentFlags(), |options|, opt);
      if err.None? {
        options := options[k := opt];
      }
    }

    /** QuestionOption.delete for the option at index k. */
    method DeleteOption(k: nat) returns (err: Option<QuestionError>)
      requires k < |options|
      modifies this`options
      ensures err == DeleteCheck(CurrentFlags(), old(options)[k])
      ensures options == if err.None? then old(options)[..k] + old(options)[k + 1..] else old(options)
      ensures optionSiNo ==> forall j :: 0 <= j < |old(options)| && old(options)[j].option in {Si, No} ==>
        old(options)[j] in options
      ensures old(WithinSiNoLimit(CurrentFlags(), options)) ==> WithinSiNoLimit(CurrentFlags(), options)
    {
      err := DeleteCheck(CurrentFlags(), options[k]);
      if err.None? {
        ghost var before := options;
        options := options[..k] + options[k + 1..];
        forall j | 0 <= j < |before| && before[j].option in {Si, No} && optionSiNo
          ensures before[j] in options
        {
          if j < k {
            assert options[j] == before[j];
          } else {
            assert j != k;
            assert options[j - 1] == before[j];
          }
        }
      }
    }

    /**
     * The post_save hook post_SiNo_Option: a newly created question without
     * options receives 1 "Sí" and 2 "No" under optionSiNo, and 3 "Depende"
     * under third_option, each through QuestionOption.save, none of which fails.
     */
    method PostSiNoOption(created: bool) returns (err: Option<QuestionError>)
      modifies this`options
      ensures err.None?
      ensures options == if created && old(options) == [] then Seeded(CurrentFlags()) else old(options)
    {
      err := None;
      if created && |options| == 0 {
        if optionSiNo {
          err := AddOption(QuestionOption(Si, Some(1)));
          if err.Some? { return; }
          err := AddOption(QuestionOption(No, Some(2)));
          if err.Some? { return; }
        }
        if thirdOption {
          err := AddOption(QuestionOption(Depende, Some(3)));
          if err.Some? { return; }
        }
      }
    }

    /**
     * The post_save hook update_SiNo_Option: saving an existing question with
     * third_option set adds 3 "Depende" unless an option already bears that
     * label; the number-3 waiver lets it through at capacity.
     */
    method UpdateSiNoOption(created: bool) returns (err: Option<QuestionError>)
      modifies this`options
      ensures err.None?
      ensures options == if !created && thirdOption && !HasDepende(old(options))
                         then old(options) + [QuestionOption(Depende, Some(3))] else old(options)
      ensures !created && thirdOption ==> HasDepende(options)
    {
      err := None;
      if !created && thirdOption {
        var found := HasDependeScan();
        if !found {
          err := AddOption(QuestionOption(Depende, Some(3)));
          assert options[|options| - 1].option == Depende;
        }
      }
    }

    /** Scans the options for one labelled "Depende". */
    method HasDependeScan() returns (found: bool)
      ensures found == HasDepende(options)
    {
      found := false;
      for k := 0 to |options|
        invariant found == exists j :: 0 <= j < k && options[j].option == Depende
      {
        if options[k].option == Depende {
          found := true;
        }
      }
    }

    /**
     * Saving an existing question with new flags f: Question.clean against
     * the stored flags; if it passes, the flags are stored and the post_save
     * hooks run with created = False.
     */
    method Update(f: Flags) returns (err: Option<QuestionError>)
      modifies this
      ensures err == CleanCheck(f, |old(options)|, old(CurrentFlags()))
      ensures err.Some? ==> CurrentFlags() == old(CurrentFlags()) && options == old(options)
      ensures err.None? ==> CurrentFlags() == f
      ensures err.None? ==> options == if f.thirdOption && !HasDepende(old(options))
                                       then old(options) + [QuestionOption(Depende, Some(3))] else old(options)
      ensures err.None? ==> WithinSiNoLimit(CurrentFlags(), options)
    {
      err := CleanCheck(f, |options|, CurrentFlags());
      if err.Some? {
        return;
      }
      optionSiNo, thirdOption := f.optionSiNo, f.thirdOption;
      var e := PostSiNoOption(false);
      e := UpdateSiNoOption(false);
    }
  }

  /**
   * The number-3 waiver is not limited to "Depende": under both flags any
   * option numbered 3 passes the capacity check, however many options the
   * question already holds, while Question.clean refuses more than three.
   */
  lemma NumberThreeWaiverOutgrowsClean(count: nat, text: string)
    requires count >= 3
    ensures SaveCheck(Flags(true, true), count, QuestionOption(text, Some(3))).None?
    ensures CleanCheck(Flags(true, true), count + 1, Flags(true, true)) == Some(TooManyOptions)
  {
  }

  /** Seeding passes every guard of QuestionOption.save, one option after another. */
  lemma SeededPassesSave(f: Flags, k: nat)
    requires k < |Seeded(f)|
    ensures SaveCheck(f, k, Seeded(f)[k]).None?
  {
  }
}
