# A model of the voting core of Decide

Decide is an electronic voting platform built with Django. This project
models, in Dafny, the core of `decide/voting/models.py`. That file stands in
a merge conflict, and both of its sides are modelled:

- **The central side** (`central/integracion-votaciones`).
  - `Voting.do_postproc` counts the decrypted tally into one
    `{option, number, votes}` record per question option.
  - It then runs `do_dhont`, which gives each record its D'Hondt ladder of
    `votes / seat` rounded to four decimals.
  - Then `do_saintLague`, which gives out `seats` seats, one per round, to the
    option with the largest `votes / (2i - 1)`. The winner's working votes are
    then divided by `2i + 1`.
  - `do_borda` computes the weighted score `sum (n - i) * votes[i]`.
  - `QuestionOption.save` numbers an unnumbered option as the question's
    option count plus 2.
- **The HEAD side** has yes/no questions.
  - `Question.clean` limits the option count and forbids turning `optionSiNo`
    on over a stored `third_option`.
  - `QuestionOption.save` and `delete` guard the predefined options 1 "Sí"
    and 2 "No" under `optionSiNo`: `save` requires options numbered 1 or 2 to
    be labelled "Sí" or "No" (either label at either number), and `delete`
    refuses to remove an option labelled "Sí" or "No".
  - The `post_save` hooks `post_SiNo_Option` and `update_SiNo_Option` add
    1 "Sí", 2 "No" and 3 "Depende". Nothing protects "Depende" once it is
    there: it can be deleted, and number 3 can be re-saved with any label.

Each operation that changes state step by step is a method over an `array` or
a class with fields. Each such method is proved equal to a specification
function, and the lemmas are proved about those functions:

- `Counting.CountedAll`
- `Dhont.WithDhont`
- `SaintLague.SaintLagueApplied`, built on `SaintLague.Rounds`
- `Borda.BordaScore`
- `QuestionRules.SaveCheck`, `QuestionRules.CleanCheck` and `QuestionRules.Seeded`
- `CentralQuestion.SaveAll`

How Python is represented:

- Python's list of dicts, mutated in place, is an `array<OptionResult>`. A dict
  key that is not yet set is an `Option` field that holds `None`.
- Votes and quotients are exact `real` numbers.
- Python raises in two places that are modelled as results:
  - `max()` over the empty quotient dict: `Result.Failure`, or `false` from
    `DoSaintLague`.
  - An `IndexError` in `do_borda`: `false` from `DoBorda`.
- A `ValidationError` is an `Option<QuestionError>`. `QuestionRules.Message`
  holds the Spanish messages.

Modules:

| file | module | models |
|---|---|---|
| wrappers.dfy | Wrappers | `Option` and `Result` |
| records.dfy | Records | the option records, labels, integer sums |
| counting.dfy | Counting | the counting loop of `do_postproc` |
| dhont.dfy | Dhont | `do_dhont` and `round(x, 4)` |
| saint_lague.dfy | SaintLague | `do_saintLague` |
| borda.dfy | Borda | `do_borda` |
| postproc.dfy | Postproc | `do_postproc` (central side) as one pipeline |
| question_rules.dfy | QuestionRules | HEAD's `Question`, `QuestionOption` and the hooks |
| central_question.dfy | CentralQuestion | the central `QuestionOption.save` |

Behaviour of the code worth knowing, each point proved in the model:

- `do_saintLague` **carries the division forward**. After a win, the winner's
  working votes are divided by `2i + 1`. In every later round `j`, all working
  votes are divided again by `2j - 1`; the seats already won are not counted.
  This is not textbook Sainte-Laguë. `SaintLague.CarriedForwardDiffersFromTextbook`
  shows an input where the two give different seats.
- Whatever the votes, the seats handed out add up to `seats` for **every**
  non-empty list of options, even when every option has zero votes. When there are no options
  and at least one seat, the code raises.
- The D'Hondt entry key is `percentaje`, as the code spells it, and holds the
  rounded quotient, not a percentage.
- Option numbers are not guaranteed unique: the central-side auto-number `count + 2` can repeat a number given
  explicitly (`CentralQuestion.AutoNumberCanCollide`). Options saved
  one by one into an empty question without a number get 2, 3, 4, ... and are
  distinct (`CentralQuestion.AutoNumbersFromEmpty`).
- `QuestionOption.save` waives the capacity check for **any** option numbered 3
  under `third_option`, not only for "Depende". A question with both flags can
  therefore grow past the three options `Question.clean` allows
  (`QuestionRules.NumberThreeWaiverOutgrowsClean`).

## Model

| member | source | states |
|---|---|---|
| Counting.Occurrences | decide/voting/models.py:258 | `tally.count(n)` is at most the tally length, and it is zero exactly when `n` is absent |
| Counting.OccurrencesIsMultiplicity | decide/voting/models.py:258 | the count of `n` equals its multiplicity in the multiset of the tally |
| Counting.VotesFor | decide/voting/models.py:257-260 | an option's votes are the multiplicity of its number in a list tally, and 0 for a tally that is not a list or an option without a number |
| Counting.Counted | decide/voting/models.py:261-265 | the record of one option keeps its label and number, has no ladder or seats yet, and has no votes exactly when its number is missing from the tally |
| Counting.CountedAll | decide/voting/models.py:255-265 | the records of all options, in option order: one record per option |
| Counting.CountVotes | decide/voting/models.py:255-265 | one record per option, in order, with the option's label and number, no ladder or seats yet; votes are the multiplicity of the option's number in a list tally, and 0 for a non-list tally or a missing number |
| Counting.CountingConservesBallots | decide/voting/models.py:255-265 | options have distinct numbers and every ballot names one of them, so the votes of the records add up to the number of ballots |
| Counting.NotAListCountsZero | decide/voting/models.py:257-260 | a tally that is not a list gives every option 0 votes |
| Dhont.Round4 | decide/voting/models.py:288 | `round(x, 4)` is within half of 1/10000 of `x` and is a multiple of 1/10000 |
| Dhont.Round4Monotone | decide/voting/models.py:288 | rounding to four decimals keeps order |
| Dhont.Quotient | decide/voting/models.py:288 | one rung's value lies within half of 1/10000 of `votes / seat`, and is non-negative for non-negative votes |
| Dhont.Ladder | decide/voting/models.py:286-292 | the ladder has one entry per seat |
| Dhont.LadderAt | decide/voting/models.py:287-292 | entry `j` of the ladder is seat `j + 1` with `round(votes / (j + 1), 4)` |
| Dhont.LadderShape | decide/voting/models.py:286-292 | the seats of the ladder run 1, 2, ..., seats, in order |
| Dhont.LadderNonIncreasing | decide/voting/models.py:287-292 | for non-negative votes the rounded quotients never increase along the ladder |
| Dhont.LadderFirstIsVotes | decide/voting/models.py:288 | whenever there is a seat, the first entry is the vote count itself |
| Dhont.LadderOfFiveOverTenSeats | decide/postproc/tests.py:108-121 | 5 votes over 10 seats give 5.0, 2.5, 1.6667, 1.25, 1.0, 0.8333, 0.7143, 0.625, 0.5556, 0.5 |
| Dhont.WithDhont | decide/voting/models.py:283-294 | the records after `do_dhont`, one per input record, each with the ladder of its own votes |
| Dhont.WithDhontKeepsFields | decide/voting/models.py:283-294 | adding ladders changes only the `dhont` key of each record |
| Dhont.DoDhont | decide/voting/models.py:283-294 | in place, every record gains the ladder of its votes over the seats, and nothing else changes |
| SaintLague.FirstMax | decide/voting/models.py:304 | `max(quotients, key=quotients.get)` picks the first index whose quotient is a maximum |
| SaintLague.FirstMaxUnique | decide/voting/models.py:304 | the first maximum is unique |
| SaintLague.Quotients | decide/voting/models.py:303 | the quotient of every option in round `i`, one per option |
| SaintLague.Winner | decide/voting/models.py:303-304 | the option that wins round `i` is one of the options |
| SaintLague.Round | decide/voting/models.py:305-312 | one round keeps one working vote and one seat count per option |
| SaintLague.Rounds | decide/voting/models.py:302-312 | the working votes and seat counts keep one entry per option over every round |
| SaintLague.SeatsSum | decide/voting/models.py:302-312 | after `n` rounds the seat counts add up to `n` |
| SaintLague.SaintLagueApplied | decide/voting/models.py:296-312 | the records after `do_saintLague`: they exist exactly when there are options or no seats, and then keep the number and labels of the records |
| SaintLague.WithSeats | decide/voting/models.py:309-312 | setting the seat counts keeps the number and the labels of the records |
| SaintLague.SaintLagueConservesSeats | decide/voting/models.py:296-312 | a non-empty option list succeeds; every record keeps its fields, gains a seat count, and the seat counts add up to the seats |
| SaintLague.SaintLagueEmpty | decide/voting/models.py:302-304 | no options and some seats fail, as `max()` of an empty dict raises; no options and no seats succeed |
| SaintLague.WinnerIgnoresRoundDivisor | decide/voting/models.py:303-304 | the winner of round `i` is the first maximum of the working votes themselves, as all are divided by the same `2i - 1` |
| SaintLague.RoundWonBy | decide/voting/models.py:303-312 | the winner of a round gains exactly one seat and has its working votes divided by `2i + 1`; every other option is unchanged |
| SaintLague.FiveEqualOptionsTenSeats | decide/postproc/tests.py:375-381 | five options with 5 votes each and 10 seats get 2 seats each |
| SaintLague.HundredAndEightyFiveSeats | decide/postproc/tests.py:338-357 | votes 100 and 80 with 5 seats give 3 and 2 seats |
| SaintLague.HundredAndOneCarriedForward | decide/voting/models.py:302-308 | votes 100 and 1 with 4 seats give 3 and 1 seats under the carried-forward division |
| SaintLague.HundredAndOneTextbook | decide/voting/models.py:302-308 | textbook Sainte-Laguë gives 4 and 0 seats on the same input |
| SaintLague.CarriedForwardDiffersFromTextbook | decide/voting/models.py:302-308 | some input gets different seats from the code's rule and from textbook Sainte-Laguë |
| SaintLague.FindByName | decide/voting/models.py:305-312 | the `break` loops find the first record with the winning label |
| SaintLague.BestOption | decide/voting/models.py:303-304 | the method's winner is the first maximum of the round's quotients |
| SaintLague.ResetSeats | decide/voting/models.py:299-300 | in place, every record's seat count becomes 0, and nothing else changes |
| SaintLague.SaintLagueRound | decide/voting/models.py:303-312 | one round in place, on the records and on the deep copy, follows `Round` |
| SaintLague.DoSaintLague | decide/voting/models.py:296-312 | succeeds exactly when there are options or no seats; on success the records are those of `SaintLagueApplied`; on failure they are unchanged |
| Borda.BordaIsSumOfPrefixSums | decide/voting/models.py:319-320 | the Borda score equals the sum of the `n` prefix sums of the vote vector |
| Borda.BordaMonotone | decide/voting/models.py:319-320 | raising an entry of the vote vector never lowers the score |
| Borda.FirstShort | decide/voting/models.py:316-320 | the first record whose vector is shorter than the option count, so every earlier record is long enough |
| Borda.WeightedPrefix | decide/voting/models.py:319-320 | the sum of the first `m` weighted terms is non-negative when the votes are and every weight `n - i` is positive |
| Borda.BordaScore | decide/voting/models.py:316-321 | the Borda score of a vector of non-negative votes is non-negative |
| Borda.DoBorda | decide/voting/models.py:314-321 | succeeds exactly when every vector has at least `n` entries; records before the first short one gain their Borda score, and the rest are unchanged |
| Postproc.Postprocessed | decide/voting/models.py:251-274 | the payload's options: the counted records, then their ladders, then the Sainte-Laguë seats, or the failure of `max()` with no options and some seats; on success one record per option, with the options' labels in order |
| Postproc.PostprocessedPayload | decide/voting/models.py:251-274 | the payload exists exactly when there are options or no seats; it then holds one record per option with label, number, tally count, D'Hondt ladder and seat count, and the seats add up |
| Postproc.DoPostproc | decide/voting/models.py:251-274 | counting, `do_dhont` and `do_saintLague` in place on one list give the payload of `Postprocessed` |
| QuestionRules.CleanLimit | decide/voting/models.py:26-30 | `clean` bounds the count only under `optionSiNo`: 3 with `third_option`, 2 without |
| QuestionRules.SaveLimit | decide/voting/models.py:75-81 | `save` bounds the count when either flag is set: 3 with `third_option`, else 2 |
| QuestionRules.SaveCheck | decide/voting/models.py:83-91 | a save passes exactly when the option is under the limit or is number 3 under `third_option`, and an option numbered 1 or 2 under `optionSiNo` is labelled "Sí" or "No"; an unwaived full question gives the option-limit error with the limit; the only errors are those two |
| QuestionRules.DeleteCheck | decide/voting/models.py:96-97 | deletion is refused exactly for "Sí" or "No" under `optionSiNo` |
| QuestionRules.CleanCheck | decide/voting/models.py:25-36 | a clean passes exactly when there are no more options than the limit and `optionSiNo` is not turned on over a stored `third_option`; too many options give the too-many-options error; the only errors are those two |
| QuestionRules.Seeded | decide/voting/models.py:49-57 | two options under `optionSiNo` plus one under `third_option`; a "Depende" exactly under `third_option`; the two-option limit kept; numbers 1, 2 and 3 in order |
| QuestionRules.Message | decide/voting/models.py:31-97 | the Spanish message of each `ValidationError`; the option-limit message ends with the limit in decimal digits and a full stop |
| QuestionRules.Question.Create | decide/voting/models.py:45-57 | a new question holds exactly the seeded options: 1 "Sí" and 2 "No" under `optionSiNo`, then 3 "Depende" under `third_option` |
| QuestionRules.Question.AddOption | decide/voting/models.py:74-93 | the option is appended exactly when `SaveCheck` passes, and the two-option limit under `optionSiNo` alone is kept |
| QuestionRules.Question.EditOption | decide/voting/models.py:74-93 | the option at the index is replaced exactly when `SaveCheck` passes, counting the option itself |
| QuestionRules.Question.DeleteOption | decide/voting/models.py:95-98 | the option is removed exactly when `DeleteCheck` passes; under `optionSiNo` "Sí" and "No" survive |
| QuestionRules.Question.PostSiNoOption | decide/voting/models.py:45-57 | on creation, a question without options receives the seeded options, and no seeding save fails |
| QuestionRules.Question.UpdateSiNoOption | decide/voting/models.py:59-66 | on an update with `third_option`, 3 "Depende" is appended unless present, so afterwards a "Depende" exists |
| QuestionRules.Question.HasDependeScan | decide/voting/models.py:64 | the `any(...)` scan finds "Depende" exactly when some option bears it |
| QuestionRules.Question.Update | decide/voting/models.py:24-66 | a refused clean changes nothing; otherwise the flags are stored, "Depende" is added when needed, and the two-option limit holds |
| QuestionRules.SeededPassesSave | decide/voting/models.py:49-57 | each seeded option passes `QuestionOption.save` at its turn |
| QuestionRules.NumberThreeWaiverOutgrowsClean | decide/voting/models.py:31-83 | under both flags, an option numbered 3 passes the capacity check of `save` (line 83) at any count, while `clean` (line 31) refuses more than three |
| CentralQuestion.AutoNumber | decide/voting/models.py:132-135 | an option numbered non-zero keeps its number; an unnumbered one gets count + 2, at least 2 |
| CentralQuestion.SaveAll | decide/voting/models.py:132-135 | saving new options in turn appends one option per save |
| CentralQuestion.AutoNumbersFromEmpty | decide/voting/models.py:132-135 | unnumbered options saved into an empty question are numbered 2, 3, 4, ... and are distinct |
| CentralQuestion.AutoNumberCanCollide | decide/voting/models.py:133-134 | an explicit 3 followed by an unnumbered option gives two options numbered 3 |
| CentralQuestion.Question.SaveOption | decide/voting/models.py:132-135 | the saved option gets its auto-number and is appended to the question's options |

## Left out

- `Voting.tally_votes`, `create_pubkey` and `get_votes` reach other services over HTTP. The model starts from the decrypted tally they produce.
- `do_postproc` then posts the payload to the post-processing service and stores the reply. Only the payload is modelled; the network call and the save are left out.
- The HEAD side's `do_postproc` only counts. That is `Counting.CountVotes` with no apportionment.
- `PostProcessing` in `decide/postproc/models.py` (droop, the validator, `saint`) is not part of this model. The test lines cited above state the seat counts that `do_saintLague` produces on their inputs.
- SaintLague.Rounds: working votes and quotients are exact reals. Python divides and compares binary floats, so on near-ties, where rounding error decides the comparison, the two can pick different winners.
- Dhont.Round4: rounds exact reals half up. Python's `round` on binary floats rounds ties to even on the float value, so the two can differ in the last decimal on exact ties.
- SaintLague.DoSaintLague: requires unique option labels, because the quotient dict is keyed by label. With duplicate labels, Python's dict keeps the last record's quotient while the `break` loops pick the first record; this is not modelled.
- Postproc.DoPostproc: requires distinct option labels, for the same reason.
- `Voting.seats` is a natural number here. A `None` seat count raises a `TypeError` in `range`, which is not modelled.
- A tally whose elements are not integers is not modelled. A list tally is a sequence of integers.
- The Django ORM, `full_clean` beyond `clean`, and signal dispatch are modelled as direct calls. A question's options are a sequence in insertion order. The `pk is None` case of `clean` is the constructor, where `clean` checks nothing.
- CentralQuestion.Question.SaveOption: models saving a new option only. Re-saving a stored option is not modelled.
- `__str__` methods, `VOTING_TYPES`, the fields that are only data, and the rest of the repository (store, census, authentication, the web views) are outside the core.
