/** The two components classify the same questionnaire by different rules. */
module TierRules {
  import opened Questionnaire
  import FinalExpense
  import StandaloneQuoting

  /** A yes to one of q1..q3 that is the only yes answer (the other
      questions may be answered no or still be open) puts the applicant in
      select3 on the page while the stand-alone tool keeps whatever tier it
      held before. */
  lemma SingleSeriousYesDiverges(prev: Tier, qs: seq<Answer>, selectedState: string, burialType: string)
    requires |qs| == 5
    requires FinalExpense.Armed(selectedState, burialType)
    requires Yes in qs[..3]
    requires Count(qs, Yes) == 1
    ensures FinalExpense.PageTier(prev, qs, selectedState, burialType) == Select3
    ensures StandaloneQuoting.SlimTier(prev, qs) == prev
  {
  }

  /** Whatever tier is stored, some questionnaire is classified differently:
      four yes answers including q1 give select3 on the page and select2 in
      the stand-alone tool, whose select3 needs all five. */
  lemma {:induction false} ClassifiersDisagree(prev: Tier)
    ensures exists qs: seq<Answer> ::
              |qs| == 5 &&
              FinalExpense.PageTier(prev, qs, "Michigan", "burial") != StandaloneQuoting.SlimTier(prev, qs)
  {
    var qs := [Yes, Yes, Yes, Yes, No];
    assert qs[..3] == [Yes, Yes, Yes];
    CountIsMultiplicity(qs, Yes);
    assert multiset(qs)[Yes] == 4;
    assert FinalExpense.PageTier(prev, qs, "Michigan", "burial") == Select3;
    assert StandaloneQuoting.SlimTier(prev, qs) == Select2;
  }
}
