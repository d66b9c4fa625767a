/** The stand-alone quoting tool: its count-based health-tier effect and the
    `handleSubmit` flow that sends the quote and resets the form. */
module StandaloneQuoting {
  import opened Questionnaire
  import opened ContactForm

  // ---------------------------------------------------------------------
  // Health tier
  // ---------------------------------------------------------------------

  /** One run of the tool's tier effect: the tier stored afterwards, given the
      tier stored before and `qs == [q1, q2, q3, q4, q5]`. The all-yes test
      runs first, then "at least three yes", then all-no. */
  function SlimTier(prev: Tier, qs: seq<Answer>): (t: Tier)
    requires |qs| == 5
    ensures Count(qs, Yes) == 5 ==> t == Select3
    // three or four yes answers give select2, never select3
    ensures 3 <= Count(qs, Yes) < 5 ==> t == Select2
    ensures Count(qs, No) == 5 ==> t == Select1
    // at most two yes answers and not all no: the old tier stays
    ensures Count(qs, Yes) <= 2 && Count(qs, No) < 5 ==> t == prev
  {
    if Every(qs, Yes) then Select3
    else if Count(qs, Yes) >= 3 then Select2
    else if Every(qs, No) then Select1
    else prev
  }

  /** Only how many answers are yes and no matters: listing the same answers
      in another order gives the same tier. */
  lemma {:induction false} SlimTierIgnoresOrder(prev: Tier, qs: seq<Answer>, rs: seq<Answer>)
    requires |qs| == 5
    requires multiset(qs) == multiset(rs)
    ensures |rs| == 5
    ensures SlimTier(prev, qs) == SlimTier(prev, rs)
  {
    assert |rs| == |multiset(rs)| == |multiset(qs)| == |qs|;
    CountIsMultiplicity(qs, Yes);
    CountIsMultiplicity(rs, Yes);
    CountIsMultiplicity(qs, No);
    CountIsMultiplicity(rs, No);
  }

  /** Once at least three answers are yes, answering yes to more questions
      never gives a healthier tier. */
  lemma SlimTierMonotone(prev: Tier, prev': Tier, a: seq<Answer>, b: seq<Answer>)
    requires |a| == 5 && |b| == 5
    requires Count(a, Yes) >= 3
    requires forall i | 0 <= i < 5 :: a[i] == Yes ==> b[i] == Yes
    ensures Rank(SlimTier(prev, a)) <= Rank(SlimTier(prev', b))
  {
    CountMonotone(a, b, Yes);
  }

  /** Five open answers fire no branch of the effect: the tier stays. */
  lemma OpenAnswersKeepTier(prev: Tier)
    ensures SlimTier(prev, [Unanswered, Unanswered, Unanswered, Unanswered, Unanswered]) == prev
  {
    var open := [Unanswered, Unanswered, Unanswered, Unanswered, Unanswered];
    assert Yes !in open && No !in open;
  }

  /** Running the effect a second time on the same answers changes nothing. */
  lemma SlimTierIdempotent(prev: Tier, qs: seq<Answer>)
    requires |qs| == 5
    ensures SlimTier(SlimTier(prev, qs), qs) == SlimTier(prev, qs)
  {
  }

  // ---------------------------------------------------------------------
  // Submission
  // ---------------------------------------------------------------------

  /** How the POST of the quote ended: a response with `ok` set, a response
      without it, or an exception thrown by `fetch`. */
  datatype Response = Ok | NotOk | Threw

  /** What the three submission flags say together. */
  datatype SubmitStatus = Idle | Sending | Sent | Failed

  /** The tool component's state that the tier effect, the contact form and
      `handleSubmit` touch. */
  class FinalExpenseQuotingTool {
    var form: map<string, string>
    var healthTier: Tier
    var q1: Answer
    var q2: Answer
    var q3: Answer
    var q4: Answer
    var q5: Answer
    var isSubmitting: bool
    var submitSuccess: bool
    var submitError: bool

    /** `[q1, q2, q3, q4, q5]`. */
    function Answers(): (qs: seq<Answer>)
      reads this
      ensures |qs| == 5
    {
      [q1, q2, q3, q4, q5]
    }

    /** The form keeps its six fields; success and error are never shown
        together, and neither is shown while a submission is in flight. */
    ghost predicate Valid()
      reads this
    {
      FormFields <= form.Keys &&
      !(submitSuccess && submitError) &&
      (isSubmitting ==> !submitSuccess && !submitError)
    }

    /** The submission status the flags encode. */
    function Status(): SubmitStatus
      reads this
    {
      if isSubmitting then Sending
      else if submitSuccess then Sent
      else if submitError then Failed
      else Idle
    }

    /** The state at mount. The effect's first run sees five open answers and
        keeps select1. */
    constructor ()
      ensures Valid() && Status() == Idle
      ensures form == EmptyForm() && healthTier == Select1
      ensures Answers() == [Unanswered, Unanswered, Unanswered, Unanswered, Unanswered]
    {
      form := EmptyForm();
      healthTier := Select1;
      q1, q2, q3, q4, q5 := Unanswered, Unanswered, Unanswered, Unanswered, Unanswered;
      isSubmitting, submitSuccess, submitError := false, false, false;
    }

    /** The tier effect, run after any of q1..q5 changes. */
    method ClassifyTier()
      modifies this`healthTier
      ensures healthTier == SlimTier(old(healthTier), Answers())
    {
      var answers := [q1, q2, q3, q4, q5];
      if Every(answers, Yes) {
        healthTier := Select3;
      } else if Count(answers, Yes) >= 3 {
        healthTier := Select2;
      } else if Every(answers, No) {
        healthTier := Select1;
      }
    }

    /** A click on the yes or no radio button of question variable q`k`
        (the buttons store only yes or no). The tier effect runs only when the
        stored answer changes: React runs an effect only when one of its
        dependencies changed. */
    method SetAnswer(k: nat, a: Answer)
      requires Valid()
      requires 1 <= k <= 5
      requires a != Unanswered
      modifies this
      ensures Valid()
      ensures Answers() == old(Answers())[k - 1 := a]
      ensures old(Answers())[k - 1] != a ==> healthTier == SlimTier(old(healthTier), Answers())
      ensures old(Answers())[k - 1] == a ==> healthTier == old(healthTier)
      ensures form == old(form) && Status() == old(Status())
      ensures isSubmitting == old(isSubmitting) && submitSuccess == old(submitSuccess) && submitError == old(submitError)
    {
      var changed := Answers()[k - 1] != a;
      if changed {
        StoreAnswer(k, a);
        ClassifyTier();
      } else {
        // storing the value already held changes no state
        var qs := Answers();
        assert qs[k - 1 := a] == qs;
      }
    }

    /** The setter `setQ<k>` alone. */
    method StoreAnswer(k: nat, a: Answer)
      requires 1 <= k <= 5
      modifies this`q1, this`q2, this`q3, this`q4, this`q5
      ensures Answers() == old(Answers())[k - 1 := a]
    {
      if k == 1 { q1 := a; }
      else if k == 2 { q2 := a; }
      else if k == 3 { q3 := a; }
      else if k == 4 { q4 := a; }
      else { q5 := a; }
    }

    /** `handleChange`: the form field named by the input takes its value. */
    method HandleChange(name: string, value: string)
      requires Valid()
      modifies this`form
      ensures Valid()
      ensures form == old(form)[name := value]
    {
      form := form[name := value];
    }

    /** The start of `handleSubmit`. The submit button is disabled while a
        submission is in flight, so a new one starts only from rest. */
    method BeginSubmit()
      requires Valid()
      requires !isSubmitting
      modifies this`isSubmitting, this`submitSuccess, this`submitError
      ensures Valid()
      ensures isSubmitting && !submitSuccess && !submitError
      ensures Status() == Sending
    {
      isSubmitting := true;
      submitError := false;
      submitSuccess := false;
    }

    /** The end of `handleSubmit` once the POST has settled: success exactly
        when a response came back with `ok`, and then the form, the tier and
        the answers are reset; on failure they are left as they were. The
        setters after the `await` are taken to land in one render, so the
        tier effect, if the answers changed, sees five open answers and keeps
        select1. */
    method FinishSubmit(response: Response)
      requires Valid()
      requires isSubmitting
      modifies this
      ensures Valid()
      ensures !isSubmitting
      ensures submitSuccess != submitError
      ensures submitSuccess <==> response == Ok
      ensures Status() == if response == Ok then Sent else Failed
      ensures response == Ok ==>
                form == EmptyForm() && healthTier == Select1 &&
                Answers() == [Unanswered, Unanswered, Unanswered, Unanswered, Unanswered]
      ensures response != Ok ==>
                form == old(form) && healthTier == old(healthTier) && Answers() == old(Answers())
    {
      if response == Ok {
        submitSuccess := true;
        form := EmptyForm();
        ResetQuestionnaire();
      } else {
        submitError := true;
      }
      isSubmitting := false;
    }

    /** `setHealthTier('select1')` and `setQ1(null)` .. `setQ5(null)`, then
        the tier effect if the answers changed: it sees five open answers and
        keeps select1. */
    method ResetQuestionnaire()
      modifies this`healthTier, this`q1, this`q2, this`q3, this`q4, this`q5
      ensures healthTier == Select1
      ensures Answers() == [Unanswered, Unanswered, Unanswered, Unanswered, Unanswered]
      ensures SlimTier(healthTier, Answers()) == healthTier
    {
      var open := [Unanswered, Unanswered, Unanswered, Unanswered, Unanswered];
      var changed := Answers() != open;
      healthTier := Select1;
      q1, q2, q3, q4, q5 := Unanswered, Unanswered, Unanswered, Unanswered, Unanswered;
      OpenAnswersKeepTier(Select1);
      if changed {
        ClassifyTier();
      }
    }

    /** The whole of `handleSubmit` when nothing else happens while the POST
        is in flight. */
    method HandleSubmit(response: Response)
      requires Valid()
      requires !isSubmitting
      modifies this
      ensures Valid()
      ensures !isSubmitting
      ensures submitSuccess != submitError
      ensures submitSuccess <==> response == Ok
      ensures Status() == if response == Ok then Sent else Failed
      ensures response == Ok ==>
                form == EmptyForm() && healthTier == Select1 &&
                Answers() == [Unanswered, Unanswered, Unanswered, Unanswered, Unanswered]
      ensures response != Ok ==>
                form == old(form) && healthTier == old(healthTier) && Answers() == old(Answers())
    {
      BeginSubmit();
      FinishSubmit(response);
    }
  }
}
