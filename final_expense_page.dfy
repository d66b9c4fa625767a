/** The Final Expense page: its health-tier effect, the funeral-cost box and
    the gating of the premium quote on a chosen state. */
module FinalExpense {
  import opened Wrappers
  import opened Questionnaire
  import opened ContactForm

  // ---------------------------------------------------------------------
  // Health tier
  // ---------------------------------------------------------------------

  /** The effect only classifies once a state and a burial type are chosen
      (both selects start at the empty string, which JavaScript treats as false). */
  predicate Armed(selectedState: string, burialType: string): (r: bool)
    ensures r <==> |selectedState| > 0 && |burialType| > 0
  {
    selectedState != "" && burialType != ""
  }

  /** One run of the page's tier effect: the tier stored afterwards, given the
      tier stored before. `qs` is `[q1, q2, q3, q4, q5]`, in variable order,
      which is not the displayed order: q1 is displayed question 5 (serious
      diagnoses), q2 question 3 (overnight hospital stay), q3 question 2
      (oxygen, wheelchair or nursing home), q4 question 4 (controlled
      conditions) and q5 question 1 (tobacco). */
  function PageTier(prev: Tier, qs: seq<Answer>, selectedState: string, burialType: string): (t: Tier)
    requires |qs| == 5
    // without a state and a burial type, answers never move the tier
    ensures !Armed(selectedState, burialType) ==> t == prev
    // a yes to q1, q2 or q3 wins, whatever q4 and q5 are
    ensures Armed(selectedState, burialType) && Yes in qs[..3] ==> t == Select3
    // otherwise a yes to q4 or q5 gives select2
    ensures Armed(selectedState, burialType) && Yes !in qs[..3] && Yes in qs[3..] ==> t == Select2
    // five noes give select1
    ensures Armed(selectedState, burialType) && Every(qs, No) ==> t == Select1
    // no yes and some question still open: the old tier stays
    ensures Armed(selectedState, burialType) && Yes !in qs && Unanswered in qs ==> t == prev
  {
    if !Armed(selectedState, burialType) then prev
    else if Yes in [qs[0], qs[1], qs[2]] then Select3
    else if qs[3] == Yes || qs[4] == Yes then Select2
    else if Every(qs, No) then Select1
    else prev
  }

  /** Severity of a yes to the question held in variable q(i+1): the three
      questions q1..q3 are the serious ones, q4 and q5 the moderate ones. */
  function Weight(i: nat): nat
  {
    if i < 3 then 3 else 2
  }

  /** The largest weight among the yes answers in `qs[..n]`, 0 if there is none. */
  function WorstYes(qs: seq<Answer>, n: nat): (w: nat)
    requires n <= |qs|
    ensures w == 0 <==> Yes !in qs[..n]
    ensures w == 0 || w == 2 || w == 3
  {
    if n == 0 then 0
    else
      var rest := WorstYes(qs, n - 1);
      var here := if qs[n - 1] == Yes then Weight(n - 1) else 0;
      assert qs[..n] == qs[..n - 1] + [qs[n - 1]];
      if here > rest then here else rest
  }

  /** Reference reading of the page rule: once armed, a questionnaire with a
      yes answer is classified by its most severe yes answer; with no yes it
      is select1 only when every answer is no, and otherwise left alone. */
  lemma {:induction false} PageTierIsWorstYes(prev: Tier, qs: seq<Answer>, selectedState: string, burialType: string)
    requires |qs| == 5
    ensures Armed(selectedState, burialType) && Yes in qs ==>
              Rank(PageTier(prev, qs, selectedState, burialType)) == WorstYes(qs, 5)
    ensures Armed(selectedState, burialType) && Yes !in qs ==>
              PageTier(prev, qs, selectedState, burialType) == if Every(qs, No) then Select1 else prev
  {
    assert qs[..5] == qs;
    var w3 := WorstYes(qs, 3);
    assert w3 == 0 || w3 == 3 by {
      assert WorstYes(qs, 1) == 0 || WorstYes(qs, 1) == 3;
      assert WorstYes(qs, 2) == 0 || WorstYes(qs, 2) == 3;
    }
    assert WorstYes(qs, 5) == (if w3 == 3 then 3 else if qs[3] == Yes || qs[4] == Yes then 2 else 0);
    assert qs[..3] == [qs[0], qs[1], qs[2]];
  }

  /** Answering yes to more questions never gives a healthier tier. */
  lemma PageTierMonotone(prev: Tier, prev': Tier, a: seq<Answer>, b: seq<Answer>, selectedState: string, burialType: string)
    requires |a| == 5 && |b| == 5
    requires Armed(selectedState, burialType)
    requires Yes in a
    requires forall i | 0 <= i < 5 :: a[i] == Yes ==> b[i] == Yes
    ensures Rank(PageTier(prev, a, selectedState, burialType)) <= Rank(PageTier(prev', b, selectedState, burialType))
  {
  }

  /** Once a yes is given, or every answer is no, the tier no longer depends
      on what was stored before. */
  lemma PageTierDecided(prev: Tier, prev': Tier, qs: seq<Answer>, selectedState: string, burialType: string)
    requires |qs| == 5
    requires Armed(selectedState, burialType)
    requires Yes in qs || Every(qs, No)
    ensures PageTier(prev, qs, selectedState, burialType) == PageTier(prev', qs, selectedState, burialType)
  {
  }

  /** Running the effect a second time on the same inputs keeps the tier the
      first run produced. (A tier stored by hand need not be such a fixed
      point, which is why the handlers run the effect only on a change.) */
  lemma PageTierIdempotent(prev: Tier, qs: seq<Answer>, selectedState: string, burialType: string)
    requires |qs| == 5
    ensures var t := PageTier(prev, qs, selectedState, burialType);
            PageTier(t, qs, selectedState, burialType) == t
  {
  }

  // ---------------------------------------------------------------------
  // Funeral cost box
  // ---------------------------------------------------------------------

  /** A `[min, max]` pair of dollar amounts. */
  datatype Range = Range(min: int, max: int)

  /** One record of the funeral-cost table. */
  datatype StateCosts = StateCosts(state: string, burial: Range, cremation: Range)

  /** `table.find(f => f.state === s)`: the first record for state `s`. */
  function FindState(table: seq<StateCosts>, s: string): (r: Option<StateCosts>)
    ensures r.None? <==> forall i | 0 <= i < |table| :: table[i].state != s
    ensures r.Some? ==> exists i | 0 <= i < |table| :: FirstFor(table, s, i) && table[i] == r.value
  {
    if table == [] then None
    else if table[0].state == s then
      assert FirstFor(table, s, 0);
      Some(table[0])
    else
      var r := FindState(table[1..], s);
      assert r.Some? ==> exists i | 0 <= i < |table[1..]| :: FirstFor(table[1..], s, i) && table[1..][i] == r.value;
      if r.Some? then
        var i :| 0 <= i < |table[1..]| && FirstFor(table[1..], s, i) && table[1..][i] == r.value;
        assert FirstFor(table, s, i + 1);
        r
      else r
  }

  /** Record `i` is the first one for state `s`. */
  predicate FirstFor(table: seq<StateCosts>, s: string, i: nat)
  {
    i < |table| && table[i].state == s && forall j | 0 <= j < i :: table[j].state != s
  }

  /** The cost range shown for the chosen state and burial type: absent unless
      the state has a record and a burial type is chosen; the burial pair when
      the type is "burial" and the cremation pair for any other type. */
  function CostRange(table: seq<StateCosts>, selectedState: string, burialType: string): (r: Option<Range>)
    ensures r.Some? <==> burialType != "" && exists i | 0 <= i < |table| :: table[i].state == selectedState
    ensures r.Some? ==>
              exists i | 0 <= i < |table| ::
                FirstFor(table, selectedState, i) &&
                r.value == (if burialType == "burial" then table[i].burial else table[i].cremation)
  {
    match FindState(table, selectedState)
    case Some(costs) =>
      if burialType != "" then
        Some(if burialType == "burial" then costs.burial else costs.cremation)
      else None
    case None => None
  }

  /** What the cost box shows: a prompt to choose, or the average cost of the
      chosen kind in the chosen state. The text formatting is not modelled. */
  datatype CostBox = SelectPrompt | AverageCost(kind: string, state: string, range: Range)

  /** The cost box: the prompt exactly when there is no cost range; otherwise
      the chosen kind, the chosen state and their range. */
  function CostBoxText(table: seq<StateCosts>, selectedState: string, burialType: string): (b: CostBox)
    ensures b.SelectPrompt? <==> CostRange(table, selectedState, burialType).None?
    ensures b.AverageCost? ==>
              b.kind == burialType && b.state == selectedState &&
              Some(b.range) == CostRange(table, selectedState, burialType)
  {
    match CostRange(table, selectedState, burialType)
    case Some(range) => AverageCost(burialType, selectedState, range)
    case None => SelectPrompt
  }

  // ---------------------------------------------------------------------
  // Quote gating
  // ---------------------------------------------------------------------

  datatype Gender = Male | Female

  /** The quote the page shows: none until a state is chosen, then whatever
      the rate lookup (`getNationalQuote`, not part of this model) returns for
      the slider values and the stored tier. */
  function GatedQuote<Q>(selectedState: string, gender: Gender, age: int, coverage: int, tier: Tier,
                         lookup: (Gender, int, int, Tier) -> Q): (r: Option<Q>)
    ensures r.None? <==> selectedState == ""
    ensures r.Some? ==> r.value == lookup(gender, age, coverage, tier)
  {
    if selectedState != "" then Some(lookup(gender, age, coverage, tier)) else None
  }

  // ---------------------------------------------------------------------
  // Page state
  // ---------------------------------------------------------------------

  /** The page component's state that the tier effect and the selects touch. */
  class FinalExpensePage {
    var form: map<string, string>
    var selectedState: string
    var burialType: string
    var healthTier: Tier
    var q1: Answer
    var q2: Answer
    var q3: Answer
    var q4: Answer
    var q5: Answer

    /** `[q1, q2, q3, q4, q5]`. */
    function Answers(): (qs: seq<Answer>)
      reads this
      ensures |qs| == 5
    {
      [q1, q2, q3, q4, q5]
    }

    /** The form keeps its six fields and its `state` field mirrors the state select. */
    ghost predicate Valid()
      reads this
    {
      form.Keys == FormFields && form["state"] == selectedState
    }

    /** The state at mount. The effect's first run finds no state chosen and
        keeps select1. */
    constructor ()
      ensures Valid()
      ensures form == EmptyForm() && selectedState == "" && burialType == ""
      ensures healthTier == Select1
      ensures Answers() == [Unanswered, Unanswered, Unanswered, Unanswered, Unanswered]
    {
      form := EmptyForm();
      selectedState := "";
      burialType := "";
      healthTier := Select1;
      q1, q2, q3, q4, q5 := Unanswered, Unanswered, Unanswered, Unanswered, Unanswered;
    }

    /** The tier effect, run after any of q1..q5, selectedState or burialType changes. */
    method ClassifyTier()
      modifies this`healthTier
      ensures healthTier == PageTier(old(healthTier), Answers(), selectedState, burialType)
    {
      if selectedState == "" || burialType == "" {
        return;
      }
      if Yes in [q1, q2, q3] {
        healthTier := Select3;
      } else if q4 == Yes || q5 == Yes {
        healthTier := Select2;
      } else if Every(Answers(), No) {
        healthTier := Select1;
      }
    }

    /** A click on the yes or no radio button of question variable q`k`
        (the buttons store only yes or no). The tier effect runs only when the
        stored answer changes: React runs an effect only when one of its
        dependencies changed, so re-storing the answer already held keeps the
        tier, even one chosen by hand with `ChooseTier`. */
    method SetAnswer(k: nat, a: Answer)
      requires Valid()
      requires 1 <= k <= 5
      requires a != Unanswered
      modifies this
      ensures Valid()
      ensures Answers() == old(Answers())[k - 1 := a]
      ensures old(Answers())[k - 1] != a ==>
                healthTier == PageTier(old(healthTier), Answers(), selectedState, burialType)
      ensures old(Answers())[k - 1] == a ==> healthTier == old(healthTier)
      ensures form == old(form) && selectedState == old(selectedState) && burialType == old(burialType)
    {
      var changed := Answers()[k - 1] != a;
      if k == 1 { q1 := a; }
      else if k == 2 { q2 := a; }
      else if k == 3 { q3 := a; }
      else if k == 4 { q4 := a; }
      else { q5 := a; }
      if changed {
        ClassifyTier();
      }
    }

    /** `handleStateChange`: the state select and the form's state field take
        the new value; the tier effect runs only when the state changed. */
    method ChangeState(s: string)
      requires Valid()
      modifies this
      ensures Valid()
      ensures selectedState == s && form == old(form)["state" := s]
      ensures old(selectedState) != s ==> healthTier == PageTier(old(healthTier), Answers(), s, burialType)
      ensures old(selectedState) == s ==> healthTier == old(healthTier)
      ensures Answers() == old(Answers()) && burialType == old(burialType)
    {
      var changed := selectedState != s;
      selectedState := s;
      form := form["state" := s];
      if changed {
        ClassifyTier();
      }
    }

    /** `handleBurialTypeChange`; the tier effect runs only when the burial
        type changed. */
    method ChangeBurialType(b: string)
      requires Valid()
      modifies this
      ensures Valid()
      ensures burialType == b
      ensures old(burialType) != b ==> healthTier == PageTier(old(healthTier), Answers(), selectedState, b)
      ensures old(burialType) == b ==> healthTier == old(healthTier)
      ensures Answers() == old(Answers()) && form == old(form) && selectedState == old(selectedState)
    {
      var changed := burialType != b;
      burialType := b;
      if changed {
        ClassifyTier();
      }
    }

    /** The tier radio buttons next to the sliders store a tier directly; the
        tier is not a dependency of the effect, so nothing re-classifies it. */
    method ChooseTier(t: Tier)
      requires Valid()
      modifies this`healthTier
      ensures Valid()
      ensures healthTier == t
    {
      healthTier := t;
    }
  }
}
