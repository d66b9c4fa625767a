/** The five-question health questionnaire that both quoting components keep,
    and the three health tiers it classifies into. */
module Questionnaire {

  /** One stored answer. The radio buttons store the strings "yes" and "no";
      the state is `null` until a button has been clicked. */
  datatype Answer = Unanswered | Yes | No

  /** The health tier used to pick a rate table; select1 is the healthiest. */
  datatype Tier = Select1 | Select2 | Select3

  /** Position of a tier in the order select1 < select2 < select3. */
  function Rank(t: Tier): (n: nat)
    ensures 1 <= n <= 3
  {
    match t
    case Select1 => 1
    case Select2 => 2
    case Select3 => 3
  }

  /** `s.every(q => q === a)`. */
  predicate Every(s: seq<Answer>, a: Answer): (r: bool)
    ensures r <==> forall b | b in s :: b == a
  {
    assert forall i | 0 <= i < |s| :: s[i] in s;
    forall i | 0 <= i < |s| :: s[i] == a
  }

  /** `s.filter(q => q === a).length`: how many answers equal `a`. */
  function Count(s: seq<Answer>, a: Answer): (n: nat)
    ensures n <= |s|
    ensures n == |s| <==> Every(s, a)
    ensures n == 0 <==> a !in s
  {
    if s == [] then 0
    else (if s[0] == a then 1 else 0) + Count(s[1..], a)
  }

  /** The count is the multiplicity of `a` in the multiset of answers, so it
      does not depend on the order in which the answers are listed. */
  lemma {:induction false} CountIsMultiplicity(s: seq<Answer>, a: Answer)
    ensures Count(s, a) == multiset(s)[a]
  {
    if s != [] {
      assert s == [s[0]] + s[1..];
      CountIsMultiplicity(s[1..], a);
    }
  }

  /** Turning more answers into `a` never lowers the count of `a`. */
  lemma {:induction false} CountMonotone(s: seq<Answer>, t: seq<Answer>, a: Answer)
    requires |s| == |t|
    requires forall i | 0 <= i < |s| :: s[i] == a ==> t[i] == a
    ensures Count(s, a) <= Count(t, a)
  {
    if s != [] {
      forall i | 0 <= i < |s| - 1 && s[1..][i] == a
        ensures t[1..][i] == a
      {
        assert s[i + 1] == a;
      }
      CountMonotone(s[1..], t[1..], a);
    }
  }
}
