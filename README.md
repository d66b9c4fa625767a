# Final-expense quoting components: tier classification, cost box and submission

This project models the decision logic of the two quoting components of a
final-expense insurance website, and proves what they promise.

* **The Final Expense page** (`src/pages/FinalExpensePage.tsx`). A React
  effect watches five questionnaire answers (`q1`..`q5`: yes, no or not yet
  answered), the chosen state and the chosen burial type, and may overwrite
  the stored health tier (`select1`, `select2`, `select3`). It does nothing
  until both a state and a burial type are chosen. Then a yes to `q1`, `q2` or
  `q3` gives select3; otherwise a yes to `q4` or `q5` gives select2; otherwise
  five noes give select1; otherwise the old tier stays. The page also looks up
  the first funeral-cost record of the chosen state and shows its burial or
  cremation `[min, max]` range, and it asks the rate lookup for a quote only
  once a state is chosen.
* **The stand-alone quoting tool** (`STANDALONE_QUOTING_COMPONENT_SLIM.tsx`).
  Its effect classifies by counting. Five yes answers give select3. Three or
  four give select2. Five noes give select1. Anything else leaves the old tier
  alone. Its `handleSubmit` raises `isSubmitting`, clears the success and error
  flags, and posts the quote. When the POST settles, it sets exactly one of
  `submitSuccess` and `submitError`. On success it also resets the contact
  form, the tier and the answers. Finally it lowers `isSubmitting`.

The variables are not in displayed order. `q5` is displayed question 1
(tobacco), `q3` question 2 (oxygen, wheelchair or nursing home), `q2`
question 3 (overnight hospital stay), `q4` question 4 (controlled
conditions) and `q1` question 5 (serious diagnoses).

Each component is a Dafny `class` holding the state its handlers change
(`FinalExpense.FinalExpensePage`, `StandaloneQuoting.FinalExpenseQuotingTool`).
A handler that changes a dependency of the tier effect is followed by one
run of the effect (`ClassifyTier`). The classifiers, the cost-range lookup and
the quote gating are pure functions; the lemmas beside them state
precedence, retention, monotonicity, order independence and idempotence.
The two classifiers are kept separate, as in the source, and `TierRules`
proves that they disagree.

Files: `wrappers.dfy` (Option), `questionnaire.dfy` (answers, tiers,
counting), `contact_form.dfy` (the form object), `final_expense_page.dfy`,
`standalone_quoting.dfy`, `tier_rules.dfy`.

## Model

| member | source | states |
|---|---|---|
| Questionnaire.Every | STANDALONE_QUOTING_COMPONENT_SLIM.tsx:26 | `every(q => q === a)`: holds exactly when every answer listed is `a`, in index and in membership form (also used at :30 and by the page at src/pages/FinalExpensePage.tsx line 42) |
| Questionnaire.Count | STANDALONE_QUOTING_COMPONENT_SLIM.tsx:28 | the number of answers equal to a value is at most the length, equals the length exactly when every answer is that value, and is zero exactly when the value does not occur |
| Questionnaire.CountIsMultiplicity | STANDALONE_QUOTING_COMPONENT_SLIM.tsx:26-30 | the yes/no counts the tool uses are multiplicities of the multiset of answers, so they ignore order |
| Questionnaire.CountMonotone | STANDALONE_QUOTING_COMPONENT_SLIM.tsx:28 | turning more answers into yes never lowers the yes count |
| ContactForm.EmptyForm | STANDALONE_QUOTING_COMPONENT_SLIM.tsx:79 | the reset form has exactly the six fields name, age, state, coverage, health and email, all empty |
| FinalExpense.Armed | src/pages/FinalExpensePage.tsx:37 | the page's guard passes exactly when both the state and the burial type are non-empty strings |
| FinalExpense.PageTier | src/pages/FinalExpensePage.tsx:36-45 | without a state and a burial type the tier is kept; a yes to q1..q3 gives select3 whatever q4 and q5 are; else a yes to q4 or q5 gives select2; five noes give select1; no yes with an open question keeps the tier |
| FinalExpense.WorstYes | src/pages/FinalExpensePage.tsx:38-41 | the most severe yes weight in a prefix of the answers is 0, 2 or 3, and 0 exactly when the prefix holds no yes |
| FinalExpense.PageTierIsWorstYes | src/pages/FinalExpensePage.tsx:38-43 | once armed, a questionnaire with a yes gets the tier ranked by its most severe yes answer (q1..q3 weigh 3, q4 and q5 weigh 2); without a yes it is select1 exactly when all answers are no, else unchanged |
| FinalExpense.PageTierMonotone | src/pages/FinalExpensePage.tsx:38-41 | once armed and some answer is yes, answering yes to more questions never gives a healthier tier |
| FinalExpense.PageTierDecided | src/pages/FinalExpensePage.tsx:38-43 | once armed, with a yes or with five noes the result does not depend on the previous tier |
| FinalExpense.PageTierIdempotent | src/pages/FinalExpensePage.tsx:36-45 | a second run of the effect on unchanged inputs keeps the tier the first run produced (a tier chosen by hand need not be such a fixed point) |
| FinalExpense.FindState | src/pages/FinalExpensePage.tsx:69 | the lookup is absent exactly when no record has the state; otherwise it is the first record for that state |
| FinalExpense.CostRange | src/pages/FinalExpensePage.tsx:69-74 | a range exists exactly when a burial type is chosen and the state has a record; it is the first such record's burial pair when the type is "burial" and its cremation pair otherwise |
| FinalExpense.CostBoxText | src/pages/FinalExpensePage.tsx:76-79 | the box shows the prompt exactly when there is no range, and otherwise the chosen kind, the chosen state and the range |
| FinalExpense.GatedQuote | src/pages/FinalExpensePage.tsx:82-84 | there is no quote exactly when no state is chosen; otherwise it is the rate lookup's result for the slider values and the stored tier |
| FinalExpense.FinalExpensePage.constructor | src/pages/FinalExpensePage.tsx:16-33 | at mount the form is empty, no state or burial type is chosen, the tier is select1 and every answer is open |
| FinalExpense.FinalExpensePage.ClassifyTier | src/pages/FinalExpensePage.tsx:36-45 | the effect leaves the tier equal to PageTier of the old tier and the current answers, state and burial type, and changes nothing else |
| FinalExpense.FinalExpensePage.SetAnswer | src/pages/FinalExpensePage.tsx:219-287 | a yes or no click stores the answer in its variable only; if that changed the answer the tier becomes PageTier of the old tier, otherwise the tier (possibly chosen by hand) is kept; form, state and burial type are unchanged |
| FinalExpense.FinalExpensePage.ChangeState | src/pages/FinalExpensePage.tsx:53-56 | the state select and the form's state field both take the new value; the tier is re-classified when the state changed and kept when it did not; answers and burial type are unchanged |
| FinalExpense.FinalExpensePage.ChangeBurialType | src/pages/FinalExpensePage.tsx:57-59 | the burial type takes the new value; the tier is re-classified when it changed and kept when it did not; everything else is unchanged |
| FinalExpense.FinalExpensePage.ChooseTier | src/pages/FinalExpensePage.tsx:345-353 | the tier radio buttons store the chosen tier, and no re-classification follows |
| StandaloneQuoting.SlimTier | STANDALONE_QUOTING_COMPONENT_SLIM.tsx:25-33 | five yes give select3; three or four yes give select2 and never select3; five no give select1; at most two yes and not all no keep the tier |
| StandaloneQuoting.SlimTierIgnoresOrder | STANDALONE_QUOTING_COMPONENT_SLIM.tsx:26-30 | permuting q1..q5 does not change the tier |
| StandaloneQuoting.SlimTierMonotone | STANDALONE_QUOTING_COMPONENT_SLIM.tsx:26-29 | once three or more answers are yes, answering yes to more questions never gives a healthier tier |
| StandaloneQuoting.OpenAnswersKeepTier | STANDALONE_QUOTING_COMPONENT_SLIM.tsx:25-33 | with five open answers no branch of the effect fires, so the tier stays |
| StandaloneQuoting.SlimTierIdempotent | STANDALONE_QUOTING_COMPONENT_SLIM.tsx:25-33 | a second run of the effect on unchanged answers keeps the tier it produced |
| StandaloneQuoting.FinalExpenseQuotingTool.constructor | STANDALONE_QUOTING_COMPONENT_SLIM.tsx:9-43 | at mount the form is empty, the tier is select1, every answer is open and no submission has happened |
| StandaloneQuoting.FinalExpenseQuotingTool.ClassifyTier | STANDALONE_QUOTING_COMPONENT_SLIM.tsx:25-33 | the effect leaves the tier equal to SlimTier of the old tier and the current answers, and changes nothing else |
| StandaloneQuoting.FinalExpenseQuotingTool.SetAnswer | STANDALONE_QUOTING_COMPONENT_SLIM.tsx:144-216 | a yes or no click stores the answer in its variable only; if that changed the answer the tier becomes SlimTier of the old tier, otherwise it is kept; form and submission flags are unchanged |
| StandaloneQuoting.FinalExpenseQuotingTool.StoreAnswer | STANDALONE_QUOTING_COMPONENT_SLIM.tsx:18-22 | the setter of one question variable replaces that answer and no other |
| StandaloneQuoting.FinalExpenseQuotingTool.HandleChange | STANDALONE_QUOTING_COMPONENT_SLIM.tsx:36-38 | the named form field takes the typed value and the other fields keep theirs |
| StandaloneQuoting.FinalExpenseQuotingTool.ResetQuestionnaire | STANDALONE_QUOTING_COMPONENT_SLIM.tsx:80-85 | the reset leaves select1 and five open answers, and the tier effect that follows it keeps select1 |
| StandaloneQuoting.FinalExpenseQuotingTool.BeginSubmit | STANDALONE_QUOTING_COMPONENT_SLIM.tsx:45-49 | starting a submit raises isSubmitting and clears success and error |
| StandaloneQuoting.FinalExpenseQuotingTool.FinishSubmit | STANDALONE_QUOTING_COMPONENT_SLIM.tsx:76-93 | after the POST settles isSubmitting is false and exactly one of success and error is set, success exactly when the response was ok; on success form, tier and answers are reset (the effect keeps select1), on failure they are unchanged |
| StandaloneQuoting.FinalExpenseQuotingTool.HandleSubmit | STANDALONE_QUOTING_COMPONENT_SLIM.tsx:45-94 | the whole handler ends in the Sent status on an ok response and in Failed otherwise, with the same reset and keep rules |
| TierRules.SingleSeriousYesDiverges | src/pages/FinalExpensePage.tsx:38-39 | a yes among q1..q3 that is the only yes (other answers no or open) gives select3 on the page while the stand-alone tool keeps the old tier |
| TierRules.ClassifiersDisagree | STANDALONE_QUOTING_COMPONENT_SLIM.tsx:25-33 | whatever tier is stored, some five-answer questionnaire is classified differently by the two components |

Both classes keep an invariant `Valid()` that every handler preserves. On the
page, the form keeps its six fields and its `state` field always equals
the state select. In the tool, success and error are never both set, and
neither is set while a submission is in flight.

## Left out

- The rate lookup (`getNationalQuote`), the cash-value table (`getCashValueTable`) and the funeral-cost data (`funeralCostsByState`) are not part of this model: the lookup is a function parameter of `GatedQuote`, the cost data a sequence parameter, and the cash-value table is not modelled.
- The stand-alone tool's quote is a direct call of that lookup with no gating, so it has no member of its own.
- The POST requests (the tool's `fetch` and the page's share-quote modal) are network I/O. Only the tool's outcome enters the model, as the `Response` parameter (ok, not ok, or thrown).
- The quote slider values, gender radio buttons, modals, secure-payment form and share form are UI state with no effect on the modelled logic. The slider bounds are HTML attributes.
- Display text: number formatting (`toLocaleString`), the capitalised burial type and the tier label. The cost box is modelled as a datatype holding the kind, the state and the range.
- React scheduling is reduced to this: a handler that changes a dependency of the tier effect is followed by one run of the effect, and a handler that stores the value already held runs no effect. Between `BeginSubmit` and `FinishSubmit` other handlers may run; `HandleSubmit` covers the case where none does.
- FinishSubmit: assumes that React batches the setters after the `await` into one render, so the tier effect sees five open answers and keeps select1. Without batching, an intermediate render (for example with only q1 cleared and four yes answers left) would let the effect store select2 after the reset.
- The page's `handleChange` is wired to no input, and its `handleSubmit` only shows an alert; neither changes modelled state.
- The mail relay and the SMTP smoke test (`server.cjs`, `test-email.cjs`) and the routing in `src/App.tsx` are not part of this model.
