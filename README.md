# future-gaze intake wizard and recommendation deriver, in Dafny

This project models the two pieces of logic in the future-gaze web application.

- **The intake wizard** (`app/form/page.tsx`) walks a student through a sequence of steps. The step labels depend on the student's stage: school, 12th pass, college or not yet chosen. Before advancing, the wizard validates the current step index and builds a fresh per-field error map. On the last step it saves the answer record instead of advancing. `Previous` steps back without validating. Two tag lists, skills and interests, are edited by a toggle. The content shown for a step comes from a first-match dispatch on the step index.
- **The recommendation deriver** (`app/results/page.tsx`) reads the saved record, if there is one. It evaluates three membership rules in a fixed order (technology, medicine, business). It falls back to one default entry when no rule fires, and keeps at most three entries. Beside it are two fixed lists: five colleges sorted by match score, and a six-step action plan.

Modules:

- `Wrappers`: `Option`.
- `Text`: ASCII whitespace and `trim`. It also holds the email pattern `\S+@\S+\.\S+`, defined twice: as the regular-expression meaning (`EmailRegexMatches`) and as a direct scan (`HasEmailShape`). A lemma proves the two agree.
- `Tags`: the toggle on tag lists, and the filter it uses.
- `FormWizard`: the `Stage` and `Form` types, `Steps`, `StepErrors`, the content roles and the field edits. The class `Wizard` holds the fields `currentStep`, `form`, `errors` and `saved`. Its invariant `Valid()` says the step index is in range for the current stage and that neither tag list holds duplicates. Every method of `Wizard` requires and ensures it.
- `Recommendations`: the career rules, defined twice. `Recommended` gives the result by a table of rules. `GenerateCareerRecommendations` is the imperative accumulation, with three pushes, the default and then `slice(0, 3)`, and it is proved equal to `Recommended`. The module also holds the college sort and the action plan.

Browser storage is modelled as the wizard's `saved : Option<Form>` field, and the deriver's input is that value. The storage key `futureGazeFormData` is kept as the constant `FormWizard.StorageKey` for documentation only. No contract refers to it, because `saved` stands for the stored value.

## Model

| member | source | states |
|---|---|---|
| `FormWizard.Steps` | app/form/page.tsx:65-85 | Every step sequence starts with the three base labels "Stage Selection", "Personal Info" and "Contact Details". |
| `FormWizard.StepsPerStage` | app/form/page.tsx:65-85 | The unset stage has 3 labels and school has 7, with "Skills & Interests" at index 4. 12th-pass has 8, with "Exam Results" at index 4. College has 8, with "Current Performance" at index 4 and "Goals & Changes" last. Only the unset stage has no more than the base labels. |
| `Text.TrimStart` | app/form/page.tsx:98 | Leading whitespace is dropped. The result is a suffix of the input that is empty or starts with a non-space, and everything dropped was whitespace. |
| `Text.TrimEnd` | app/form/page.tsx:98 | Trailing whitespace is dropped. The result is a prefix that is empty or ends with a non-space, and everything dropped was whitespace. |
| `Text.Trim` | app/form/page.tsx:98 | Definition of `trim`: `TrimEnd` after `TrimStart`. `TrimEmptyIffBlank` characterises when its result is empty. |
| `Text.TrimEmptyIffBlank` | app/form/page.tsx:98 | A trimmed string is empty exactly when every character is whitespace. |
| `Text.EmailShapeIffRegex` | app/form/page.tsx:103 | The direct scan accepts a string exactly when `\S+@\S+\.\S+` matches somewhere in it. |
| `Text.HasEmailShape` | app/form/page.tsx:103 | Definition of the email test as a direct scan for an `@` and a later `.`, each with a non-space neighbour on both sides and no whitespace between them. `EmailShapeIffRegex` proves it equal to the regular-expression meaning. |
| `Text.EmailShapeExamples` | app/form/page.tsx:103 | The pattern matches "a@b.co" and "x y@z.w" (the match is unanchored). It does not match "not-an-email". |
| `FormWizard.StepErrors` | app/form/page.tsx:90-113 | Definition of the map `validateStep` builds, keyed by field and chosen by the step index. The lemmas below characterise it step by step, and `Wizard.ValidateStep` is proved to build exactly this map. |
| `FormWizard.EmailCheck` | app/form/page.tsx:101-104 | Definition of the email message: "Email is required" when the trimmed address is empty, otherwise "Invalid email format" when the pattern does not match, otherwise none. `EmailCheckMeaning` restates it in terms of blankness and the regular expression. |
| `FormWizard.StageStepFailsIffUnset` | app/form/page.tsx:94-96 | Index 0 fails exactly when no stage is chosen, and the only key it can report is the stage. |
| `FormWizard.PersonalStepFailsIff` | app/form/page.tsx:97-100 | Index 1 fails exactly when the name is blank or the age is empty (the age is not trimmed). Each key is reported exactly when its own check fails. |
| `FormWizard.ContactStepErrors` | app/form/page.tsx:101-104 | At index 2, a blank email gives exactly "Email is required". Otherwise the email gives exactly "Invalid email format" unless the pattern matches, and the map is empty when it does. At most one email message is ever produced. |
| `FormWizard.AcademicStepFailsIff` | app/form/page.tsx:105-108 | Index 3 fails exactly when the 10th marks or the stream are empty, and only those two keys can appear. |
| `FormWizard.LaterStepsPass` | app/form/page.tsx:93-109 | Every index from 4 on gives the empty error map, whatever the record holds. |
| `FormWizard.ValidationIgnoresStageAndPhone` | app/form/page.tsx:90-113 | Validation is keyed by index, not by role: past index 0 the stage does not affect the result. The phone number never affects it. |
| `FormWizard.EmailCheckMeaning` | app/form/page.tsx:101-104 | The email message depends on blankness and on the pattern `\S+@\S+\.\S+` matching somewhere. A whitespace-only address is reported missing. A non-blank one that does not match is reported invalid. A non-blank one that matches gets no message. |
| `FormWizard.EmailCheckAcceptsPlain` | app/form/page.tsx:101-104 | "a@b.co" gets no email message. |
| `FormWizard.EmailCheckUnanchored` | app/form/page.tsx:101-104 | "x y@z.w" gets no email message, because the pattern is not anchored. |
| `FormWizard.EmailCheckRejectsMalformed` | app/form/page.tsx:101-104 | "not-an-email" gets "Invalid email format". |
| `FormWizard.EmailCheckBlankIsMissing` | app/form/page.tsx:101-104 | A whitespace-only email gets "Email is required", not "Invalid email format". |
| `FormWizard.Wizard.constructor` | app/form/page.tsx:44-63 | The wizard starts at step 0 with the initial record, no errors and nothing saved, and satisfies its invariant. |
| `FormWizard.Wizard.ValidateStep` | app/form/page.tsx:90-113 | `errors` is replaced by the fresh map for the current index, not merged with the old one. The result is true exactly when that map is empty. |
| `FormWizard.NextWithoutStageIsRefused` | app/form/page.tsx:94-116 | A worked scenario with no contract of its own. On a fresh wizard, `Next` reports "Please select your current stage" under the stage key and stays on index 0. |
| `FormWizard.Wizard.Next` | app/form/page.tsx:115-129 | Validation runs first. If it fails, the step and the saved record stay as they were. If it passes before the last index, the step goes up by exactly one. If it passes on the last index, the current record is saved and the step stays. The record is unchanged and the invariant is kept. |
| `FormWizard.Wizard.Previous` | app/form/page.tsx:131-139 | The step goes down by one when above 0 and stays at 0 otherwise. Nothing is validated, and the record, the errors and the saved record are unchanged. |
| `FormWizard.Wizard.SetStage` | app/form/page.tsx:170-172 | The stage is replaced and nothing else changes. It is callable only on step 0, where the stage radio is shown, so the index stays in range for the new step sequence. |
| `FormWizard.Wizard.EditField` | app/form/page.tsx:235-668 | One text, select or slider field is replaced. The stage and the tag lists are never touched, so the invariant is kept. |
| `FormWizard.ApplyEdit` | app/form/page.tsx:235-668 | Definition of the text and select `onChange` handlers: each edit replaces exactly one field of the record. `ApplyEditKeepsStageAndTags` proves that none of them touches the stage or the tag lists. |
| `FormWizard.ApplyEditKeepsStageAndTags` | app/form/page.tsx:235-668 | No field edit changes the stage, the skills or the interests. |
| `FormWizard.Wizard.ToggleSkill` | app/form/page.tsx:141-146 | `skills` becomes its toggle, the membership of the toggled skill flips, and the list stays duplicate-free. |
| `FormWizard.Wizard.ToggleInterest` | app/form/page.tsx:148-155 | `interests` becomes its toggle, the membership of the toggled interest flips, and the list stays duplicate-free. |
| `Tags.RemoveAll` | app/form/page.tsx:144 | After filtering, the tag no longer occurs in the list. |
| `Tags.RemoveAllCounts` | app/form/page.tsx:144 | Filtering removes every copy of the tag and keeps every copy of every other tag. |
| `Tags.RemoveAllConcat` | app/form/page.tsx:144 | Filtering distributes over concatenation, so the remaining tags keep their order. |
| `Tags.RemoveAllAbsent` | app/form/page.tsx:144 | Filtering out a tag that is absent leaves the list unchanged. |
| `Tags.RemoveAllKeepsDistinct` | app/form/page.tsx:144 | Filtering keeps a duplicate-free list duplicate-free. |
| `Tags.Toggle` | app/form/page.tsx:141-155 | Definition of the toggle: remove every copy of a present tag, or append an absent one. The lemmas below state its effect on membership, counts, duplicates and a double toggle. |
| `Tags.ToggleFlipsMembership` | app/form/page.tsx:141-155 | The toggled tag is present afterwards exactly when it was absent before, and every other tag's membership is unchanged. An absent tag is appended at the end. For a present tag, all its copies are removed. |
| `Tags.ToggleKeepsDistinct` | app/form/page.tsx:141-155 | Toggling keeps a duplicate-free list duplicate-free. |
| `Tags.ToggleTwiceAbsent` | app/form/page.tsx:141-155 | Toggling an absent tag twice restores the original list, order included. |
| `Tags.ToggleTwicePresent` | app/form/page.tsx:141-155 | Toggling a present tag twice gives the filtered list with the tag moved to the end. |
| `Tags.ToggleTwiceReorders` | app/form/page.tsx:141-155 | Toggling "Programming" twice in ["Programming", "Design"] gives ["Design", "Programming"]. |
| `FormWizard.RenderedRole` | app/form/page.tsx:157-681 | Definition of the `renderStepContent` switch as written, as first-match dispatch on the step index. `SchoolSkillsNeverRendered` and `RenderedRoleMatchesLabelOtherwise` say where it agrees with the step labels and where it does not. |
| `FormWizard.SchoolSkillsNeverRendered` | app/form/page.tsx:385-443 | For the school stage, index 4 is labelled "Skills & Interests" but shows nothing, and no index shows the skills and interests content. |
| `FormWizard.RenderedRoleMatchesLabelOtherwise` | app/form/page.tsx:157-681 | For every stage other than school, each in-range index shows the content its label names. For 12th-pass and college, indices 5, 6 and 7 show skills and interests, preferences and goals. |
| `FormWizard.IntendedRoleMatchesLabel` | app/form/page.tsx:385-443 | In the corrected dispatch, every stage shows at every in-range index the content its label names, and that content is never empty. |
| `Recommendations.Fired` | app/results/page.tsx:84-139 | Each rule contributes at most one entry. |
| `Recommendations.Recommended` | app/results/page.tsx:78-161 | Definition of the career list as a table of rules: nothing without a record, otherwise the entries of the rules that fire in order, or the default when none fires, keeping at most three. The lemmas below are proved about it, and the imperative method is proved equal to it. |
| `Recommendations.GenerateCareerRecommendations` | app/results/page.tsx:78-161 | The imperative accumulation has three conditional pushes, the default push when nothing was added, and `slice(0, 3)`. Its result equals the table-driven `Recommended`. |
| `Recommendations.NoRecordNoCareers` | app/results/page.tsx:79 | With no saved record the career list is empty. |
| `Recommendations.FiredUnrolled` | app/results/page.tsx:84-139 | The fired entries are, in this order, the technology, medical and business entries of the rules that hold. |
| `Recommendations.CareerCountBounds` | app/results/page.tsx:142-160 | With a saved record the list has between 1 and 3 entries. The slice drops nothing, so the list is the fired entries, or the default when none fired. |
| `Recommendations.CareerEntryIffRuleFires` | app/results/page.tsx:84-158 | Each rule's entry is listed exactly when that rule fires. |
| `Recommendations.DefaultIffNoRuleFires` | app/results/page.tsx:84-158 | "Data Analyst" is listed exactly when no rule fires. When it is listed, it is the only entry. |
| `Recommendations.TechnologyComesFirst` | app/results/page.tsx:85-101 | If the skills contain "Programming" or the interests contain "Technology", the first entry is the software engineer entry with 94. |
| `Recommendations.CareerPercentagesDecrease` | app/results/page.tsx:89-160 | The match percentages strictly decrease along the list, so output order is rule order. |
| `Recommendations.CareersDependOnTagsAndStream` | app/results/page.tsx:82-139 | Two records with the same skills, interests and stream get the same list. The stage, the performance, the name and the other fields do not matter. |
| `Recommendations.CareerExamples` | app/results/page.tsx:84-158 | Skills ["Programming"] put the software engineer first. With no tags and a non-medical stream, the only entry is "Data Analyst". "programming" and "technology" in lower case match nothing. |
| `Recommendations.InsertByScore` | app/results/page.tsx:217 | Inserting into a list sorted by score keeps it sorted, adds one element, and introduces nothing but the inserted college. |
| `Recommendations.InsertByScoreCounts` | app/results/page.tsx:217 | Insertion adds exactly one copy of the college. |
| `Recommendations.SortByScore` | app/results/page.tsx:217 | The sort's result is non-increasing by match score. |
| `Recommendations.SortByScoreCounts` | app/results/page.tsx:217 | The sort's result is a permutation of its input. |
| `Recommendations.SortSortedIsIdentity` | app/results/page.tsx:217 | Sorting a list that is already ordered by score leaves it unchanged. |
| `Recommendations.CollegeRecommendations` | app/results/page.tsx:163-218 | The college list is input-independent and is exactly the literal table. It has 5 entries, non-increasing by match score: 95, 92, 88, 85, 82. |
| `Recommendations.ActionPlan` | app/results/page.tsx:220-268 | Definition of the fixed six-step action plan. `ActionPlanShape` states its length, first title and priorities. |
| `Recommendations.ActionPlanShape` | app/results/page.tsx:220-268 | The action plan has 6 steps and starts with "Prepare for JEE Main & Advanced". Its priorities are High, High, Medium, High, Medium, Medium. |

## Findings

| source | as written | input that shows it | evidently intended | confidence | as-written member | corrected member |
|---|---|---|---|---|---|---|
| app/form/page.tsx:385-443 | In `renderStepContent`, `case 4` comes before `case steps.length - 3`. It returns nothing unless the stage is 12th-pass or college. For the 7-step school sequence `steps.length - 3` is also 4, so that case can never be reached. | stage "school", step 4, whose label is "Skills & Interests" | a school student sees and fills in the skills and interests step at index 4 | high that the content is never shown; medium that this was unintended; not executed | `FormWizard.SchoolSkillsNeverRendered` | `FormWizard.IntendedRoleMatchesLabel` |

No other member depends on the content dispatch, so the wizard's transitions are the same under either dispatch. The skill and interest buttons exist only in that content. So in the application as written, a school student's saved record has empty tag lists, unless the student first chose another stage, visited its skills step and then switched back to school. The model's `ToggleSkill` and `ToggleInterest` can still be called in any state.

## Left out

- Markup, styling, icons and the UI widgets (tabs, badges, slider, selects). Only the role each step index maps to is modelled, as `RenderedRole`.
- The `isAnimating` flag and the 300 ms `setTimeout` around each transition: each transition is modelled as atomic.
- `localStorage`, `JSON.stringify`/`JSON.parse` and `router.push`. The stored record is the `saved : Option<Form>` field, and a malformed stored value (for instance one without `skills`, on which `.includes` would throw) is not modelled.
- Unicode whitespace. `trim` and `\s` are modelled over the ASCII set (space, tab, line feed, carriage return, vertical tab, form feed). No other regular expression is modelled.
- The progress percentage (floating point and `Math.round`).
- `performance` is a sequence of `int`: the slider's floating-point values are not modelled.
- `Wizard.EditField`: it can be called on any step, although each input exists only on its own step's content.
- `SortByScore`: the sort is on a sequence value rather than in place on a fresh array. Nothing else holds that array, so aliasing does not arise. Stability is not stated as a property. The only input it is applied to has distinct scores.
- The dashboard page, the landing page with its testimonial carousel, and the career-category page: static data and presentation, with no logic beyond the above.
