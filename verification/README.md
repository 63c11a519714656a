# PHQ-9 questionnaire scoring — a Dafny model

This project models the PHQ-9 depression-screening questionnaire component
of the depression-analysis app. The form holds nine answers. Each answer is
one of the option values 0 ("Not at all") to 3 ("Nearly every day"), and
every answer starts at 0. Picking an option replaces one answer. Submitting
sums the answers and maps the total to one of five severity bands, using the
standard PHQ-9 cut-points 5, 10, 15 and 20 (Kroenke, Spitzer & Williams,
J Gen Intern Med 2001). The form then shows the band's feedback text. A
score of 15 or more is shown in warning style together with helplines.
Last, the form tries to save the result. It posts nothing when the stored
user name or user id is missing.

Modules:

- `Answers` (`answers.dfy`): the answer vector, the single-slot update, and
  the total. The total is a left fold, like the source's `reduce`, and has a
  loop implementation beside it.
- `Banding` (`banding.dfy`): the `Severity` bands and `Classify`. It also
  holds two independent characterisations of the bands: interval bounds, and
  a count of the cut-points reached. The helpline threshold and the feedback
  texts are here too.
- `PhqTest` (`phq_test.dfy`): the component state (answers, shown score,
  feedback text), the two user actions, the save guard and save attempt,
  and the result panel. It also holds the invariant that every state the
  rendered form can reach keeps.

## Model

| member | source | states |
|---|---|---|
| Answers.Initial | depression-analysis-app/src/components/PHQTest.js:9 | The starting vector has nine entries. Each entry is the option value 0, so the vector is well formed. |
| Answers.UpdateAnswer | depression-analysis-app/src/components/PHQTest.js:36-40 | The update writes the new value into slot i and keeps the length. The other slots keep their values. If the old vector holds only option values and v is one, so does the new vector. |
| Answers.SumAnswers | depression-analysis-app/src/components/PHQTest.js:43 | The front-to-back accumulation loop computes the recursive left-fold total. When every entry is an option value, the result lies in 0..3·n. |
| Answers.Total | depression-analysis-app/src/components/PHQTest.js:43 | The total is the left fold of the answers from 0, as the source's `reduce` computes it. If every answer is one of the option values 0..3 (lines 29-34), the total lies between 0 and 3 times the number of answers. |
| Answers.ValidTotalRange | depression-analysis-app/src/components/PHQTest.js:29-43 | A well-formed nine-answer vector totals between 0 and 27. |
| Answers.InitialTotalIsZero | depression-analysis-app/src/components/PHQTest.js:9-43 | The untouched all-zero vector totals 0. |
| Answers.TotalUpdate | depression-analysis-app/src/components/PHQTest.js:36-43 | Changing answer i from a to b changes the total by exactly b − a. |
| Banding.Classify | depression-analysis-app/src/components/PHQTest.js:47-57 | The band returned for a total is the band whose interval contains it. Minimal covers totals below 5 and Severe covers 20 and above. Every other band runs from its cut-point up to, but not including, the next one. |
| Banding.ClassifyIsBand | depression-analysis-app/src/components/PHQTest.js:47-57 | The band of a total is s exactly when the total lies in s's interval: below 5 Minimal, 5–9 Mild, 10–14 Moderate, 15–19 Moderately severe, 20 and above Severe. So the bands are exhaustive and disjoint. |
| Banding.ClassifyCountsCutPoints | depression-analysis-app/src/components/PHQTest.js:47-57 | The rank of the band equals the number of cut-points (5, 10, 15, 20) that the total reaches. |
| Banding.ClassifyMonotone | depression-analysis-app/src/components/PHQTest.js:47-57 | For s ≤ t, the band of s is never more severe than the band of t. |
| Banding.HelplinesIffSevere | depression-analysis-app/src/components/PHQTest.js:116-117 | A score shows the warning and helplines (score ≥ 15) exactly when its band is Moderately severe or Severe. |
| Banding.ShowHelplines | depression-analysis-app/src/components/PHQTest.js:116-117 | The warning style and helplines (score ≥ 15) are shown exactly when the score's band is Moderately severe or Severe. |
| Banding.Message | depression-analysis-app/src/components/PHQTest.js:46-58 | Each band's feedback text is non-empty and opens with that band's name ("Severe", "Moderately severe", "Moderate", "Mild", "Minimal"). |
| Banding.MessageDeterminesBand | depression-analysis-app/src/components/PHQTest.js:46-58 | Two bands show the same feedback text only when they are the same band. |
| PhqTest.InitialForm | depression-analysis-app/src/components/PHQTest.js:9-11 | The mounted form holds a well-formed answer vector that totals 0. No score is shown yet and the feedback text is empty. |
| PhqTest.ChangeAnswer | depression-analysis-app/src/components/PHQTest.js:36-40 | Picking an option sets one answer and leaves the other answers unchanged. The total moves by the difference. The shown score and feedback text stay as they were until the next submit. |
| PhqTest.ShouldSave | depression-analysis-app/src/components/PHQTest.js:66-69 | A save goes ahead exactly when neither the user name nor the user id is falsy. Falsy means missing (null) or the empty string. Those are the cases in which the guard at line 66 returns early. |
| PhqTest.SaveTestResult | depression-analysis-app/src/components/PHQTest.js:63-80 | A request is posted exactly when both user name and user id are present, meaning not null and not empty. The request carries those values and the given score. With no request the toast reports the missing user. The success toast appears exactly when a request was posted and the post succeeded. |
| PhqTest.CalculateScore | depression-analysis-app/src/components/PHQTest.js:42-61 | Submitting keeps the answers and sets the score to their total. The feedback text is the text of that score's band. The save attempt is the one for that total with the stored user name and id, so any posted score equals the shown score. A request is posted exactly when the guard holds. For well-formed answers the score lies in 0..27. |
| PhqTest.View | depression-analysis-app/src/components/PHQTest.js:113-126 | The result panel is hidden exactly while no score exists. Once shown, it gives the stored score and text, and uses the warning style exactly when it lists the helplines, which is exactly when the score is 15 or more. |
| PhqTest.Step | depression-analysis-app/src/components/PHQTest.js:36-61 | Every interaction the rendered form can produce preserves the state invariant. The invariant is: nine option values, no text before the first submit, and afterwards a score in 0..27 with its band's text. |
| PhqTest.Run | depression-analysis-app/src/components/PHQTest.js:9-61 | Every state reachable from mount through the rendered form's interactions satisfies that invariant. |
| PhqTest.SubmittedViewMatchesBand | depression-analysis-app/src/components/PHQTest.js:113-124 | After a submit, the panel shows the answers' total. It lists the helplines exactly when that total's band is Moderately severe or Severe. |
| PhqTest.UntouchedSubmitIsMinimal | depression-analysis-app/src/components/PHQTest.js:42-58 | Submitting the untouched form shows 0 with the Minimal text and no helplines. |
| PhqTest.DisplayIgnoresSave | depression-analysis-app/src/components/PHQTest.js:42-80 | The shown score and text do not depend on the user identity or on the outcome of the save. |
| PhqTest.ResubmitIsIdempotent | depression-analysis-app/src/components/PHQTest.js:42-58 | Submitting twice without changing an answer shows the same result as submitting once. |

## Left out

- Answers.UpdateAnswer and PhqTest.ChangeAnswer require the index to lie within the vector. A JavaScript array assignment past the end would grow the array. The only caller passes a question index 0..8, so that case is not modelled.
- The network call is not modelled. `PhqTest.SaveTestResult` takes the POST's outcome as the parameter `postOk`. A failed request or any thrown error gives the failure toast.
- React rendering, state hooks, the toast texts and the `localStorage` reads are not modelled. The stored user name and id enter as `Option<string>` parameters, with `None` standing for a missing key.
- Numbers are JavaScript doubles. Every total here is at most 27, so it is exact, and the model uses unbounded integers.
- The live-detection page (camera access and a random placeholder score) is not modelled. It holds no scoring logic.
- Login, dashboard, side panel, routing and helpline pages are not modelled. They hold forms, navigation and static content.
- The Express/Mongoose server routes and schema are not modelled. They are persistence CRUD, and the date-descending sort is delegated to the database.
- The classifier training and conversion scripts are not modelled. They are floating-point numerics inside foreign libraries.
