# Survey progression state machine

A model, in Dafny, of the one piece of logic in a single-page survey widget
(`src/App.js`): the state machine that walks a visitor through a fixed bank
of multiple-choice questions, records the chosen options, shows a results
summary and offers a restart.

The component state is the triple `State(index, answers, showResults)`:
the current question index (initially 0), a map from question id to the
chosen option text (initially empty) and the results-view flag (initially
false). Two transitions drive it:

- `Survey.Submit` (the widget's `handleAnswerSelect`) stores the option under
  the current question's id, then advances the index, or, on the last
  question, raises the results view and leaves the index where it is;
- `Survey.Restart` (`handleRestartSurvey`) puts all three parts back to their
  initial values.

Module `Survey` is written over any non-empty question bank; `Consistent`
characterises the states the widget can reach, and `Run` folds a sequence of
submissions over a state. `AnswersFor` is an independent reference
definition of the answer map (the i-th option under the i-th question's id)
that `RunAnswers` proves a run produces. Module `SurveyBank` holds the five
questions the widget ships with (ids 1 to 5) as one instance, plus
walk-throughs on small banks.

Two behaviours of the widget shape the model:

- on completion the index stays at `total - 1`; it never becomes `total`,
  so the completion flag, not the index, tells the two views apart;
- the submitted option is stored verbatim; the widget never checks that it
  is one of the current question's options.

## Model

| member | source | states |
|---|---|---|
| Survey.Initial | src/App.js:59-63 | the starting state (index 0, no answers, question view) is consistent for every non-empty bank and has nothing answered |
| Survey.CurrentQuestion | src/App.js:65 | the lookup `surveyQuestions[currentQuestionIndex]` is in bounds in every reachable state; with unique ids, in the question view it is the first unanswered question in bank order: it is not yet answered, and exactly as many answers are recorded as questions precede it |
| Survey.Submit | src/App.js:73-83 | the option is stored under the current question's id whatever its text, every other answer is unchanged and the current question's id joins the keys (a new key when ids are unique, see `Survey.SubmitAddsOneAnswer`); below the last question the index grows by one and the question view stays; on the last question the results view is raised and the index stays at `total - 1`; the resulting state is again consistent |
| Survey.SubmitAddsOneAnswer | src/App.js:74 | with unique ids the current question's id is not yet a key, so a submission grows the answer map by exactly one entry |
| Survey.Restart | src/App.js:88-92 | from any state the result is exactly index 0, empty answers, question view, i.e. the initial state |
| Survey.RestartIdempotent | src/App.js:88-92 | restarting twice equals restarting once |
| Survey.RestartForgetsHistory | src/App.js:88-92 | after a restart from any state a whole new survey can be taken, and it completes with exactly the new answers |
| Survey.Run | src/App.js:73-83 | a sequence of submissions, at most as many as questions remain, keeps the state consistent and advances the answered count by its length |
| Survey.RunPosition | src/App.js:77-82 | from the start, k submissions with k below the bank size leave the index at k in the question view; `total` submissions leave the index at `total - 1` with the results view up |
| Survey.CompletionExactlyAtTotal | src/App.js:77-82 | the `total`-th submission is the first to raise the results view: every shorter prefix of the run is still in the question view |
| Survey.AnswersForSnoc | src/App.js:74 | the reference answer map of one more submission is the previous one plus that question's id and option |
| Survey.RunAnswers | src/App.js:74 | with unique ids, the answers after k submissions from the start are exactly the i-th option under the i-th question's id, for i below k |
| Survey.PrefixIdsSize | src/App.js:6-37 | with unique ids the first k questions carry exactly k distinct ids |
| Survey.AnswerCount | src/App.js:74 | with unique ids, after k submissions the answer keys are exactly the ids of the first k questions and there are k of them |
| Survey.CompleteAnswersAll | src/App.js:106-109 | once the results view is up every question id has an answer, so the lookup `answers[q.id]` is always defined |
| Survey.Results | src/App.js:106-111 | the results view lists one line per question of the bank |
| Survey.ResultsEchoSubmissions | src/App.js:106-109 | after a full run the results view pairs every question, in bank order, with exactly the option submitted for it |
| Survey.QuestionNumber | src/App.js:126 | the "Question n of total" header always shows n in 1..total, and in the question view n is the number answered plus one |
| Survey.Progress | src/App.js:127 | the progress bar receives a non-zero total and a current position strictly below it |
| Survey.ProgressEnds | src/App.js:127 | the progress bar receives (0, total) at the start and (total - 1, total) just before the final submission |
| SurveyBank.SurveyQuestions | src/App.js:6-37 | the shipped bank has five questions with ids 1 to 5 in order, distinct, four options each |
| SurveyBank.Landscape | src/App.js:7-12 | the first shipped question has id 1 and four options |
| SurveyBank.Weekend | src/App.js:13-18 | the second shipped question has id 2 and four options |
| SurveyBank.Palette | src/App.js:19-24 | the third shipped question has id 3 and four options |
| SurveyBank.Art | src/App.js:25-30 | the fourth shipped question has id 4 and four options |
| SurveyBank.TimeOfDay | src/App.js:31-36 | the fifth shipped question has id 5 and four options |
| SurveyBank.FiveAnswers | src/App.js:6-37 | in a bank with ids 1 to 5 the reference answer map of five options maps 1..5 to them |
| SurveyBank.FiveQuestionRun | src/App.js:73-83 | five submissions on a bank with ids 1 to 5 end in the results view on index 4 with answers keyed 1 to 5 |
| SurveyBank.ShippedBankFullRun | src/App.js:73-83 | five submissions on the shipped bank end in the results view with answers keyed 1 to 5 |
| SurveyBank.UnlistedOptionIsStored | src/App.js:140-143 | a text that is not among the first question's options is stored under id 1 just the same |
| SurveyBank.TwoQuestionScenario | src/App.js:73-92 | on a two-question bank, "X" moves to question 2 with answers {1: "X"}, "Y" completes with {1: "X", 2: "Y"}, and a restart clears everything |
| SurveyBank.OneQuestionScenario | src/App.js:73-83 | on a one-question bank a single submission completes the survey at index 0 |

## Left out

- JSX rendering, the Tailwind class strings, the `<img>` element and the option buttons (src/App.js:94-154): presentation only; the image URL is carried as opaque text.
- The progress bar's percentage `(current / total) * 100` (src/App.js:43-44): floating-point display arithmetic; `Survey.Progress` only states that its inputs give a ratio in [0, 1) with no division by zero.
- React's `useState` mechanics (batched or deferred updates, stale closures on rapid clicks): each transition is modelled as one atomic step on an immutable state.
- Selecting an answer while the results view is shown: the widget renders no option buttons then (src/App.js:99-122), so `Survey.Submit` requires the question view instead of inventing behaviour for it.
- Keys of `answers` as strings: the widget's `answers` is a JavaScript object, so `[currentQuestion.id]` (src/App.js:74) and `answers[q.id]` (src/App.js:109) key it by the id's string form; the model keys it by the integer id, which is equivalent because distinct integers have distinct decimal forms.
- An empty question bank: the shipped bank is fixed and non-empty, so every member requires a non-empty bank rather than modelling a configuration error.
