/**
 The survey progression state machine of a single-page survey widget.

 The widget shows a fixed bank of multiple-choice questions one at a time.
 Its whole behaviour is a triple (current index, answers by question id,
 results-view flag) driven by two transitions: selecting an answer and
 restarting. This module models that triple over ANY non-empty question
 bank; the widget's own five-question bank is one instance of it
 (module SurveyBank).
 */
module Survey {

  /** One entry of the question bank. The image reference is opaque to the
      state machine; it is only handed to the renderer. */
  datatype Question = Question(id: int, prompt: string, image: string, options: seq<string>)

  /** The component state: the position in the bank, the answers recorded so
      far keyed by question id, and whether the results view is shown. */
  datatype State = State(index: nat, answers: map<int, string>, showResults: bool)

  /** No two questions of the bank share an id. */
  predicate UniqueIds(qs: seq<Question>) {
    forall i, j :: 0 <= i < |qs| && 0 <= j < |qs| && i != j ==> qs[i].id != qs[j].id
  }

  /** The ids of the first k questions of the bank. */
  function PrefixIds(qs: seq<Question>, k: nat): set<int>
    requires k <= |qs|
  {
    set i | 0 <= i < k :: qs[i].id
  }

  /** How many questions of a bank of `total` questions have been answered in
      state s: all of them once the results view is up, otherwise the ones
      before the current index. */
  function Answered(total: nat, s: State): nat {
    if s.showResults then total else s.index
  }

  /** The states the widget can be in: the index addresses a question, the
      results view only appears on the last question, and the answers are
      keyed by exactly the ids of the questions answered so far. */
  predicate Consistent(qs: seq<Question>, s: State) {
    && 0 < |qs|
    && s.index < |qs|
    && (s.showResults ==> s.index == |qs| - 1)
    && s.answers.Keys == PrefixIds(qs, Answered(|qs|, s))
  }

  /** The state the component starts in, and the one a restart returns to. */
  function Initial(): (s: State)
    ensures forall qs: seq<Question> {:trigger Consistent(qs, s)} ::
              0 < |qs| ==> Consistent(qs, s) && Answered(|qs|, s) == 0
  {
    State(0, map[], false)
  }

  /** The question the component is showing. The lookup is in bounds in
      every consistent state, and while the question view is up (with unique
      ids) it is the first question not answered yet: as many answers are
      recorded as questions precede it. */
  function CurrentQuestion(qs: seq<Question>, s: State): (q: Question)
    requires Consistent(qs, s)
    ensures q in qs
    ensures UniqueIds(qs) && !s.showResults ==> q.id !in s.answers
    ensures UniqueIds(qs) && !s.showResults ==> |s.answers| == s.index && q == qs[|s.answers|]
  {
    if UniqueIds(qs) then
      PrefixIdsSize(qs, s.index);
      qs[s.index]
    else
      qs[s.index]
  }

  /** Selecting an answer: the option is recorded verbatim under the current
      question's id (it is not checked against the question's options); then
      the index advances, or on the last question the results view is raised
      and the index stays put. Only offered while the question view is up. */
  function Submit(qs: seq<Question>, s: State, option: string): (s': State)
    requires Consistent(qs, s) && !s.showResults
    ensures Consistent(qs, s')
    ensures Answered(|qs|, s') == Answered(|qs|, s) + 1
    ensures s'.answers.Keys == s.answers.Keys + {qs[s.index].id}
    ensures s'.answers[qs[s.index].id] == option
    ensures forall k :: k in s.answers && k != qs[s.index].id ==> s'.answers[k] == s.answers[k]
    ensures s.index + 1 < |qs| ==> s'.index == s.index + 1 && !s'.showResults
    ensures s.index + 1 == |qs| ==> s'.index == s.index && s'.showResults
  {
    var answers := s.answers[qs[s.index].id := option];
    var next := s.index + 1;
    assert PrefixIds(qs, next) == PrefixIds(qs, s.index) + {qs[s.index].id};
    if next < |qs| then State(next, answers, s.showResults)
    else State(s.index, answers, true)
  }

  /** With unique ids a submission always records a new key: the current
      question's id was not answered before, so the answer map grows by
      exactly one entry. */
  lemma SubmitAddsOneAnswer(qs: seq<Question>, s: State, option: string)
    requires Consistent(qs, s) && !s.showResults && UniqueIds(qs)
    ensures qs[s.index].id !in s.answers
    ensures |Submit(qs, s, option).answers| == |s.answers| + 1
  {
    assert CurrentQuestion(qs, s).id !in s.answers;
  }

  /** Restarting: every part of the state goes back to its initial value,
      whatever the state was. */
  function Restart(s: State): (s': State)
    ensures s'.index == 0 && s'.answers == map[] && !s'.showResults
    ensures s' == Initial()
  {
    State(0, map[], false)
  }

  /** The state after submitting `options` in order, starting from s. At most
      as many submissions as questions remain can be made. */
  function Run(qs: seq<Question>, s: State, options: seq<string>): (s': State)
    requires Consistent(qs, s)
    requires |options| <= |qs| - Answered(|qs|, s)
    ensures Consistent(qs, s')
    ensures Answered(|qs|, s') == Answered(|qs|, s) + |options|
    decreases |options|
  {
    if |options| == 0 then s
    else Submit(qs, Run(qs, s, options[..|options| - 1]), options[|options| - 1])
  }

  /** The "Question n of total" header: n is always a real question number. */
  function QuestionNumber(qs: seq<Question>, s: State): (n: nat)
    requires Consistent(qs, s)
    ensures 1 <= n <= |qs|
    ensures !s.showResults ==> n == Answered(|qs|, s) + 1
  {
    s.index + 1
  }

  /** The (current, total) pair handed to the progress bar: the total is
      never zero and the current position is always below it. */
  function Progress(qs: seq<Question>, s: State): (p: (nat, nat))
    requires Consistent(qs, s)
    ensures 0 < p.1 == |qs|
    ensures p.0 < p.1
  {
    (s.index, |qs|)
  }

  /** The answers the results view lists, one per question in bank order. */
  function Results(qs: seq<Question>, s: State): (r: seq<(string, string)>)
    requires Consistent(qs, s) && s.showResults
    ensures |r| == |qs|
  {
    seq(|qs|, i requires 0 <= i < |qs| => (qs[i].prompt, s.answers[qs[i].id]))
  }

  /** The answer map a run of `options` from the initial state should
      produce: the i-th option under the i-th question's id. */
  function AnswersFor(qs: seq<Question>, options: seq<string>): map<int, string>
    requires UniqueIds(qs) && |options| <= |qs|
  {
    map i | 0 <= i < |options| :: qs[i].id := options[i]
  }

  /** With unique ids, the first k questions have exactly k distinct ids. */
  lemma {:induction false} PrefixIdsSize(qs: seq<Question>, k: nat)
    requires UniqueIds(qs) && k <= |qs|
    ensures |PrefixIds(qs, k)| == k
  {
    if k > 0 {
      PrefixIdsSize(qs, k - 1);
      assert PrefixIds(qs, k) == PrefixIds(qs, k - 1) + {qs[k - 1].id};
      assert qs[k - 1].id !in PrefixIds(qs, k - 1);
    }
  }

  /** From the initial state, k submissions with k below the bank size leave
      the question view on question k; the submission that answers the last
      question is the one that raises the results view, and it leaves the
      index on the last question. */
  lemma RunPosition(qs: seq<Question>, options: seq<string>)
    requires 0 < |qs| && |options| <= |qs|
    ensures |options| < |qs| ==>
              Run(qs, Initial(), options).index == |options| && !Run(qs, Initial(), options).showResults
    ensures |options| == |qs| ==>
              Run(qs, Initial(), options).index == |qs| - 1 && Run(qs, Initial(), options).showResults
  {
    var s := Run(qs, Initial(), options);
    assert Consistent(qs, Initial());
  }

  /** Exactly as many submissions as there are questions reach the results
      view: every shorter prefix of the run is still in the question view. */
  lemma CompletionExactlyAtTotal(qs: seq<Question>, options: seq<string>)
    requires 0 < |qs| && |options| == |qs|
    ensures Run(qs, Initial(), options).showResults
    ensures forall k :: 0 <= k < |options| ==> !Run(qs, Initial(), options[..k]).showResults
  {
    RunPosition(qs, options);
    forall k | 0 <= k < |options|
      ensures !Run(qs, Initial(), options[..k]).showResults
    {
      RunPosition(qs, options[..k]);
    }
  }

  /** Answering one more question extends the reference answer map by that
      question's id and option. */
  lemma AnswersForSnoc(qs: seq<Question>, options: seq<string>)
    requires UniqueIds(qs) && 0 < |options| <= |qs|
    ensures AnswersFor(qs, options)
            == AnswersFor(qs, options[..|options| - 1])[qs[|options| - 1].id := options[|options| - 1]]
  {
    var k := |options| - 1;
    var prefix := options[..k];
    var lhs := AnswersFor(qs, options);
    var rhs := AnswersFor(qs, prefix)[qs[k].id := options[k]];
    forall j | 0 <= j < k
      ensures qs[j].id in rhs && rhs[qs[j].id] == lhs[qs[j].id]
    {
      assert prefix[j] == options[j];
      assert qs[j].id in AnswersFor(qs, prefix);
    }
    assert lhs.Keys == rhs.Keys;
  }

  /** From the initial state, the answers after a run are exactly the i-th
      option under the i-th question's id, for the questions answered. */
  lemma {:induction false} RunAnswers(qs: seq<Question>, options: seq<string>)
    requires 0 < |qs| && UniqueIds(qs) && |options| <= |qs|
    ensures Run(qs, Initial(), options).answers == AnswersFor(qs, options)
  {
    assert Consistent(qs, Initial());
    if |options| > 0 {
      var k := |options| - 1;
      var prefix := options[..k];
      RunAnswers(qs, prefix);
      RunPosition(qs, prefix);
      AnswersForSnoc(qs, options);
      var before := Run(qs, Initial(), prefix);
      assert Run(qs, Initial(), options) == Submit(qs, before, options[k]);
    }
  }

  /** With unique ids the number of recorded answers tracks progress: k
      submissions from the initial state leave exactly k answers, keyed by the
      ids of the first k questions. */
  lemma AnswerCount(qs: seq<Question>, options: seq<string>)
    requires 0 < |qs| && UniqueIds(qs) && |options| <= |qs|
    ensures Run(qs, Initial(), options).answers.Keys == PrefixIds(qs, |options|)
    ensures |Run(qs, Initial(), options).answers| == |options|
  {
    assert Consistent(qs, Initial());
    PrefixIdsSize(qs, |options|);
  }

  /** Once the results view is up every question has an answer, so the
      results view's lookup by question id is always defined. */
  lemma CompleteAnswersAll(qs: seq<Question>, s: State)
    requires Consistent(qs, s) && s.showResults
    ensures forall q :: q in qs ==> q.id in s.answers
  {
    forall q | q in qs
      ensures q.id in s.answers
    {
      var i :| 0 <= i < |qs| && qs[i] == q;
      assert qs[i].id in PrefixIds(qs, |qs|);
    }
  }

  /** A full run from the initial state shows, for every question in bank
      order, its prompt beside exactly the option submitted for it. */
  lemma ResultsEchoSubmissions(qs: seq<Question>, options: seq<string>)
    requires 0 < |qs| && UniqueIds(qs) && |options| == |qs|
    ensures Run(qs, Initial(), options).showResults
    ensures forall i :: 0 <= i < |qs| ==>
              Results(qs, Run(qs, Initial(), options))[i] == (qs[i].prompt, options[i])
  {
    RunPosition(qs, options);
    RunAnswers(qs, options);
  }

  /** Restarting from any state makes a whole new survey possible: a full run
      after the restart completes with exactly the new answers, whatever the
      state held before. */
  lemma RestartForgetsHistory(qs: seq<Question>, s: State, options: seq<string>)
    requires 0 < |qs| && UniqueIds(qs) && |options| == |qs|
    ensures Consistent(qs, Restart(s)) && Answered(|qs|, Restart(s)) == 0
    ensures Run(qs, Restart(s), options).showResults
    ensures Run(qs, Restart(s), options).answers == AnswersFor(qs, options)
  {
    assert Consistent(qs, Initial());
    RunPosition(qs, options);
    RunAnswers(qs, options);
  }

  /** Restarting twice is the same as restarting once. */
  lemma RestartIdempotent(s: State)
    ensures Restart(Restart(s)) == Restart(s)
  {
  }

  /** The progress bar starts at (0, total) and reads (total - 1, total)
      just before the final submission. */
  lemma ProgressEnds(qs: seq<Question>, options: seq<string>)
    requires 0 < |qs| && |options| == |qs| - 1
    ensures Consistent(qs, Initial()) && Progress(qs, Initial()) == (0, |qs|)
    ensures Progress(qs, Run(qs, Initial(), options)) == (|qs| - 1, |qs|)
  {
    RunPosition(qs, options);
  }
}
