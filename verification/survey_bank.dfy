/**
 The widget's own question bank, as one instance of the state machine in
 module Survey, and the walk-throughs that the state machine promises for it
 and for small banks.
 */
module SurveyBank {
  import opened Survey

  /** The five questions the widget ships with: ids 1 to 5 in order, four
      options each. */
  function SurveyQuestions(): (qs: seq<Question>)
    ensures |qs| == 5 && UniqueIds(qs)
    ensures forall i :: 0 <= i < |qs| ==> qs[i].id == i + 1 && |qs[i].options| == 4
  {
    [Landscape(), Weekend(), Palette(), Art(), TimeOfDay()]
  }

  function Landscape(): (q: Question)
    ensures q.id == 1 && |q.options| == 4
  {
    Question(1, "Which of these landscapes do you find most relaxing?",
             "https://placehold.co/600x400/81C784/FFFFFF?text=Lush+Valley",
             ["A sunny beach", "A quiet forest", "A snowy mountain peak", "A rolling countryside"])
  }

  function Weekend(): (q: Question)
    ensures q.id == 2 && |q.options| == 4
  {
    Question(2, "What's your ideal way to spend a weekend?",
             "https://placehold.co/600x400/64B5F6/FFFFFF?text=Cozy+Book",
             ["Reading a book at home", "Exploring a new city", "Hiking a scenic trail", "Trying new restaurants"])
  }

  function Palette(): (q: Question)
    ensures q.id == 3 && |q.options| == 4
  {
    Question(3, "Pick a color palette that appeals to you the most.",
             "https://placehold.co/600x400/9575CD/FFFFFF?text=Color+Swatches",
             ["Warm Earth Tones (Browns, Oranges)", "Cool Ocean Blues (Blues, Greens)",
              "Vibrant Sunset Hues (Pinks, Purples)", "Monochromatic (Black, White, Gray)"])
  }

  function Art(): (q: Question)
    ensures q.id == 4 && |q.options| == 4
  {
    Question(4, "Which type of art are you most drawn to?",
             "https://placehold.co/600x400/FFB74D/FFFFFF?text=Art+Museum",
             ["Classic Paintings", "Modern Sculptures", "Street Art & Graffiti", "Digital Art"])
  }

  function TimeOfDay(): (q: Question)
    ensures q.id == 5 && |q.options| == 4
  {
    Question(5, "What is your favorite time of day?",
             "https://placehold.co/600x400/4DD0E1/FFFFFF?text=Sunrise",
             ["Early Morning Sunrise", "Bright Midday Sun", "Golden Hour Sunset", "Starry Night"])
  }

  /** In a bank with ids 1 to 5, the reference answer map of five options is
      the map from 1..5 to those options. */
  lemma FiveAnswers(qs: seq<Question>, options: seq<string>)
    requires |qs| == 5 && |options| == 5
    requires forall i :: 0 <= i < |qs| ==> qs[i].id == i + 1
    ensures UniqueIds(qs)
    ensures AnswersFor(qs, options)
            == map[1 := options[0], 2 := options[1], 3 := options[2], 4 := options[3], 5 := options[4]]
  {
    var m := AnswersFor(qs, options);
    assert qs[0].id == 1 && qs[1].id == 2 && qs[2].id == 3 && qs[3].id == 4 && qs[4].id == 5;
    assert m[1] == options[0] && m[2] == options[1] && m[3] == options[2];
    assert m[4] == options[3] && m[5] == options[4];
    assert m.Keys == {1, 2, 3, 4, 5};
  }

  /** Answering all five questions of a bank with ids 1 to 5 reaches the
      results view on the fifth question, with answers keyed 1 to 5. */
  lemma FiveQuestionRun(qs: seq<Question>, options: seq<string>)
    requires |qs| == 5 && |options| == 5
    requires forall i :: 0 <= i < |qs| ==> qs[i].id == i + 1
    ensures Run(qs, Initial(), options).showResults
    ensures Run(qs, Initial(), options).index == 4
    ensures Run(qs, Initial(), options).answers
            == map[1 := options[0], 2 := options[1], 3 := options[2], 4 := options[3], 5 := options[4]]
  {
    FiveAnswers(qs, options);
    RunPosition(qs, options);
    RunAnswers(qs, options);
  }

  /** The shipped bank is such a bank. */
  lemma ShippedBankFullRun(options: seq<string>)
    requires |options| == 5
    ensures Run(SurveyQuestions(), Initial(), options).showResults
    ensures Run(SurveyQuestions(), Initial(), options).answers
            == map[1 := options[0], 2 := options[1], 3 := options[2], 4 := options[3], 5 := options[4]]
  {
    FiveQuestionRun(SurveyQuestions(), options);
  }

  /** An option that is not one of the current question's choices is stored
      just the same: the transition does not validate the text. */
  lemma UnlistedOptionIsStored()
    ensures "free text" !in CurrentQuestion(SurveyQuestions(), Initial()).options
    ensures Submit(SurveyQuestions(), Initial(), "free text").answers == map[1 := "free text"]
  {
    assert Consistent(SurveyQuestions(), Initial());
  }

  /** A two-question walk-through: the first submission moves to the second
      question with one answer, the second completes the survey with both,
      and a restart clears everything. */
  lemma TwoQuestionScenario(q1: Question, q2: Question)
    requires q1.id == 1 && q2.id == 2
    ensures Consistent([q1, q2], Initial())
    ensures Submit([q1, q2], Initial(), "X") == State(1, map[1 := "X"], false)
    ensures Submit([q1, q2], Submit([q1, q2], Initial(), "X"), "Y")
            == State(1, map[1 := "X", 2 := "Y"], true)
    ensures Restart(Submit([q1, q2], Submit([q1, q2], Initial(), "X"), "Y")) == State(0, map[], false)
  {
  }

  /** With a single question, one submission completes the survey. */
  lemma OneQuestionScenario(q: Question, option: string)
    ensures Consistent([q], Initial())
    ensures Submit([q], Initial(), option) == State(0, map[q.id := option], true)
  {
  }
}
