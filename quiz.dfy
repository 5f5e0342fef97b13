/** The knowledge quiz: ten questions drawn from a fixed bank of forty are
    answered one at a time; each submitted answer is recorded and scored, and
    after a short settle delay the quiz either moves on or completes and
    reports its reward. */
module Quiz {
  import opened Basics

  datatype Question = Question(id: nat, prompt: string, options: seq<string>, correctAnswer: nat)

  /** What a completed quiz reports: the score and the XP and coins it earns. */
  datatype QuizResult = QuizResult(score: nat, xp: nat, coins: nat)

  /** A settle timer scheduled by a submit, holding what its callback captured:
      the question index at submit time and the final score it would report. */
  datatype PendingAdvance = PendingAdvance(index: nat, finalScore: nat)

  const QuizLength: nat := 10
  const BankSize: nat := 40

  /** A run of bank entries whose ids count up from `first`, each with four
      options and a correct answer among them. */
  predicate WellFormedRun(qs: seq<Question>, first: nat)
  {
    forall i :: 0 <= i < |qs| ==>
      qs[i].id == first + i && |qs[i].options| == 4 && qs[i].correctAnswer < 4
  }

  const BankPart1: seq<Question> := [
    Question(1, "What is the capital of France?", ["London", "Berlin", "Paris", "Madrid"], 2),
    Question(2, "Which planet is known as the Red Planet?", ["Venus", "Mars", "Jupiter", "Saturn"], 1),
    Question(3, "Who painted the Mona Lisa?", ["Van Gogh", "Picasso", "Da Vinci", "Monet"], 2),
    Question(4, "What is the largest ocean on Earth?", ["Atlantic", "Indian", "Arctic", "Pacific"], 3),
    Question(5, "Which country is known as the Land of the Rising Sun?", ["China", "Japan", "Korea", "Thailand"], 1),
    Question(6, "What is the chemical symbol for gold?", ["Go", "Gd", "Au", "Ag"], 2),
    Question(7, "Which gas makes up most of Earth's atmosphere?", ["Oxygen", "Carbon Dioxide", "Nitrogen", "Hydrogen"], 2),
    Question(8, "What is the smallest country in the world?", ["Monaco", "Vatican City", "Liechtenstein", "San Marino"], 1),
    Question(9, "Which element has the atomic number 1?", ["Helium", "Hydrogen", "Lithium", "Carbon"], 1),
    Question(10, "What is the currency of Japan?", ["Won", "Yuan", "Yen", "Baht"], 2)
  ]

  const BankPart2: seq<Question> := [
    Question(11, "Which mountain is the highest in the world?", ["K2", "Mount Everest", "Kangchenjunga", "Lhotse"], 1),
    Question(12, "What is the largest mammal in the world?", ["African Elephant", "Blue Whale", "Giraffe", "Hippopotamus"], 1),
    Question(13, "Which planet is closest to the Sun?", ["Venus", "Mercury", "Earth", "Mars"], 1),
    Question(14, "What is the longest river in the world?", ["Amazon", "Nile", "Yangtze", "Mississippi"], 1),
    Question(15, "Which country has the most natural lakes?", ["Russia", "Canada", "Finland", "United States"], 1),
    Question(16, "What is the hardest natural substance on Earth?", ["Gold", "Iron", "Diamond", "Quartz"], 2),
    Question(17, "Which organ produces insulin?", ["Liver", "Pancreas", "Kidney", "Stomach"], 1),
    Question(18, "What is the speed of light in vacuum?", ["300,000 km/s", "150,000 km/s", "450,000 km/s", "600,000 km/s"], 0),
    Question(19, "Which country is home to the kangaroo?", ["New Zealand", "Australia", "South Africa", "Brazil"], 1),
    Question(20, "What is the largest desert in the world?", ["Gobi", "Sahara", "Antarctic", "Arabian"], 2)
  ]

  const BankPart3: seq<Question> := [
    Question(21, "What is 15 × 8?", ["120", "110", "130", "140"], 0),
    Question(22, "What is the square root of 64?", ["6", "7", "8", "9"], 2),
    Question(23, "What is 25% of 200?", ["40", "50", "60", "75"], 1),
    Question(24, "What is 7² + 3²?", ["58", "52", "49", "56"], 0),
    Question(25, "What is the value of π (pi) to 2 decimal places?", ["3.14", "3.15", "3.16", "3.13"], 0),
    Question(26, "What is 144 ÷ 12?", ["10", "11", "12", "13"], 2),
    Question(27, "What is 5! (5 factorial)?", ["100", "120", "150", "200"], 1),
    Question(28, "What is the area of a circle with radius 7? (Use π = 22/7)", ["154", "147", "161", "168"], 0),
    Question(29, "What is 2³ + 3²?", ["15", "17", "19", "21"], 1),
    Question(30, "What is the next number in the sequence: 2, 4, 8, 16, ?", ["24", "32", "28", "20"], 1)
  ]

  const BankPart4: seq<Question> := [
    Question(31, "What is 1/2 + 1/4?", ["1/6", "2/6", "3/4", "1/4"], 2),
    Question(32, "What is the perimeter of a square with side length 5?", ["20", "25", "15", "10"], 0),
    Question(33, "What is 3 × 4 + 2 × 5?", ["22", "24", "26", "28"], 0),
    Question(34, "What is the greatest common factor of 12 and 18?", ["3", "6", "9", "12"], 1),
    Question(35, "What is 0.5 × 0.2?", ["0.1", "0.01", "1.0", "0.2"], 0),
    Question(36, "What is the slope of the line y = 2x + 3?", ["2", "3", "5", "1"], 0),
    Question(37, "What is 10% of 150?", ["10", "15", "20", "25"], 1),
    Question(38, "What is the volume of a cube with side length 3?", ["9", "18", "27", "36"], 2),
    Question(39, "What is 2 + 2 × 3?", ["8", "12", "10", "6"], 0),
    Question(40, "What is the median of 1, 3, 5, 7, 9?", ["3", "5", "7", "9"], 1)
  ]

  lemma BankPart1WellFormed()
    ensures |BankPart1| == 10 && WellFormedRun(BankPart1, 1)
  {
  }

  lemma BankPart2WellFormed()
    ensures |BankPart2| == 10 && WellFormedRun(BankPart2, 11)
  {
  }

  lemma BankPart3WellFormed()
    ensures |BankPart3| == 10 && WellFormedRun(BankPart3, 21)
  {
  }

  lemma BankPart4WellFormed()
    ensures |BankPart4| == 10 && WellFormedRun(BankPart4, 31)
  {
  }

  lemma {:induction false} WellFormedRunAppend(a: seq<Question>, b: seq<Question>, first: nat)
    requires WellFormedRun(a, first) && WellFormedRun(b, first + |a|)
    ensures WellFormedRun(a + b, first)
  {
    forall i | 0 <= i < |a + b|
      ensures (a + b)[i].id == first + i && |(a + b)[i].options| == 4 && (a + b)[i].correctAnswer < 4
    {
      if i >= |a| {
        assert (a + b)[i] == b[i - |a|];
      } else {
        assert (a + b)[i] == a[i];
      }
    }
  }

  /** The question bank: forty questions with ids 1 to 40 in order, four
      options each, and a correct answer among them. */
  function SampleQuestions(): (bank: seq<Question>)
    ensures |bank| == BankSize && WellFormedRun(bank, 1)
  {
    BankPart1WellFormed();
    BankPart2WellFormed();
    BankPart3WellFormed();
    BankPart4WellFormed();
    WellFormedRunAppend(BankPart1, BankPart2, 1);
    WellFormedRunAppend(BankPart1 + BankPart2, BankPart3, 1);
    WellFormedRunAppend(BankPart1 + BankPart2 + BankPart3, BankPart4, 1);
    BankPart1 + BankPart2 + BankPart3 + BankPart4
  }

  predicate IsPermutation(order: seq<nat>, n: nat)
  {
    |order| == n &&
    (forall i :: 0 <= i < n ==> order[i] < n) &&
    (forall i, j :: 0 <= i < j < n ==> order[i] != order[j])
  }

  /** A quiz's questions: ten questions of the bank, no id twice. */
  predicate IsSample(qs: seq<Question>)
  {
    |qs| == QuizLength &&
    (forall i :: 0 <= i < |qs| ==> qs[i] in SampleQuestions()) &&
    (forall i, j :: 0 <= i < j < |qs| ==> qs[i].id != qs[j].id)
  }

  /** The entries of `bank` in the order `order` lists their positions. */
  function Arrange(bank: seq<Question>, order: seq<nat>): (r: seq<Question>)
    requires forall i :: 0 <= i < |order| ==> order[i] < |bank|
    ensures |r| == |order| && forall i :: 0 <= i < |order| ==> r[i] == bank[order[i]]
  {
    seq(|order|, i requires 0 <= i < |order| && order[i] < |bank| => bank[order[i]])
  }

  /** `getRandomQuestions`: the bank is shuffled and its first ten questions
      are taken. The random comparator may yield any order of the bank, so the
      order is chosen arbitrarily here. */
  method GetRandomQuestions() returns (qs: seq<Question>)
    ensures IsSample(qs)
  {
    var bank := SampleQuestions();
    var identity: seq<nat> := seq(BankSize, i => i);
    assert IsPermutation(identity, BankSize);
    var order: seq<nat> :| IsPermutation(order, BankSize);
    assert IsPermutation(order, BankSize);
    var shuffled := Arrange(bank, order);
    qs := shuffled[..QuizLength];
    forall i | 0 <= i < |qs| ensures qs[i] in SampleQuestions() && qs[i].id == order[i] + 1 {
      assert qs[i] == bank[order[i]];
    }
  }

  function NoAnswers(): (answers: seq<Option<nat>>)
    ensures |answers| == QuizLength && forall i :: 0 <= i < |answers| ==> answers[i] == None
  {
    seq(QuizLength, _ => None)
  }

  /** The positions whose recorded answer is the question's correct answer. */
  function CorrectIndices(qs: seq<Question>, answers: seq<Option<nat>>): set<nat>
  {
    set i: nat | i < |qs| && i < |answers| && answers[i] == Some(qs[i].correctAnswer)
  }

  /** Recording an answer in an empty slot adds that slot to the correct ones
      exactly when the answer is right. */
  lemma RecordAnswer(qs: seq<Question>, answers: seq<Option<nat>>, k: nat, a: nat)
    requires k < |qs| && k < |answers| && answers[k] == None
    ensures |CorrectIndices(qs, answers[k := Some(a)])| ==
      |CorrectIndices(qs, answers)| + if a == qs[k].correctAnswer then 1 else 0
  {
    var before, after := CorrectIndices(qs, answers), CorrectIndices(qs, answers[k := Some(a)]);
    assert k !in before;
    if a == qs[k].correctAnswer {
      assert after == before + {k};
    } else {
      assert after == before;
    }
  }

  /** A set of positions below `n` has at most `n` members. */
  lemma {:induction false} IndexSetBound(s: set<nat>, n: nat)
    requires forall i :: i in s ==> i < n
    ensures |s| <= n
  {
    if n > 0 {
      IndexSetBound(s - {n - 1}, n - 1);
    } else {
      assert s == {};
    }
  }

  /** The score a quiz reports is at most its number of questions. */
  lemma ScoreBound(qs: seq<Question>, answers: seq<Option<nat>>)
    requires |answers| == QuizLength
    ensures |CorrectIndices(qs, answers)| <= QuizLength
  {
    IndexSetBound(CorrectIndices(qs, answers), QuizLength);
  }

  class QuizSession {
    var questions: seq<Question>
    var currentQuestion: nat
    var selectedAnswer: Option<nat>
    var score: nat
    var showResult: bool
    var answered: bool
    var answers: seq<Option<nat>>
    /** Settle timers scheduled and not yet fired, oldest first. */
    var timers: seq<PendingAdvance>

    /** The quiz invariant: the score counts the correctly answered slots;
        only slots up to the current question are filled, the current one
        exactly when it has been answered; a settle timer is pending exactly
        between a submit and its settle, and it carries the current index and
        score. */
    ghost predicate Valid()
      reads this
    {
      |answers| == QuizLength &&
      (questions == [] || IsSample(questions)) &&
      (questions == [] ==> currentQuestion == 0 && !answered && !showResult && answers == NoAnswers() && timers == []) &&
      currentQuestion < QuizLength &&
      score == |CorrectIndices(questions, answers)| &&
      (forall i :: currentQuestion < i < QuizLength ==> answers[i] == None) &&
      (answered <==> answers[currentQuestion] != None) &&
      (answered ==> answers[currentQuestion] == selectedAnswer) &&
      (showResult ==> answered && currentQuestion == QuizLength - 1) &&
      (timers == [] || timers == [PendingAdvance(currentQuestion, score)]) &&
      (timers != [] <==> answered && !showResult)
    }

    /** A quiz that is still loading its questions. */
    constructor ()
      ensures Valid()
      ensures questions == [] && currentQuestion == 0 && selectedAnswer == None && score == 0
      ensures !showResult && !answered && answers == NoAnswers() && timers == []
    {
      questions, currentQuestion, selectedAnswer, score := [], 0, None, 0;
      showResult, answered, answers, timers := false, false, NoAnswers(), [];
    }

    /** The effect run when the modal is open: draws the questions if there are none yet. */
    method Load()
      requires Valid()
      modifies this
      ensures Valid()
      ensures old(questions) == [] ==> IsSample(questions)
      ensures old(questions) != [] ==> questions == old(questions)
      ensures currentQuestion == old(currentQuestion) && selectedAnswer == old(selectedAnswer)
      ensures score == old(score) && showResult == old(showResult) && answered == old(answered)
      ensures answers == old(answers) && timers == old(timers)
    {
      if questions == [] {
        questions := GetRandomQuestions();
        assert CorrectIndices(questions, answers) == {};
      }
    }

    /** `handleAnswerSelect`: picks an option while the current question is unanswered. */
    method SelectAnswer(answerIndex: nat)
      modifies this
      ensures selectedAnswer == if old(answered) then old(selectedAnswer) else Some(answerIndex)
      ensures questions == old(questions) && currentQuestion == old(currentQuestion) && score == old(score)
      ensures showResult == old(showResult) && answered == old(answered) && answers == old(answers)
      ensures timers == old(timers)
      ensures old(Valid()) ==> Valid()
    {
      if !answered {
        selectedAnswer := Some(answerIndex);
      }
    }

    /** `handleSubmitAnswer`: with an option selected and a question shown
        (and the submit button enabled, that is, not yet answered), records
        the selection in the current slot, scores it and schedules the settle
        timer; otherwise changes nothing. */
    method Submit()
      requires Valid()
      modifies this
      ensures Valid()
      ensures questions == old(questions) && currentQuestion == old(currentQuestion)
      ensures selectedAnswer == old(selectedAnswer) && showResult == old(showResult)
      ensures old(selectedAnswer) == None || old(currentQuestion) >= |old(questions)| || old(answered) ==>
        answered == old(answered) && answers == old(answers) && score == old(score) && timers == old(timers)
      ensures old(selectedAnswer) != None && old(currentQuestion) < |old(questions)| && !old(answered) ==>
        answered &&
        answers == old(answers)[old(currentQuestion) := old(selectedAnswer)] &&
        score == old(score) + (if old(selectedAnswer).value == old(questions)[old(currentQuestion)].correctAnswer then 1 else 0) &&
        timers == old(timers) + [PendingAdvance(old(currentQuestion), score)]
    {
      if selectedAnswer == None || currentQuestion >= |questions| || answered {
        return;
      }
      var choice := selectedAnswer.value;
      RecordAnswer(questions, answers, currentQuestion, choice);
      answered := true;
      answers := answers[currentQuestion := selectedAnswer];
      var finalScore := if choice == questions[currentQuestion].correctAnswer then score + 1 else score;
      score := finalScore;
      timers := timers + [PendingAdvance(currentQuestion, finalScore)];
    }

    /** The settle timer's callback, run for the oldest pending timer: before
        the last question it moves to the next one with nothing selected;
        on the last question it shows the result and reports the captured
        final score with 50 XP and 25 coins per correct answer. */
    method Settle() returns (result: Option<QuizResult>)
      modifies this
      ensures old(Valid()) ==> Valid()
      ensures questions == old(questions) && score == old(score) && answers == old(answers)
      ensures old(timers) == [] ==>
        (result == None &&
         currentQuestion == old(currentQuestion) && selectedAnswer == old(selectedAnswer) &&
         answered == old(answered) && showResult == old(showResult) && timers == [])
      ensures old(timers) != [] && old(timers)[0].index < QuizLength - 1 ==>
        (result == None &&
         currentQuestion == old(currentQuestion) + 1 && selectedAnswer == None && !answered &&
         showResult == old(showResult) && timers == old(timers)[1..])
      ensures old(timers) != [] && old(timers)[0].index >= QuizLength - 1 ==>
        (var s := old(timers)[0].finalScore;
         result == Some(QuizResult(s, s * 50, s * 25)) && showResult &&
         currentQuestion == old(currentQuestion) && selectedAnswer == old(selectedAnswer) &&
         answered == old(answered) && timers == old(timers)[1..])
    {
      result := None;
      if timers == [] {
        return;
      }
      var t := timers[0];
      timers := timers[1..];
      if t.index < QuizLength - 1 {
        currentQuestion := currentQuestion + 1;
        selectedAnswer := None;
        answered := false;
      } else {
        showResult := true;
        result := Some(QuizResult(t.finalScore, t.finalScore * 50, t.finalScore * 25));
      }
    }

    /** Submitting and letting the settle timer fire, taken as one step: a
        submitted answer is recorded; before the last question the quiz moves
        on, and on the last one it completes, reporting as its score the
        number of questions answered correctly, with 50 XP and 25 coins per
        correct answer. */
    method SubmitAndSettle() returns (result: Option<QuizResult>)
      requires Valid()
      modifies this
      ensures Valid()
      ensures questions == old(questions)
      ensures var submitted := old(selectedAnswer) != None && old(currentQuestion) < |old(questions)| && !old(answered);
        (submitted ==> answers == old(answers)[old(currentQuestion) := old(selectedAnswer)]) &&
        (!submitted ==>
          answers == old(answers) && currentQuestion == old(currentQuestion) && score == old(score) &&
          selectedAnswer == old(selectedAnswer) && answered == old(answered) &&
          showResult == old(showResult) && timers == old(timers)) &&
        (submitted && old(currentQuestion) < QuizLength - 1 ==>
          currentQuestion == old(currentQuestion) + 1 && selectedAnswer == None && !answered) &&
        (result.Some? <==> submitted && old(currentQuestion) == QuizLength - 1)
      ensures result.Some? ==>
        (showResult &&
         result.value.score == |CorrectIndices(questions, answers)| <= QuizLength &&
         result.value.xp == 50 * result.value.score && result.value.coins == 25 * result.value.score)
    {
      var pending := timers;
      Submit();
      if pending == [] {
        result := Settle();
        ScoreBound(questions, answers);
      } else {
        result := None;
      }
    }

    /** `handleClose` with the settle timer cancelled: restarts with fresh
        questions and discards any pending settle, so a closed quiz reports
        nothing. */
    method Close()
      modifies this
      ensures Valid()
      ensures IsSample(questions) && currentQuestion == 0 && selectedAnswer == None && score == 0
      ensures !showResult && !answered && answers == NoAnswers() && timers == []
    {
      currentQuestion, selectedAnswer, score := 0, None, 0;
      showResult, answered, answers := false, false, NoAnswers();
      questions := GetRandomQuestions();
      timers := [];
      assert CorrectIndices(questions, answers) == {};
    }

    /** `handleClose` as written: `resetQuiz` restores the initial fields and
        draws fresh questions, but a settle timer already scheduled stays
        pending. */
    method CloseAsWritten()
      modifies this
      ensures IsSample(questions) && currentQuestion == 0 && selectedAnswer == None && score == 0
      ensures !showResult && !answered && answers == NoAnswers() && timers == old(timers)
    {
      currentQuestion, selectedAnswer, score := 0, None, 0;
      showResult, answered, answers := false, false, NoAnswers();
      questions := GetRandomQuestions();
    }
  }

  /** Opens a quiz and answers its first nine questions correctly. */
  method PlayFirstNine() returns (q: QuizSession)
    ensures fresh(q) && q.Valid() && q.questions != [] && q.currentQuestion == QuizLength - 1
    ensures q.score == QuizLength - 1 && !q.answered && !q.showResult && q.timers == []
  {
    q := new QuizSession();
    q.Load();
    while q.currentQuestion < QuizLength - 1
      invariant q.Valid() && q.questions != []
      invariant q.score == q.currentQuestion && !q.answered && !q.showResult && q.timers == []
      decreases QuizLength - q.currentQuestion
    {
      q.SelectAnswer(q.questions[q.currentQuestion].correctAnswer);
      q.Submit();
      var r := q.Settle();
    }
  }

  /** Answering all ten questions correctly completes the quiz with a score of
      10, 500 XP and 250 coins. */
  method PerfectQuiz() returns (result: Option<QuizResult>)
    ensures result == Some(QuizResult(10, 500, 250))
  {
    var q := PlayFirstNine();
    q.SelectAnswer(q.questions[q.currentQuestion].correctAnswer);
    q.Submit();
    result := q.Settle();
  }

  /** As written, cancelling right after submitting the last answer still
      reports the full reward when the settle timer fires. */
  method CancelAfterLastAnswerAsWritten() returns (result: Option<QuizResult>)
    ensures result == Some(QuizResult(10, 500, 250))
  {
    var q := PlayFirstNine();
    q.SelectAnswer(q.questions[q.currentQuestion].correctAnswer);
    q.Submit();
    q.CloseAsWritten();
    result := q.Settle();
  }

  /** With the timer cancelled on close, the same sequence reports nothing. */
  method CancelAfterLastAnswer() returns (result: Option<QuizResult>)
    ensures result == None
  {
    var q := PlayFirstNine();
    q.SelectAnswer(q.questions[q.currentQuestion].correctAnswer);
    q.Submit();
    q.Close();
    result := q.Settle();
  }
}
