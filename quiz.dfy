/**
 * The practice quiz: ten questions drawn from one platform's shortcuts,
 * each offering the right key string among up to three wrong ones, answered
 * one at a time against a five-minute countdown. The shuffles are driven
 * by explicit choice sequences, the clock by an explicit timer step, and
 * the completion time by a parameter; a completed quiz appends one session
 * record to `savedSessions`, the request the page sends to the store.
 */
module Quiz {
  import opened Wrappers
  import opened Text
  import opened Seqs
  import opened Catalog

  datatype Question = Question(shortcut: Shortcut<string>, options: seq<string>, correctAnswer: string)

  /** What the page asks the store to save when a quiz ends. */
  datatype SessionRecord = SessionRecord(
    userId: int,
    platform: string,
    score: nat,
    totalQuestions: nat,
    completedAt: string)

  /** Questions per quiz, and the fewest platform shortcuts a quiz can be built from. */
  const QUIZ_LENGTH: nat := 10
  /** Wrong answers offered per question, at most. */
  const WRONG_OPTIONS: nat := 3
  /** The countdown's starting value, in seconds. */
  const TIME_LIMIT: nat := 300

  function Min(a: nat, b: nat): nat
  {
    if a < b then a else b
  }

  /** The key strings of `xs`, in order. */
  function Keys(xs: seq<Shortcut<string>>): (r: seq<string>)
    ensures |r| == |xs| && forall i :: 0 <= i < |xs| ==> r[i] == xs[i].shortcut
  {
    seq(|xs|, i requires 0 <= i < |xs| => xs[i].shortcut)
  }

  function Others(correctAnswer: string): Shortcut<string> -> bool
  {
    (s: Shortcut<string>) => s.shortcut != correctAnswer
  }

  /**
   * `generateRandomOptions`: the key strings of the other shortcuts,
   * shuffled and cut to three, then shuffled together with the right one.
   */
  function GenerateRandomOptions(
    correctAnswer: string,
    allShortcuts: seq<Shortcut<string>>,
    wrongChoices: seq<nat>,
    optionChoices: seq<nat>): seq<string>
  {
    var shuffled := Shuffle(Keys(Filter(allShortcuts, Others(correctAnswer))), wrongChoices);
    Shuffle([correctAnswer] + shuffled[..Min(WRONG_OPTIONS, |shuffled|)], optionChoices)
  }

  /** Shuffling keeps exactly the elements there were. */
  lemma InShuffle<T>(s: seq<T>, choices: seq<nat>, x: T)
    ensures x in Shuffle(s, choices) <==> x in s
  {
    ShufflePermutes(s, choices);
    assert x in Shuffle(s, choices) <==> x in multiset(Shuffle(s, choices));
    assert x in s <==> x in multiset(s);
  }

  /**
   * The right answer is offered exactly once, next to as many wrong
   * answers as there are other shortcuts, up to three; every other option
   * is the key string of some shortcut of `allShortcuts`. Wrong answers are
   * not de-duplicated.
   */
  lemma GenerateRandomOptionsSpec(
    correctAnswer: string,
    allShortcuts: seq<Shortcut<string>>,
    wrongChoices: seq<nat>,
    optionChoices: seq<nat>)
    ensures var r := GenerateRandomOptions(correctAnswer, allShortcuts, wrongChoices, optionChoices);
      && multiset(r)[correctAnswer] == 1
      && |r| == 1 + Min(WRONG_OPTIONS, |Filter(allShortcuts, Others(correctAnswer))|)
      && forall i :: 0 <= i < |r| && r[i] != correctAnswer ==>
           exists j :: 0 <= j < |allShortcuts| && allShortcuts[j].shortcut == r[i]
  {
    var shuffled := Shuffle(Keys(Filter(allShortcuts, Others(correctAnswer))), wrongChoices);
    var wrong := shuffled[..Min(WRONG_OPTIONS, |shuffled|)];
    var r := Shuffle([correctAnswer] + wrong, optionChoices);
    forall x | x in wrong
      ensures x != correctAnswer && exists j :: 0 <= j < |allShortcuts| && allShortcuts[j].shortcut == x
    {
      assert x in shuffled;
      WrongAnswerFromOthers(correctAnswer, allShortcuts, wrongChoices, x);
    }
    OfferedOnce(correctAnswer, wrong, optionChoices);
    forall i | 0 <= i < |r| && r[i] != correctAnswer
      ensures exists j :: 0 <= j < |allShortcuts| && allShortcuts[j].shortcut == r[i]
    {
      InShuffle([correctAnswer] + wrong, optionChoices, r[i]);
      assert r[i] in wrong;
    }
  }

  /** A wrong answer is the key string of another shortcut. */
  lemma WrongAnswerFromOthers(correctAnswer: string, allShortcuts: seq<Shortcut<string>>, wrongChoices: seq<nat>, x: string)
    requires x in Shuffle(Keys(Filter(allShortcuts, Others(correctAnswer))), wrongChoices)
    ensures x != correctAnswer && exists j :: 0 <= j < |allShortcuts| && allShortcuts[j].shortcut == x
  {
    var filtered := Filter(allShortcuts, Others(correctAnswer));
    var others := Keys(filtered);
    InShuffle(others, wrongChoices, x);
    var k :| 0 <= k < |others| && others[k] == x;
    FilterMembers(allShortcuts, Others(correctAnswer));
    assert filtered[k] in filtered;
    var j :| 0 <= j < |allShortcuts| && allShortcuts[j] == filtered[k];
  }

  /** Shuffled in with answers that differ from it, the right answer appears once. */
  lemma OfferedOnce(correctAnswer: string, wrong: seq<string>, optionChoices: seq<nat>)
    requires correctAnswer !in wrong
    ensures multiset(Shuffle([correctAnswer] + wrong, optionChoices))[correctAnswer] == 1
  {
    ShufflePermutes([correctAnswer] + wrong, optionChoices);
    assert multiset(wrong)[correctAnswer] == 0;
    assert multiset([correctAnswer] + wrong) == multiset([correctAnswer]) + multiset(wrong);
  }

  /** With no shuffling and at most three other shortcuts, the options are the right answer, then every other key string in order. */
  lemma UnshuffledOptions(correctAnswer: string, allShortcuts: seq<Shortcut<string>>)
    requires |Filter(allShortcuts, Others(correctAnswer))| <= WRONG_OPTIONS
    ensures GenerateRandomOptions(correctAnswer, allShortcuts, [], [])
         == [correctAnswer] + Keys(Filter(allShortcuts, Others(correctAnswer)))
  {
    var others := Keys(Filter(allShortcuts, Others(correctAnswer)));
    ShuffleWithoutChoices(others);
    assert others[..Min(WRONG_OPTIONS, |others|)] == others;
    ShuffleWithoutChoices([correctAnswer] + others);
  }

  /** Two shortcuts sharing a key string can make two of the offered options equal. */
  lemma OptionsMayRepeat()
    ensures var o := GenerateRandomOptions("F7", [Shortcut("a", "", "F7", "", "", ""), Shortcut("b", "", "F8", "", "", ""),
      Shortcut("c", "", "F8", "", "", "")], [], []);
      |o| == 3 && o[1] == o[2]
  {
    OthersExample();
    UnshuffledOptions("F7", [Shortcut("a", "", "F7", "", "", ""), Shortcut("b", "", "F8", "", "", ""), Shortcut("c", "", "F8", "", "", "")]);
  }

  lemma OthersExample()
    ensures Filter([Shortcut("a", "", "F7", "", "", ""), Shortcut("b", "", "F8", "", "", ""),
      Shortcut("c", "", "F8", "", "", "")], Others("F7")) == [Shortcut("b", "", "F8", "", "", ""), Shortcut("c", "", "F8", "", "", "")]
  {
    var f7 := Shortcut("a", "", "F7", "", "", "");
    var b8 := Shortcut("b", "", "F8", "", "", "");
    var c8 := Shortcut("c", "", "F8", "", "", "");
    var p := Others("F7");
    assert [f7, b8, c8][..2] == [f7, b8];
    assert [f7, b8][..1] == [f7];
    assert [f7][..0] == [];
    assert Filter([f7], p) == [];
    assert Filter([f7, b8], p) == [b8];
  }

  /** The choice sequence for question `i`; an absent one selects the unshuffled order. */
  function ChoicesAt(choices: seq<seq<nat>>, i: nat): seq<nat>
  {
    if i < |choices| then choices[i] else []
  }

  /** The question for the `i`-th selected shortcut: its key string is the right answer. */
  function MakeQuestion(
    shortcut: Shortcut<string>,
    platformShortcuts: seq<Shortcut<string>>,
    wrongChoices: seq<seq<nat>>,
    optionChoices: seq<seq<nat>>,
    i: nat): Question
  {
    Question(
      shortcut,
      GenerateRandomOptions(shortcut.shortcut, platformShortcuts, ChoicesAt(wrongChoices, i), ChoicesAt(optionChoices, i)),
      shortcut.shortcut)
  }

  /** The questions `startQuiz` builds from the selected shortcuts, one per shortcut, in order. */
  function BuildQuestions(
    selected: seq<Shortcut<string>>,
    platformShortcuts: seq<Shortcut<string>>,
    wrongChoices: seq<seq<nat>>,
    optionChoices: seq<seq<nat>>): (r: seq<Question>)
    ensures |r| == |selected|
  {
    seq(|selected|, i requires 0 <= i < |selected| => MakeQuestion(selected[i], platformShortcuts, wrongChoices, optionChoices, i))
  }

  /**
   * Every question asks for a selected shortcut's key string and offers
   * it exactly once, among up to three wrong answers taken from the
   * platform's other shortcuts.
   */
  lemma QuestionsWellFormed(
    selected: seq<Shortcut<string>>,
    platformShortcuts: seq<Shortcut<string>>,
    wrongChoices: seq<seq<nat>>,
    optionChoices: seq<seq<nat>>)
    ensures var qs := BuildQuestions(selected, platformShortcuts, wrongChoices, optionChoices);
      forall i :: 0 <= i < |qs| ==>
        && qs[i].shortcut == selected[i]
        && qs[i].correctAnswer == selected[i].shortcut
        && multiset(qs[i].options)[qs[i].correctAnswer] == 1
        && |qs[i].options| == 1 + Min(WRONG_OPTIONS, |Filter(platformShortcuts, Others(qs[i].correctAnswer))|)
        && forall k :: 0 <= k < |qs[i].options| && qs[i].options[k] != qs[i].correctAnswer ==>
             exists j :: 0 <= j < |platformShortcuts| && platformShortcuts[j].shortcut == qs[i].options[k]
  {
    var qs := BuildQuestions(selected, platformShortcuts, wrongChoices, optionChoices);
    forall i | 0 <= i < |qs|
      ensures qs[i].shortcut == selected[i] && qs[i].correctAnswer == selected[i].shortcut
      ensures multiset(qs[i].options)[qs[i].correctAnswer] == 1
      ensures |qs[i].options| == 1 + Min(WRONG_OPTIONS, |Filter(platformShortcuts, Others(qs[i].correctAnswer))|)
      ensures forall k :: 0 <= k < |qs[i].options| && qs[i].options[k] != qs[i].correctAnswer ==>
        exists j :: 0 <= j < |platformShortcuts| && platformShortcuts[j].shortcut == qs[i].options[k]
    {
      GenerateRandomOptionsSpec(selected[i].shortcut, platformShortcuts, ChoicesAt(wrongChoices, i), ChoicesAt(optionChoices, i));
    }
  }

  /** The first ten platform shortcuts in shuffled order. */
  function SelectShortcuts(platformShortcuts: seq<Shortcut<string>>, selectChoices: seq<nat>): (r: seq<Shortcut<string>>)
    ensures |r| == Min(QUIZ_LENGTH, |platformShortcuts|)
  {
    var shuffled := Shuffle(platformShortcuts, selectChoices);
    shuffled[..Min(QUIZ_LENGTH, |shuffled|)]
  }

  /** The selected shortcuts are distinct entries of the platform's list: none is taken twice. */
  lemma SelectShortcutsDistinct(platformShortcuts: seq<Shortcut<string>>, selectChoices: seq<nat>)
    ensures multiset(SelectShortcuts(platformShortcuts, selectChoices)) <= multiset(platformShortcuts)
  {
    var shuffled := Shuffle(platformShortcuts, selectChoices);
    var r := SelectShortcuts(platformShortcuts, selectChoices);
    ShufflePermutes(platformShortcuts, selectChoices);
    assert shuffled == r + shuffled[|r|..];
  }

  /**
   * The final score: the number of positions whose answer equals that
   * question's right answer; an answer past the last question matches
   * nothing.
   */
  function CountCorrect(answers: seq<string>, questions: seq<Question>): (r: nat)
    ensures r <= Min(|answers|, |questions|)
  {
    if answers == [] then 0
    else
      var n := |answers| - 1;
      CountCorrect(answers[..n], questions) + (if n < |questions| && answers[n] == questions[n].correctAnswer then 1 else 0)
  }

  lemma NoAnswersScoreZero(answers: seq<string>, questions: seq<Question>)
    requires answers == []
    ensures CountCorrect(answers, questions) == 0
  {
  }

  lemma CountCorrectAppend(answers: seq<string>, a: string, questions: seq<Question>)
    ensures CountCorrect(answers + [a], questions)
         == CountCorrect(answers, questions) + (if |answers| < |questions| && a == questions[|answers|].correctAnswer then 1 else 0)
  {
    assert (answers + [a])[..|answers|] == answers;
  }

  /** The right answers of `questions`, in order. */
  function CorrectAnswers(questions: seq<Question>): (r: seq<string>)
    ensures |r| == |questions| && forall i :: 0 <= i < |r| ==> r[i] == questions[i].correctAnswer
  {
    seq(|questions|, i requires 0 <= i < |questions| => questions[i].correctAnswer)
  }

  /** Answering every question right scores every question. */
  lemma {:induction false} AllRightScoresAll(questions: seq<Question>)
    ensures CountCorrect(CorrectAnswers(questions), questions) == |questions|
  {
    AnswersPrefixScore(questions, |questions|);
    assert CorrectAnswers(questions)[..|questions|] == CorrectAnswers(questions);
  }

  lemma {:induction false} AnswersPrefixScore(questions: seq<Question>, k: nat)
    requires k <= |questions|
    ensures CountCorrect(CorrectAnswers(questions)[..k], questions) == k
  {
    if k > 0 {
      AnswersPrefixScore(questions, k - 1);
      var a := CorrectAnswers(questions)[..k];
      assert a[..k - 1] == CorrectAnswers(questions)[..k - 1];
    }
  }

  /** An answer list that matches at no position scores zero. */
  lemma {:induction false} NoneRightScoresZero(answers: seq<string>, questions: seq<Question>)
    requires forall i :: 0 <= i < |answers| && i < |questions| ==> answers[i] != questions[i].correctAnswer
    ensures CountCorrect(answers, questions) == 0
  {
    if answers != [] {
      NoneRightScoresZero(answers[..|answers| - 1], questions);
    }
  }

  /** `formatTime`: whole minutes, a colon, and the remaining seconds padded to two digits. */
  function FormatTime(seconds: nat): (r: string)
  {
    NatToString(seconds / 60) + ":" + PadStart2(NatToString(seconds % 60))
  }

  predicate IsColon(c: char)
  {
    c == ':'
  }

  /**
   * Reads a "m:ss" text back into seconds: the decimal minutes before the
   * first colon and the decimal seconds after it; None unless both parts
   * are non-empty runs of digits.
   */
  function ReadTime(t: string): Option<nat>
  {
    match FindFirst(t, IsColon)
    case None => None
    case Some(k) => TimeValue(t[..k], t[k + 1..])
  }

  function TimeValue(mins: string, secs: string): Option<nat>
  {
    if |mins| > 0 && |secs| > 0 && AllDigits(mins) && AllDigits(secs) then
      Some(DigitsValue(mins) * 60 + DigitsValue(secs))
    else None
  }

  /** The seconds part of the display: two digits worth the seconds past the minute. */
  lemma SecondsPart(x: nat)
    requires x < 60
    ensures var p := PadStart2(NatToString(x)); |p| == 2 && AllDigits(p) && DigitsValue(p) == x
  {
    var sec := NatToString(x);
    NatToStringValue(x);
    if |sec| > 2 {
      DigitsAtLeast(sec);
    }
    if |sec| == 1 {
      PadZeroValue(sec);
    }
  }

  /** In digits, a colon and more text, the first colon is the one after the digits. */
  lemma FirstColon(m: string, rest: string)
    requires AllDigits(m)
    ensures FindFirst(m + ":" + rest, IsColon) == Some(|m|)
  {
    var r := m + ":" + rest;
    assert r[|m|] == ':';
    assert forall j :: 0 <= j < |m| ==> r[j] == m[j];
  }

  /** Reading "m:s" for digit strings m and s gives m minutes and s seconds. */
  lemma ReadTimeOfDigits(m: string, p: string)
    requires AllDigits(m) && |m| > 0 && AllDigits(p) && |p| > 0
    ensures ReadTime(m + ":" + p) == Some(DigitsValue(m) * 60 + DigitsValue(p))
  {
    var r := m + ":" + p;
    FirstColon(m, p);
    assert r[..|m|] == m;
    assert r[|m| + 1..] == p;
    assert ReadTime(r) == TimeValue(m, p);
    TimeValueOfDigits(m, p);
  }

  lemma TimeValueOfDigits(m: string, p: string)
    requires AllDigits(m) && |m| > 0 && AllDigits(p) && |p| > 0
    ensures TimeValue(m, p) == Some(DigitsValue(m) * 60 + DigitsValue(p))
  {
  }

  /** The seconds part is always two digits, and reading the text back gives the seconds value. */
  lemma FormatTimeRoundTrip(seconds: nat)
    ensures var r := FormatTime(seconds);
      |r| >= 4 && r[|r| - 3] == ':' && AllDigits(r[|r| - 2..])
    ensures ReadTime(FormatTime(seconds)) == Some(seconds)
  {
    var m := NatToString(seconds / 60);
    var p := PadStart2(NatToString(seconds % 60));
    SecondsPart(seconds % 60);
    NatToStringValue(seconds / 60);
    ReadTimeOfDigits(m, p);
    assert (m + ":" + p)[|m + ":" + p| - 2..] == p;
  }

  /** A string of three or more digits with no leading zero is worth at least 100. */
  lemma {:induction false} DigitsAtLeast(s: string)
    requires AllDigits(s) && |s| > 2 && s[0] != '0'
    ensures DigitsValue(s) >= 100
  {
    var init := s[..|s| - 1];
    if |s| == 3 {
      var two := init[..1];
      assert two == [s[0]];
      assert two[..0] == [];
      assert DigitsValue(two) == DigitValue(s[0]) >= 1;
    } else {
      DigitsAtLeast(init);
    }
  }

  /** The three colors the score can be shown in. */
  datatype ScoreColor = Green | Yellow | Red

  function Rank(c: ScoreColor): nat
  {
    match c
    case Red => 0
    case Yellow => 1
    case Green => 2
  }

  /**
   * `getScoreColor` on integers: green from 80 percent, yellow from 60
   * percent, red below. With no questions, a zero score is NaN percent and
   * red, and a positive score is an infinite percentage and green.
   */
  function GetScoreColor(score: nat, total: nat): (r: ScoreColor)
    ensures total > 0 ==> (r == Green <==> 100 * score >= 80 * total)
    ensures total > 0 ==> (r == Red <==> 100 * score < 60 * total)
    ensures total == 0 ==> (r == Green <==> score > 0)
  {
    if total == 0 then (if score > 0 then Green else Red)
    else if 100 * score >= 80 * total then Green
    else if 100 * score >= 60 * total then Yellow
    else Red
  }

  /** A higher score never gets a worse color. */
  lemma ScoreColorMonotone(s1: nat, s2: nat, total: nat)
    requires s1 <= s2
    ensures Rank(GetScoreColor(s1, total)) <= Rank(GetScoreColor(s2, total))
  {
  }

  /**
   * `Math.round(score / total * 100)`: the whole percentage nearest to the
   * exact one, halves rounded up; None stands for NaN when there are no
   * questions.
   */
  function Percentage(score: nat, total: nat): (r: Option<nat>)
    ensures total == 0 <==> r.None?
    ensures r.Some? ==> 2 * r.value * total <= 200 * score + total < 2 * r.value * total + 2 * total
  {
    if total == 0 then None else Some((200 * score + total) / (2 * total))
  }

  /** A score no larger than the total is at most 100 percent; a full score is exactly 100. */
  lemma PercentageBounds(score: nat, total: nat)
    requires 0 < total && score <= total
    ensures Percentage(score, total).value <= 100
    ensures score == total ==> Percentage(score, total) == Some(100)
  {
    var p := Percentage(score, total).value;
    if p > 100 {
      MulAtLeast(p, 101, 2 * total);
    }
    if score == total {
      DivUnique(200 * score + total, 2 * total, 100, total);
    }
  }

  lemma MulAtLeast(a: nat, b: nat, c: nat)
    requires a >= b
    ensures a * c >= b * c
  {
  }

  lemma DivUnique(a: nat, d: nat, q: nat, m: nat)
    requires 0 <= m < d && a == q * d + m
    ensures a / d == q
  {
    var q' := a / d;
    var m' := a % d;
    assert a == q' * d + m';
    if q' > q {
      MulAtLeast(q', q + 1, d);
    } else if q' < q {
      MulAtLeast(q, q' + 1, d);
    }
  }

  /** The quiz page's state. */
  class QuizPage {
    const userId: int
    /** The shortcuts loaded from the store. */
    var shortcuts: seq<Shortcut<string>>
    var selectedPlatform: string
    var currentQuestion: nat
    var selectedAnswer: string
    var userAnswers: seq<string>
    var quizStarted: bool
    var quizCompleted: bool
    var score: nat
    var questions: seq<Question>
    var timeLeft: nat
    var timerActive: bool
    /** Every session the page has asked the store to save, oldest first. */
    var savedSessions: seq<SessionRecord>

    /** The quiz runs only between a start and a completion; the score counts the right answers. */
    ghost predicate Valid()
      reads this
    {
      && (timerActive ==> quizStarted && !quizCompleted)
      && (quizCompleted ==> quizStarted)
      && (quizStarted ==> |questions| == QUIZ_LENGTH && |userAnswers| <= |questions|)
      && (quizStarted && !quizCompleted ==> currentQuestion < |questions| && |userAnswers| == currentQuestion)
      && (quizStarted ==> score == CountCorrect(userAnswers, questions))
      && (!quizStarted ==> score == 0 && userAnswers == [])
    }

    /** The page before any quiz: nothing started, the countdown at five minutes. */
    constructor (userId: int, shortcuts: seq<Shortcut<string>>)
      ensures Valid()
      ensures this.userId == userId && this.shortcuts == shortcuts
      ensures selectedPlatform == "" && currentQuestion == 0 && selectedAnswer == "" && userAnswers == []
      ensures !quizStarted && !quizCompleted && score == 0 && questions == []
      ensures timeLeft == TIME_LIMIT && !timerActive && savedSessions == []
    {
      this.userId := userId;
      this.shortcuts := shortcuts;
      selectedPlatform := "";
      currentQuestion := 0;
      selectedAnswer := "";
      userAnswers := [];
      quizStarted := false;
      quizCompleted := false;
      score := 0;
      questions := [];
      timeLeft := TIME_LIMIT;
      timerActive := false;
      savedSessions := [];
    }

    /**
     * `startQuiz`: with fewer than ten shortcuts on the platform nothing
     * changes (the page only shows a notice); otherwise ten shuffled
     * platform shortcuts become the questions and the quiz starts afresh.
     */
    method StartQuiz(platform: string, selectChoices: seq<nat>, wrongChoices: seq<seq<nat>>, optionChoices: seq<seq<nat>>)
      returns (started: bool)
      requires Valid()
      modifies this
      ensures Valid()
      ensures started <==> |ByPlatform(old(shortcuts), platform)| >= QUIZ_LENGTH
      ensures !started ==> unchanged(this)
      ensures started ==>
        var platformShortcuts := ByPlatform(old(shortcuts), platform);
        && questions == BuildQuestions(SelectShortcuts(platformShortcuts, selectChoices), platformShortcuts, wrongChoices, optionChoices)
        && selectedPlatform == platform && quizStarted && !quizCompleted
        && currentQuestion == 0 && userAnswers == [] && selectedAnswer == "" && score == 0
        && timeLeft == TIME_LIMIT && timerActive
      ensures shortcuts == old(shortcuts) && savedSessions == old(savedSessions)
    {
      var platformShortcuts := ByPlatform(shortcuts, platform);
      if |platformShortcuts| < QUIZ_LENGTH {
        return false;
      }
      var selected := SelectShortcuts(platformShortcuts, selectChoices);
      Begin(platform, BuildQuestions(selected, platformShortcuts, wrongChoices, optionChoices));
      started := true;
    }

    /** The fresh quiz state `startQuiz` sets once the questions are built. */
    method Begin(platform: string, qs: seq<Question>)
      requires |qs| == QUIZ_LENGTH
      modifies this
      ensures Valid()
      ensures questions == qs && selectedPlatform == platform && quizStarted && !quizCompleted
      ensures currentQuestion == 0 && userAnswers == [] && selectedAnswer == "" && score == 0
      ensures timeLeft == TIME_LIMIT && timerActive
      ensures shortcuts == old(shortcuts) && savedSessions == old(savedSessions)
    {
      questions := qs;
      selectedPlatform := platform;
      quizStarted := true;
      quizCompleted := false;
      currentQuestion := 0;
      userAnswers := [];
      selectedAnswer := "";
      score := 0;
      timeLeft := TIME_LIMIT;
      timerActive := true;
      NoAnswersScoreZero(userAnswers, questions);
    }

    /** Picking an option in the radio group. */
    method SelectAnswer(answer: string)
      requires Valid()
      modifies this
      ensures Valid()
      ensures selectedAnswer == answer
      ensures userAnswers == old(userAnswers) && currentQuestion == old(currentQuestion) && score == old(score)
      ensures quizStarted == old(quizStarted) && quizCompleted == old(quizCompleted) && questions == old(questions)
      ensures timeLeft == old(timeLeft) && timerActive == old(timerActive) && savedSessions == old(savedSessions)
      ensures shortcuts == old(shortcuts) && selectedPlatform == old(selectedPlatform)
    {
      selectedAnswer := answer;
    }

    /**
     * `handleQuizComplete`, scoring `answers`: stops the countdown, marks
     * the quiz completed and asks the store to save the session.
     */
    method Complete(answers: seq<string>, now: string)
      requires quizStarted && !quizCompleted
      requires |questions| == QUIZ_LENGTH && |userAnswers| <= |questions|
      requires score == CountCorrect(userAnswers, questions)
      modifies this
      ensures Valid()
      ensures !timerActive && quizCompleted
      ensures savedSessions == old(savedSessions)
        + [SessionRecord(userId, selectedPlatform, CountCorrect(answers, questions), |questions|, now)]
      ensures userAnswers == old(userAnswers) && currentQuestion == old(currentQuestion) && score == old(score)
      ensures quizStarted == old(quizStarted) && questions == old(questions) && timeLeft == old(timeLeft)
      ensures shortcuts == old(shortcuts) && selectedPlatform == old(selectedPlatform)
      ensures selectedAnswer == old(selectedAnswer)
    {
      timerActive := false;
      quizCompleted := true;
      var finalScore := CountCorrect(answers, questions);
      savedSessions := savedSessions + [SessionRecord(userId, selectedPlatform, finalScore, |questions|, now)];
    }

    /**
     * `handleAnswerSubmit` as written: with no selection nothing happens;
     * otherwise the answer is recorded and scored, and the quiz moves to the
     * next question or completes. The completion scores the answers as they
     * were before this submission, so the saved score leaves out the last
     * answer.
     */
    method SubmitAnswer(now: string)
      requires Valid() && quizStarted && !quizCompleted
      modifies this
      ensures Valid()
      ensures old(selectedAnswer) == "" ==> unchanged(this)
      ensures old(selectedAnswer) != "" ==>
        && userAnswers == old(userAnswers) + [old(selectedAnswer)]
        && score == old(score) + (if old(selectedAnswer) == questions[old(currentQuestion)].correctAnswer then 1 else 0)
        && (old(currentQuestion) + 1 < |questions| ==>
              currentQuestion == old(currentQuestion) + 1 && selectedAnswer == "" && !quizCompleted
              && savedSessions == old(savedSessions) && timerActive == old(timerActive))
        && (old(currentQuestion) + 1 == |questions| ==>
              currentQuestion == old(currentQuestion) && selectedAnswer == old(selectedAnswer)
              && quizCompleted && !timerActive
              && savedSessions == old(savedSessions)
                 + [SessionRecord(userId, selectedPlatform, CountCorrect(old(userAnswers), questions), |questions|, now)])
      ensures questions == old(questions) && quizStarted == old(quizStarted) && timeLeft == old(timeLeft)
      ensures shortcuts == old(shortcuts) && selectedPlatform == old(selectedPlatform)
    {
      if selectedAnswer == "" {
        return;
      }
      var stale := userAnswers;
      CountCorrectAppend(userAnswers, selectedAnswer, questions);
      userAnswers := userAnswers + [selectedAnswer];
      if selectedAnswer == questions[currentQuestion].correctAnswer {
        score := score + 1;
      }
      if currentQuestion + 1 < |questions| {
        currentQuestion := currentQuestion + 1;
        selectedAnswer := "";
      } else {
        Complete(stale, now);
      }
    }

    /**
     * `handleAnswerSubmit` as evidently intended: the same steps, with the
     * completion scoring the answers including this one, so the saved
     * score equals the score on the results screen.
     */
    method SubmitAnswerScoringAll(now: string)
      requires Valid() && quizStarted && !quizCompleted
      modifies this
      ensures Valid()
      ensures old(selectedAnswer) == "" ==> unchanged(this)
      ensures old(selectedAnswer) != "" ==>
        && userAnswers == old(userAnswers) + [old(selectedAnswer)]
        && score == old(score) + (if old(selectedAnswer) == questions[old(currentQuestion)].correctAnswer then 1 else 0)
        && (old(currentQuestion) + 1 < |questions| ==>
              currentQuestion == old(currentQuestion) + 1 && selectedAnswer == "" && !quizCompleted
              && savedSessions == old(savedSessions) && timerActive == old(timerActive))
        && (old(currentQuestion) + 1 == |questions| ==>
              currentQuestion == old(currentQuestion) && selectedAnswer == old(selectedAnswer)
              && quizCompleted && !timerActive
              && savedSessions == old(savedSessions)
                 + [SessionRecord(userId, selectedPlatform, ResultsScore(userAnswers, questions), |questions|, now)])
      ensures questions == old(questions) && quizStarted == old(quizStarted) && timeLeft == old(timeLeft)
      ensures shortcuts == old(shortcuts) && selectedPlatform == old(selectedPlatform)
    {
      if selectedAnswer == "" {
        return;
      }
      CountCorrectAppend(userAnswers, selectedAnswer, questions);
      userAnswers := userAnswers + [selectedAnswer];
      if selectedAnswer == questions[currentQuestion].correctAnswer {
        score := score + 1;
      }
      if currentQuestion + 1 < |questions| {
        currentQuestion := currentQuestion + 1;
        selectedAnswer := "";
      } else {
        Complete(userAnswers, now);
      }
    }

    /**
     * One run of the countdown effect: while the timer is active and time
     * remains, one second passes; at zero an active timer completes the quiz
     * with the answers given so far.
     */
    method TimerStep(now: string)
      requires Valid()
      modifies this
      ensures Valid()
      ensures old(timerActive) && old(timeLeft) > 0 ==>
        timeLeft == old(timeLeft) - 1 && timerActive && !quizCompleted && savedSessions == old(savedSessions)
      ensures old(timerActive) && old(timeLeft) == 0 ==>
        && quizCompleted && !timerActive && timeLeft == 0
        && savedSessions == old(savedSessions)
           + [SessionRecord(userId, selectedPlatform, CountCorrect(userAnswers, questions), |questions|, now)]
      ensures !old(timerActive) ==> unchanged(this)
      ensures userAnswers == old(userAnswers) && score == old(score) && questions == old(questions)
      ensures currentQuestion == old(currentQuestion) && selectedAnswer == old(selectedAnswer)
      ensures shortcuts == old(shortcuts) && selectedPlatform == old(selectedPlatform)
    {
      if timerActive && timeLeft > 0 {
        timeLeft := timeLeft - 1;
      } else if timeLeft == 0 && timerActive {
        Complete(userAnswers, now);
      }
    }

    /** `resetQuiz`: back to the platform choice; the questions of the last quiz stay. */
    method ResetQuiz()
      modifies this
      ensures Valid()
      ensures !quizStarted && !quizCompleted && selectedPlatform == "" && currentQuestion == 0
      ensures userAnswers == [] && selectedAnswer == "" && score == 0 && !timerActive && timeLeft == TIME_LIMIT
      ensures questions == old(questions) && shortcuts == old(shortcuts) && savedSessions == old(savedSessions)
    {
      quizStarted := false;
      quizCompleted := false;
      selectedPlatform := "";
      currentQuestion := 0;
      userAnswers := [];
      selectedAnswer := "";
      score := 0;
      timerActive := false;
      timeLeft := TIME_LIMIT;
    }
  }

  /** The score the results screen shows: the right answers among all the answers given. */
  function ResultsScore(userAnswers: seq<string>, questions: seq<Question>): (r: nat)
    ensures r <= |questions|
  {
    CountCorrect(userAnswers, questions)
  }

  /**
   * When the last answer is right, the score the results screen shows is
   * one more than the score `SubmitAnswer` saves: the saved count misses it.
   */
  lemma StaleScoreMissesLastAnswer(earlier: seq<string>, last: string, questions: seq<Question>)
    requires |earlier| + 1 == |questions| && last == questions[|earlier|].correctAnswer
    ensures ResultsScore(earlier + [last], questions) == CountCorrect(earlier, questions) + 1
  {
    CountCorrectAppend(earlier, last, questions);
  }

  /** Ten right answers are shown as 10 of 10 but saved as 9. */
  lemma StaleScoreExample(questions: seq<Question>)
    requires |questions| == QUIZ_LENGTH
    ensures ResultsScore(CorrectAnswers(questions), questions) == 10
    ensures CountCorrect(CorrectAnswers(questions)[..9], questions) == 9
  {
    AllRightScoresAll(questions);
    AnswersPrefixScore(questions, 9);
  }
}
