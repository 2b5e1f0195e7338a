/**
 * The quiz engine: the player picks a subject, answers its multiple-choice
 * questions one after the other and is rated with 0 to 3 stars at the end.
 * Math questions run against a 30-second countdown.
 *
 * The component's handlers are the methods of class Quiz; its effects (the
 * completion rating, the timer tick and the timer expiry) are methods too,
 * and Settle runs the two that react to a state change.
 */
module MainFeature {
  import opened Common

  /** Seconds on the clock at the start of every math question. */
  const QuestionTime := 30

  datatype SubjectId = Math | Science | Language | Social

  datatype Question = Question(question: string, options: seq<string>, correctAnswer: string)

  datatype Subject = Subject(id: SubjectId, name: string, questions: seq<Question>)

  /** The subjects the picker offers, with their questions and answers:
      math, science, language and social studies in that order, each of
      them with questions to start on, and every question answerable (its
      answer is one of its options). */
  function Catalogue(): (subjects: seq<Subject>)
    ensures |subjects| == 4
    ensures subjects[0].id == Math && subjects[1].id == Science
    ensures subjects[2].id == Language && subjects[3].id == Social
    ensures forall s :: s in subjects ==> |s.questions| == 3
    ensures forall s, q :: s in subjects && q in s.questions ==> q.correctAnswer in q.options
  {
    [ Subject(Math, "Math", [
        Question("What is 5 + 3?", ["7", "8", "9", "10"], "8"),
        Question("What is 10 - 4?", ["4", "5", "6", "7"], "6"),
        Question("What is 3 × 4?", ["7", "9", "12", "15"], "12")]),
      Subject(Science, "Science", [
        Question("Which of these is a plant?", ["Dog", "Car", "Tree", "Phone"], "Tree"),
        Question("What do plants need to grow?",
                 ["Only water", "Water and sunlight", "Only sunlight", "None of these"],
                 "Water and sunlight"),
        Question("What is the largest planet in our solar system?",
                 ["Earth", "Mars", "Venus", "Jupiter"], "Jupiter")]),
      Subject(Language, "Language", [
        Question("Which of these is a vowel?", ["B", "C", "E", "D"], "E"),
        Question("What is the opposite of 'happy'?", ["Sad", "Excited", "Angry", "Tired"], "Sad"),
        Question("What is the plural of 'child'?",
                 ["Childs", "Childen", "Children", "Childs"], "Children")]),
      Subject(Social, "Social Studies", [
        Question("What is the capital of the United States?",
                 ["New York", "Washington D.C.", "Los Angeles", "Chicago"], "Washington D.C."),
        Question("Which of these is a continent?", ["France", "Asia", "Canada", "Brazil"], "Asia"),
        Question("Who helps when someone is sick?", ["Teacher", "Doctor", "Chef", "Pilot"], "Doctor")])
    ]
  }

  /** The rating effect: `(score / total) * 100` compared with 90, 60 and 30,
      written over the integers. One star for every threshold reached. */
  function StarRating(score: int, total: int): (stars: nat)
    requires total > 0
    ensures stars <= 3
    ensures stars == (if 100 * score >= 90 * total then 1 else 0)
                     + (if 100 * score >= 60 * total then 1 else 0)
                     + (if 100 * score >= 30 * total then 1 else 0)
  {
    if 100 * score >= 90 * total then 3
    else if 100 * score >= 60 * total then 2
    else if 100 * score >= 30 * total then 1
    else 0
  }

  /** Comparing the percentage with a threshold over the reals is the same
      as the integer comparison StarRating makes. */
  lemma PercentageComparison(score: int, total: int, threshold: int)
    requires total > 0
    ensures (score as real / total as real) * 100.0 >= threshold as real
            <==> 100 * score >= threshold * total
  {
  }

  /** A better score never earns fewer stars. */
  lemma StarRatingMonotone(s1: int, s2: int, total: int)
    requires total > 0 && s1 <= s2
    ensures StarRating(s1, total) <= StarRating(s2, total)
  {
  }

  /** All questions right earns three stars; none right earns none. */
  lemma StarRatingExtremes(total: int)
    requires total > 0
    ensures StarRating(total, total) == 3
    ensures StarRating(0, total) == 0
  {
  }

  /** The state hooks of the quiz component (the water-effect flag, which
      only selects a style, is not kept). */
  class Quiz {
    var selectedSubject: Option<Subject>
    var currentQuestion: nat
    var selectedAnswer: Option<string>
    var answered: bool
    var score: nat
    var quizComplete: bool
    var showExplanation: bool
    var stars: nat
    var timeLeft: int
    var timerActive: bool

    predicate IsMath()
      reads this
    {
      selectedSubject.Some? && selectedSubject.value.id == Math
    }

    function Total(): nat
      reads this
      requires selectedSubject.Some?
    {
      |selectedSubject.value.questions|
    }

    /** What holds in every state. The score bound says that each question
        scores at most once: the question on screen counts only once it is
        answered (or the quiz is over). */
    ghost predicate Valid()
      reads this
    {
      && (selectedSubject.Some? ==>
            && 0 < Total()
            && currentQuestion < Total()
            && (quizComplete ==> currentQuestion == Total() - 1))
      && (selectedSubject.None? ==> currentQuestion == 0 && score == 0 && !quizComplete)
      && score <= currentQuestion + (if answered || quizComplete then 1 else 0)
      && 0 <= timeLeft <= QuestionTime
      && stars <= 3
    }

    /** The clock of an unanswered math question has run out. */
    ghost predicate TimedOut()
      reads this
    {
      timeLeft == 0 && IsMath() && !answered && !quizComplete
    }

    /** No effect is pending: a finished quiz is rated and its timer is
        stopped, and a math question whose time ran out is closed. */
    ghost predicate Settled()
      reads this
      requires Valid()
    {
      && (quizComplete ==> stars == StarRating(score, Total()) && !timerActive)
      && !TimedOut()
    }

    /** The initial state of the component's hooks. */
    constructor ()
      ensures Valid() && Settled()
      ensures selectedSubject.None? && currentQuestion == 0 && selectedAnswer.None?
      ensures !answered && score == 0 && !quizComplete && !showExplanation
      ensures stars == 0 && timeLeft == QuestionTime && !timerActive
    {
      selectedSubject, currentQuestion, selectedAnswer := None, 0, None;
      answered, score, quizComplete, showExplanation := false, 0, false, false;
      stars, timeLeft, timerActive := 0, QuestionTime, false;
    }

    /** `handleSubjectSelect`, called with one of the catalogue's subjects:
        the quiz restarts on the chosen subject's first question; only math
        (re)starts the clock. The answer flags are left as they were. */
    method SelectSubject(subject: Subject)
      requires Valid()
      requires subject in Catalogue()
      modifies this`selectedSubject, this`currentQuestion, this`score, this`quizComplete,
               this`timeLeft, this`timerActive
      ensures Valid()
      ensures selectedSubject == Some(subject) && currentQuestion == 0
      ensures score == 0 && !quizComplete
      ensures if subject.id == Math then timeLeft == QuestionTime && timerActive
              else timeLeft == old(timeLeft) && timerActive == old(timerActive)
    {
      selectedSubject := Some(subject);
      currentQuestion := 0;
      score := 0;
      quizComplete := false;
      if subject.id == Math {
        timeLeft := QuestionTime;
        timerActive := true;
      }
    }

    /** `handleBackToSubjects`: back to the picker with the quiz and the
        clock reset and stopped. The answer flags are left as they were. */
    method BackToSubjects()
      requires Valid()
      modifies this`selectedSubject, this`currentQuestion, this`score, this`quizComplete,
               this`timeLeft, this`timerActive
      ensures Valid() && Settled()
      ensures selectedSubject.None? && currentQuestion == 0 && score == 0
      ensures !quizComplete && !timerActive && timeLeft == QuestionTime
    {
      selectedSubject := None;
      currentQuestion := 0;
      score := 0;
      quizComplete := false;
      timerActive := false;
      timeLeft := QuestionTime;
    }

    /** `handleAnswerSelect`, offered while a question is on screen. A
        second answer to the same question is ignored. A first answer is
        recorded, opens the explanation, scores one point when it is the
        correct one, and a correct math answer stops the clock. */
    method SelectAnswer(answer: string)
      requires Valid()
      requires selectedSubject.Some? && !quizComplete
      modifies this`selectedAnswer, this`answered, this`score, this`timerActive,
               this`showExplanation
      ensures Valid()
      ensures old(answered) ==>
                && selectedAnswer == old(selectedAnswer) && answered && score == old(score)
                && timerActive == old(timerActive) && showExplanation == old(showExplanation)
      ensures !old(answered) ==>
                var correct := answer == selectedSubject.value.questions[currentQuestion].correctAnswer;
                && selectedAnswer == Some(answer) && answered && showExplanation
                && score == old(score) + (if correct then 1 else 0)
                && timerActive == (if correct && IsMath() then false else old(timerActive))
    {
      if answered {
        return;
      }
      selectedAnswer := Some(answer);
      answered := true;
      var isCorrect := answer == selectedSubject.value.questions[currentQuestion].correctAnswer;
      if isCorrect {
        score := score + 1;
        if selectedSubject.value.id == Math {
          timerActive := false;
        }
      }
      showExplanation := true;
    }

    /** `handleNextQuestion`: the answer flags are cleared; the quiz moves on
        to the next question (a math one with a fresh, running clock), or is
        complete when this was the last one. */
    method NextQuestion()
      requires Valid()
      requires selectedSubject.Some?
      modifies this`showExplanation, this`answered, this`selectedAnswer, this`currentQuestion,
               this`timeLeft, this`timerActive, this`quizComplete
      ensures Valid()
      ensures !showExplanation && !answered && selectedAnswer.None?
      ensures currentQuestion < Total()
      ensures if old(currentQuestion) < Total() - 1 then
                && currentQuestion == old(currentQuestion) + 1
                && quizComplete == old(quizComplete)
                && (if IsMath() then timeLeft == QuestionTime && timerActive
                    else timeLeft == old(timeLeft) && timerActive == old(timerActive))
              else
                && currentQuestion == old(currentQuestion) && quizComplete
                && timeLeft == old(timeLeft) && timerActive == old(timerActive)
    {
      showExplanation := false;
      answered := false;
      selectedAnswer := None;
      if currentQuestion < |selectedSubject.value.questions| - 1 {
        currentQuestion := currentQuestion + 1;
        if selectedSubject.value.id == Math {
          timeLeft := QuestionTime;
          timerActive := true;
        }
      } else {
        quizComplete := true;
      }
    }

    /** `handleRestartQuiz`: the same subject from its first question, with
        the clock reset. It does not restart the clock. */
    method RestartQuiz()
      requires Valid()
      modifies this`currentQuestion, this`selectedAnswer, this`answered, this`score,
               this`quizComplete, this`showExplanation, this`timeLeft
      ensures Valid()
      ensures currentQuestion == 0 && selectedAnswer.None? && !answered && score == 0
      ensures !quizComplete && !showExplanation && timeLeft == QuestionTime
    {
      currentQuestion := 0;
      selectedAnswer := None;
      answered := false;
      score := 0;
      quizComplete := false;
      showExplanation := false;
      timeLeft := QuestionTime;
    }

    /** The rating effect: a complete quiz gets its stars and its clock is
        stopped. */
    method RateCompletion()
      requires Valid()
      modifies this`stars, this`timerActive
      ensures Valid()
      ensures if quizComplete then stars == StarRating(score, Total()) && !timerActive
              else stars == old(stars) && timerActive == old(timerActive)
    {
      if quizComplete {
        stars := StarRating(score, |selectedSubject.value.questions|);
        timerActive := false;
      }
    }

    /** One second of the math clock: it counts down only for math, only
        while running and never below zero. */
    method TimerTick()
      requires Valid()
      modifies this`timeLeft
      ensures Valid()
      ensures timeLeft == if IsMath() && timerActive && old(timeLeft) > 0
                          then old(timeLeft) - 1 else old(timeLeft)
    {
      if IsMath() && timerActive && timeLeft > 0 {
        timeLeft := timeLeft - 1;
      }
    }

    /** The expiry effect: an unanswered math question whose time ran out is
        closed and its explanation shown, with no point scored. */
    method TimerExpiry()
      requires Valid()
      modifies this`answered, this`showExplanation
      ensures Valid() && !TimedOut()
      ensures if old(TimedOut()) then answered && showExplanation
              else answered == old(answered) && showExplanation == old(showExplanation)
    {
      if timeLeft == 0 && IsMath() && !answered && !quizComplete {
        answered := true;
        showExplanation := true;
      }
    }

    /** The effects that run after every event, in the component's order. */
    method Settle()
      requires Valid()
      modifies this`stars, this`timerActive, this`answered, this`showExplanation
      ensures Valid() && Settled()
      ensures if quizComplete then stars == StarRating(score, Total()) && !timerActive
              else stars == old(stars) && timerActive == old(timerActive)
      ensures if old(TimedOut()) then answered && showExplanation
              else answered == old(answered) && showExplanation == old(showExplanation)
    {
      RateCompletion();
      TimerExpiry();
    }
  }

  /** A finished quiz never scores more than its number of questions, and
      its rating is between 0 and 3 stars. */
  lemma CompletedScoreBound(q: Quiz)
    requires q.Valid() && q.quizComplete
    ensures q.selectedSubject.Some?
    ensures q.score <= q.Total()
    ensures StarRating(q.score, q.Total()) <= 3
  {
  }
}
