/**
 * The twelve-question personality quiz of
 * `src/components/assessment/mbti-assessment.tsx`: a constant question table
 * and a component whose state is the question cursor and the stack of chosen
 * letters. Answering pushes a letter; "Previous Question" pops one; answering
 * the last question classifies the full list and stores the result.
 */
module MbtiQuiz {

  import opened Optional
  import opened Personality

  /** One answer button: the trait letter it records and its label. */
  datatype Choice = Choice(value: string, text: string)

  datatype Question = Question(id: nat, prompt: string, options: seq<Choice>)

  /** `mbtiQuestions`. */
  const Questions: seq<Question> := [
    Question(1, "At a party, you:", [
      Choice("E", "Interact with many, including strangers"),
      Choice("I", "Interact with a few, known to you")]),
    Question(2, "You are more:", [
      Choice("S", "Realistic than speculative"),
      Choice("N", "Speculative than realistic")]),
    Question(3, "Is it worse to:", [
      Choice("T", "Have your head in the clouds"),
      Choice("F", "Be in a rut")]),
    Question(4, "You are more impressed by:", [
      Choice("T", "Principles"),
      Choice("F", "Emotions")]),
    Question(5, "You are drawn more to:", [
      Choice("J", "The structured and scheduled"),
      Choice("P", "The unstructured and unplanned")]),
    Question(6, "You prefer to work:", [
      Choice("E", "In teams, collaborating with others"),
      Choice("I", "Alone or in small, familiar groups")]),
    Question(7, "You tend to choose:", [
      Choice("S", "What is practical and works now"),
      Choice("N", "What is innovative and might work in the future")]),
    Question(8, "When making decisions, you typically rely on:", [
      Choice("T", "Logic and objective analysis"),
      Choice("F", "Personal values and how others will be affected")]),
    Question(9, "You prefer environments that are:", [
      Choice("J", "Organized with clear expectations"),
      Choice("P", "Flexible with room for spontaneity")]),
    Question(10, "When solving problems, you prefer to:", [
      Choice("S", "Follow established methods and procedures"),
      Choice("N", "Explore new approaches and possibilities")]),
    Question(11, "You get more satisfaction from:", [
      Choice("E", "Discussing ideas with others"),
      Choice("I", "Reflecting on ideas by yourself")]),
    Question(12, "In your free time, you prefer to:", [
      Choice("J", "Plan activities in advance"),
      Choice("P", "Be spontaneous and go with the flow")])
  ]

  /** The four opposing pairs, first letter first. */
  const Pairs: seq<(string, string)> := [("E", "I"), ("S", "N"), ("T", "F"), ("J", "P")]

  /** Question `q` offers exactly the two letters of pair `k`, first letter first. */
  predicate Asks(q: Question, k: nat)
    requires k < |Pairs|
  {
    |q.options| == 2 && q.options[0].value == Pairs[k].0 && q.options[1].value == Pairs[k].1
  }

  /** The letter recorded by some button of question `q`. */
  predicate Offers(q: Question, value: string) {
    exists c :: c in q.options && c.value == value
  }

  /** Which pair each question asks, by position. */
  const PairOf: seq<nat> := [0, 1, 2, 2, 3, 0, 1, 2, 3, 1, 0, 3]

  /** Number of the first `n` questions that ask pair `k`. */
  function Asked(n: nat, k: nat): nat
    requires n <= |PairOf|
  {
    if n == 0 then 0 else Asked(n - 1, k) + (if PairOf[n - 1] == k then 1 else 0)
  }

  /** Twelve questions, numbered 1 to 12 in order, each offering the two letters of one pair. */
  lemma QuestionTable()
    ensures |Questions| == 12 == |PairOf|
    ensures forall i :: 0 <= i < 12 ==> Questions[i].id == i + 1
    ensures forall i :: 0 <= i < 12 ==> PairOf[i] < |Pairs| && Asks(Questions[i], PairOf[i])
  {
  }

  /** Each pair is asked by exactly three questions: E/I at 1, 6, 11; S/N at 2, 7, 10; T/F at 3, 4, 8; J/P at 5, 9, 12. */
  lemma EachPairAskedThrice()
    ensures forall k :: 0 <= k < |Pairs| ==> Asked(12, k) == 3
  {
    forall k | 0 <= k < |Pairs| ensures Asked(12, k) == 3 {
      if k == 0 {
        assert Asked(4, 0) == 1 && Asked(8, 0) == 2;
      } else if k == 1 {
        assert Asked(4, 1) == 1 && Asked(8, 1) == 2;
      } else if k == 2 {
        assert Asked(4, 2) == 2 && Asked(8, 2) == 3;
      } else {
        assert Asked(4, 3) == 0 && Asked(8, 3) == 1;
      }
    }
  }

  /** The eight letters are distinct: the two of a pair differ, and different pairs share none. */
  lemma PairsDisjoint()
    ensures forall k :: 0 <= k < |Pairs| ==> Pairs[k].0 != Pairs[k].1
    ensures forall j, k :: 0 <= j < |Pairs| && 0 <= k < |Pairs| && j != k ==>
      Pairs[j].0 != Pairs[k].0 && Pairs[j].0 != Pairs[k].1 &&
      Pairs[j].1 != Pairs[k].0 && Pairs[j].1 != Pairs[k].1
  {
  }

  /** `rs` is a list of answers to the first `|rs|` questions, in order: each a letter of the pair its question asks. */
  predicate AnsweredInOrder(rs: seq<string>) {
    |rs| <= |PairOf| && forall i :: 0 <= i < |rs| ==> PairOf[i] < |Pairs| && rs[i] in {Pairs[PairOf[i]].0, Pairs[PairOf[i]].1}
  }

  /** Choosing a button of a question that asks the next question's pair extends a list of answers in order. */
  lemma AnswerExtends(rs: seq<string>, q: Question, value: string)
    requires AnsweredInOrder(rs) && |rs| < |PairOf| && PairOf[|rs|] < |Pairs|
    requires Asks(q, PairOf[|rs|]) && Offers(q, value)
    ensures AnsweredInOrder(rs + [value])
  {
    var n := |rs|;
    assert q.options == [q.options[0], q.options[1]];
    var c :| c in q.options && c.value == value;
    assert value in {Pairs[PairOf[n]].0, Pairs[PairOf[n]].1};
  }

  /** Each answer counts once towards the pair its question asks and never towards another pair. */
  lemma {:induction false} AnswersSplitByPair(rs: seq<string>, k: nat)
    requires AnsweredInOrder(rs) && k < |Pairs|
    ensures Count(rs, Pairs[k].0) + Count(rs, Pairs[k].1) == Asked(|rs|, k)
  {
    if rs == [] {
      assert PairOf[..0] == [];
    } else {
      var n := |rs| - 1;
      var pre, last := rs[..n], rs[n];
      assert rs == pre + [last];
      assert AnsweredInOrder(pre) by {
        forall i | 0 <= i < |pre| ensures pre[i] == rs[i] {}
      }
      AnswersSplitByPair(pre, k);
      CountAppend(pre, [last], Pairs[k].0);
      CountAppend(pre, [last], Pairs[k].1);
      SingleAnswer(last, PairOf[n], k);
    }
  }

  /** An answer to a question of pair `j` counts once towards pair `k` when `j == k`, otherwise not at all. */
  lemma SingleAnswer(x: string, j: nat, k: nat)
    requires j < |Pairs| && k < |Pairs| && x in {Pairs[j].0, Pairs[j].1}
    ensures Count([x], Pairs[k].0) + Count([x], Pairs[k].1) == if j == k then 1 else 0
  {
    PairsDisjoint();
  }

  /**
   * A complete answer list never ties on any pair (each pair is asked an odd
   * number of times), so the tie-break of `CalculateMBTI` is never used: each
   * letter of the code is the one chosen at least twice out of three.
   */
  lemma CompleteAnswersNeverTie(rs: seq<string>)
    requires AnsweredInOrder(rs) && |rs| == |PairOf|
    ensures forall k :: 0 <= k < |Pairs| ==> Count(rs, Pairs[k].0) + Count(rs, Pairs[k].1) == 3
    ensures Count(rs, "E") != Count(rs, "I") && Count(rs, "S") != Count(rs, "N")
    ensures Count(rs, "T") != Count(rs, "F") && Count(rs, "J") != Count(rs, "P")
    ensures CalculateMBTI(rs)[0] == 'E' <==> Count(rs, "E") >= 2
    ensures CalculateMBTI(rs)[1] == 'S' <==> Count(rs, "S") >= 2
    ensures CalculateMBTI(rs)[2] == 'T' <==> Count(rs, "T") >= 2
    ensures CalculateMBTI(rs)[3] == 'J' <==> Count(rs, "J") >= 2
  {
    PairTotals(rs);
    assert Count(rs, "E") + Count(rs, "I") == 3 by { assert Pairs[0] == ("E", "I"); }
    assert Count(rs, "S") + Count(rs, "N") == 3 by { assert Pairs[1] == ("S", "N"); }
    assert Count(rs, "T") + Count(rs, "F") == 3 by { assert Pairs[2] == ("T", "F"); }
    assert Count(rs, "J") + Count(rs, "P") == 3 by { assert Pairs[3] == ("J", "P"); }
    ThreeAnswersDecide(rs);
  }

  lemma PairTotals(rs: seq<string>)
    requires AnsweredInOrder(rs) && |rs| == |PairOf|
    ensures forall k :: 0 <= k < |Pairs| ==> Count(rs, Pairs[k].0) + Count(rs, Pairs[k].1) == 3
  {
    EachPairAskedThrice();
    forall k | 0 <= k < |Pairs|
      ensures Count(rs, Pairs[k].0) + Count(rs, Pairs[k].1) == 3
    {
      AnswersSplitByPair(rs, k);
    }
  }

  /** With three answers per pair, a strict majority is two or more. */
  lemma ThreeAnswersDecide(rs: seq<string>)
    requires Count(rs, "E") + Count(rs, "I") == 3 && Count(rs, "S") + Count(rs, "N") == 3
    requires Count(rs, "T") + Count(rs, "F") == 3 && Count(rs, "J") + Count(rs, "P") == 3
    ensures CalculateMBTI(rs)[0] == 'E' <==> Count(rs, "E") >= 2
    ensures CalculateMBTI(rs)[1] == 'S' <==> Count(rs, "S") >= 2
    ensures CalculateMBTI(rs)[2] == 'T' <==> Count(rs, "T") >= 2
    ensures CalculateMBTI(rs)[3] == 'J' <==> Count(rs, "J") >= 2
  {
    LetterChoice(rs);
  }

  /** The quiz component's state. */
  class Quiz {
    /** Index of the question on screen. */
    var currentQuestion: nat
    /** The letters chosen so far, oldest first. */
    var responses: seq<string>
    /** What the last answer stored for the results page (`mbtiResult`, `mbtiResponses`). */
    var storedResult: Option<string>
    var storedResponses: Option<seq<string>>

    ghost predicate Valid()
      reads this
    {
      && currentQuestion < |Questions|
      && AnsweredInOrder(responses)
      && (storedResult.None? ==> storedResponses.None? && |responses| == currentQuestion)
      && (storedResult.Some? ==>
            && currentQuestion == |Questions| - 1
            && |responses| == |Questions|
            && storedResponses == Some(responses)
            && storedResult == Some(CalculateMBTI(responses)))
    }

    /** The last question has been answered; the page then navigates to the results. */
    predicate Completed()
      reads this
    {
      storedResult.Some?
    }

    constructor ()
      ensures Valid() && !Completed()
      ensures currentQuestion == 0 && responses == []
    {
      currentQuestion := 0;
      responses := [];
      storedResult := None;
      storedResponses := None;
    }

    /** `handleOptionSelect`: record the chosen letter, then advance or classify. */
    method SelectOption(value: string)
      requires Valid() && !Completed()
      requires Offers(Questions[currentQuestion], value)
      modifies this
      ensures Valid()
      ensures responses == old(responses) + [value]
      ensures old(currentQuestion) < |Questions| - 1 ==>
        currentQuestion == old(currentQuestion) + 1 && !Completed()
      ensures old(currentQuestion) == |Questions| - 1 ==>
        currentQuestion == old(currentQuestion) && storedResult == Some(CalculateMBTI(responses))
    {
      QuestionTable();
      AnswerExtends(responses, Questions[currentQuestion], value);
      var newResponses := responses + [value];
      responses := newResponses;
      if currentQuestion < |Questions| - 1 {
        currentQuestion := currentQuestion + 1;
      } else {
        storedResult := Some(CalculateMBTI(newResponses));
        storedResponses := Some(newResponses);
      }
    }

    /** The "Previous Question" button: step back and drop the last answer; nothing at the first question. */
    method Previous()
      requires Valid() && !Completed()
      modifies this
      ensures Valid() && !Completed()
      ensures old(currentQuestion) > 0 ==>
        currentQuestion == old(currentQuestion) - 1 && responses == old(responses)[..|old(responses)| - 1]
      ensures old(currentQuestion) == 0 ==> currentQuestion == 0 && responses == old(responses)
    {
      if currentQuestion > 0 {
        currentQuestion := currentQuestion - 1;
        responses := responses[..|responses| - 1];
      }
    }
  }

  /** A stored result always comes from a complete answer list, so it never relied on the tie-break. */
  lemma StoredResultIsMajority(q: Quiz)
    requires q.Valid() && q.Completed()
    ensures q.storedResult.value in CareerPaths
    ensures Count(q.responses, "E") != Count(q.responses, "I")
    ensures Count(q.responses, "S") != Count(q.responses, "N")
    ensures Count(q.responses, "T") != Count(q.responses, "F")
    ensures Count(q.responses, "J") != Count(q.responses, "P")
  {
    ClassifiedHasCareers(q.responses);
    QuestionTable();
    CompleteAnswersNeverTie(q.responses);
  }
}
