/**
 * The personality classifier and the career table of `src/lib/utils.ts`.
 *
 * A response list is a sequence of strings (the quiz stores the letter of each
 * chosen option); the classifier counts the eight trait letters and emits one
 * letter per opposing pair, the first letter only on a strict majority.
 */
module Personality {

  /** The eight trait letters, as the one-character strings the quiz records. */
  const TraitLetters: set<string> := {"E", "I", "S", "N", "T", "F", "J", "P"}

  /** Number of entries of `rs` that are exactly `x` (a `filter(...).length`). */
  function Count(rs: seq<string>, x: string): (n: nat)
    ensures n <= |rs|
    ensures n == 0 <==> x !in rs
  {
    if rs == [] then 0
    else (if rs[0] == x then 1 else 0) + Count(rs[1..], x)
  }

  /** A well-formed personality code: one letter from each opposing pair, in pair order. */
  predicate IsCode(s: string) {
    |s| == 4 && s[0] in "EI" && s[1] in "SN" && s[2] in "TF" && s[3] in "JP"
  }

  /** `calculateMBTI`: count the letters, then pick per pair with a strict `>` (ties go to I/N/F/P). */
  function CalculateMBTI(responses: seq<string>): (code: string)
    ensures IsCode(code)
  {
    var e := Count(responses, "E");
    var i := Count(responses, "I");
    var s := Count(responses, "S");
    var n := Count(responses, "N");
    var t := Count(responses, "T");
    var f := Count(responses, "F");
    var j := Count(responses, "J");
    var p := Count(responses, "P");
    var personality := ""
      + (if e > i then "E" else "I")
      + (if s > n then "S" else "N")
      + (if t > f then "T" else "F")
      + (if j > p then "J" else "P");
    personality
  }

  /** `mbtiCareerPaths`: five career titles for each of the sixteen codes. */
  const CareerPaths: map<string, seq<string>> := map[
    "ISTJ" := ["Accountant", "Auditor", "Financial Analyst", "Project Manager", "Systems Analyst"],
    "ISFJ" := ["Nurse", "Teacher", "HR Specialist", "Social Worker", "Administrative Assistant"],
    "INFJ" := ["Counselor", "Psychologist", "Writer", "HR Development Trainer", "Professor"],
    "INTJ" := ["Scientist", "Engineer", "Investment Banker", "Software Developer", "Business Analyst"],
    "ISTP" := ["Mechanic", "Engineer", "Pilot", "Forensic Scientist", "Programmer"],
    "ISFP" := ["Artist", "Designer", "Veterinarian", "Chef", "Physical Therapist"],
    "INFP" := ["Writer", "Counselor", "HR Manager", "Graphic Designer", "Librarian"],
    "INTP" := ["Software Developer", "Scientist", "Architect", "Professor", "Research Analyst"],
    "ESTP" := ["Entrepreneur", "Sales Representative", "Marketing Executive", "Police Officer", "Paramedic"],
    "ESFP" := ["Event Planner", "Tour Guide", "Performer", "Sales Representative", "Public Relations Specialist"],
    "ENFP" := ["Journalist", "Consultant", "Advertising Creative", "Public Relations", "Entrepreneur"],
    "ENTP" := ["Entrepreneur", "Lawyer", "Consultant", "Engineer", "Creative Director"],
    "ESTJ" := ["Manager", "Judge", "Financial Officer", "School Principal", "Military Officer"],
    "ESFJ" := ["Teacher", "Healthcare Worker", "Sales Manager", "Public Relations", "Office Manager"],
    "ENFJ" := ["Teacher", "HR Manager", "Marketing Manager", "Counselor", "Sales Trainer"],
    "ENTJ" := ["Executive", "Lawyer", "Management Consultant", "University Professor", "Entrepreneur"]
  ]

  /** Every well-formed code is a key of the career table. */
  lemma CodeIsCareerKey(s: string)
    requires IsCode(s)
    ensures s in CareerPaths
  {
    assert s == [s[0], s[1], s[2], s[3]];
  }

  /** Every code the classifier produces has a career-table entry. */
  lemma ClassifiedHasCareers(responses: seq<string>)
    ensures CalculateMBTI(responses) in CareerPaths
  {
    CodeIsCareerKey(CalculateMBTI(responses));
  }

  /** The career table's keys are exactly the sixteen combinations of one letter per pair. */
  lemma CareerKeysAreCodes()
    ensures forall s :: s in CareerPaths <==> IsCode(s)
  {
    forall s | IsCode(s) ensures s in CareerPaths {
      CodeIsCareerKey(s);
    }
  }

  /** Every entry of the career table lists exactly five careers. */
  lemma CareerEntriesHaveFive()
    ensures forall k :: k in CareerPaths ==> |CareerPaths[k]| == 5
  {
  }

  /** Per pair, the first letter is chosen exactly on a strict majority; a tie yields the second. */
  lemma LetterChoice(responses: seq<string>)
    ensures CalculateMBTI(responses)[0] == 'E' <==> Count(responses, "E") > Count(responses, "I")
    ensures CalculateMBTI(responses)[1] == 'S' <==> Count(responses, "S") > Count(responses, "N")
    ensures CalculateMBTI(responses)[2] == 'T' <==> Count(responses, "T") > Count(responses, "F")
    ensures CalculateMBTI(responses)[3] == 'J' <==> Count(responses, "J") > Count(responses, "P")
  {
  }

  /** A count is the multiplicity of the entry in the multiset of responses. */
  lemma {:induction false} CountIsMultiplicity(rs: seq<string>, x: string)
    ensures Count(rs, x) == multiset(rs)[x]
  {
    if rs != [] {
      assert rs == [rs[0]] + rs[1..];
      CountIsMultiplicity(rs[1..], x);
    }
  }

  /** The code depends only on the letter counts: reordering the responses does not change it. */
  lemma OrderIndependent(a: seq<string>, b: seq<string>)
    requires multiset(a) == multiset(b)
    ensures CalculateMBTI(a) == CalculateMBTI(b)
  {
    forall x | x in TraitLetters ensures Count(a, x) == Count(b, x) {
      CountIsMultiplicity(a, x);
      CountIsMultiplicity(b, x);
    }
  }

  /** The responses that are trait letters, in their original order. */
  function LettersOnly(rs: seq<string>): (r: seq<string>)
    ensures forall x :: x in r ==> x in TraitLetters && x in rs
  {
    if rs == [] then []
    else (if rs[0] in TraitLetters then [rs[0]] else []) + LettersOnly(rs[1..])
  }

  /** Dropping the non-letters keeps every letter count. */
  lemma {:induction false} LettersOnlyCount(rs: seq<string>, x: string)
    requires x in TraitLetters
    ensures Count(LettersOnly(rs), x) == Count(rs, x)
  {
    if rs != [] {
      LettersOnlyCount(rs[1..], x);
      var head := if rs[0] in TraitLetters then [rs[0]] else [];
      CountAppend(head, LettersOnly(rs[1..]), x);
    }
  }

  lemma {:induction false} CountAppend(a: seq<string>, b: seq<string>, x: string)
    ensures Count(a + b, x) == Count(a, x) + Count(b, x)
  {
    if a == [] {
      assert a + b == b;
    } else {
      assert (a + b)[0] == a[0];
      assert (a + b)[1..] == a[1..] + b;
      CountAppend(a[1..], b, x);
    }
  }

  /** Entries that are not one of the eight letters do not influence the code. */
  lemma NonLettersIgnored(responses: seq<string>)
    ensures CalculateMBTI(LettersOnly(responses)) == CalculateMBTI(responses)
  {
    forall x | x in TraitLetters ensures Count(LettersOnly(responses), x) == Count(responses, x) {
      LettersOnlyCount(responses, x);
    }
  }

  /** With no responses every pair ties, so the code is all second letters. */
  lemma EmptyIsINFP()
    ensures CalculateMBTI([]) == "INFP"
  {
  }

  lemma ThreeBlocks(c: seq<string>, x: string)
    ensures Count(c + c + c, x) == 3 * Count(c, x)
  {
    CountAppend(c, c, x);
    CountAppend(c + c, c, x);
  }

  /** Twelve answers E, S, T, J repeated three times classify as ESTJ. */
  lemma AllFirstLettersExample(c: seq<string>)
    requires c == ["E", "S", "T", "J"]
    ensures CalculateMBTI(c + c + c) == "ESTJ"
  {
    FirstLettersWin(c);
    var code := CalculateMBTI(c + c + c);
    LetterChoice(c + c + c);
    assert code == [code[0], code[1], code[2], code[3]];
  }

  lemma FirstLettersWin(c: seq<string>)
    requires c == ["E", "S", "T", "J"]
    ensures Count(c + c + c, "E") > Count(c + c + c, "I")
    ensures Count(c + c + c, "S") > Count(c + c + c, "N")
    ensures Count(c + c + c, "T") > Count(c + c + c, "F")
    ensures Count(c + c + c, "J") > Count(c + c + c, "P")
  {
    forall x | x in TraitLetters ensures Count(c + c + c, x) == 3 * Count(c, x) {
      ThreeBlocks(c, x);
    }
  }

  /**
   * The sixteen codes, one letter from each opposing pair, split by their first
   * letter. They repeat the career table's keys so that the cardinality proof
   * works on small set displays; `CareerTableSize` proves them equal.
   */
  const ECodes: set<string> := {"ESTP", "ESFP", "ENFP", "ENTP", "ESTJ", "ESFJ", "ENFJ", "ENTJ"}
  const ICodes: set<string> := {"ISTJ", "ISFJ", "INFJ", "INTJ", "ISTP", "ISFP", "INFP", "INTP"}
  const AllCodes: set<string> := ECodes + ICodes

  /** The career table has one entry for each of the sixteen codes and no other. */
  lemma CareerTableSize()
    ensures CareerPaths.Keys == AllCodes
    ensures |CareerPaths| == 16
  {
    KeysWithinCodes();
    CodesWithinKeys();
    AllCodesSize();
  }

  lemma KeysWithinCodes() ensures CareerPaths.Keys <= AllCodes {}
  lemma CodesWithinKeys() ensures AllCodes <= CareerPaths.Keys {}
  lemma AllCodesSize()
    ensures |AllCodes| == 16
  {
    ECodesSize();
    ICodesSize();
    CodesSplitByFirstLetter();
    assert ECodes * ICodes == {};
  }

  lemma CodesSplitByFirstLetter()
    ensures ECodes !! ICodes
  {
    forall s | s in ECodes ensures s[0] == 'E' {}
    forall s | s in ICodes ensures s[0] == 'I' {}
  }

  lemma ECodesSize() ensures |ECodes| == 8 {}
  lemma ICodesSize() ensures |ICodes| == 8 {}
}
