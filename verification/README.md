# Career kiosk: personality classifier, assessments, results and consultation chat

This project models the logic of the HackJKLU career kiosk, a Next.js/React app. A visitor takes a
12-question personality quiz. The answers are reduced to a four-letter personality code
(E/I, S/N, T/F, J/P). The visitor rates fifteen skills and fills in a preferences form. A results
page then shows a description and career suggestions for the code, and a scripted "AI consultant"
chat answers by keyword. The components are modelled as follows:

- `Personality` (`personality.dfy`) holds `calculateMBTI` and the sixteen-entry career table.
- `MbtiQuiz` (`mbti_quiz.dfy`) holds the question table and the quiz as a class. Its
  `currentQuestion` and `responses` are updated by the option and "Previous Question" handlers.
- `SkillsQuiz` (`skills_quiz.dfy`) holds the skill taxonomy and the rating map, category cursor
  and completion flag, as a class.
- `Preferences` (`preferences.dfy`) holds the duplicate-free list operations, the
  completed-section counter and the submit gate, and the form state as a class.
- `Results` (`results.dfy`) holds the description table, the choice between redirect, "No Results
  Found" and the result view, and the per-letter text selection. Each table entry's one-sentence
  description is given by the function `Summary`, which finds the code's row (`Row`) and that
  row's sentence (`Sentence`). The result view carries both the entry and that sentence.
- `Consultation` (`consultation.dfy`) holds the case-insensitive keyword reply cascade and the chat
  state as a class.
- `Optional` (`optional.dfy`) holds an `Option` type that stands for values read back from
  browser storage.

Each handler is modelled as a method on its class. Its `ensures` states the whole new state. The
class's `Valid()` invariant states what holds between handler calls. Lemmas next to each class
state what follows from that invariant. For example, a stored quiz result never relied on the
tie-break, and completing the skills quiz means all fifteen skills carry a rating.

Two behaviours of the code worth stating:

- `calculateMBTI` has no input-length check and no error result. Any list of strings is
  classified, including the empty list, which gives "INFP".
- The results page has two failure outcomes, not one:
  - With no stored result, or an empty one, the load effect navigates back to the assessment and
    the spinner stays on screen (`Results.View.Redirect`).
  - A stored string that is not a table key shows "No Results Found".

## Model

| member | source | states |
|---|---|---|
| Personality.Count | src/lib/utils.ts:9-16 | a letter count is at most the number of responses, and zero exactly when the letter is absent |
| Personality.CalculateMBTI | src/lib/utils.ts:8-25 | the result is always a well-formed code: length 4 with positions in {E,I}, {S,N}, {T,F}, {J,P} |
| Personality.LetterChoice | src/lib/utils.ts:19-22 | per pair, the first letter is emitted iff its count is strictly greater than its partner's; a tie gives I/N/F/P |
| Personality.CountIsMultiplicity | src/lib/utils.ts:9-16 | the `filter(...).length` count equals the multiplicity of the letter in the multiset of responses |
| Personality.OrderIndependent | src/lib/utils.ts:9-22 | any two response lists that are permutations of each other classify to the same code |
| Personality.LettersOnly | src/lib/utils.ts:9-16 | keeping only the trait-letter entries yields trait letters that occur in the input |
| Personality.LettersOnlyCount | src/lib/utils.ts:9-16 | dropping the non-letter entries keeps each letter's count |
| Personality.CountAppend | src/lib/utils.ts:9-16 | the count over a concatenation is the sum of the counts |
| Personality.NonLettersIgnored | src/lib/utils.ts:9-22 | entries that are not one of the eight letters do not change the code |
| Personality.EmptyIsINFP | src/lib/utils.ts:18-24 | the empty response list classifies as "INFP" |
| Personality.AllFirstLettersExample | src/lib/utils.ts:8-25 | twelve answers E,S,T,J repeated three times classify as "ESTJ" |
| Personality.CodeIsCareerKey | src/lib/utils.ts:27-44 | every well-formed code is a key of the career table |
| Personality.ClassifiedHasCareers | src/lib/utils.ts:18-44 | every output of the classifier is a key of the career table |
| Personality.CareerKeysAreCodes | src/lib/utils.ts:27-44 | a string is a career-table key iff it is a well-formed code |
| Personality.CareerTableSize | src/lib/utils.ts:27-44 | the career table has exactly the sixteen codes as keys, so 16 entries |
| Personality.CareerEntriesHaveFive | src/lib/utils.ts:28-43 | every career-table entry lists exactly five careers |
| MbtiQuiz.QuestionTable | src/components/assessment/mbti-assessment.tsx:11-108 | there are 12 questions with ids 1..12, and each offers the two halves of one opposing pair |
| MbtiQuiz.EachPairAskedThrice | src/components/assessment/mbti-assessment.tsx:11-108 | each of the four pairs is asked exactly three times |
| MbtiQuiz.PairsDisjoint | src/lib/utils.ts:19-22 | the eight letters of the four pairs are all different |
| MbtiQuiz.AnswerExtends | src/components/assessment/mbti-assessment.tsx:118-120 | appending the letter of a button of a question on the next question's pair keeps the answers in question order |
| MbtiQuiz.AnswersSplitByPair | src/components/assessment/mbti-assessment.tsx:11-108 | after n in-order answers, a pair's two counts add up to the number of times that pair was asked |
| MbtiQuiz.SingleAnswer | src/components/assessment/mbti-assessment.tsx:11-108 | one answer to a question on pair j counts once for pair j and never for another pair |
| MbtiQuiz.CompleteAnswersNeverTie | src/components/assessment/mbti-assessment.tsx:11-108 | a full in-order answer list has three answers per pair, never ties, and a first letter wins iff it has at least two answers |
| MbtiQuiz.Quiz.constructor | src/components/assessment/mbti-assessment.tsx:112-113 | the quiz starts at question 0 with no responses and nothing stored |
| MbtiQuiz.Quiz.SelectOption | src/components/assessment/mbti-assessment.tsx:118-136 | appends exactly the chosen letter; on a non-last question it advances by one without classifying; on the last it stores the classification of the full list |
| MbtiQuiz.Quiz.Previous | src/components/assessment/mbti-assessment.tsx:185-191 | above question 0 it steps back and drops exactly the last response; at question 0 nothing changes |
| MbtiQuiz.StoredResultIsMajority | src/components/assessment/mbti-assessment.tsx:128-134 | a stored result is a career-table key and comes from answers with no tie in any pair |
| SkillsQuiz.TaxonomyShape | src/components/assessment/skills-assessment.tsx:8-39 | there are three categories of five skills each |
| SkillsQuiz.SkillNamesDistinct | src/components/assessment/skills-assessment.tsx:8-39 | the fifteen skill names are distinct |
| SkillsQuiz.CategorySets | src/components/assessment/skills-assessment.tsx:8-39 | the three categories list exactly the technical, soft and industry skill sets |
| SkillsQuiz.AllSkillsAreCategorised | src/components/assessment/skills-assessment.tsx:8-39 | a name is one of the fifteen skills iff some category lists it |
| SkillsQuiz.SkillsQuiz.constructor | src/components/assessment/skills-assessment.tsx:41-43 | starts at category 0 with no ratings and not completed |
| SkillsQuiz.SkillsQuiz.RateSkill | src/components/assessment/skills-assessment.tsx:48-53 | sets the rating of exactly one skill and leaves every other entry unchanged |
| SkillsQuiz.SkillsQuiz.Next | src/components/assessment/skills-assessment.tsx:55-70 | changes nothing while a skill of the current category is unrated; otherwise advances one category, or completes and saves the ratings at the last one |
| SkillsQuiz.SkillsQuiz.Previous | src/components/assessment/skills-assessment.tsx:72-76 | decrements the category only above 0 |
| SkillsQuiz.CompletedRatesEverySkill | src/components/assessment/skills-assessment.tsx:48-70 | once completed, every one of the fifteen skills has a rating in 1..5, so there are at least 15 ratings |
| Preferences.AddIfAbsent | src/components/assessment/personal-preferences.tsx:160-164 | the result contains the item and exactly the old items, extends the old list by at most one, and keeps it duplicate-free |
| Preferences.Without | src/components/assessment/personal-preferences.tsx:129-131 | the removed item no longer occurs, and every other item occurs exactly when it did before |
| Preferences.WithoutDistributes | src/components/assessment/personal-preferences.tsx:129-131 | the removal filter distributes over concatenation, so it keeps the order of the others |
| Preferences.WithoutAbsent | src/components/assessment/personal-preferences.tsx:129-131 | removing an absent item changes nothing |
| Preferences.WithoutAt | src/components/assessment/personal-preferences.tsx:129-131 | in a duplicate-free list, removing an item deletes exactly its position and keeps the rest in order |
| Preferences.WithoutKeepsNoDuplicates | src/components/assessment/personal-preferences.tsx:129-131 | removal keeps a list duplicate-free |
| Preferences.AddThenRemove | src/components/assessment/personal-preferences.tsx:121-131 | adding a new item and then removing it restores the list |
| Preferences.ProgressPercent | src/components/assessment/personal-preferences.tsx:58-68 | the percentage is at most 100, at least 50 iff two sections are done, and 100 iff all four are |
| Preferences.SubmitThreshold | src/components/assessment/personal-preferences.tsx:624 | the buttons, disabled while submitting or below 50% progress, are enabled iff not submitting and at least two of the four sections are filled in |
| Preferences.PreferencesForm.constructor | src/components/assessment/personal-preferences.tsx:48-55 | all lists and texts start empty and nothing is being submitted |
| Preferences.PreferencesForm.CountComplete | src/components/assessment/personal-preferences.tsx:58-68 | the count of filled-in sections is bounded by their number, zero iff none is filled in, full iff all are |
| Preferences.PreferencesForm.CompletedSections | src/components/assessment/personal-preferences.tsx:58-68 | the effect's four `if`s count the filled-in sections among the four, at most 4 |
| Preferences.PreferencesForm.CanSubmit | src/components/assessment/personal-preferences.tsx:624 | submitting is enabled iff not already submitting and at least two of the four sections are filled in |
| Preferences.PreferencesForm.AddSkill | src/components/assessment/personal-preferences.tsx:121-126 | a non-empty new skill is appended at the end and the input cleared; otherwise nothing changes; no duplicates arise |
| Preferences.PreferencesForm.RemoveSkill | src/components/assessment/personal-preferences.tsx:129-131 | the skill list becomes the list without that skill |
| Preferences.PreferencesForm.AddInterest | src/components/assessment/personal-preferences.tsx:134-139 | a non-empty new interest is appended and the input cleared; otherwise nothing changes |
| Preferences.PreferencesForm.RemoveInterest | src/components/assessment/personal-preferences.tsx:142-144 | the interest list becomes the list without that interest |
| Preferences.PreferencesForm.AddValue | src/components/assessment/personal-preferences.tsx:147-152 | a non-empty new value is appended and the input cleared; otherwise nothing changes |
| Preferences.PreferencesForm.RemoveValue | src/components/assessment/personal-preferences.tsx:155-157 | the value list becomes the list without that value |
| Preferences.PreferencesForm.SelectInterest | src/components/assessment/personal-preferences.tsx:160-164 | a predefined interest is appended only if absent |
| Preferences.PreferencesForm.SelectValue | src/components/assessment/personal-preferences.tsx:167-171 | a predefined value is appended only if absent |
| Results.ShowResults | src/app/results/page.tsx:119-163 | no or empty stored result redirects; a non-key shows "No Results Found"; otherwise the view carries the stored code's table entry and description sentence |
| Results.DescriptionKeys | src/app/results/page.tsx:13-110 | the description table has the same keys as the career table, exactly the sixteen codes |
| Results.DescriptionCareersMatch | src/app/results/page.tsx:13-110 | each description's career list equals the career-table entry for that code |
| Results.DescriptionsWellFormed | src/app/results/page.tsx:14-109 | every description has a non-empty title and exactly five strengths |
| Results.Row | src/app/results/page.tsx:13-110 | a string has a row in the description table iff it is a well-formed code, and there are sixteen rows |
| Results.RowsDistinct | src/app/results/page.tsx:13-110 | no two codes share a row, so each code is shown its own entry's sentence |
| Results.Sentence | src/app/results/page.tsx:13-110 | there is no sentence past the sixteenth row |
| Results.Summary | src/app/results/page.tsx:13-110 | a string that is not a key of the description table has no sentence |
| Results.ClassifiedIsFound | src/app/results/page.tsx:147-163 | a stored classifier output always reaches the result view, never "No Results Found" |
| Results.SupervisorExample | src/app/results/page.tsx:13-110 | the all-first-letters answers lead to the "ESTJ" view, titled "The Supervisor" with its five careers |
| Results.IncludesIsPosition | src/app/results/page.tsx:251-268 | on a well-formed code, `includes` of E, S, T, J tests exactly positions 0..3 |
| Results.SkillBullets | src/app/results/page.tsx:251-268 | the "Skill Development" list always has four bullets |
| Results.SkillBulletsIndependent | src/app/results/page.tsx:251-268 | the three skill bullets depend on 'T' alone and the fourth on 'E' alone, in both directions |
| Results.EducationLines | src/app/results/page.tsx:279-281 | the "Education Path" list always has three lines |
| Results.EducationLinesIndependent | src/app/results/page.tsx:279-281 | the three education lines branch independently on 'T', 'J' and 'S', in both directions |
| Results.CareerGrowth | src/app/results/page.tsx:292-304 | four growth bullets, always ending with the same two fixed ones |
| Results.BulletsFollowAnswers | src/app/results/page.tsx:251-304 | the analytical trio appears iff T answers outnumber F answers; team and leadership bullets appear iff E outnumbers I |
| Consultation.ToLower | src/components/consultation/video-consultation.tsx:39 | lower-casing keeps the length |
| Consultation.TrimStart | src/components/consultation/video-consultation.tsx:28 | drops exactly a blank prefix, leaving a suffix of the input that is empty or starts with a non-space |
| Consultation.TrimEnd | src/components/consultation/video-consultation.tsx:28 | drops exactly a blank suffix, leaving a prefix of the input that is empty or ends with a non-space |
| Consultation.TrimEmptyIffBlank | src/components/consultation/video-consultation.tsx:28 | `inputValue.trim()` is empty iff the input is made of white space only |
| Consultation.Classify | src/components/consultation/video-consultation.tsx:39-49 | the topic is the first group (career/job, skill/learn, interview/resume, education/course) whose words the lower-cased input contains, else the default |
| Consultation.RepliesDistinct | src/components/consultation/video-consultation.tsx:39-49 | the five replies are pairwise different |
| Consultation.ReplyShowsTopic | src/components/consultation/video-consultation.tsx:39-51 | the reply to an input is a topic's text iff the input was classified under that topic |
| Consultation.MentionsPair | src/components/consultation/video-consultation.tsx:39 | a two-word group matches iff the lower-cased input contains one of the two words |
| Consultation.ReplyIgnoresCase | src/components/consultation/video-consultation.tsx:39-45 | lower-casing is idempotent and the chosen topic ignores case |
| Consultation.KeywordAnywhere | src/components/consultation/video-consultation.tsx:39 | a keyword in any letter case anywhere in the input is found |
| Consultation.JobInAnyCaseWins | src/components/consultation/video-consultation.tsx:39-40 | any input containing "job" in any case gets the career reply, whatever else it says |
| Consultation.ExchangesAppend | src/components/consultation/video-consultation.tsx:27-52 | appending a non-blank user message and its reply keeps the history a sequence of exchanges |
| Consultation.Chat.constructor | src/components/consultation/video-consultation.tsx:8-10 | starts inactive with no messages and an empty input |
| Consultation.Chat.Start | src/components/consultation/video-consultation.tsx:12-20 | becomes active with exactly the one non-user greeting |
| Consultation.Chat.End | src/components/consultation/video-consultation.tsx:22-25 | becomes inactive with no messages |
| Consultation.Chat.SendMessage | src/components/consultation/video-consultation.tsx:27-52 | blank input changes nothing; otherwise appends the user message and then the reply chosen for that input, and clears the input |
| Consultation.Chat.Exchange | src/components/consultation/video-consultation.tsx:31-51 | appends the user's non-blank message and then the reply for it, and keeps the history a sequence of exchanges |

## Left out

- Browser storage, `fetch('/api/...')`, sign-in sessions and router navigation are I/O. Values
  written to storage become fields (`storedResult`, `storedResponses`, `savedRatings`), and values
  read back become an `Option` parameter. Loading saved or server preferences into the form is not
  part of this model.
- `setTimeout` delays are not modelled. The 500 ms quiz advance and the 1 s chat reply complete
  within their handler, so the double-click window during the animation is not modelled. The chat
  reply is built from the input as it was when sent, as the delayed closure does.
- Floating-point percentages, `Math.round` and `Math.random` particle positions are not modelled.
  The quiz and skills progress bars are not modelled. Form progress is `completed * 100 / 4`, which
  is exact for 0..4 sections.
- JSX, animation, styling and the `cn` class-name helper in src/lib/utils.ts are not modelled, and
  neither are the tab state and the confetti flag of the preferences form.
- The form's `handleSubmit` is not modelled: it stores and posts the preferences and navigates.
  Only its enable condition is modelled.
- Text inputs (`newSkill`, `newInterest`, `newValue`, `philosophy`, `careerGoals`, the chat input)
  are fields that the caller assigns. Their `onChange` setters are plain assignments.
- Consultation.ToLower: lower-cases ASCII A-Z only, where `toLowerCase` follows full Unicode case
  mapping. The blank-input test uses the white-space and line-terminator characters that `trim`
  strips.
- Results.Summary: does not state that each of the sixteen keys has a non-empty sentence. Proving
  anything about the content of the sixteen long literals is beyond the solver budget, so only
  the empty text off the keys is stated.
- Results.ShowResults: looks up only the sixteen own keys. Inherited JavaScript object properties
  such as "constructor", which `mbtiDescriptions[...]` would also find, are not modelled.
- MbtiQuiz.Quiz.SelectOption: requires the value to be one of the current question's two options
  (the only values the buttons pass), and requires the quiz not yet completed (after the last answer
  the page navigates away).
- MbtiQuiz.Quiz.Previous: requires the quiz not yet completed, for the same reason.
- SkillsQuiz.SkillsQuiz.RateSkill: requires a rating in 1..5, the values of the five rating buttons.
- Consultation.Chat.SendMessage: requires an active chat, because the input and send button are
  rendered only then.
- The skill ratings are not shown sorted anywhere, so no sorting is modelled.
