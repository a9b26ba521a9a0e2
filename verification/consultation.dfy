/**
 * The chat consultation of `src/components/consultation/video-consultation.tsx`:
 * a message list that a start button opens with a greeting, an end button
 * clears, and a send handler extends with the user's text followed by a canned
 * reply picked by a fixed-priority keyword cascade on the lower-cased input.
 */
module Consultation {

  datatype Message = Message(text: string, isUser: bool)

  const Greeting := "Hello! I'm your AI Career Consultant. How can I help you with your career decisions today?"

  const CareerReply := "Based on your personality type, you might excel in careers that allow you to use your natural strengths. Would you like me to suggest some specific career paths?"
  const SkillReply := "Developing skills that align with your personality type can help you succeed. Consider focusing on both technical skills relevant to your field and soft skills that complement your natural tendencies."
  const InterviewReply := "When preparing for interviews or creating your resume, highlight experiences that showcase your natural strengths. Would you like some specific tips based on your personality type?"
  const EducationReply := "Continuing education is important for career growth. I can recommend courses or educational paths that would be particularly beneficial for someone with your personality type."
  const DefaultReply := "That's an interesting question. To provide the most helpful guidance, I'd like to know more about your specific career interests and goals. Could you share more details?"

  /** The characters `String.prototype.trim` strips: white space and line terminators. */
  predicate IsSpace(c: char) {
    c in {' ', '\t', '\n', '\r', '\U{000B}', '\U{000C}', '\U{00A0}', '\U{FEFF}', '\U{1680}',
          '\U{2000}', '\U{2001}', '\U{2002}', '\U{2003}', '\U{2004}', '\U{2005}', '\U{2006}',
          '\U{2007}', '\U{2008}', '\U{2009}', '\U{200A}', '\U{2028}', '\U{2029}', '\U{202F}',
          '\U{205F}', '\U{3000}'}
  }

  /** `!s.trim()`: nothing but white space. */
  predicate IsBlank(s: string) {
    forall i :: 0 <= i < |s| ==> IsSpace(s[i])
  }

  /** `trimStart`: drop the leading white space. */
  function TrimStart(s: string): (r: string)
    ensures |r| <= |s| && r == s[|s| - |r|..]
    ensures IsBlank(s[..|s| - |r|])
    ensures r != [] ==> !IsSpace(r[0])
  {
    if s != [] && IsSpace(s[0]) then TrimStart(s[1..]) else s
  }

  /** `trimEnd`: drop the trailing white space. */
  function TrimEnd(s: string): (r: string)
    ensures |r| <= |s| && r == s[..|r|]
    ensures IsBlank(s[|r|..])
    ensures r != [] ==> !IsSpace(r[|r| - 1])
  {
    if s != [] && IsSpace(s[|s| - 1]) then TrimEnd(s[..|s| - 1]) else s
  }

  /** `String.prototype.trim`. */
  function Trim(s: string): string {
    TrimEnd(TrimStart(s))
  }

  /** The send guard `!inputValue.trim()` holds exactly for input made of white space only. */
  lemma TrimEmptyIffBlank(s: string)
    ensures Trim(s) == "" <==> IsBlank(s)
  {
    var t := TrimStart(s);
    assert s == s[..|s| - |t|] + t;
    if t != [] {
      assert t[|TrimEnd(t)|..] == t || TrimEnd(t) != [];
    }
  }

  function LowerChar(c: char): char {
    if 'A' <= c <= 'Z' then (c as int + 32) as char else c
  }

  /** `toLowerCase`, on the ASCII letters. */
  function ToLower(s: string): (r: string)
    ensures |r| == |s|
  {
    seq(|s|, i requires 0 <= i < |s| => LowerChar(s[i]))
  }

  /** `t` occurs in `s` starting at position `i`. */
  predicate OccursAt(s: string, t: string, i: int) {
    0 <= i <= |s| - |t| && s[i..i + |t|] == t
  }

  /** `s.includes(t)`. */
  predicate Contains(s: string, t: string) {
    exists i | 0 <= i <= |s| - |t| :: OccursAt(s, t, i)
  }

  /** The lower-cased input mentions one of `words`. */
  predicate Mentions(input: string, words: seq<string>) {
    exists w :: w in words && Contains(ToLower(input), w)
  }

  const CareerWords: seq<string> := ["career", "job"]
  const SkillWords: seq<string> := ["skill", "learn"]
  const InterviewWords: seq<string> := ["interview", "resume"]
  const EducationWords: seq<string> := ["education", "course"]

  /** The keyword group that decides the reply. */
  datatype Topic = Career | Skills | Interview | Education | Other

  /** The cascade: the first group with a keyword in the lower-cased input wins. */
  function Classify(input: string): (t: Topic)
    ensures t == Career <==> Mentions(input, CareerWords)
    ensures t == Skills <==> !Mentions(input, CareerWords) && Mentions(input, SkillWords)
    ensures t == Interview <==>
      !Mentions(input, CareerWords) && !Mentions(input, SkillWords) && Mentions(input, InterviewWords)
    ensures t == Education <==>
      !Mentions(input, CareerWords) && !Mentions(input, SkillWords) && !Mentions(input, InterviewWords)
      && Mentions(input, EducationWords)
    ensures t == Other <==>
      !Mentions(input, CareerWords) && !Mentions(input, SkillWords) && !Mentions(input, InterviewWords)
      && !Mentions(input, EducationWords)
  {
    MentionsPair(input, CareerWords);
    MentionsPair(input, SkillWords);
    MentionsPair(input, InterviewWords);
    MentionsPair(input, EducationWords);
    var lower := ToLower(input);
    if Contains(lower, "career") || Contains(lower, "job") then Career
    else if Contains(lower, "skill") || Contains(lower, "learn") then Skills
    else if Contains(lower, "interview") || Contains(lower, "resume") then Interview
    else if Contains(lower, "education") || Contains(lower, "course") then Education
    else Other
  }

  function ReplyText(t: Topic): string {
    match t
    case Career => CareerReply
    case Skills => SkillReply
    case Interview => InterviewReply
    case Education => EducationReply
    case Other => DefaultReply
  }

  /** The reply to a message: the canned text of its topic. */
  function Reply(input: string): string {
    ReplyText(Classify(input))
  }

  /** The five canned replies are different texts. */
  lemma RepliesDistinct(t: Topic, u: Topic)
    ensures ReplyText(t) == ReplyText(u) <==> t == u
  {
    if t != u {
      assert |ReplyText(t)| != |ReplyText(u)|;
    }
  }

  /** The reply tells which branch of the cascade was taken. */
  lemma ReplyShowsTopic(input: string, t: Topic)
    ensures Reply(input) == ReplyText(t) <==> Classify(input) == t
  {
    RepliesDistinct(Classify(input), t);
  }

  lemma MentionsPair(input: string, words: seq<string>)
    requires |words| == 2
    ensures Mentions(input, words) <==> Contains(ToLower(input), words[0]) || Contains(ToLower(input), words[1])
  {
    if Contains(ToLower(input), words[0]) {
      assert words[0] in words;
    } else if Contains(ToLower(input), words[1]) {
      assert words[1] in words;
    }
  }

  /** Lower-casing twice is lower-casing once, so the reply ignores letter case. */
  lemma ReplyIgnoresCase(input: string)
    ensures ToLower(ToLower(input)) == ToLower(input)
    ensures Classify(ToLower(input)) == Classify(input)
  {
  }

  lemma ToLowerAppend(a: string, b: string)
    ensures ToLower(a + b) == ToLower(a) + ToLower(b)
  {
  }

  /** A keyword anywhere in the message, written in any case, is found. */
  lemma KeywordAnywhere(before: string, word: string, after: string, keyword: string)
    requires ToLower(word) == keyword
    ensures Contains(ToLower(before + word + after), keyword)
  {
    ToLowerAppend(before + word, after);
    ToLowerAppend(before, word);
    var lower := ToLower(before + word + after);
    assert lower == ToLower(before) + keyword + ToLower(after);
    assert OccursAt(lower, keyword, |before|);
  }

  /** "What JOB suits me?" gets the career reply, whatever else it mentions. */
  lemma JobInAnyCaseWins(before: string, word: string, after: string)
    requires ToLower(word) == "job"
    ensures Classify(before + word + after) == Career
  {
    KeywordAnywhere(before, word, after, "job");
    assert "job" in CareerWords;
  }

  /** After the greeting: user message, then the reply to it, and again. */
  predicate Exchanges(ms: seq<Message>)
    decreases |ms|
  {
    ms == [] ||
    (|ms| >= 2 && ms[0].isUser && !IsBlank(ms[0].text)
     && ms[1] == Message(Reply(ms[0].text), false) && Exchanges(ms[2..]))
  }

  /** One more exchange at the end keeps the alternation. */
  lemma {:induction false} ExchangesAppend(ms: seq<Message>, text: string)
    requires Exchanges(ms) && !IsBlank(text)
    ensures Exchanges(ms + [Message(text, true), Message(Reply(text), false)])
  {
    var tail := [Message(text, true), Message(Reply(text), false)];
    if ms == [] {
      assert ms + tail == tail;
      assert tail[2..] == [];
    } else {
      ExchangesAppend(ms[2..], text);
      assert (ms + tail)[2..] == ms[2..] + tail;
    }
  }

  /** The consultation component's state. */
  class Chat {
    var isActive: bool
    var messages: seq<Message>
    var inputValue: string

    /** Closed: no messages. Open: the greeting, then complete exchanges. */
    ghost predicate Valid()
      reads this
    {
      && (!isActive ==> messages == [])
      && (isActive ==> |messages| >= 1 && messages[0] == Message(Greeting, false) && Exchanges(messages[1..]))
    }

    constructor ()
      ensures Valid() && !isActive && messages == [] && inputValue == ""
    {
      isActive := false;
      messages := [];
      inputValue := "";
    }

    /** `startConsultation`. */
    method Start()
      modifies this`isActive, this`messages
      ensures Valid()
      ensures isActive && messages == [Message(Greeting, false)]
    {
      isActive := true;
      messages := [Message(Greeting, false)];
    }

    /** `endConsultation`. */
    method End()
      modifies this`isActive, this`messages
      ensures Valid()
      ensures !isActive && messages == []
    {
      isActive := false;
      messages := [];
    }

    /** `handleSendMessage`, with the delayed reply delivered at once. */
    method SendMessage()
      requires Valid() && isActive
      modifies this`messages, this`inputValue
      ensures Valid()
      ensures IsBlank(old(inputValue)) ==> messages == old(messages) && inputValue == old(inputValue)
      ensures !IsBlank(old(inputValue)) ==>
        && messages == old(messages) + [Message(old(inputValue), true), Message(Reply(old(inputValue)), false)]
        && inputValue == ""
    {
      var text := inputValue;
      TrimEmptyIffBlank(text);
      if Trim(text) == "" {
        return;
      }
      inputValue := "";
      Exchange(text);
    }

    /** The rest of `handleSendMessage` once the guard passed: the user's message, then the reply to it. */
    method Exchange(text: string)
      requires Valid() && isActive && !IsBlank(text)
      modifies this`messages
      ensures Valid()
      ensures messages == old(messages) + [Message(text, true), Message(Reply(text), false)]
    {
      messages := messages + [Message(text, true)];
      var response := Reply(text);
      messages := messages + [Message(response, false)];
      ExchangesAppend(old(messages)[1..], text);
      assert messages[1..] == old(messages)[1..] + [Message(text, true), Message(response, false)];
    }
  }
}
