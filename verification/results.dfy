/**
 * The results page, `src/app/results/page.tsx`: the stored personality code
 * is looked up in a sixteen-entry description table, and the development-path
 * text is chosen by testing single letters of the code.
 */
module Results {

  import opened Optional
  import opened Personality

  /**
   * One entry of `mbtiDescriptions`: its title, strengths and careers. The
   * entry's one-sentence `description` is given by `Summary`, kept out of the
   * table so that facts about the table do not carry sixteen sentences.
   */
  datatype Description = Description(title: string, strengths: seq<string>, careers: seq<string>)

  /** `mbtiDescriptions`, less the `description` sentences. */
  const Descriptions: map<string, Description> := map[
    "ISTJ" := Description(
      "The Inspector",
      ["Detail-oriented", "Organized", "Reliable", "Logical", "Committed"],
      ["Accountant", "Auditor", "Financial Analyst", "Project Manager", "Systems Analyst"]),
    "ISFJ" := Description(
      "The Protector",
      ["Supportive", "Reliable", "Patient", "Detail-oriented", "Observant"],
      ["Nurse", "Teacher", "HR Specialist", "Social Worker", "Administrative Assistant"]),
    "INFJ" := Description(
      "The Counselor",
      ["Insightful", "Creative", "Principled", "Passionate", "Altruistic"],
      ["Counselor", "Psychologist", "Writer", "HR Development Trainer", "Professor"]),
    "INTJ" := Description(
      "The Mastermind",
      ["Strategic", "Independent", "Innovative", "Logical", "Determined"],
      ["Scientist", "Engineer", "Investment Banker", "Software Developer", "Business Analyst"]),
    "ISTP" := Description(
      "The Craftsman",
      ["Adaptable", "Practical", "Logical", "Observant", "Self-reliant"],
      ["Mechanic", "Engineer", "Pilot", "Forensic Scientist", "Programmer"]),
    "ISFP" := Description(
      "The Composer",
      ["Artistic", "Sensitive", "Loyal", "Adaptable", "Harmonious"],
      ["Artist", "Designer", "Veterinarian", "Chef", "Physical Therapist"]),
    "INFP" := Description(
      "The Healer",
      ["Empathetic", "Creative", "Passionate", "Dedicated", "Open-minded"],
      ["Writer", "Counselor", "HR Manager", "Graphic Designer", "Librarian"]),
    "INTP" := Description(
      "The Architect",
      ["Analytical", "Original", "Open-minded", "Objective", "Curious"],
      ["Software Developer", "Scientist", "Architect", "Professor", "Research Analyst"]),
    "ESTP" := Description(
      "The Dynamo",
      ["Energetic", "Practical", "Persuasive", "Spontaneous", "Adaptable"],
      ["Entrepreneur", "Sales Representative", "Marketing Executive", "Police Officer", "Paramedic"]),
    "ESFP" := Description(
      "The Performer",
      ["Enthusiastic", "Friendly", "Adaptable", "Practical", "Observant"],
      ["Event Planner", "Tour Guide", "Performer", "Sales Representative", "Public Relations Specialist"]),
    "ENFP" := Description(
      "The Champion",
      ["Enthusiastic", "Creative", "Sociable", "Perceptive", "Adaptable"],
      ["Journalist", "Consultant", "Advertising Creative", "Public Relations", "Entrepreneur"]),
    "ENTP" := Description(
      "The Visionary",
      ["Innovative", "Analytical", "Enterprising", "Adaptable", "Charismatic"],
      ["Entrepreneur", "Lawyer", "Consultant", "Engineer", "Creative Director"]),
    "ESTJ" := Description(
      "The Supervisor",
      ["Organized", "Dedicated", "Practical", "Direct", "Reliable"],
      ["Manager", "Judge", "Financial Officer", "School Principal", "Military Officer"]),
    "ESFJ" := Description(
      "The Provider",
      ["Supportive", "Reliable", "Conscientious", "Practical", "Cooperative"],
      ["Teacher", "Healthcare Worker", "Sales Manager", "Public Relations", "Office Manager"]),
    "ENFJ" := Description(
      "The Teacher",
      ["Charismatic", "Empathetic", "Organized", "Inspiring", "Reliable"],
      ["Teacher", "HR Manager", "Marketing Manager", "Counselor", "Sales Trainer"]),
    "ENTJ" := Description(
      "The Commander",
      ["Strategic", "Efficient", "Energetic", "Self-confident", "Decisive"],
      ["Executive", "Lawyer", "Management Consultant", "University Professor", "Entrepreneur"])
  ]

  /** The row of `mbtiDescriptions` that holds a code, if any. */
  function Row(code: string): (r: Option<nat>)
    ensures r.Some? <==> IsCode(code)
    ensures r.Some? ==> r.value < 16
  {
    assert IsCode(code) ==> code == [code[0], code[1], code[2], code[3]];
    match code
    case "ISTJ" => Some(0)
    case "ISFJ" => Some(1)
    case "INFJ" => Some(2)
    case "INTJ" => Some(3)
    case "ISTP" => Some(4)
    case "ISFP" => Some(5)
    case "INFP" => Some(6)
    case "INTP" => Some(7)
    case "ESTP" => Some(8)
    case "ESFP" => Some(9)
    case "ENFP" => Some(10)
    case "ENTP" => Some(11)
    case "ESTJ" => Some(12)
    case "ESFJ" => Some(13)
    case "ENFJ" => Some(14)
    case "ENTJ" => Some(15)
    case _ => None
  }

  /** No two codes share a row, so each code is shown its own entry's sentence. */
  lemma RowsDistinct(a: string, b: string)
    requires Row(a).Some? && Row(a) == Row(b)
    ensures a == b
  {
  }

  /** The `description` sentences of `mbtiDescriptions`, by row; there is none past the sixteenth. */
  function Sentence(row: nat): (r: string)
    ensures row >= 16 ==> r == ""
  {
    match row
    case 0 => "Practical, fact-minded, and reliable. You value tradition and loyalty, with a strong sense of duty and responsibility."
    case 1 => "Quiet, friendly, and conscientious. You're committed to meeting obligations and are known for your thoroughness and dependability."
    case 2 => "Idealistic, principled, and sensitive. You seek meaning and connection, with a clear vision of how to serve the common good."
    case 3 => "Innovative, independent, and strategic. You have a natural talent for analysis and an ability to see possibilities for improvement."
    case 4 => "Observant, practical, and hands-on. You excel at understanding how mechanical things work and solving problems with logical efficiency."
    case 5 => "Gentle, sensitive, and artistic. You value personal space and time, with a strong aesthetic appreciation and a desire for harmony."
    case 6 => "Idealistic, creative, and service-oriented. You seek to understand people and help them fulfill their potential."
    case 7 => "Logical, original, and creative thinker. You have a thirst for knowledge and enjoy theoretical and abstract concepts."
    case 8 => "Energetic, action-oriented, and pragmatic. You're adaptable, resourceful, and focused on immediate results."
    case 9 => "Outgoing, friendly, and spontaneous. You enjoy working with others and bringing a sense of fun and excitement to any situation."
    case 10 => "Enthusiastic, creative, and sociable. You see possibilities everywhere and get excited about new ideas and projects."
    case 11 => "Quick, ingenious, and outspoken. You enjoy intellectual challenges and are skilled at developing new ideas and strategies."
    case 12 => "Practical, traditional, and organized. You value security and stability, with a talent for managing people and projects efficiently."
    case 13 => "Warm-hearted, conscientious, and cooperative. You value harmony and are skilled at creating order and structure in your environment."
    case 14 => "Charismatic, empathetic, and responsible. You're naturally drawn to helping others develop and reach their potential."
    case 15 => "Strategic, logical, and efficient. You're a natural leader who excels at finding ways to improve systems and processes."
    case _ => ""
  }

  /** The `description` sentence of a code; the empty text for a string that is no key. */
  function Summary(code: string): (r: string)
    ensures code !in Descriptions ==> r == ""
  {
    DescriptionKeys();
    match Row(code)
    case Some(i) => Sentence(i)
    case None => ""
  }

  /** What the page shows for the stored `mbtiResult`. */
  datatype View =
    | Redirect                             // nothing stored: back to the assessment (the spinner stays up)
    | NoResults                            // stored, but not a key of the table
    | Found(code: string, info: Description, summary: string)

  /** The load effect followed by the render's guard. */
  function ShowResults(stored: Option<string>): (v: View)
    ensures v.Redirect? <==> stored.None? || stored.value == ""
    ensures v.NoResults? <==> stored.Some? && stored.value != "" && stored.value !in Descriptions
    ensures v.Found? ==>
      && stored == Some(v.code) && v.code in Descriptions
      && v.info == Descriptions[v.code] && v.summary == Summary(v.code)
  {
    if stored.None? || stored.value == "" then Redirect
    else if stored.value !in Descriptions then NoResults
    else Found(stored.value, Descriptions[stored.value], Summary(stored.value))
  }

  /** The description table has exactly the career table's sixteen keys. */
  lemma DescriptionKeys()
    ensures Descriptions.Keys == CareerPaths.Keys
    ensures forall s :: s in Descriptions <==> IsCode(s)
  {
    CareerKeysAreCodes();
    assert Descriptions.Keys == AllCodes;
    CareerTableSize();
  }

  /** Each description lists the same careers as the career table. */
  lemma DescriptionCareersMatch()
    ensures forall k :: k in Descriptions ==> k in CareerPaths && Descriptions[k].careers == CareerPaths[k]
  {
  }

  /** Every description has a title and five strengths. */
  lemma DescriptionsWellFormed()
    ensures forall k :: k in Descriptions ==> Descriptions[k].title != "" && |Descriptions[k].strengths| == 5
  {
  }

  /** Whatever the classifier produced, the page finds a description for it. */
  lemma ClassifiedIsFound(responses: seq<string>)
    ensures ShowResults(Some(CalculateMBTI(responses))).Found?
  {
    DescriptionKeys();
  }

  /** E, S, T, J three times over: ESTJ, "The Supervisor", with its five careers. */
  lemma SupervisorExample(c: seq<string>)
    requires c == ["E", "S", "T", "J"]
    ensures ShowResults(Some(CalculateMBTI(c + c + c))) == Found("ESTJ", Descriptions["ESTJ"], Summary("ESTJ"))
    ensures Descriptions["ESTJ"].title == "The Supervisor"
    ensures Descriptions["ESTJ"].careers == ["Manager", "Judge", "Financial Officer", "School Principal", "Military Officer"]
  {
    AllFirstLettersExample(c);
  }

  /** `mbtiResult.includes(letter)`. */
  predicate Includes(code: string, letter: char) {
    letter in code
  }

  /** For a well-formed code, each letter the page looks for can only stand at its own pair's position. */
  lemma IncludesIsPosition(code: string)
    requires IsCode(code)
    ensures Includes(code, 'E') <==> code[0] == 'E'
    ensures Includes(code, 'S') <==> code[1] == 'S'
    ensures Includes(code, 'T') <==> code[2] == 'T'
    ensures Includes(code, 'J') <==> code[3] == 'J'
  {
    assert code == [code[0], code[1], code[2], code[3]];
  }

  const AnalyticalSkills: seq<string> :=
    ["Analytical thinking and problem-solving", "Logical decision making", "Strategic planning"]
  const InterpersonalSkills: seq<string> :=
    ["Emotional intelligence", "Interpersonal communication", "Conflict resolution"]
  const TeamSkill := "Team collaboration and leadership"
  const IndependentSkill := "Independent work and deep focus"

  /** The "Skill Development" bullets. */
  function SkillBullets(code: string): (r: seq<string>)
    ensures |r| == 4
  {
    (if Includes(code, 'T') then AnalyticalSkills else InterpersonalSkills)
      + [if Includes(code, 'E') then TeamSkill else IndependentSkill]
  }

  /** The "Education Path" lines; each depends on one letter only. */
  function EducationLines(code: string): (r: seq<string>)
    ensures |r| == 3
  {
    [ "Degree programs in " + (if Includes(code, 'T') then "technical fields, sciences, or business" else "humanities, arts, or social sciences"),
      "Certifications in " + (if Includes(code, 'J') then "project management or structured methodologies" else "creative fields or flexible approaches"),
      "Workshops on " + (if Includes(code, 'S') then "practical skills and applications" else "theoretical concepts and innovations") ]
  }

  const ClosingGrowth: seq<string> :=
    ["Consulting opportunities in your field", "Entrepreneurial ventures aligned with your strengths"]

  /** The "Career Growth" bullets: two chosen by 'E', then the same two for everyone. */
  function CareerGrowth(code: string): (r: seq<string>)
    ensures |r| == 4 && r[2..] == ClosingGrowth
  {
    (if Includes(code, 'E')
     then ["Leadership and management roles", "Team coordination positions"]
     else ["Specialized expert roles", "Research and development positions"])
      + ClosingGrowth
  }

  /** The first three skill bullets react to 'T' only, the last to 'E' only. */
  lemma SkillBulletsIndependent(a: string, b: string)
    ensures Includes(a, 'T') == Includes(b, 'T') <==> SkillBullets(a)[..3] == SkillBullets(b)[..3]
    ensures Includes(a, 'E') == Includes(b, 'E') <==> SkillBullets(a)[3] == SkillBullets(b)[3]
  {
    assert AnalyticalSkills != InterpersonalSkills by { assert AnalyticalSkills[0] != InterpersonalSkills[0]; }
  }

  /** Each education line reacts to its own letter and to nothing else. */
  lemma EducationLinesIndependent(a: string, b: string)
    ensures Includes(a, 'T') == Includes(b, 'T') <==> EducationLines(a)[0] == EducationLines(b)[0]
    ensures Includes(a, 'J') == Includes(b, 'J') <==> EducationLines(a)[1] == EducationLines(b)[1]
    ensures Includes(a, 'S') == Includes(b, 'S') <==> EducationLines(a)[2] == EducationLines(b)[2]
  {
  }

  /**
   * Read back through the classifier: the analytical bullets appear exactly when
   * the answers held strictly more T than F, the team bullet exactly when they
   * held strictly more E than I.
   */
  lemma BulletsFollowAnswers(responses: seq<string>)
    ensures SkillBullets(CalculateMBTI(responses))[..3] == AnalyticalSkills
      <==> Count(responses, "T") > Count(responses, "F")
    ensures SkillBullets(CalculateMBTI(responses))[3] == TeamSkill
      <==> Count(responses, "E") > Count(responses, "I")
    ensures CareerGrowth(CalculateMBTI(responses))[0] == "Leadership and management roles"
      <==> Count(responses, "E") > Count(responses, "I")
  {
    var code := CalculateMBTI(responses);
    IncludesIsPosition(code);
    LetterChoice(responses);
    assert AnalyticalSkills != InterpersonalSkills by { assert AnalyticalSkills[0] != InterpersonalSkills[0]; }
  }
}
