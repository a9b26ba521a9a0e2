/**
 * The personal-preferences form of
 * `src/components/assessment/personal-preferences.tsx`: three duplicate-free
 * lists (custom skills, interests, values) edited through add, select and
 * remove handlers, two free-text fields, and a completed-section counter that
 * gates the submit button.
 */
module Preferences {

  /** No entry occurs twice. */
  predicate NoDuplicates(xs: seq<string>) {
    forall i, j :: 0 <= i < j < |xs| ==> xs[i] != xs[j]
  }

  /** `[...xs, x]` guarded by `!xs.includes(x)`. */
  function AddIfAbsent(xs: seq<string>, x: string): (r: seq<string>)
    ensures x in r
    ensures forall y :: y in r <==> y in xs || y == x
    ensures xs <= r && |r| <= |xs| + 1
    ensures NoDuplicates(xs) ==> NoDuplicates(r)
  {
    if x in xs then xs else xs + [x]
  }

  /** `xs.filter(y => y !== x)`. */
  function Without(xs: seq<string>, x: string): (r: seq<string>)
    ensures x !in r
    ensures forall y :: y != x ==> (y in r <==> y in xs)
    ensures |r| <= |xs|
  {
    if xs == [] then []
    else (if xs[0] == x then [] else [xs[0]]) + Without(xs[1..], x)
  }

  /** Removal works entry by entry: it keeps the order of what remains. */
  lemma {:induction false} WithoutDistributes(a: seq<string>, b: seq<string>, x: string)
    ensures Without(a + b, x) == Without(a, x) + Without(b, x)
  {
    if a == [] {
      assert a + b == b;
    } else {
      var head := if a[0] == x then [] else [a[0]];
      assert (a + b)[0] == a[0];
      assert (a + b)[1..] == a[1..] + b;
      calc {
        Without(a + b, x);
        head + Without(a[1..] + b, x);
        { WithoutDistributes(a[1..], b, x); }
        head + (Without(a[1..], x) + Without(b, x));
        (head + Without(a[1..], x)) + Without(b, x);
        Without(a, x) + Without(b, x);
      }
    }
  }

  /** Removing an absent entry changes nothing. */
  lemma {:induction false} WithoutAbsent(xs: seq<string>, x: string)
    requires x !in xs
    ensures Without(xs, x) == xs
  {
    if xs != [] {
      WithoutAbsent(xs[1..], x);
      assert xs == [xs[0]] + xs[1..];
    }
  }

  /** In a duplicate-free list, removal deletes exactly the one position holding the entry. */
  lemma {:induction false} WithoutAt(xs: seq<string>, i: nat)
    requires NoDuplicates(xs) && i < |xs|
    ensures Without(xs, xs[i]) == xs[..i] + xs[i + 1..]
  {
    var x := xs[i];
    if i == 0 {
      assert x !in xs[1..] by {
        forall j | 0 <= j < |xs| - 1 ensures xs[1..][j] != x {
          assert xs[1..][j] == xs[j + 1];
        }
      }
      WithoutAbsent(xs[1..], x);
    } else {
      var tail := xs[1..];
      assert xs[0] != x;
      assert NoDuplicates(tail) by {
        forall p, q | 0 <= p < q < |tail| ensures tail[p] != tail[q] {
          assert tail[p] == xs[p + 1] && tail[q] == xs[q + 1];
        }
      }
      assert tail[i - 1] == x;
      WithoutAt(tail, i - 1);
      assert xs[..i] == [xs[0]] + tail[..i - 1];
      assert xs[i + 1..] == tail[i..];
    }
  }

  /** Removal keeps a list duplicate-free. */
  lemma {:induction false} WithoutKeepsNoDuplicates(xs: seq<string>, x: string)
    requires NoDuplicates(xs)
    ensures NoDuplicates(Without(xs, x))
  {
    if xs != [] {
      WithoutKeepsNoDuplicates(xs[1..], x);
      assert xs[0] !in xs[1..];
    }
  }

  /** Adding a new entry and then removing it gives back the original list. */
  lemma AddThenRemove(xs: seq<string>, x: string)
    requires x !in xs
    ensures Without(AddIfAbsent(xs, x), x) == xs
  {
    WithoutDistributes(xs, [x], x);
    WithoutAbsent(xs, x);
  }

  function Flag(b: bool): nat {
    if b then 1 else 0
  }

  /** The four sections whose completion the progress bar counts. */
  datatype Section = Interests | Values | Philosophy | CareerGoals

  const SectionOrder: seq<Section> := [Interests, Values, Philosophy, CareerGoals]

  /** `(completed / total) * 100` for the four sections; exact, since 100 / 4 is whole. */
  function ProgressPercent(completed: nat): (p: nat)
    requires completed <= 4
    ensures p <= 100
    ensures p >= 50 <==> completed >= 2
    ensures p >= 100 <==> completed == 4
  {
    completed * 100 / 4
  }

  /** The submit buttons' `disabled={isSubmitting || progress < 50}`, negated. */
  predicate SubmitEnabled(isSubmitting: bool, progress: nat) {
    !(isSubmitting || progress < 50)
  }

  /** The 50% threshold of the buttons means at least two of the four sections are filled in. */
  lemma SubmitThreshold(isSubmitting: bool, completed: nat)
    requires completed <= 4
    ensures SubmitEnabled(isSubmitting, ProgressPercent(completed)) <==> !isSubmitting && completed >= 2
  {
  }

  /** The form component's state. */
  class PreferencesForm {
    var customSkills: seq<string>
    var newSkill: string
    var interests: seq<string>
    var newInterest: string
    var values: seq<string>
    var newValue: string
    var philosophy: string
    var careerGoals: string
    var isSubmitting: bool

    ghost predicate Valid()
      reads this
    {
      NoDuplicates(customSkills) && NoDuplicates(interests) && NoDuplicates(values)
    }

    constructor ()
      ensures Valid()
      ensures customSkills == [] && interests == [] && values == []
      ensures newSkill == "" && newInterest == "" && newValue == ""
      ensures philosophy == "" && careerGoals == "" && !isSubmitting
    {
      customSkills, newSkill := [], "";
      interests, newInterest := [], "";
      values, newValue := [], "";
      philosophy, careerGoals := "", "";
      isSubmitting := false;
    }

    /** Whether a section counts as filled in (a non-empty list or a non-empty text). */
    predicate IsComplete(s: Section)
      reads this
    {
      match s
      case Interests => |interests| > 0
      case Values => |values| > 0
      case Philosophy => philosophy != ""
      case CareerGoals => careerGoals != ""
    }

    /** How many of the sections `ss` are filled in. */
    ghost function CountComplete(ss: seq<Section>): (c: nat)
      reads this
      ensures c <= |ss|
      ensures c == 0 <==> forall s :: s in ss ==> !IsComplete(s)
      ensures c == |ss| <==> forall s :: s in ss ==> IsComplete(s)
    {
      if ss == [] then 0
      else Flag(IsComplete(ss[0])) + CountComplete(ss[1..])
    }

    /** The progress effect: count the filled-in sections one `if` at a time. */
    method CompletedSections() returns (completed: nat)
      ensures completed == CountComplete(SectionOrder)
      ensures completed <= 4
    {
      completed := 0;
      if |interests| > 0 {
        completed := completed + 1;
      }
      if |values| > 0 {
        completed := completed + 1;
      }
      if philosophy != "" {
        completed := completed + 1;
      }
      if careerGoals != "" {
        completed := completed + 1;
      }
      CountInOrder();
    }

    lemma CountInOrder()
      ensures CountComplete(SectionOrder)
        == Flag(|interests| > 0) + Flag(|values| > 0) + Flag(philosophy != "") + Flag(careerGoals != "")
    {
      var s3 := [CareerGoals];
      var s2 := [Philosophy] + s3;
      var s1 := [Values] + s2;
      assert SectionOrder == [Interests] + s1;
      assert s3[1..] == [] && s2[1..] == s3 && s1[1..] == s2 && SectionOrder[1..] == s1;
      assert CountComplete(s3) == Flag(careerGoals != "");
      assert CountComplete(s2) == Flag(philosophy != "") + CountComplete(s3);
      assert CountComplete(s1) == Flag(|values| > 0) + CountComplete(s2);
      assert CountComplete(SectionOrder) == Flag(|interests| > 0) + CountComplete(s1);
    }

    /** Whether "Save & Continue" is enabled: not submitting and at least half the sections done. */
    method CanSubmit() returns (enabled: bool)
      ensures enabled <==> !isSubmitting && CountComplete(SectionOrder) >= 2
    {
      var completed := CompletedSections();
      var progress := ProgressPercent(completed);
      enabled := SubmitEnabled(isSubmitting, progress);
    }

    /** `handleAddSkill`: append a non-empty, new skill and clear the input; otherwise nothing. */
    method AddSkill()
      requires Valid()
      modifies this`customSkills, this`newSkill
      ensures Valid()
      ensures old(newSkill) != "" && old(newSkill) !in old(customSkills) ==>
        customSkills == old(customSkills) + [old(newSkill)] && newSkill == ""
      ensures old(newSkill) == "" || old(newSkill) in old(customSkills) ==>
        customSkills == old(customSkills) && newSkill == old(newSkill)
    {
      if newSkill != "" && newSkill !in customSkills {
        customSkills := AddIfAbsent(customSkills, newSkill);
        newSkill := "";
      }
    }

    /** `handleRemoveSkill`. */
    method RemoveSkill(skill: string)
      requires Valid()
      modifies this`customSkills
      ensures Valid()
      ensures customSkills == Without(old(customSkills), skill)
    {
      WithoutKeepsNoDuplicates(customSkills, skill);
      customSkills := Without(customSkills, skill);
    }

    /** `handleAddInterest`. */
    method AddInterest()
      requires Valid()
      modifies this`interests, this`newInterest
      ensures Valid()
      ensures old(newInterest) != "" && old(newInterest) !in old(interests) ==>
        interests == old(interests) + [old(newInterest)] && newInterest == ""
      ensures old(newInterest) == "" || old(newInterest) in old(interests) ==>
        interests == old(interests) && newInterest == old(newInterest)
    {
      if newInterest != "" && newInterest !in interests {
        interests := AddIfAbsent(interests, newInterest);
        newInterest := "";
      }
    }

    /** `handleRemoveInterest`. */
    method RemoveInterest(interest: string)
      requires Valid()
      modifies this`interests
      ensures Valid()
      ensures interests == Without(old(interests), interest)
    {
      WithoutKeepsNoDuplicates(interests, interest);
      interests := Without(interests, interest);
    }

    /** `handleAddValue`. */
    method AddValue()
      requires Valid()
      modifies this`values, this`newValue
      ensures Valid()
      ensures old(newValue) != "" && old(newValue) !in old(values) ==>
        values == old(values) + [old(newValue)] && newValue == ""
      ensures old(newValue) == "" || old(newValue) in old(values) ==>
        values == old(values) && newValue == old(newValue)
    {
      if newValue != "" && newValue !in values {
        values := AddIfAbsent(values, newValue);
        newValue := "";
      }
    }

    /** `handleRemoveValue`. */
    method RemoveValue(value: string)
      requires Valid()
      modifies this`values
      ensures Valid()
      ensures values == Without(old(values), value)
    {
      WithoutKeepsNoDuplicates(values, value);
      values := Without(values, value);
    }

    /** `handleSelectInterest`: a predefined interest is appended only if absent. */
    method SelectInterest(interest: string)
      requires Valid()
      modifies this`interests
      ensures Valid()
      ensures interests == AddIfAbsent(old(interests), interest)
    {
      if interest !in interests {
        interests := interests + [interest];
      }
    }

    /** `handleSelectValue`. */
    method SelectValue(value: string)
      requires Valid()
      modifies this`values
      ensures Valid()
      ensures values == AddIfAbsent(old(values), value)
    {
      if value !in values {
        values := values + [value];
      }
    }
  }
}
