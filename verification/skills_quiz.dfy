/**
 * The skills self-rating quiz of `src/components/assessment/skills-assessment.tsx`:
 * a fixed taxonomy of three categories of five skills, a rating map, a
 * category cursor and a completion flag. "Next" only moves on once every skill
 * of the category on screen has a rating.
 */
module SkillsQuiz {

  import opened Optional

  datatype Category = Category(name: string, skills: seq<string>)

  /** `skillCategories`. */
  const Categories: seq<Category> := [
    Category("Technical Skills",
      ["Programming", "Data Analysis", "Web Development", "Graphic Design", "Digital Marketing"]),
    Category("Soft Skills",
      ["Communication", "Leadership", "Teamwork", "Problem Solving", "Time Management"]),
    Category("Industry Knowledge",
      ["Business", "Healthcare", "Education", "Technology", "Creative Arts"])
  ]

  /**
   * The skills of each category, as sets. They repeat the lists of `Categories`
   * so that the cardinality proofs work on small set displays; `CategorySets`
   * proves each equal to its category's list.
   */
  const TechnicalSkills: set<string> :=
    {"Programming", "Data Analysis", "Web Development", "Graphic Design", "Digital Marketing"}
  const SoftSkills: set<string> :=
    {"Communication", "Leadership", "Teamwork", "Problem Solving", "Time Management"}
  const IndustrySkills: set<string> :=
    {"Business", "Healthcare", "Education", "Technology", "Creative Arts"}

  /** Every skill of the taxonomy. */
  const AllSkills: set<string> := TechnicalSkills + SoftSkills + IndustrySkills

  /** Three categories of five skills each. */
  lemma TaxonomyShape()
    ensures |Categories| == 3
    ensures forall c :: 0 <= c < 3 ==> |Categories[c].skills| == 5
  {
  }

  /** Each category lists exactly the skills of its set. */
  lemma CategorySets()
    ensures |Categories| == 3
    ensures forall s :: s in Categories[0].skills <==> s in TechnicalSkills
    ensures forall s :: s in Categories[1].skills <==> s in SoftSkills
    ensures forall s :: s in Categories[2].skills <==> s in IndustrySkills
  {
  }

  lemma TechnicalFive() ensures |TechnicalSkills| == 5 {}
  lemma SoftFive() ensures |SoftSkills| == 5 {}
  lemma IndustryFive() ensures |IndustrySkills| == 5 {}
  lemma TechnicalNotSoft() ensures TechnicalSkills !! SoftSkills {}
  lemma TechnicalNotIndustry() ensures TechnicalSkills !! IndustrySkills {}
  lemma SoftNotIndustry() ensures SoftSkills !! IndustrySkills {}

  /** The fifteen skill names are pairwise distinct. */
  lemma SkillNamesDistinct()
    ensures |AllSkills| == 15
  {
    TechnicalFive();
    SoftFive();
    IndustryFive();
    TechnicalNotSoft();
    TechnicalNotIndustry();
    SoftNotIndustry();
    DisjointUnionSize(TechnicalSkills, SoftSkills);
    DisjointUnionSize(TechnicalSkills + SoftSkills, IndustrySkills);
  }

  lemma DisjointUnionSize(a: set<string>, b: set<string>)
    requires a !! b
    ensures |a + b| == |a| + |b|
  {
    assert a * b == {};
  }

  /** `AllSkills` holds exactly the skills of the three categories. */
  lemma AllSkillsAreCategorised()
    ensures forall s :: s in AllSkills <==> exists c :: 0 <= c < 3 && s in Categories[c].skills
  {
    CategorySets();
    forall s | s in AllSkills ensures exists c :: 0 <= c < 3 && s in Categories[c].skills {
      if s in TechnicalSkills {
        assert s in Categories[0].skills;
      } else if s in SoftSkills {
        assert s in Categories[1].skills;
      } else {
        assert s in Categories[2].skills;
      }
    }
  }

  /** A rating the buttons can write: 1 (Beginner) to 5 (Master). */
  predicate IsRating(r: int) {
    1 <= r <= 5
  }

  /** The gate of `handleNext`: every skill of category `c` has a rating. */
  predicate CategoryRated(ratings: map<string, int>, c: nat)
    requires c < |Categories|
  {
    forall s :: s in Categories[c].skills ==> s in ratings
  }

  /** The rating component's state. */
  class SkillsQuiz {
    /** Index of the category on screen. */
    var currentCategory: nat
    /** `skillRatings`: skill name to rating. */
    var ratings: map<string, int>
    var completed: bool
    /** What completion stored under `skillRatings` in `localStorage`. */
    var savedRatings: Option<map<string, int>>

    ghost predicate Valid()
      reads this
    {
      && currentCategory < |Categories|
      && (forall s :: s in ratings ==> IsRating(ratings[s]))
      && (forall c :: 0 <= c < currentCategory ==> CategoryRated(ratings, c))
      && (completed ==> forall c :: 0 <= c < |Categories| ==> CategoryRated(ratings, c))
      && (savedRatings.Some? ==> completed && (forall s :: s in savedRatings.value ==> IsRating(savedRatings.value[s]))
                                 && (forall c :: 0 <= c < |Categories| ==> CategoryRated(savedRatings.value, c)))
    }

    constructor ()
      ensures Valid()
      ensures currentCategory == 0 && ratings == map[] && !completed && savedRatings.None?
    {
      currentCategory := 0;
      ratings := map[];
      completed := false;
      savedRatings := None;
    }

    /** `handleRatingChange`: set one skill's rating, keep every other entry. */
    method RateSkill(skill: string, rating: int)
      requires Valid() && IsRating(rating)
      modifies this`ratings
      ensures Valid()
      ensures ratings == old(ratings)[skill := rating]
      ensures forall s :: s != skill ==> (s in ratings <==> s in old(ratings)) && (s in ratings ==> ratings[s] == old(ratings)[s])
    {
      ghost var before := ratings;
      ratings := ratings[skill := rating];
      forall c | 0 <= c < |Categories| && CategoryRated(before, c) ensures CategoryRated(ratings, c) {
      }
    }

    /** `handleNext`: refuse while the category is incomplete; otherwise advance, or complete and save on the last. */
    method Next()
      requires Valid()
      modifies this`currentCategory, this`completed, this`savedRatings
      ensures Valid()
      ensures ratings == old(ratings)
      ensures !CategoryRated(ratings, old(currentCategory)) ==>
        currentCategory == old(currentCategory) && completed == old(completed) && savedRatings == old(savedRatings)
      ensures CategoryRated(ratings, old(currentCategory)) && old(currentCategory) < |Categories| - 1 ==>
        currentCategory == old(currentCategory) + 1 && completed == old(completed) && savedRatings == old(savedRatings)
      ensures CategoryRated(ratings, old(currentCategory)) && old(currentCategory) == |Categories| - 1 ==>
        currentCategory == old(currentCategory) && completed && savedRatings == Some(ratings)
    {
      var allRated := forall s | s in Categories[currentCategory].skills :: s in ratings;
      if !allRated {
        return;
      }
      if currentCategory < |Categories| - 1 {
        currentCategory := currentCategory + 1;
      } else {
        completed := true;
        savedRatings := Some(ratings);
      }
    }

    /** `handlePrevious`: step back unless on the first category. */
    method Previous()
      requires Valid()
      modifies this`currentCategory
      ensures Valid()
      ensures old(currentCategory) > 0 ==> currentCategory == old(currentCategory) - 1
      ensures old(currentCategory) == 0 ==> currentCategory == 0
    {
      if currentCategory > 0 {
        currentCategory := currentCategory - 1;
      }
    }
  }

  /** Once completed, all fifteen skills are rated, each from 1 to 5, so at least fifteen ratings exist. */
  lemma CompletedRatesEverySkill(q: SkillsQuiz)
    requires q.Valid() && q.completed
    ensures forall s :: s in AllSkills ==> s in q.ratings && IsRating(q.ratings[s])
    ensures |q.ratings| >= 15
  {
    AllSkillsAreCategorised();
    SkillNamesDistinct();
    forall s | s in AllSkills ensures s in q.ratings {
      var c :| 0 <= c < 3 && s in Categories[c].skills;
      assert CategoryRated(q.ratings, c);
    }
    assert AllSkills <= q.ratings.Keys;
    SubsetSize(AllSkills, q.ratings.Keys);
  }

  lemma SubsetSize(a: set<string>, b: set<string>)
    requires a <= b
    ensures |a| <= |b|
  {
    assert b == a + (b - a);
  }
}
