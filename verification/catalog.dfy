/** The tutorial catalog screen: a fixed table of exercise tutorials narrowed
    by a free-text query (case-insensitive) and a category selector, and the
    badge colour of each difficulty level. */
module Catalog {
  import opened Text
  import opened Sequences

  datatype Difficulty = Beginner | Intermediate | Advanced {
    /** The label the table and the badge show. */
    function Name(): string {
      match this
      case Beginner => "Beginner"
      case Intermediate => "Intermediate"
      case Advanced => "Advanced"
    }
  }

  datatype ExerciseTutorial = ExerciseTutorial(
    id: string,
    title: string,
    category: string,
    difficulty: Difficulty,
    duration: string,
    youtubeUrl: string,
    description: string,
    targetMuscles: seq<string>)

  /** The selector value that disables the category filter. */
  const AllCategories: string := "All"

  /** The selector's choices, in display order; only the first is a sentinel. */
  const Categories: seq<string> :=
    [AllCategories, "Chest", "Back", "Legs", "Shoulders", "Arms", "Core", "Cardio",
     "Full Body", "Weight Loss"]

  // ---------------------------------------------------------------------
  // The filter
  // ---------------------------------------------------------------------

  /** Some lower-cased target muscle includes `q`. */
  predicate SomeMuscleIncludes(t: ExerciseTutorial, q: string) {
    exists i :: 0 <= i < |t.targetMuscles| && Includes(Lower(t.targetMuscles[i]), q)
  }

  /** The query, lower-cased, occurs in the lower-cased title, description or
      some target muscle. */
  predicate MatchesSearch(t: ExerciseTutorial, query: string) {
    var q := Lower(query);
    || Includes(Lower(t.title), q)
    || Includes(Lower(t.description), q)
    || SomeMuscleIncludes(t, q)
  }

  /** The selector is the sentinel or names the entry's category. */
  predicate MatchesCategory(t: ExerciseTutorial, category: string) {
    category == AllCategories || t.category == category
  }

  predicate Matches(t: ExerciseTutorial, query: string, category: string) {
    MatchesSearch(t, query) && MatchesCategory(t, category)
  }

  /** The three tests as the callbacks handed to `filter`. */
  function SearchTest(query: string): ExerciseTutorial -> bool {
    t => MatchesSearch(t, query)
  }

  function CategoryTest(category: string): ExerciseTutorial -> bool {
    t => MatchesCategory(t, category)
  }

  function MatchTest(query: string, category: string): ExerciseTutorial -> bool {
    t => Matches(t, query, category)
  }

  /** The tutorials the screen shows for a search query and a selected
      category: the table narrowed by both tests. It never holds more entries
      than the table (the "Showing N of M" line); `FilterMembers` says which
      entries it holds. */
  function FilterTutorials(ts: seq<ExerciseTutorial>, query: string, category: string)
    : (r: seq<ExerciseTutorial>)
    ensures |r| <= |ts|
  {
    Select(ts, MatchTest(query, category))
  }

  /** The result holds exactly the entries that match both inputs, and under a
      real category only entries of that category. */
  lemma FilterMembers(ts: seq<ExerciseTutorial>, query: string, category: string)
    ensures forall t :: t in FilterTutorials(ts, query, category)
              <==> t in ts && MatchesSearch(t, query) && MatchesCategory(t, category)
    ensures category != AllCategories ==>
              forall t :: t in FilterTutorials(ts, query, category) ==> t.category == category
  {
    forall t ensures t in FilterTutorials(ts, query, category) <==> t in ts && Matches(t, query, category) {
      SelectContains(ts, MatchTest(query, category), t);
    }
  }

  /** The category filter alone. */
  function FilterByCategory(ts: seq<ExerciseTutorial>, category: string): seq<ExerciseTutorial> {
    Select(ts, CategoryTest(category))
  }

  /** The search filter alone. */
  function FilterBySearch(ts: seq<ExerciseTutorial>, query: string): seq<ExerciseTutorial> {
    Select(ts, SearchTest(query))
  }

  /** The result keeps the table's order: it is the table restricted to the
      positions whose entry matches, listed from first to last. */
  lemma FilterPositions(ts: seq<ExerciseTutorial>, query: string, category: string)
    returns (idx: seq<int>)
    ensures Embeds(idx, FilterTutorials(ts, query, category), ts)
    ensures forall i :: 0 <= i < |ts| ==> (Matches(ts[i], query, category) <==> i in idx)
  {
    idx := SelectPositions(ts, MatchTest(query, category));
  }

  /** With the empty query and the sentinel category every entry is shown,
      since every string includes the empty string. */
  lemma FilterShowsAllByDefault(ts: seq<ExerciseTutorial>)
    ensures FilterTutorials(ts, "", AllCategories) == ts
  {
    forall t | t in ts ensures Matches(t, "", AllCategories) {
      EmptyQueryMatches(t);
    }
    SelectKeepsAll(ts, MatchTest("", AllCategories));
  }

  /** The empty query matches every entry. */
  lemma EmptyQueryMatches(t: ExerciseTutorial)
    ensures MatchesSearch(t, "")
  {
    IncludesEmpty(Lower(t.title));
  }

  /** The query's case does not matter: queries with the same lower-cased form
      select the same entries. */
  lemma FilterIgnoresCase(ts: seq<ExerciseTutorial>, q1: string, q2: string, category: string)
    requires Lower(q1) == Lower(q2)
    ensures FilterTutorials(ts, q1, category) == FilterTutorials(ts, q2, category)
  {
    SelectCongruent(ts, MatchTest(q1, category), MatchTest(q2, category));
  }

  /** In particular, filtering by a query is filtering by its lower-cased form. */
  lemma FilterByLowerQuery(ts: seq<ExerciseTutorial>, query: string, category: string)
    ensures FilterTutorials(ts, query, category) == FilterTutorials(ts, Lower(query), category)
  {
    LowerIdempotent(query);
    FilterIgnoresCase(ts, query, Lower(query), category);
  }

  /** The combined filter is the category filter followed by the search
      filter, and equally the search filter followed by the category filter. */
  lemma FilterIsConjunction(ts: seq<ExerciseTutorial>, query: string, category: string)
    ensures FilterTutorials(ts, query, category) == FilterBySearch(FilterByCategory(ts, category), query)
    ensures FilterTutorials(ts, query, category) == FilterByCategory(FilterBySearch(ts, query), category)
  {
    var s, c := SearchTest(query), CategoryTest(category);
    SelectFusion(ts, c, s);
    SelectCongruent(ts, And(c, s), MatchTest(query, category));
    SelectCommute(ts, c, s);
  }

  /** Each filter applied twice is that filter applied once. */
  lemma FiltersIdempotent(ts: seq<ExerciseTutorial>, query: string, category: string)
    ensures FilterByCategory(FilterByCategory(ts, category), category) == FilterByCategory(ts, category)
    ensures FilterBySearch(FilterBySearch(ts, query), query) == FilterBySearch(ts, query)
  {
    SelectIdempotent(ts, CategoryTest(category));
    SelectIdempotent(ts, SearchTest(query));
  }

  /** A query whose lower-cased form contains the lower-cased form of another
      narrows that query's result: typing more characters only removes
      entries, and filtering the shorter query's result by the longer query
      is filtering the table by it. */
  lemma FilterNarrows(ts: seq<ExerciseTutorial>, short: string, long: string, category: string)
    requires Includes(Lower(long), Lower(short))
    ensures forall t :: t in FilterTutorials(ts, long, category) ==> t in FilterTutorials(ts, short, category)
    ensures FilterTutorials(FilterTutorials(ts, short, category), long, category)
         == FilterTutorials(ts, long, category)
  {
    forall t | MatchesSearch(t, long) ensures MatchesSearch(t, short) {
      SearchNarrows(t, short, long);
    }
    FilterMembers(ts, long, category);
    FilterMembers(ts, short, category);
    var ms, ml := MatchTest(short, category), MatchTest(long, category);
    SelectFusion(ts, ms, ml);
    SelectCongruent(ts, And(ms, ml), ml);
  }

  /** An entry matching the longer query matches the shorter one. */
  lemma SearchNarrows(t: ExerciseTutorial, short: string, long: string)
    requires Includes(Lower(long), Lower(short)) && MatchesSearch(t, long)
    ensures MatchesSearch(t, short)
  {
    var qs, ql := Lower(short), Lower(long);
    if Includes(Lower(t.title), ql) {
      IncludesFragment(Lower(t.title), ql, qs);
    } else if Includes(Lower(t.description), ql) {
      IncludesFragment(Lower(t.description), ql, qs);
    } else {
      var i :| 0 <= i < |t.targetMuscles| && Includes(Lower(t.targetMuscles[i]), ql);
      IncludesFragment(Lower(t.targetMuscles[i]), ql, qs);
    }
  }

  /** A query that occurs in no entry yields the empty list (the "No tutorials
      found" message), whatever the category. */
  lemma FilterEmptyForUnknownQuery(ts: seq<ExerciseTutorial>, query: string, category: string)
    requires forall t :: t in ts ==> !MatchesSearch(t, query)
    ensures FilterTutorials(ts, query, category) == []
  {
    SelectKeepsNone(ts, MatchTest(query, category));
  }

  /** A category no entry belongs to yields the empty list, whatever the query. */
  lemma FilterEmptyForOtherCategory(ts: seq<ExerciseTutorial>, query: string, category: string)
    requires category != AllCategories
    requires forall t :: t in ts ==> t.category != category
    ensures FilterTutorials(ts, query, category) == []
  {
    SelectKeepsNone(ts, MatchTest(query, category));
  }

  /** When every entry matches, the whole list is shown. */
  lemma FilterKeepsMatchingList(ts: seq<ExerciseTutorial>, query: string, category: string)
    requires forall t :: t in ts ==> Matches(t, query, category)
    ensures FilterTutorials(ts, query, category) == ts
  {
    SelectKeepsAll(ts, MatchTest(query, category));
  }

  /** Filtering a table made of two parts filters each part. */
  lemma FilterAppend(a: seq<ExerciseTutorial>, b: seq<ExerciseTutorial>, query: string, category: string)
    ensures FilterTutorials(a + b, query, category)
         == FilterTutorials(a, query, category) + FilterTutorials(b, query, category)
  {
    SelectAppend(a, b, MatchTest(query, category));
  }

  // ---------------------------------------------------------------------
  // Difficulty badge
  // ---------------------------------------------------------------------

  const BeginnerColor: string := "bg-green-500/10 " + "text-green-500 " + "border-green-500/20"
  const IntermediateColor: string := "bg-yellow-500/10 " + "text-yellow-500 " + "border-yellow-500/20"
  const AdvancedColor: string := "bg-red-500/10 " + "text-red-500 " + "border-red-500/20"
  const DefaultColor: string := "bg-gray-500/10 " + "text-gray-500 " + "border-gray-500/20"

  /** The badge classes for a difficulty label; any other label gets grey. */
  function DifficultyColor(difficulty: string): string {
    if difficulty == "Beginner" then BeginnerColor
    else if difficulty == "Intermediate" then IntermediateColor
    else if difficulty == "Advanced" then AdvancedColor
    else DefaultColor
  }

  /** Each difficulty level has its own colour, none of them grey, and every
      other label falls back to grey. */
  lemma DifficultyColorTotal(name: string)
    ensures forall d: Difficulty :: DifficultyColor(d.Name()) != DefaultColor
    ensures forall d1: Difficulty, d2: Difficulty ::
      DifficultyColor(d1.Name()) == DifficultyColor(d2.Name()) ==> d1 == d2
    ensures DifficultyColor(name) == DefaultColor <==> forall d: Difficulty :: name != d.Name()
  {
    assert Beginner.Name() == "Beginner" && Intermediate.Name() == "Intermediate";
    assert Advanced.Name() == "Advanced";
    assert BeginnerColor[3] == 'g' && IntermediateColor[3] == 'y';
    assert AdvancedColor[3] == 'r' && DefaultColor[3] == 'g' && DefaultColor[4] == 'r';
    assert BeginnerColor[4] == 'r' && BeginnerColor[5] == 'e';
    assert DefaultColor[5] == 'a';
  }
}
