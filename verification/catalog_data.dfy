/** The catalog's fixed table of fifty tutorials, grouped as the source file
    groups them under section headings, and the screen's behaviour on it.
    Long text is written as concatenated pieces of at most 32 characters: the
    value is the same string, and the verifier can read every character. */
module CatalogData {
  import opened Text
  import opened Sequences
  import opened Catalog

  const YouTubeWatch: string := "https://www.youtube.com/watch?v="

  const Tutorial1: ExerciseTutorial := ExerciseTutorial(
    id := "1", title := "Bench Press Technique",
    category := "Chest", difficulty := Intermediate, duration := "14:00",
    youtubeUrl := YouTubeWatch + "rT7DgCr-3pg",
    description := "Perfect your bench press form " + "for maximum strength and muscle " + "growth.",
    targetMuscles := ["Chest", "Triceps", "Shoulders"])

  const Tutorial2: ExerciseTutorial := ExerciseTutorial(
    id := "2", title := "Bench Press - Alternative Guide",
    category := "Chest", difficulty := Intermediate, duration := "12:30",
    youtubeUrl := YouTubeWatch + "gRVjAtPip0Y",
    description := "Another comprehensive guide to " + "mastering the bench press.",
    targetMuscles := ["Chest", "Triceps", "Shoulders"])

  const Tutorial3: ExerciseTutorial := ExerciseTutorial(
    id := "3", title := "Perfect Push-Up Form",
    category := "Chest", difficulty := Beginner, duration := "8:45",
    youtubeUrl := YouTubeWatch + "IODxDxX7oi4",
    description := "Learn the proper form for " + "push-ups to maximize chest " + "development and prevent injury.",
    targetMuscles := ["Chest", "Triceps", "Shoulders"])

  const Tutorial4: ExerciseTutorial := ExerciseTutorial(
    id := "4", title := "Push-Up Variations",
    category := "Chest", difficulty := Beginner, duration := "10:20",
    youtubeUrl := YouTubeWatch + "_l3ySVKYVJ8",
    description := "Explore different push-up " + "variations to target different " + "parts of your chest.",
    targetMuscles := ["Chest", "Triceps", "Core"])

  const Tutorial5: ExerciseTutorial := ExerciseTutorial(
    id := "5", title := "Chest Fly Tutorial",
    category := "Chest", difficulty := Beginner, duration := "9:15",
    youtubeUrl := YouTubeWatch + "eozdVDA78K0",
    description := "Master the chest fly for better " + "chest isolation and development.",
    targetMuscles := ["Chest", "Shoulders"])

  const Tutorial6: ExerciseTutorial := ExerciseTutorial(
    id := "6", title := "Chest Fly - Dumbbell Technique",
    category := "Chest", difficulty := Beginner, duration := "8:30",
    youtubeUrl := YouTubeWatch + "Z56EYFZemhk",
    description := "Learn proper dumbbell fly " + "technique for chest growth.",
    targetMuscles := ["Chest", "Shoulders"])

  const Tutorial7: ExerciseTutorial := ExerciseTutorial(
    id := "7", title := "Pull-Up Progression",
    category := "Back", difficulty := Intermediate, duration := "10:15",
    youtubeUrl := YouTubeWatch + "eGo4IYlbE5g",
    description := "Step-by-step progression to " + "achieve your first pull-up and " + "beyond.",
    targetMuscles := ["Lats", "Biceps", "Upper Back"])

  const Tutorial8: ExerciseTutorial := ExerciseTutorial(
    id := "8", title := "Pull-Up Mastery",
    category := "Back", difficulty := Intermediate, duration := "11:45",
    youtubeUrl := YouTubeWatch + "fLw3i7FiXsE",
    description := "Advanced pull-up techniques and " + "variations.",
    targetMuscles := ["Lats", "Biceps", "Upper Back"])

  const Tutorial9: ExerciseTutorial := ExerciseTutorial(
    id := "9", title := "Deadlift Complete Guide",
    category := "Back", difficulty := Advanced, duration := "15:20",
    youtubeUrl := YouTubeWatch + "ytGaGIn3SjE",
    description := "Complete deadlift tutorial " + "covering conventional and sumo " + "variations.",
    targetMuscles := ["Lower Back", "Hamstrings", "Glutes"])

  const Tutorial10: ExerciseTutorial := ExerciseTutorial(
    id := "10", title := "Deadlift Form Check",
    category := "Back", difficulty := Advanced, duration := "13:50",
    youtubeUrl := YouTubeWatch + "r4MzxtBKyNE",
    description := "Detailed form breakdown for " + "safe and effective deadlifts.",
    targetMuscles := ["Lower Back", "Hamstrings", "Glutes"])

  const Tutorial11: ExerciseTutorial := ExerciseTutorial(
    id := "11", title := "Barbell Rows",
    category := "Back", difficulty := Intermediate, duration := "12:00",
    youtubeUrl := YouTubeWatch + "roCP6wCXPqo",
    description := "Build a thick back with proper " + "barbell row form and technique.",
    targetMuscles := ["Lats", "Rhomboids", "Lower Back"])

  const Tutorial12: ExerciseTutorial := ExerciseTutorial(
    id := "12", title := "Row Variations",
    category := "Back", difficulty := Intermediate, duration := "10:30",
    youtubeUrl := YouTubeWatch + "9efgcAjQe7E",
    description := "Different rowing variations for " + "complete back development.",
    targetMuscles := ["Lats", "Rhomboids", "Traps"])

  const Tutorial13: ExerciseTutorial := ExerciseTutorial(
    id := "13", title := "Squat Tutorial - Complete Guide",
    category := "Legs", difficulty := Beginner, duration := "12:30",
    youtubeUrl := YouTubeWatch + "ultWZbUMPL8",
    description := "Master the squat with proper " + "form, breathing techniques, and " + "common mistakes to avoid.",
    targetMuscles := ["Quadriceps", "Glutes", "Hamstrings"])

  const Tutorial14: ExerciseTutorial := ExerciseTutorial(
    id := "14", title := "Squat Mechanics",
    category := "Legs", difficulty := Beginner, duration := "11:20",
    youtubeUrl := YouTubeWatch + "gcNh17Ckjgg",
    description := "Understanding the biomechanics " + "of the perfect squat.",
    targetMuscles := ["Quadriceps", "Glutes", "Hamstrings"])

  const Tutorial15: ExerciseTutorial := ExerciseTutorial(
    id := "15", title := "Lunges - Complete Tutorial",
    category := "Legs", difficulty := Beginner, duration := "10:00",
    youtubeUrl := YouTubeWatch + "QOVaHwm-Q6U",
    description := "Master forward, reverse, and " + "walking lunges for leg " + "development.",
    targetMuscles := ["Quadriceps", "Glutes", "Hamstrings"])

  const Tutorial16: ExerciseTutorial := ExerciseTutorial(
    id := "16", title := "Lunge Variations",
    category := "Legs", difficulty := Beginner, duration := "9:40",
    youtubeUrl := YouTubeWatch + "wrwwXE_x-pQ",
    description := "Different lunge variations to " + "target your legs from all " + "angles.",
    targetMuscles := ["Quadriceps", "Glutes", "Hamstrings"])

  const Tutorial17: ExerciseTutorial := ExerciseTutorial(
    id := "17", title := "Leg Press Form",
    category := "Legs", difficulty := Beginner, duration := "8:50",
    youtubeUrl := YouTubeWatch + "IZxyjW7MPJQ",
    description := "Proper leg press setup and " + "execution for quad development.",
    targetMuscles := ["Quadriceps", "Glutes"])

  const Tutorial18: ExerciseTutorial := ExerciseTutorial(
    id := "18", title := "Leg Press Technique",
    category := "Legs", difficulty := Beginner, duration := "7:30",
    youtubeUrl := YouTubeWatch + "z7eQq-GN-Nc",
    description := "Advanced leg press techniques " + "for maximum leg growth.",
    targetMuscles := ["Quadriceps", "Glutes"])

  const Tutorial19: ExerciseTutorial := ExerciseTutorial(
    id := "19", title := "Shoulder Press Guide",
    category := "Shoulders", difficulty := Beginner, duration := "11:45",
    youtubeUrl := YouTubeWatch + "qEwKCR5JCog",
    description := "Learn proper overhead press " + "technique for shoulder " + "development.",
    targetMuscles := ["Shoulders", "Triceps", "Upper Chest"])

  const Tutorial20: ExerciseTutorial := ExerciseTutorial(
    id := "20", title := "Military Press",
    category := "Shoulders", difficulty := Intermediate, duration := "10:20",
    youtubeUrl := YouTubeWatch + "M2rwvNhTOu0",
    description := "Build strong shoulders with the " + "military press.",
    targetMuscles := ["Shoulders", "Triceps", "Core"])

  const Tutorial21: ExerciseTutorial := ExerciseTutorial(
    id := "21", title := "Lateral Raises",
    category := "Shoulders", difficulty := Beginner, duration := "7:40",
    youtubeUrl := YouTubeWatch + "3VcKaXpzqRo",
    description := "Build wider shoulders with " + "perfect lateral raise form.",
    targetMuscles := ["Side Delts", "Shoulders"])

  const Tutorial22: ExerciseTutorial := ExerciseTutorial(
    id := "22", title := "Lateral Raise Technique",
    category := "Shoulders", difficulty := Beginner, duration := "8:15",
    youtubeUrl := YouTubeWatch + "kDqklk1ZESo",
    description := "Perfect your lateral raises for " + "maximum shoulder width.",
    targetMuscles := ["Side Delts", "Shoulders"])

  const Tutorial23: ExerciseTutorial := ExerciseTutorial(
    id := "23", title := "Bicep Curl Mastery",
    category := "Arms", difficulty := Beginner, duration := "7:20",
    youtubeUrl := YouTubeWatch + "ykJmrZ5v0Oo",
    description := "Perfect your bicep curl form " + "and learn different variations.",
    targetMuscles := ["Biceps", "Forearms"])

  const Tutorial24: ExerciseTutorial := ExerciseTutorial(
    id := "24", title := "Bicep Curl Variations",
    category := "Arms", difficulty := Beginner, duration := "9:10",
    youtubeUrl := YouTubeWatch + "av7-8igSXTs",
    description := "Explore different bicep curl " + "variations for arm growth.",
    targetMuscles := ["Biceps", "Forearms"])

  const Tutorial25: ExerciseTutorial := ExerciseTutorial(
    id := "25", title := "Tricep Dips Tutorial",
    category := "Arms", difficulty := Intermediate, duration := "8:15",
    youtubeUrl := YouTubeWatch + "6kALZikXxLc",
    description := "Learn proper tricep dip form " + "for maximum tricep activation.",
    targetMuscles := ["Triceps", "Chest", "Shoulders"])

  const Tutorial26: ExerciseTutorial := ExerciseTutorial(
    id := "26", title := "Tricep Dips - Advanced",
    category := "Arms", difficulty := Intermediate, duration := "7:50",
    youtubeUrl := YouTubeWatch + "0326dy_-CzM",
    description := "Advanced tricep dip techniques " + "for bigger arms.",
    targetMuscles := ["Triceps", "Chest", "Shoulders"])

  const Tutorial27: ExerciseTutorial := ExerciseTutorial(
    id := "27", title := "Plank Fundamentals",
    category := "Core", difficulty := Beginner, duration := "9:30",
    youtubeUrl := YouTubeWatch + "ASdvN_XEl_c",
    description := "Master the plank for a strong, " + "stable core.",
    targetMuscles := ["Abs", "Core", "Lower Back"])

  const Tutorial28: ExerciseTutorial := ExerciseTutorial(
    id := "28", title := "Plank Variations",
    category := "Core", difficulty := Beginner, duration := "8:45",
    youtubeUrl := YouTubeWatch + "pvIjsG5Svck",
    description := "Different plank variations to " + "strengthen your core " + "effectively.",
    targetMuscles := ["Abs", "Core", "Lower Back"])

  const Tutorial29: ExerciseTutorial := ExerciseTutorial(
    id := "29", title := "Crunches Tutorial",
    category := "Core", difficulty := Beginner, duration := "6:30",
    youtubeUrl := YouTubeWatch + "Xyd_fa5zoEU",
    description := "Perfect your crunch technique " + "for defined abs.",
    targetMuscles := ["Abs", "Core"])

  const Tutorial30: ExerciseTutorial := ExerciseTutorial(
    id := "30", title := "Crunch Variations",
    category := "Core", difficulty := Beginner, duration := "7:20",
    youtubeUrl := YouTubeWatch + "MKmrqcoCZ-M",
    description := "Different crunch variations for " + "complete ab development.",
    targetMuscles := ["Abs", "Core"])

  const Tutorial31: ExerciseTutorial := ExerciseTutorial(
    id := "31", title := "Russian Twists",
    category := "Core", difficulty := Intermediate, duration := "8:00",
    youtubeUrl := YouTubeWatch + "wkD8rjkodUI",
    description := "Build oblique strength with " + "Russian twists.",
    targetMuscles := ["Obliques", "Core", "Abs"])

  const Tutorial32: ExerciseTutorial := ExerciseTutorial(
    id := "32", title := "Russian Twist Technique",
    category := "Core", difficulty := Intermediate, duration := "7:15",
    youtubeUrl := YouTubeWatch + "JyUqwkVpsi8",
    description := "Master the Russian twist for a " + "stronger core.",
    targetMuscles := ["Obliques", "Core", "Abs"])

  const Tutorial33: ExerciseTutorial := ExerciseTutorial(
    id := "33", title := "HIIT Workout",
    category := "Cardio", difficulty := Intermediate, duration := "20:00",
    youtubeUrl := YouTubeWatch + "ml6cT4AZdqI",
    description := "High-intensity interval " + "training for maximum fat burn.",
    targetMuscles := ["Full Body", "Cardio"])

  const Tutorial34: ExerciseTutorial := ExerciseTutorial(
    id := "34", title := "HIIT Training Guide",
    category := "Cardio", difficulty := Intermediate, duration := "18:30",
    youtubeUrl := YouTubeWatch + "cZnsLVArIt8",
    description := "Complete HIIT training guide " + "for beginners and advanced.",
    targetMuscles := ["Full Body", "Cardio"])

  const Tutorial35: ExerciseTutorial := ExerciseTutorial(
    id := "35", title := "Running Form",
    category := "Cardio", difficulty := Beginner, duration := "12:00",
    youtubeUrl := YouTubeWatch + "brFHyOtTwH4",
    description := "Improve your running form for " + "better performance and injury " + "prevention.",
    targetMuscles := ["Legs", "Cardio"])

  const Tutorial36: ExerciseTutorial := ExerciseTutorial(
    id := "36", title := "Running Technique",
    category := "Cardio", difficulty := Beginner, duration := "10:45",
    youtubeUrl := YouTubeWatch + "_kGESn8ArrU",
    description := "Master proper running technique " + "for efficiency.",
    targetMuscles := ["Legs", "Cardio"])

  const Tutorial37: ExerciseTutorial := ExerciseTutorial(
    id := "37", title := "Burpees - Full Body",
    category := "Cardio", difficulty := Intermediate, duration := "6:30",
    youtubeUrl := YouTubeWatch + "TU8QYVW0gDU",
    description := "High-intensity full-body " + "exercise for cardio and " + "strength.",
    targetMuscles := ["Full Body", "Core", "Legs"])

  const Tutorial38: ExerciseTutorial := ExerciseTutorial(
    id := "38", title := "Burpee Variations",
    category := "Cardio", difficulty := Intermediate, duration := "8:20",
    youtubeUrl := YouTubeWatch + "JZQA08SlJnM",
    description := "Different burpee variations to " + "challenge yourself.",
    targetMuscles := ["Full Body", "Core", "Legs"])

  const Tutorial39: ExerciseTutorial := ExerciseTutorial(
    id := "39", title := "Full Body Workout",
    category := "Full Body", difficulty := Intermediate, duration := "30:00",
    youtubeUrl := YouTubeWatch + "UBMk30rjy0o",
    description := "Complete full-body workout " + "routine for overall fitness.",
    targetMuscles := ["Full Body", "All Muscles"])

  const Tutorial40: ExerciseTutorial := ExerciseTutorial(
    id := "40", title := "Total Body Training",
    category := "Full Body", difficulty := Intermediate, duration := "25:00",
    youtubeUrl := YouTubeWatch + "Yz6PmHcYbN0",
    description := "Total body training for " + "strength and endurance.",
    targetMuscles := ["Full Body", "All Muscles"])

  const Tutorial41: ExerciseTutorial := ExerciseTutorial(
    id := "41", title := "Abs Workout",
    category := "Core", difficulty := Intermediate, duration := "15:00",
    youtubeUrl := YouTubeWatch + "DHD1-2P94DI",
    description := "Intense ab workout for a " + "six-pack.",
    targetMuscles := ["Abs", "Core"])

  const Tutorial42: ExerciseTutorial := ExerciseTutorial(
    id := "42", title := "Six Pack Abs",
    category := "Core", difficulty := Advanced, duration := "20:00",
    youtubeUrl := YouTubeWatch + "1919eTCoESo",
    description := "Advanced ab routine for defined " + "six-pack abs.",
    targetMuscles := ["Abs", "Core", "Obliques"])

  const Tutorial43: ExerciseTutorial := ExerciseTutorial(
    id := "43", title := "Weight Loss Workout",
    category := "Weight Loss", difficulty := Beginner, duration := "25:00",
    youtubeUrl := YouTubeWatch + "2MicE75thDQ",
    description := "Effective workout routine " + "designed for weight loss.",
    targetMuscles := ["Full Body", "Cardio"])

  const Tutorial44: ExerciseTutorial := ExerciseTutorial(
    id := "44", title := "Fat Burning Workout",
    category := "Weight Loss", difficulty := Intermediate, duration := "22:00",
    youtubeUrl := YouTubeWatch + "kZDvg92tTMc",
    description := "High-intensity fat burning " + "workout for rapid results.",
    targetMuscles := ["Full Body", "Cardio"])

  const Tutorial45: ExerciseTutorial := ExerciseTutorial(
    id := "45", title := "Fat Burning HIIT",
    category := "Weight Loss", difficulty := Intermediate, duration := "20:00",
    youtubeUrl := YouTubeWatch + "ml6cT4AZdqI",
    description := "HIIT workout specifically " + "designed for fat loss.",
    targetMuscles := ["Full Body", "Cardio"])

  const Tutorial46: ExerciseTutorial := ExerciseTutorial(
    id := "46", title := "Cardio Fat Burn",
    category := "Weight Loss", difficulty := Intermediate, duration := "18:30",
    youtubeUrl := YouTubeWatch + "cZnsLVArIt8",
    description := "Cardio-focused workout for " + "maximum fat burning.",
    targetMuscles := ["Full Body", "Cardio"])

  const Tutorial47: ExerciseTutorial := ExerciseTutorial(
    id := "47", title := "Home Workout - Full Body",
    category := "Full Body", difficulty := Beginner, duration := "30:00",
    youtubeUrl := YouTubeWatch + "UBMk30rjy0o",
    description := "Complete home workout requiring " + "no equipment.",
    targetMuscles := ["Full Body", "All Muscles"])

  const Tutorial48: ExerciseTutorial := ExerciseTutorial(
    id := "48", title := "Home Training Routine",
    category := "Full Body", difficulty := Beginner, duration := "25:00",
    youtubeUrl := YouTubeWatch + "Yz6PmHcYbN0",
    description := "Effective home training routine " + "for all fitness levels.",
    targetMuscles := ["Full Body", "All Muscles"])

  const Tutorial49: ExerciseTutorial := ExerciseTutorial(
    id := "49", title := "Beginner Workout Guide",
    category := "Full Body", difficulty := Beginner, duration := "20:00",
    youtubeUrl := YouTubeWatch + "oAPCPjnU1wA",
    description := "Perfect workout routine for " + "complete beginners.",
    targetMuscles := ["Full Body", "All Muscles"])

  const Tutorial50: ExerciseTutorial := ExerciseTutorial(
    id := "50", title := "Beginner Fat Loss",
    category := "Weight Loss", difficulty := Beginner, duration := "25:00",
    youtubeUrl := YouTubeWatch + "2MicE75thDQ",
    description := "Beginner-friendly workout for " + "weight loss and fitness.",
    targetMuscles := ["Full Body", "Cardio"])

  /** The entries under the "Chest Exercises" heading. */
  const ChestTutorials: seq<ExerciseTutorial> :=
    [Tutorial1, Tutorial2, Tutorial3, Tutorial4, Tutorial5, Tutorial6]

  /** The entries under the "Back Exercises" heading. */
  const BackTutorials: seq<ExerciseTutorial> :=
    [Tutorial7, Tutorial8, Tutorial9, Tutorial10, Tutorial11, Tutorial12]

  /** The entries under the "Leg Exercises" heading. */
  const LegTutorials: seq<ExerciseTutorial> :=
    [Tutorial13, Tutorial14, Tutorial15, Tutorial16, Tutorial17, Tutorial18]

  /** The entries under the "Shoulder Exercises" heading. */
  const ShoulderTutorials: seq<ExerciseTutorial> :=
    [Tutorial19, Tutorial20, Tutorial21, Tutorial22]

  /** The entries under the "Arm Exercises" heading. */
  const ArmTutorials: seq<ExerciseTutorial> :=
    [Tutorial23, Tutorial24, Tutorial25, Tutorial26]

  /** The entries under the "Core Exercises" heading. */
  const CoreTutorials: seq<ExerciseTutorial> :=
    [Tutorial27, Tutorial28, Tutorial29, Tutorial30, Tutorial31, Tutorial32]

  /** The entries under the "Cardio Exercises" heading. */
  const CardioTutorials: seq<ExerciseTutorial> :=
    [Tutorial33, Tutorial34, Tutorial35, Tutorial36, Tutorial37, Tutorial38]

  /** The entries under the "Full Body Workouts" heading. */
  const FullBodyTutorials: seq<ExerciseTutorial> :=
    [Tutorial39, Tutorial40, Tutorial41, Tutorial42]

  /** The entries under the "Weight Loss Specific" heading. */
  const WeightLossTutorials: seq<ExerciseTutorial> :=
    [Tutorial43, Tutorial44, Tutorial45, Tutorial46, Tutorial47, Tutorial48, Tutorial49, Tutorial50]

  /** The whole table, in source order. */
  const Tutorials: seq<ExerciseTutorial> :=
    ChestTutorials + BackTutorials + LegTutorials + ShoulderTutorials + ArmTutorials
    + CoreTutorials + CardioTutorials + FullBodyTutorials + WeightLossTutorials

  /** The table's size, as the "Showing N of M" line reports it. */
  lemma TableSize()
    ensures |Tutorials| == 50
  {
  }

  /** The ids of a list of tutorials, in order. */
  function Ids(ts: seq<ExerciseTutorial>): (r: seq<string>)
    ensures |r| == |ts|
    ensures forall i :: 0 <= i < |ts| ==> r[i] == ts[i].id
  {
    seq(|ts|, i requires 0 <= i < |ts| => ts[i].id)
  }

  /** No entry of `ts` is in `category`. */
  predicate NoneIn(ts: seq<ExerciseTutorial>, category: string) {
    forall i :: 0 <= i < |ts| ==> ts[i].category != category
  }

  /** Every entry of `ts` is in `category`. */
  predicate AllIn(ts: seq<ExerciseTutorial>, category: string) {
    forall i :: 0 <= i < |ts| ==> ts[i].category == category
  }

  /** Under a real category, a list with no entry of it filters to nothing. */
  lemma NoneInFiltersEmpty(ts: seq<ExerciseTutorial>, query: string, category: string)
    requires category != AllCategories && NoneIn(ts, category)
    ensures FilterTutorials(ts, query, category) == []
  {
    FilterEmptyForOtherCategory(ts, query, category);
  }

  /** With the empty query, a list wholly in the selected category is shown whole. */
  lemma AllInShownWhole(ts: seq<ExerciseTutorial>, category: string)
    requires AllIn(ts, category)
    ensures FilterTutorials(ts, "", category) == ts
  {
    forall t | t in ts ensures Matches(t, "", category) {
      EmptyQueryMatches(t);
    }
    FilterKeepsMatchingList(ts, "", category);
  }

  /** Five sections with no entry in the selected category filter to nothing. */
  lemma FiveSectionsEmpty(
    s1: seq<ExerciseTutorial>, s2: seq<ExerciseTutorial>, s3: seq<ExerciseTutorial>,
    s4: seq<ExerciseTutorial>, s5: seq<ExerciseTutorial>, category: string)
    requires category != AllCategories
    requires NoneIn(s1, category) && NoneIn(s2, category) && NoneIn(s3, category)
    requires NoneIn(s4, category) && NoneIn(s5, category)
    ensures FilterTutorials(s1 + s2 + s3 + s4 + s5, "", category) == []
  {
    var q := "";
    FilterAppend(s1, s2, q, category);
    FilterAppend(s1 + s2, s3, q, category);
    FilterAppend(s1 + s2 + s3, s4, q, category);
    FilterAppend(s1 + s2 + s3 + s4, s5, q, category);
    NoneInFiltersEmpty(s1, q, category);
    NoneInFiltersEmpty(s2, q, category);
    NoneInFiltersEmpty(s3, q, category);
    NoneInFiltersEmpty(s4, q, category);
    NoneInFiltersEmpty(s5, q, category);
  }

  /** A section whose first `k` entries lie outside the selected category and
      whose rest lie inside it shows just the rest. */
  lemma SplitSectionShowsTail(s: seq<ExerciseTutorial>, k: nat, category: string)
    requires category != AllCategories
    requires k <= |s| && NoneIn(s[..k], category) && AllIn(s[k..], category)
    ensures FilterTutorials(s, "", category) == s[k..]
  {
    assert s == s[..k] + s[k..];
    FilterAppend(s[..k], s[k..], "", category);
    NoneInFiltersEmpty(s[..k], "", category);
    AllInShownWhole(s[k..], category);
  }

  /** A table laid out like this one, with Core entries only in the sixth
      section and at the end of the eighth, filters to exactly those entries
      under "Core" and the empty query. */
  lemma CoreFromSections(
    s1: seq<ExerciseTutorial>, s2: seq<ExerciseTutorial>, s3: seq<ExerciseTutorial>,
    s4: seq<ExerciseTutorial>, s5: seq<ExerciseTutorial>, s6: seq<ExerciseTutorial>,
    s7: seq<ExerciseTutorial>, s8: seq<ExerciseTutorial>, s9: seq<ExerciseTutorial>, k: nat)
    requires NoneIn(s1, "Core") && NoneIn(s2, "Core") && NoneIn(s3, "Core")
    requires NoneIn(s4, "Core") && NoneIn(s5, "Core") && NoneIn(s7, "Core") && NoneIn(s9, "Core")
    requires AllIn(s6, "Core") && k <= |s8| && NoneIn(s8[..k], "Core") && AllIn(s8[k..], "Core")
    ensures FilterTutorials(s1 + s2 + s3 + s4 + s5 + s6 + s7 + s8 + s9, "", "Core") == s6 + s8[k..]
  {
    var q, c := "", "Core";
    var p := s1 + s2 + s3 + s4 + s5;
    FiveSectionsEmpty(s1, s2, s3, s4, s5, c);
    FilterAppend(p, s6, q, c);
    FilterAppend(p + s6, s7, q, c);
    FilterAppend(p + s6 + s7, s8, q, c);
    FilterAppend(p + s6 + s7 + s8, s9, q, c);
    AllInShownWhole(s6, c);
    NoneInFiltersEmpty(s7, q, c);
    SplitSectionShowsTail(s8, k, c);
    NoneInFiltersEmpty(s9, q, c);
  }

  lemma ChestHoldsNoCore()
    ensures NoneIn(ChestTutorials, "Core")
  {
  }

  lemma BackHoldsNoCore()
    ensures NoneIn(BackTutorials, "Core")
  {
  }

  lemma LegHoldsNoCore()
    ensures NoneIn(LegTutorials, "Core")
  {
  }

  lemma ShoulderHoldsNoCore()
    ensures NoneIn(ShoulderTutorials, "Core")
  {
  }

  lemma ArmHoldsNoCore()
    ensures NoneIn(ArmTutorials, "Core")
  {
  }

  lemma CardioHoldsNoCore()
    ensures NoneIn(CardioTutorials, "Core")
  {
  }

  lemma WeightLossHoldsNoCore()
    ensures NoneIn(WeightLossTutorials, "Core")
  {
  }

  /** The Core section is all Core; of the Full Body section only the last two
      entries are. */
  lemma CoreSectionsLayout()
    ensures AllIn(CoreTutorials, "Core")
    ensures NoneIn(FullBodyTutorials[..2], "Core") && AllIn(FullBodyTutorials[2..], "Core")
  {
  }

  /** Selecting "Core" with an empty query shows the Core section followed by
      the Core entries listed under Full Body. */
  lemma CoreSelection()
    ensures FilterTutorials(Tutorials, "", "Core") == CoreTutorials + FullBodyTutorials[2..]
  {
    ChestHoldsNoCore();
    BackHoldsNoCore();
    LegHoldsNoCore();
    ShoulderHoldsNoCore();
    ArmHoldsNoCore();
    CardioHoldsNoCore();
    WeightLossHoldsNoCore();
    CoreSectionsLayout();
    CoreFromSections(ChestTutorials, BackTutorials, LegTutorials, ShoulderTutorials, ArmTutorials,
      CoreTutorials, CardioTutorials, FullBodyTutorials, WeightLossTutorials, 2);
  }

  /** That is, tutorials 27 to 32 followed by 41 and 42. */
  lemma CoreExample()
    ensures FilterTutorials(Tutorials, "", "Core")
         == [Tutorial27, Tutorial28, Tutorial29, Tutorial30, Tutorial31, Tutorial32, Tutorial41, Tutorial42]
    ensures Ids(FilterTutorials(Tutorials, "", "Core"))
         == ["27", "28", "29", "30", "31", "32", "41", "42"]
  {
    CoreSelection();
  }

  /** Searching "squat" in every category shows tutorials 13 and 14, in that
      order: both titles start with "Squat". */
  lemma SquatExample()
    ensures FilterTutorials([Tutorial13, Tutorial14], "squat", AllCategories) == [Tutorial13, Tutorial14]
    ensures Tutorial13 in FilterTutorials(Tutorials, "squat", AllCategories)
    ensures Tutorial14 in FilterTutorials(Tutorials, "squat", AllCategories)
  {
    var q := "squat";
    assert OccursAt(Lower(Tutorial13.title), Lower(q), 0);
    assert OccursAt(Lower(Tutorial14.title), Lower(q), 0);
    FilterKeepsMatchingList([Tutorial13, Tutorial14], q, AllCategories);
    FilterMembers(Tutorials, q, AllCategories);
    assert Tutorial13 in Tutorials && Tutorial14 in Tutorials;
  }

  // ---------------------------------------------------------------------
  // The category selector covers the table
  // ---------------------------------------------------------------------

  /** Every entry of `ts` has a category the selector offers, other than the
      "All" sentinel. */
  predicate Offered(ts: seq<ExerciseTutorial>) {
    forall i :: 0 <= i < |ts| ==> ts[i].category in Categories[1..]
  }

  lemma {:induction false} OfferedAppend(a: seq<ExerciseTutorial>, b: seq<ExerciseTutorial>)
    requires Offered(a) && Offered(b)
    ensures Offered(a + b)
  {
    forall i | 0 <= i < |a + b| ensures (a + b)[i].category in Categories[1..] {
      if i < |a| {
        assert (a + b)[i] == a[i];
      } else {
        assert (a + b)[i] == b[i - |a|];
      }
    }
  }

  /** The selector's real choices; none of them is the sentinel. */
  lemma RealCategories()
    ensures Categories[1..] == ["Chest", "Back", "Legs", "Shoulders", "Arms", "Core", "Cardio",
                                "Full Body", "Weight Loss"]
    ensures AllCategories !in Categories[1..]
  {
  }

  lemma StrengthSectionsOffered()
    ensures Offered(ChestTutorials) && Offered(BackTutorials) && Offered(LegTutorials)
  {
    RealCategories();
  }

  lemma UpperSectionsOffered()
    ensures Offered(ShoulderTutorials) && Offered(ArmTutorials) && Offered(CoreTutorials)
  {
    RealCategories();
  }

  lemma ConditioningSectionsOffered()
    ensures Offered(CardioTutorials) && Offered(FullBodyTutorials) && Offered(WeightLossTutorials)
  {
    RealCategories();
  }

  /** Every entry of the table belongs to a category the selector offers, and
      none to the "All" sentinel, so selecting an entry's category with an
      empty query shows that entry. */
  lemma TableCategoriesOffered()
    ensures forall t :: t in Tutorials ==> t.category in Categories && t.category != AllCategories
    ensures forall t :: t in Tutorials ==> t in FilterTutorials(Tutorials, "", t.category)
  {
    StrengthSectionsOffered();
    UpperSectionsOffered();
    ConditioningSectionsOffered();
    RealCategories();
    var p1 := ChestTutorials + BackTutorials;
    OfferedAppend(ChestTutorials, BackTutorials);
    OfferedAppend(p1, LegTutorials);
    var p2 := p1 + LegTutorials;
    OfferedAppend(p2, ShoulderTutorials);
    var p3 := p2 + ShoulderTutorials;
    OfferedAppend(p3, ArmTutorials);
    var p4 := p3 + ArmTutorials;
    OfferedAppend(p4, CoreTutorials);
    var p5 := p4 + CoreTutorials;
    OfferedAppend(p5, CardioTutorials);
    var p6 := p5 + CardioTutorials;
    OfferedAppend(p6, FullBodyTutorials);
    var p7 := p6 + FullBodyTutorials;
    OfferedAppend(p7, WeightLossTutorials);
    assert Offered(Tutorials);
    forall t | t in Tutorials ensures t.category in Categories && t.category != AllCategories
      && t in FilterTutorials(Tutorials, "", t.category)
    {
      var i :| 0 <= i < |Tutorials| && Tutorials[i] == t;
      assert t.category in Categories[1..];
      EmptyQueryMatches(t);
      FilterMembers(Tutorials, "", t.category);
    }
  }
}
