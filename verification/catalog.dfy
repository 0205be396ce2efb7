/** The six-duck catalog of `data/ducks.ts`. Every entry's seed mood is
    stamped with the time the module is loaded, so an entry is a function
    of that time. Each entry's facts are stated by a lemma of its own and
    the catalog-wide lemmas are assembled from those, so no proof has to
    look inside more than one entry. Long texts are written as
    concatenations of phrases: the verifier reasons about a string literal
    character by character, and shorter pieces keep that work small. */
module Catalog {
  import opened Types
  import Chat
  import MoodSystem

  /** The entries, in their listed order. */
  const Entries: seq<Time -> Duck> := [Duck1, Duck2, Duck3, Duck4, Duck5, Duck6]

  /** The catalog as loaded at `loadedAt`. */
  function Ducks(loadedAt: Time): (r: seq<Duck>)
    ensures |r| == 6
  {
    seq(6, i requires 0 <= i < 6 => Entries[i](loadedAt))
  }

  /** The listing fields of an entry: id, name, specialties, rate and
      availability. */
  predicate Lists(d: Duck, id: string, name: string, specialties: seq<string>, rate: nat, a: Availability) {
    && d.id == id && d.name == name && d.specialties == specialties
    && d.hourlyRate == rate && d.availability == a
  }

  /** Three catch phrases and three replies in each pool. */
  predicate ThreeOfEach(p: ChatPersonality) {
    && |p.catchPhrases| == 3
    && |p.responsePatterns.encouragement| == 3 && |p.responsePatterns.confusion| == 3
    && |p.responsePatterns.success| == 3 && |p.responsePatterns.frustration| == 3
  }

  /** A personality with three lines of each kind, none of them empty. */
  predicate Voiced(p: ChatPersonality) {
    ThreeOfEach(p) && Chat.NonEmptyLines(p)
  }

  // -----------------------------------------------------------------------
  // One lemma per entry

  /** Entry 1: Debugbert, $50 an hour, available, seeded focused at 1.0. */
  lemma Entry1(t: Time)
    ensures Lists(Ducks(t)[0], "1", "Debugbert", ["Frontend Bugs", "React Hooks", "CSS Layout"], 50, Available)
    ensures Ducks(t)[0].mood == Mood(Focused, 100, true, t)
    ensures Voiced(Ducks(t)[0].chatPersonality)
  {
    assert Entries[0] == Duck1;
    assert Ducks(t)[0] == Duck1(t);
  }

  /** Entry 2: Professor Quack, $75 an hour, available, seeded happy at 0.95. */
  lemma Entry2(t: Time)
    ensures Lists(Ducks(t)[1], "2", "Professor Quack", ["Algorithms", "System Design", "Career Guidance"], 75, Available)
    ensures Ducks(t)[1].mood == Mood(Happy, 95, true, t)
    ensures Voiced(Ducks(t)[1].chatPersonality)
  {
    assert Entries[1] == Duck2;
    assert Ducks(t)[1] == Duck2(t);
  }

  /** Entry 3: Zen Duck, $40 an hour, busy, seeded sleepy at 1.1. */
  lemma Entry3(t: Time)
    ensures Lists(Ducks(t)[2], "3", "Zen Duck", ["Existential Support", "Imposter Syndrome", "Work-Life Balance"], 40, Busy)
    ensures Ducks(t)[2].mood == Mood(Sleepy, 110, false, t)
    ensures Voiced(Ducks(t)[2].chatPersonality)
  {
    assert Entries[2] == Duck3;
    assert Ducks(t)[2] == Duck3(t);
  }

  /** Entry 4: Captain Debug, $60 an hour, available, seeded grumpy at 1.15. */
  lemma Entry4(t: Time)
    ensures Lists(Ducks(t)[3], "4", "Captain Debug", ["Backend Systems", "Database Issues", "Performance"], 60, Available)
    ensures Ducks(t)[3].mood == Mood(Grumpy, 115, false, t)
    ensures Voiced(Ducks(t)[3].chatPersonality)
  {
    assert Entries[3] == Duck4;
    assert Ducks(t)[3] == Duck4(t);
  }

  /** Entry 5: Dr. Syntax, $65 an hour, offline, seeded excited at 0.9. */
  lemma Entry5(t: Time)
    ensures Lists(Ducks(t)[4], "5", "Dr. Syntax", ["Code Quality", "Refactoring", "Best Practices"], 65, Offline)
    ensures Ducks(t)[4].mood == Mood(Excited, 90, true, t)
    ensures Voiced(Ducks(t)[4].chatPersonality)
  {
    assert Entries[4] == Duck5;
    assert Ducks(t)[4] == Duck5(t);
  }

  /** Entry 6: Rubber Einstein, $80 an hour, available, seeded excited at 0.85. */
  lemma Entry6(t: Time)
    ensures Lists(Ducks(t)[5], "6", "Rubber Einstein", ["Complex Algorithms", "Math Problems", "AI/ML"], 80, Available)
    ensures Ducks(t)[5].mood == Mood(Excited, 85, true, t)
    ensures Voiced(Ducks(t)[5].chatPersonality)
  {
    assert Entries[5] == Duck6;
    assert Ducks(t)[5] == Duck6(t);
  }

  /** All six entry lemmas at once. */
  lemma EveryEntry(t: Time)
    ensures Lists(Ducks(t)[0], "1", "Debugbert", ["Frontend Bugs", "React Hooks", "CSS Layout"], 50, Available)
    ensures Lists(Ducks(t)[1], "2", "Professor Quack", ["Algorithms", "System Design", "Career Guidance"], 75, Available)
    ensures Lists(Ducks(t)[2], "3", "Zen Duck", ["Existential Support", "Imposter Syndrome", "Work-Life Balance"], 40, Busy)
    ensures Lists(Ducks(t)[3], "4", "Captain Debug", ["Backend Systems", "Database Issues", "Performance"], 60, Available)
    ensures Lists(Ducks(t)[4], "5", "Dr. Syntax", ["Code Quality", "Refactoring", "Best Practices"], 65, Offline)
    ensures Lists(Ducks(t)[5], "6", "Rubber Einstein", ["Complex Algorithms", "Math Problems", "AI/ML"], 80, Available)
    ensures Ducks(t)[0].mood == Mood(Focused, 100, true, t) && Ducks(t)[1].mood == Mood(Happy, 95, true, t)
    ensures Ducks(t)[2].mood == Mood(Sleepy, 110, false, t) && Ducks(t)[3].mood == Mood(Grumpy, 115, false, t)
    ensures Ducks(t)[4].mood == Mood(Excited, 90, true, t) && Ducks(t)[5].mood == Mood(Excited, 85, true, t)
    ensures forall i :: 0 <= i < 6 ==> Voiced(Ducks(t)[i].chatPersonality)
  {
    Entry1(t);
    Entry2(t);
    Entry3(t);
    Entry4(t);
    Entry5(t);
    Entry6(t);
  }

  // -----------------------------------------------------------------------
  // The catalog as a whole

  /** Six ducks with the distinct ids "1" to "6", in order. */
  lemma Ids(t: Time)
    ensures forall i :: 0 <= i < |Ducks(t)| ==> Ducks(t)[i].id == [['1', '2', '3', '4', '5', '6'][i]]
    ensures forall i, j :: 0 <= i < j < |Ducks(t)| ==> Ducks(t)[i].id != Ducks(t)[j].id
  {
    EveryEntry(t);
    var ds := Ducks(t);
    forall i, j | 0 <= i < j < 6
      ensures ds[i].id != ds[j].id
    {
      assert ds[i].id[0] != ds[j].id[0];
    }
  }

  /** The hourly rates, all positive whole dollars. */
  lemma Rates(t: Time)
    ensures Ducks(t)[0].hourlyRate == 50 && Ducks(t)[1].hourlyRate == 75
    ensures Ducks(t)[2].hourlyRate == 40 && Ducks(t)[3].hourlyRate == 60
    ensures Ducks(t)[4].hourlyRate == 65 && Ducks(t)[5].hourlyRate == 80
    ensures forall i :: 0 <= i < |Ducks(t)| ==> Ducks(t)[i].hourlyRate > 0
  {
    EveryEntry(t);
  }

  /** Zen Duck is busy, Dr. Syntax is offline, the other four are available. */
  lemma Availabilities(t: Time)
    ensures Ducks(t)[2].name == "Zen Duck" && Ducks(t)[2].availability == Busy
    ensures Ducks(t)[4].name == "Dr. Syntax" && Ducks(t)[4].availability == Offline
    ensures forall i :: 0 <= i < |Ducks(t)| && i != 2 && i != 4 ==> Ducks(t)[i].availability == Available
  {
    EveryEntry(t);
  }

  /** Every duck has three non-empty lines of each kind, so every duck can
      always answer and never answers with an empty string. */
  lemma Personalities(t: Time)
    ensures forall i :: 0 <= i < |Ducks(t)| ==> Voiced(Ducks(t)[i].chatPersonality)
    ensures Chat.AllSpeak(Ducks(t))
  {
    EveryEntry(t);
  }

  /** The seed moods of ducks 1, 3 and 6 agree with the mood table; those
      of ducks 2 (happy at 0.95), 4 (grumpy at 1.15) and 5 (excited at 0.9)
      do not, so table consistency only holds after the first update. */
  lemma SeedMoods(t: Time)
    ensures forall i :: 0 <= i < |Ducks(t)| ==>
      (MoodSystem.Consistent(Ducks(t)[i].mood) <==> i == 0 || i == 2 || i == 5)
    ensures forall i :: 0 <= i < |Ducks(t)| ==> Ducks(t)[i].mood.lastUpdated == t
    ensures !MoodSystem.AllConsistent(Ducks(t))
  {
    EveryEntry(t);
  }

  /** Every seed modifier lies in the documented range [0.8, 1.3]. */
  lemma SeedModifierRange(t: Time)
    ensures forall i :: 0 <= i < |Ducks(t)| ==> 80 <= Ducks(t)[i].mood.priceModifier <= 130
  {
    EveryEntry(t);
  }

  /** Duck "1", Debugbert. */
  function Duck1(loadedAt: Time): Duck {
    Duck(
      id := "1",
      name := "Debugbert",
      image := "🦆",
      location := "Silicon Valley, CA",
      specialties := [
        "Frontend Bugs",
        "React Hooks",
        "CSS Layout"],
      personality := "Patient and methodical " + "with a passion for clean " + "code",
      hourlyRate := 50,
      rating := 49,
      reviewCount := 247,
      availability := Available,
      description := "A veteran of countless " + "debugging sessions, " +
          "Debugbert has seen every " + "JavaScript error " + "imaginable.",
      experience := "5 years",
      favoriteProblems := [
        "Infinite loops",
        "Missing semicolons",
        "Async/await confusion"],
      mood := Mood(Focused, 100, true, loadedAt),
      chatPersonality := ChatPersonality(
        greeting := "Quack! I'm Debugbert, " + "ready to dive into your " +
            "code together. What's " + "the bug that's been " + "bothering you?",
        debuggingStyle := "methodical and patient",
        catchPhrases := [
          "Let's break this down " + "step by step",
          "Every bug has a story",
          "The devil's in the " + "details"],
        responsePatterns := ResponsePatterns(
          encouragement := [
            "You're on the right " + "track! 🦆",
            "Every developer faces " + "this - you've got this!",
            "Debugging is a skill, " + "and you're learning it " + "well!"],
          confusion := [
            "Hmm, let me think about " + "this differently... 🤔",
            "That's an interesting " + "case! Let's explore it " + "together.",
            "I haven't seen this " + "exact pattern before - " + "exciting!"],
          success := [
            "Excellent! You found it! " + "🎉",
            "Beautiful debugging " + "work!",
            "That's the developer " + "mindset in action!"],
          frustration := [
            "Take a deep breath. " + "These tricky bugs " + "require patience.",
            "Let's step back and look " + "at this from another " + "angle.",
            "Even senior developers " + "get stuck on bugs like " + "this."])))
  }

  /** Duck "2", Professor Quack. */
  function Duck2(loadedAt: Time): Duck {
    Duck(
      id := "2",
      name := "Professor Quack",
      image := "🎓",
      location := "Cambridge, UK",
      specialties := [
        "Algorithms",
        "System Design",
        "Career Guidance"],
      personality := "Wise and encouraging, " + "with decades of industry " + "wisdom",
      hourlyRate := 75,
      rating := 48,
      reviewCount := 189,
      availability := Available,
      description := "Former tech lead turned " + "career coach, " + "specializing in helping " +
          "developers level up.",
      experience := "15 years",
      favoriteProblems := [
        "Technical interviews",
        "Architecture decisions",
        "Career pivots"],
      mood := Mood(Happy, 95, true, loadedAt),
      chatPersonality := ChatPersonality(
        greeting := "Greetings, my dear " + "student! Professor Quack " +
            "here, ready to share " + "some wisdom from the " + "trenches of tech.",
        debuggingStyle := "educational and thorough",
        catchPhrases := [
          "Knowledge is power",
          "Learn from every bug",
          "The best code tells a " + "story"],
        responsePatterns := ResponsePatterns(
          encouragement := [
            "Splendid thinking! " + "You're developing " + "excellent " +
                "problem-solving skills! " + "🎓",
            "That's the mark of a " + "true developer - " + "persistence!",
            "You're learning faster " + "than my best students!"],
          confusion := [
            "Ah, an interesting " + "conundrum! Let me " + "consult my notes...",
            "This reminds me of a " + "case I encountered in " + "'98...",
            "Fascinating! This calls " + "for deeper " + "investigation."],
          success := [
            "Bravo! A textbook " + "solution! 📚",
            "You've mastered this " + "concept beautifully!",
            "That's going in my " + "collection of elegant " + "solutions!"],
          frustration := [
            "Patience, young " + "grasshopper. Mastery " + "takes time.",
            "The most challenging " + "bugs teach us the most.",
            "Remember: every expert " + "was once a beginner."])))
  }

  /** Duck "3", Zen Duck. */
  function Duck3(loadedAt: Time): Duck {
    Duck(
      id := "3",
      name := "Zen Duck",
      image := "🧘",
      location := "Kyoto, Japan",
      specialties := [
        "Existential Support",
        "Imposter Syndrome",
        "Work-Life Balance"],
      personality := "Calm and philosophical, " + "brings peace to chaotic " + "debugging sessions",
      hourlyRate := 40,
      rating := 50,
      reviewCount := 156,
      availability := Busy,
      description := "A mindfulness expert who " + "helps developers find " +
          "inner peace amidst code " + "chaos.",
      experience := "8 years",
      favoriteProblems := [
        "Burnout prevention",
        "Meditation breaks",
        "Perspective shifts"],
      mood := Mood(Sleepy, 110, false, loadedAt),
      chatPersonality := ChatPersonality(
        greeting := "🧘‍♀️ Peace, friend. I am " + "Zen Duck. Let us find " +
            "tranquility in the chaos " + "of your code.",
        debuggingStyle := "mindful and reflective",
        catchPhrases := [
          "Breathe and code",
          "Find balance in the bug",
          "The answer lies within"],
        responsePatterns := ResponsePatterns(
          encouragement := [
            "Your journey is " + "unfolding perfectly 🌸",
            "Trust in your abilities " + "- they are stronger than " + "you know",
            "Every challenge is a " + "opportunity for growth"],
          confusion := [
            "Let us sit with this " + "uncertainty for a " + "moment...",
            "Sometimes the path " + "reveals itself slowly",
            "In confusion, we often " + "find clarity"],
          success := [
            "Harmony achieved! The " + "code flows like water 🌊",
            "Beautiful! You have " + "found your center",
            "The solution was within " + "you all along"],
          frustration := [
            "Breathe deeply. Let the " + "frustration flow through " + "you and away.",
            "This too shall pass. All " + "bugs are temporary.",
            "Step away, clear your " + "mind, then return with " + "fresh eyes."])))
  }

  /** Duck "4", Captain Debug. */
  function Duck4(loadedAt: Time): Duck {
    Duck(
      id := "4",
      name := "Captain Debug",
      image := "⚓",
      location := "Amsterdam, Netherlands",
      specialties := [
        "Backend Systems",
        "Database Issues",
        "Performance"],
      personality := "Direct and efficient, " + "navigates complex " +
          "systems like a seasoned " + "sailor",
      hourlyRate := 60,
      rating := 47,
      reviewCount := 203,
      availability := Available,
      description := "A backend specialist who " + "can untangle the most " +
          "complex distributed " + "systems.",
      experience := "10 years",
      favoriteProblems := [
        "Race conditions",
        "Database deadlocks",
        "Memory leaks"],
      mood := Mood(Grumpy, 115, false, loadedAt),
      chatPersonality := ChatPersonality(
        greeting := "Ahoy! Captain Debug at " + "your service. Let's " +
            "navigate these troubled " + "waters and fix your " + "systems!",
        debuggingStyle := "direct and systematic",
        catchPhrases := [
          "Steady as she goes",
          "All hands on deck",
          "Navigate by the logs"],
        responsePatterns := ResponsePatterns(
          encouragement := [
            "Aye! You're steering the " + "ship well! ⚓",
            "That's the spirit of a " + "true navigator!",
            "You've got the makings " + "of a fine systems " + "sailor!"],
          confusion := [
            "Batten down the hatches! " + "This storm needs careful " + "navigation.",
            "Choppy waters ahead, but " + "we'll find our way.",
            "Time to check the " + "compass and adjust " + "course."],
          success := [
            "Land ho! You've reached " + "port safely! 🚢",
            "Smooth sailing! Well " + "navigated!",
            "That's how you captain a " + "codebase!"],
          frustration := [
            "Easy there, sailor. Even " + "the roughest seas can be " + "conquered.",
            "Every storm passes. Stay " + "the course.",
            "Drop anchor, take a " + "moment, then sail on."])))
  }

  /** Duck "5", Dr. Syntax. */
  function Duck5(loadedAt: Time): Duck {
    Duck(
      id := "5",
      name := "Dr. Syntax",
      image := "🔬",
      location := "Zurich, Switzerland",
      specialties := [
        "Code Quality",
        "Refactoring",
        "Best Practices"],
      personality := "Precise and " + "detail-oriented, with an " + "eye for elegant " +
          "solutions",
      hourlyRate := 65,
      rating := 49,
      reviewCount := 178,
      availability := Offline,
      description := "A code quality expert " + "who transforms messy " +
          "codebases into works of " + "art.",
      experience := "12 years",
      favoriteProblems := [
        "Technical debt",
        "Code smells",
        "Architecture patterns"],
      mood := Mood(Excited, 90, true, loadedAt),
      chatPersonality := ChatPersonality(
        greeting := "Greetings! Dr. Syntax " + "here, ready to conduct a " +
            "thorough examination of " + "your code. Precision is " + "key!",
        debuggingStyle := "scientific and " + "analytical",
        catchPhrases := [
          "Hypothesis first",
          "Data-driven decisions",
          "Elegant solutions only"],
        responsePatterns := ResponsePatterns(
          encouragement := [
            "Excellent methodology! " + "Your approach is " + "scientifically sound! 🔬",
            "That's the precision I " + "like to see!",
            "You're developing " + "excellent analytical " + "skills!"],
          confusion := [
            "Fascinating specimen! " + "This requires further " + "analysis...",
            "Let me adjust my " + "microscope for a closer " + "look.",
            "Interesting anomaly - " + "time for controlled " + "experimentation."],
          success := [
            "Eureka! A perfectly " + "elegant solution! ⚗️",
            "Beautiful! That's " + "textbook-quality code!",
            "Hypothesis confirmed! " + "Brilliant work!"],
          frustration := [
            "Science is patience. " + "Great discoveries take " + "time.",
            "Even Einstein had failed " + "experiments.",
            "Let's approach this " + "systematically, one " + "variable at a time."])))
  }

  /** Duck "6", Rubber Einstein. */
  function Duck6(loadedAt: Time): Duck {
    Duck(
      id := "6",
      name := "Rubber Einstein",
      image := "🤯",
      location := "Berlin, Germany",
      specialties := [
        "Complex Algorithms",
        "Math Problems",
        "AI/ML"],
      personality := "Brilliant and creative, " + "approaches problems from " + "unexpected angles",
      hourlyRate := 80,
      rating := 48,
      reviewCount := 134,
      availability := Available,
      description := "A genius-level problem " + "solver specializing in " +
          "the most challenging " + "technical puzzles.",
      experience := "7 years",
      favoriteProblems := [
        "NP-hard problems",
        "Neural networks",
        "Quantum computing"],
      mood := Mood(Excited, 85, true, loadedAt),
      chatPersonality := ChatPersonality(
        greeting := "Guten Tag! *adjusts " + "imaginary mustache* " + "Rubber Einstein here! " +
            "Ready to bend the laws " + "of logic to solve your " + "problem!",
        debuggingStyle := "creative and innovative",
        catchPhrases := [
          "Think different",
          "Imagination > knowledge",
          "Simplicity is genius"],
        responsePatterns := ResponsePatterns(
          encouragement := [
            "Wunderbar! Your mind is " + "expanding like the " + "universe! 🌌",
            "Creativity flows through " + "you like cosmic " + "radiation!",
            "You're thinking like a " + "true innovator!"],
          confusion := [
            "Ach! A beautiful " + "paradox! Let me " + "recalibrate my " + "equations...",
            "This defies conventional " + "logic - how exciting!",
            "Time to think in four " + "dimensions!"],
          success := [
            "E=mc²! Pure genius! 🧠⚡",
            "Relatively speaking, " + "that's absolutely " + "brilliant!",
            "You've just proven " + "elegance exists in code!"],
          frustration := [
            "Even I struggled with " + "relativity for years!",
            "The greatest minds face " + "the greatest challenges.",
            "Sometimes you must break " + "the rules to find the " + "answer."])))
  }
}
