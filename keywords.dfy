/** The interceptor `handle_special_keywords` (app.py:28-179): before any retrieval, the
    lower-cased question is tested against an ordered if/elif chain of keyword categories,
    and the first category with a keyword occurring in it answers with one of its canned
    responses. */
module Keywords {
  import opened Text
  import opened Wrappers

  /** What `datetime.now()` contributes to the date and time answers: the formatted date
      (`%B %d, %Y`), the weekday name (`%A`) and the time (`%I:%M %p`). */
  datatype Clock = Clock(formattedDate: string, dayName: string, currentTime: string)

  /** A field of the clock that a response interpolates. */
  datatype Field = FormattedDate | DayName | CurrentTime

  function FieldValue(f: Field, clock: Clock): string
  {
    match f
    case FormattedDate => clock.formattedDate
    case DayName => clock.dayName
    case CurrentTime => clock.currentTime
  }

  /** A response as an f-string: the text before the first field, then each field followed
      by the text after it. A fixed response has no field. */
  datatype Response = Response(head: string, rest: seq<(Field, string)>)

  function Fixed(text: string): Response
  {
    Response(text, [])
  }

  function RenderRest(rest: seq<(Field, string)>, clock: Clock): string
  {
    if |rest| == 0 then "" else FieldValue(rest[0].0, clock) + rest[0].1 + RenderRest(rest[1..], clock)
  }

  /** The text of a response once the clock's fields are filled in. */
  function Render(r: Response, clock: Clock): string
  {
    r.head + RenderRest(r.rest, clock)
  }

  /** A fixed response is its own text. */
  lemma RenderFixed(text: string, clock: Clock)
    ensures Render(Fixed(text), clock) == text
  {
  }

  /** `text` is one of `responses`, rendered with `clock`. */
  ghost predicate IsResponseOf(text: string, responses: seq<Response>, clock: Clock)
  {
    exists k :: 0 <= k < |responses| && text == Render(responses[k], clock)
  }

  // greetings (app.py:37-44)
  const HelloKeywords: seq<string> := [
    "hello",
    "hi",
    "hey",
    "greetings",
    "good morning",
    "good afternoon",
    "good evening",
    "hola",
    "namaste"
  ]
  const HelloResponses: seq<Response> := [
    Fixed("👋 Hello there! Ready to dive into some PDF magic? What would you like to explore today?"),
    Fixed("🌟 Hey! I'm your PDF companion - let's unlock some knowledge together!"),
    Fixed("👋 Greetings! I'm here to make your PDFs talk. What secrets shall we uncover?"),
    Fixed("🤖 Hello human! Time to turn your documents into conversations. What's on your mind?"),
    Fixed("✨ Hi! Consider me your personal PDF whisperer. What would you like to know?")
  ]

  // current date and time (app.py:47-48)
  const DateKeywords: seq<string> := [
    "date",
    "today",
    "what day",
    "current date",
    "todays date",
    "what's the date"
  ]
  const TimeKeywords: seq<string> := [
    "time",
    "current time",
    "what time",
    "clock"
  ]

  // how was your day (app.py:51-58)
  const DayKeywords: seq<string> := [
    "how was your day",
    "how is your day",
    "how are you doing",
    "how is it going",
    "what's up",
    "whats up",
    "how are you"
  ]
  const DayResponses: seq<Response> := [
    Fixed("🤖 My day's been fantastic! I've been helping people chat with their PDFs and it's absolutely electrifying! ⚡ How about you?"),
    Fixed("📚 Amazing! I spent my day diving deep into documents and surfacing insights. It's like being a digital archaeologist! How's your day going?"),
    Fixed("💫 Wonderful! I've been busy turning static text into dynamic conversations. Each PDF is like a new adventure! What about your day?"),
    Fixed("🎯 Brilliant! I love connecting people with their document's hidden knowledge. It's like matchmaking, but for information! How are you?"),
    Fixed("🚀 Incredible! Every question you humans ask teaches me something new about curiosity. Speaking of which, how's your day treating you?")
  ]

  // who are you (app.py:61-67)
  const AboutKeywords: seq<string> := [
    "who are you",
    "what are you",
    "about you",
    "introduce yourself",
    "tell me about yourself"
  ]
  const AboutResponses: seq<Response> := [
    Fixed("🤖 I'm your friendly PDF assistant! Think of me as a librarian who never sleeps and loves turning documents into conversations. What can I help you discover?"),
    Fixed("📚 I'm a digital document whisperer! I speak fluent PDF and love helping people unlock the knowledge hidden in their files. Ready to explore?"),
    Fixed("✨ I'm your AI-powered reading companion! I transform boring document searches into exciting knowledge quests. What adventure shall we embark on?"),
    Fixed("🎯 I'm a knowledge extraction specialist! I turn your PDFs into chatty companions. Think of me as your personal document translator!")
  ]

  // capabilities (app.py:70-75)
  const CapabilityKeywords: seq<string> := [
    "what can you do",
    "help",
    "capabilities",
    "features",
    "how do you work"
  ]
  const CapabilityResponses: seq<Response> := [
    Fixed("🚀 I can:\n• 📄 Read and understand your PDFs\n• 🔍 Search through multiple documents instantly\n• 💬 Answer questions in plain English\n• 📝 Summarize content\n• 🎯 Find specific information\n• 💡 Provide insights and explanations\n\nJust upload your PDFs and start asking!"),
    Fixed("⚡ My superpowers include:\n• 📚 Speed-reading entire documents in seconds\n• 🧠 Understanding context and meaning\n• 🔗 Connecting information across multiple PDFs\n• 💭 Explaining complex topics simply\n• 🎪 Making boring documents entertaining!\n\nWhat would you like to explore?"),
    Fixed("🌟 I'm your PDF Swiss Army knife! I can:\n• 📖 Extract key information\n• 🔍 Perform semantic search\n• 💬 Engage in document-based conversations\n• 📊 Analyze and compare content\n• 🎓 Help with research and study\n\nLet's get started!")
  ]

  // jokes (app.py:80-87)
  const JokeKeywords: seq<string> := [
    "joke",
    "funny",
    "laugh",
    "humor",
    "entertain me"
  ]
  const JokeResponses: seq<Response> := [
    Fixed("😄 Why don't PDFs ever get lost? Because they always have their bookmarks! 📖✨"),
    Fixed("🤣 What's a PDF's favorite type of music? Heavy Meta-data! 🎵📄"),
    Fixed("😂 Why did the PDF go to therapy? It had too many layers and needed to decompress! 🗂️💆‍♀️"),
    Fixed("🎭 What do you call a PDF that tells jokes? A Comic Sans document! (Sorry, that was terrible! 😅)"),
    Fixed("😆 Why are PDFs great at parties? They always bring the right format! 🎉📋")
  ]

  // goodbye (app.py:90-96)
  const GoodbyeKeywords: seq<string> := [
    "bye",
    "goodbye",
    "see you",
    "farewell",
    "exit",
    "quit"
  ]
  const GoodbyeResponses: seq<Response> := [
    Fixed("👋 Goodbye! Remember, your PDFs and I will be here whenever you need us. Happy reading! 📚✨"),
    Fixed("🌟 See you later! May your documents be ever searchable and your answers always found! 🔍💫"),
    Fixed("👋 Farewell, knowledge seeker! Come back anytime you need to chat with your PDFs! 📄💬"),
    Fixed("✨ Until next time! Keep exploring, keep questioning, and keep learning! 🚀📖")
  ]

  // compliments (app.py:99-106)
  const ComplimentKeywords: seq<string> := [
    "good job",
    "great",
    "awesome",
    "excellent",
    "amazing",
    "wonderful",
    "fantastic",
    "brilliant"
  ]
  const ComplimentResponses: seq<Response> := [
    Fixed("🥰 Aww, thank you! You're pretty awesome yourself for exploring knowledge through your documents! ⭐"),
    Fixed("😊 That means a lot! I'm just happy to help you unlock the treasures in your PDFs! 💎📚"),
    Fixed("🌟 You're too kind! Team work makes the dream work - you ask great questions! 🤝✨"),
    Fixed("💖 Thanks! I love helping curious minds like yours dive deep into documents! 🤿📄"),
    Fixed("🎉 You're making my circuits happy! Keep those questions coming! ⚡🤖")
  ]

  // age (app.py:152-153)
  const AgeKeywords: seq<string> := [
    "age",
    "old are you"
  ]
  const AgeResponses: seq<Response> := [
    Fixed("🤖 I'm as old as your latest PDF upload and as young as your next question! Age is just a number in the digital realm! ✨🔢")
  ]

  // birthday (app.py:155-156)
  const BirthdayKeywords: seq<string> := [
    "birthday"
  ]
  const BirthdayResponses: seq<Response> := [
    Fixed("🎂 I celebrate my birthday every time you upload a new PDF! Each document gives me new life and purpose! 🎉📚")
  ]

  // favourites (app.py:158-165)
  const FavoriteKeywords: seq<string> := [
    "favorite"
  ]
  const FavoriteResponses: seq<Response> := [
    Fixed("📚 My favorite thing? Discovering hidden gems in your documents!"),
    Fixed("🔍 I love connecting dots between different parts of your PDFs!"),
    Fixed("💡 My favorite moments are when I help you find exactly what you need!"),
    Fixed("✨ I'm passionate about turning complex documents into simple conversations!")
  ]

  // gratitude (app.py:169-177)
  const GratitudeKeywords: seq<string> := [
    "thank you",
    "thanks",
    "dhanyavaad",
    "thank you so much",
    "great job"
  ]
  const GratitudeResponses: seq<Response> := [
    Fixed("🤗 My pleasure! That's what I'm here for - making your PDF journey smoother!"),
    Fixed("😊 You're very welcome! Happy to help a fellow knowledge explorer!"),
    Fixed("✨ Anytime! Your curiosity makes my circuits happy!"),
    Fixed("🌟 Glad I could help! Keep those questions coming!"),
    Fixed("💫 You're so welcome! Together we're unlocking document mysteries!")
  ]

  /** The date responses of app.py:117-121. */
  const DateResponses: seq<Response> := [
    Response("📅 Today is ", [(DayName, ", "), (FormattedDate, "! Perfect day for some PDF exploration, don't you think? ✨")]),
    Response("🗓️ It's ", [(FormattedDate, " ("), (DayName, ") - time flies when you're having fun with documents! ⏰📚")]),
    Response("📆 Today's date is ", [(FormattedDate, "! A "), (DayName, " well spent reading PDFs is a day well spent indeed! 🌟")])
  ]

  /** The time responses of app.py:126-130. */
  const TimeResponses: seq<Response> := [
    Response("🕐 It's ", [(CurrentTime, " - always a good time to learn something new from your PDFs! ⏰✨")]),
    Response("⏰ The time is ", [(CurrentTime, ". Time for some document adventures? 🚀📄")]),
    Response("🕒 Current time: ", [(CurrentTime, " - every moment is a great moment for knowledge discovery! 💡")])
  ]

  /** The categories of the chain, in the order the source tests them (app.py:110-177). */
  datatype Topic =
    | Greeting | Date | Time | Day | About | Capability | Joke | Goodbye
    | Compliment | Age | Birthday | Favorite | Gratitude

  /** The position of a category in the chain. */
  function Rank(t: Topic): nat
  {
    match t
    case Greeting => 0
    case Date => 1
    case Time => 2
    case Day => 3
    case About => 4
    case Capability => 5
    case Joke => 6
    case Goodbye => 7
    case Compliment => 8
    case Age => 9
    case Birthday => 10
    case Favorite => 11
    case Gratitude => 12
  }

  function KeywordsOf(t: Topic): seq<string>
  {
    match t
    case Greeting => HelloKeywords
    case Date => DateKeywords
    case Time => TimeKeywords
    case Day => DayKeywords
    case About => AboutKeywords
    case Capability => CapabilityKeywords
    case Joke => JokeKeywords
    case Goodbye => GoodbyeKeywords
    case Compliment => ComplimentKeywords
    case Age => AgeKeywords
    case Birthday => BirthdayKeywords
    case Favorite => FavoriteKeywords
    case Gratitude => GratitudeKeywords
  }

  /** The responses `random.choice` picks from; every category has at least one. */
  function ResponsesOf(t: Topic): (rs: seq<Response>)
    ensures |rs| > 0
  {
    match t
    case Greeting => HelloResponses
    case Date => DateResponses
    case Time => TimeResponses
    case Day => DayResponses
    case About => AboutResponses
    case Capability => CapabilityResponses
    case Joke => JokeResponses
    case Goodbye => GoodbyeResponses
    case Compliment => ComplimentResponses
    case Age => AgeResponses
    case Birthday => BirthdayResponses
    case Favorite => FavoriteResponses
    case Gratitude => GratitudeResponses
  }

  /** `any(keyword in s for keyword in keywords)`. */
  predicate AnyKeywordIn(keywords: seq<string>, s: string)
  {
    exists i :: 0 <= i < |keywords| && Contains(s, keywords[i])
  }

  /** A category fires on `s` when one of its keywords occurs in `s`. */
  predicate Matches(t: Topic, s: string)
  {
    AnyKeywordIn(KeywordsOf(t), s)
  }

  /** The if/elif chain on the lower-cased question `s`: the category that answers, if
      any, which is one that fires. */
  function Classify(s: string): (r: Option<Topic>)
    ensures r.Some? ==> Matches(r.value, s)
  {
    if AnyKeywordIn(HelloKeywords, s) then Some(Greeting)
    else if AnyKeywordIn(DateKeywords, s) then Some(Date)
    else if AnyKeywordIn(TimeKeywords, s) then Some(Time)
    else if AnyKeywordIn(DayKeywords, s) then Some(Day)
    else if AnyKeywordIn(AboutKeywords, s) then Some(About)
    else if AnyKeywordIn(CapabilityKeywords, s) then Some(Capability)
    else if AnyKeywordIn(JokeKeywords, s) then Some(Joke)
    else if AnyKeywordIn(GoodbyeKeywords, s) then Some(Goodbye)
    else if AnyKeywordIn(ComplimentKeywords, s) then Some(Compliment)
    else if AnyKeywordIn(AgeKeywords, s) then Some(Age)
    else if AnyKeywordIn(BirthdayKeywords, s) then Some(Birthday)
    else if AnyKeywordIn(FavoriteKeywords, s) then Some(Favorite)
    else if AnyKeywordIn(GratitudeKeywords, s) then Some(Gratitude)
    else None
  }

  /** First-match semantics: every category before the one that answers does not fire,
      and when none answers, no category fires. */
  lemma ClassifyFirstMatch(s: string, u: Topic)
    ensures Classify(s).Some? && Rank(u) < Rank(Classify(s).value) ==> !Matches(u, s)
    ensures Classify(s).None? ==> !Matches(u, s)
  {
    match u
    case Greeting =>
    case Date =>
    case Time =>
    case Day =>
    case About =>
    case Capability =>
    case Joke =>
    case Goodbye =>
    case Compliment =>
    case Age =>
    case Birthday =>
    case Favorite =>
    case Gratitude =>
  }

  /** Some category answers exactly when some category fires. */
  lemma ClassifyNoneIff(s: string)
    ensures Classify(s).None? <==> forall t :: !Matches(t, s)
  {
    forall t ensures Classify(s).None? ==> !Matches(t, s) {
      ClassifyFirstMatch(s, t);
    }
  }

  /** `handle_special_keywords(question, _)`: `(True, response)` when a category fires on the
      lower-cased question, with a response of the first such category, and `(False, None)`
      otherwise. The draw that `random.choice` makes is `draw`, and `datetime.now()` is
      `clock`. */
  function HandleSpecialKeywords(question: string, clock: Clock, draw: nat): (r: (bool, Option<string>))
    ensures r.0 <==> exists t :: Matches(t, ToLower(question))
    ensures !r.0 ==> r.1 == None
    ensures r.0 ==> exists t ::
      && Matches(t, ToLower(question))
      && (forall u :: Rank(u) < Rank(t) ==> !Matches(u, ToLower(question)))
      && r.1.Some? && IsResponseOf(r.1.value, ResponsesOf(t), clock)
  {
    ClassifyNoneIff(ToLower(question));
    match Classify(ToLower(question))
    case None => (false, None)
    case Some(t) =>
      assert forall u :: Rank(u) < Rank(t) ==> !Matches(u, ToLower(question)) by {
        forall u ensures Rank(u) < Rank(t) ==> !Matches(u, ToLower(question)) {
          ClassifyFirstMatch(ToLower(question), u);
        }
      }
      var responses := ResponsesOf(t);
      var k := draw % |responses|;
      (true, Some(Render(responses[k], clock)))
  }

  /** The answer when category `t` is the one that fires. */
  lemma AnswerOf(question: string, clock: Clock, draw: nat, t: Topic)
    requires Classify(ToLower(question)) == Some(t)
    ensures var responses := ResponsesOf(t);
      HandleSpecialKeywords(question, clock, draw) == (true, Some(Render(responses[draw % |responses|], clock)))
  {
  }

  /** `random.choice` may return any response of the category that fires: each one is the
      answer for some draw. */
  lemma EveryResponseDrawable(question: string, clock: Clock, t: Topic, k: nat)
    requires Classify(ToLower(question)) == Some(t) && k < |ResponsesOf(t)|
    ensures HandleSpecialKeywords(question, clock, k).1 == Some(Render(ResponsesOf(t)[k], clock))
  {
    var n := |ResponsesOf(t)|;
    ModOfSmaller(k, n);
    AnswerOf(question, clock, k, t);
  }

  lemma ModOfSmaller(k: nat, n: nat)
    requires k < n
    ensures k % n == k
  {
  }

  /** A date answer names the date and the weekday of `clock`. */
  lemma DateAnswerNamesDate(question: string, clock: Clock, draw: nat)
    requires Classify(ToLower(question)) == Some(Date)
    ensures var r := HandleSpecialKeywords(question, clock, draw);
      r.1.Some? && Contains(r.1.value, clock.formattedDate) && Contains(r.1.value, clock.dayName)
  {
    AnswerOf(question, clock, draw, Date);
    var k := draw % |DateResponses|;
    var resp := DateResponses[k];
    assert |resp.rest| == 2;
    assert {resp.rest[0].0, resp.rest[1].0} == {FormattedDate, DayName};
    TwoFieldsShown(resp.head, resp.rest[0].0, resp.rest[0].1, resp.rest[1].0, resp.rest[1].1, clock);
  }

  /** A time answer names the time of `clock`. */
  lemma TimeAnswerNamesTime(question: string, clock: Clock, draw: nat)
    requires Classify(ToLower(question)) == Some(Time)
    ensures var r := HandleSpecialKeywords(question, clock, draw);
      r.1.Some? && Contains(r.1.value, clock.currentTime)
  {
    AnswerOf(question, clock, draw, Time);
    var k := draw % |TimeResponses|;
    var resp := TimeResponses[k];
    assert |resp.rest| == 1 && resp.rest[0].0 == CurrentTime;
    OneFieldShown(resp.head, resp.rest[0].0, resp.rest[0].1, clock);
  }

  lemma TwoFieldsShown(h: string, f1: Field, s1: string, f2: Field, s2: string, clock: Clock)
    ensures var t := Render(Response(h, [(f1, s1), (f2, s2)]), clock);
      Contains(t, FieldValue(f1, clock)) && Contains(t, FieldValue(f2, clock))
  {
    var v1, v2 := FieldValue(f1, clock), FieldValue(f2, clock);
    var rest := [(f1, s1), (f2, s2)];
    assert rest[1..] == [(f2, s2)] && rest[1..][1..] == [];
    assert RenderRest(rest[1..], clock) == v2 + s2 + RenderRest([], clock);
    assert RenderRest(rest, clock) == v1 + s1 + (v2 + s2);
    assert Render(Response(h, rest), clock) == h + v1 + (s1 + v2 + s2);
    ContainsInfix(h, v1, s1 + v2 + s2);
    assert h + v1 + (s1 + v2 + s2) == (h + v1 + s1) + v2 + s2;
    ContainsInfix(h + v1 + s1, v2, s2);
  }

  lemma OneFieldShown(h: string, f: Field, s: string, clock: Clock)
    ensures Contains(Render(Response(h, [(f, s)]), clock), FieldValue(f, clock))
  {
    assert [(f, s)][1..] == [];
    assert RenderRest([(f, s)], clock) == FieldValue(f, clock) + s + RenderRest([], clock);
    assert Render(Response(h, [(f, s)]), clock) == h + FieldValue(f, clock) + s;
    ContainsInfix(h, FieldValue(f, clock), s);
  }

  /** No keyword of `keywords` occurs in `s` when each has a character (`marks[i]`)
      that `s` lacks. */
  lemma ExcludedByMissingChars(keywords: seq<string>, s: string, marks: string)
    requires |marks| == |keywords|
    requires forall i :: 0 <= i < |marks| ==> marks[i] in keywords[i] && marks[i] !in s
    ensures !AnyKeywordIn(keywords, s)
  {
    forall i | 0 <= i < |marks| ensures !Contains(s, keywords[i]) {
      MissingCharNotContained(s, keywords[i], marks[i]);
    }
  }

  /** Greetings are tested first: any question whose lower-cased form contains "hi" gets a
      greeting, even when "hi" is only part of a word. */
  lemma GreetingWins(question: string, clock: Clock, draw: nat)
    requires Contains(ToLower(question), "hi")
    ensures var r := HandleSpecialKeywords(question, clock, draw);
      r.0 && r.1.Some? && IsResponseOf(r.1.value, HelloResponses, clock)
  {
    assert HelloKeywords[1] == "hi";
    assert Classify(ToLower(question)) == Some(Greeting);
    AnswerOf(question, clock, draw, Greeting);
  }

  /** "What is this?" is answered with a greeting, because "hi" occurs inside "this". */
  lemma ThisIsAGreeting(clock: Clock, draw: nat)
    ensures var r := HandleSpecialKeywords("What is this?", clock, draw);
      r.0 && r.1.Some? && IsResponseOf(r.1.value, HelloResponses, clock)
  {
    var s := ToLower("What is this?");
    assert s == "what is this?";
    assert s[9..11] == "hi";
    ContainsAt(s, "hi", 9);
    GreetingWins("What is this?", clock, draw);
  }

  /** "great" is a compliment keyword, tested before the gratitude category, so a question
      containing "great job" is never answered by the gratitude category: the gratitude
      keyword "great job" can never decide the answer. */
  lemma GreatJobNeverGratitude(question: string)
    requires Contains(ToLower(question), "great job")
    ensures var m := Classify(ToLower(question));
      m.Some? && Rank(m.value) <= Rank(Compliment) < Rank(Gratitude)
  {
    var s := ToLower(question);
    assert "great job"[0..5] == "great";
    ContainsAt("great job", "great", 0);
    ContainsTransitive(s, "great job", "great");
    assert ComplimentKeywords[1] == "great";
    assert Matches(Compliment, s);
  }

  /** "Great job!" matches none of the first eight categories: each of their keywords has a
      character that it lacks. */
  lemma GreatJobNotHello()
    ensures !AnyKeywordIn(HelloKeywords, "great job!")
  {
    ExcludedByMissingChars(HelloKeywords, "great job!", "hhhidddhn");
  }

  lemma GreatJobNotDate()
    ensures !AnyKeywordIn(DateKeywords, "great job!")
  {
    ExcludedByMissingChars(DateKeywords, "great job!", "ddhcdh");
  }

  lemma GreatJobNotTime()
    ensures !AnyKeywordIn(TimeKeywords, "great job!")
  {
    ExcludedByMissingChars(TimeKeywords, "great job!", "ichc");
  }

  lemma GreatJobNotDay()
    ensures !AnyKeywordIn(DayKeywords, "great job!")
  {
    ExcludedByMissingChars(DayKeywords, "great job!", "hhhhhhh");
  }

  lemma GreatJobNotAbout()
    ensures !AnyKeywordIn(AboutKeywords, "great job!")
  {
    ExcludedByMissingChars(AboutKeywords, "great job!", "hhuil");
  }

  lemma GreatJobNotCapability()
    ensures !AnyKeywordIn(CapabilityKeywords, "great job!")
  {
    ExcludedByMissingChars(CapabilityKeywords, "great job!", "hhcfh");
  }

  lemma GreatJobNotJoke()
    ensures !AnyKeywordIn(JokeKeywords, "great job!")
  {
    ExcludedByMissingChars(JokeKeywords, "great job!", "kflhn");
  }

  lemma GreatJobNotGoodbye()
    ensures !AnyKeywordIn(GoodbyeKeywords, "great job!")
  {
    ExcludedByMissingChars(GoodbyeKeywords, "great job!", "ydsfxq");
  }

  /** "Great job!" on its own gets a compliment. */
  lemma GreatJobIsACompliment(clock: Clock, draw: nat)
    ensures var r := HandleSpecialKeywords("Great job!", clock, draw);
      r.0 && IsResponseOf(r.1.value, ComplimentResponses, clock)
  {
    var s := ToLower("Great job!");
    assert s == "great job!";
    GreatJobNotHello();
    GreatJobNotDate();
    GreatJobNotTime();
    GreatJobNotDay();
    GreatJobNotAbout();
    GreatJobNotCapability();
    GreatJobNotJoke();
    GreatJobNotGoodbye();
    assert s[0..5] == "great";
    ContainsAt(s, "great", 0);
    assert AnyKeywordIn(ComplimentKeywords, s) by { assert ComplimentKeywords[1] == "great"; }
    assert Classify(s) == Some(Compliment);
    AnswerOf("Great job!", clock, draw, Compliment);
    assert HandleSpecialKeywords("Great job!", clock, draw).1.value
      == Render(ComplimentResponses[draw % |ComplimentResponses|], clock);
  }

  /** "summarize page 3" matches none of the first nine categories. */
  lemma PageNotHello()
    ensures !AnyKeywordIn(HelloKeywords, "summarize page 3")
  {
    ExcludedByMissingChars(HelloKeywords, "summarize page 3", "hhhtoooon");
  }

  lemma PageNotDate()
    ensures !AnyKeywordIn(DateKeywords, "summarize page 3")
  {
    ExcludedByMissingChars(DateKeywords, "summarize page 3", "dtdctt");
  }

  lemma PageNotTime()
    ensures !AnyKeywordIn(TimeKeywords, "summarize page 3")
  {
    ExcludedByMissingChars(TimeKeywords, "summarize page 3", "tctc");
  }

  lemma PageNotDay()
    ensures !AnyKeywordIn(DayKeywords, "summarize page 3")
  {
    ExcludedByMissingChars(DayKeywords, "summarize page 3", "hhhhhhh");
  }

  lemma PageNotAbout()
    ensures !AnyKeywordIn(AboutKeywords, "summarize page 3")
  {
    ExcludedByMissingChars(AboutKeywords, "summarize page 3", "hhbtt");
  }

  lemma PageNotCapability()
    ensures !AnyKeywordIn(CapabilityKeywords, "summarize page 3")
  {
    ExcludedByMissingChars(CapabilityKeywords, "summarize page 3", "hhcfh");
  }

  lemma PageNotJoke()
    ensures !AnyKeywordIn(JokeKeywords, "summarize page 3")
  {
    ExcludedByMissingChars(JokeKeywords, "summarize page 3", "jflht");
  }

  lemma PageNotGoodbye()
    ensures !AnyKeywordIn(GoodbyeKeywords, "summarize page 3")
  {
    ExcludedByMissingChars(GoodbyeKeywords, "summarize page 3", "bdyfxq");
  }

  lemma PageNotCompliment()
    ensures !AnyKeywordIn(ComplimentKeywords, "summarize page 3")
  {
    ExcludedByMissingChars(ComplimentKeywords, "summarize page 3", "otwxnwfb");
  }

  /** The lower-cased "Summarize page 3" first matches the age category. */
  lemma PageFirstMatch()
    ensures Classify("summarize page 3") == Some(Age)
  {
    var s := "summarize page 3";
    PageNotHello();
    PageNotDate();
    PageNotTime();
    PageNotDay();
    PageNotAbout();
    PageNotCapability();
    PageNotJoke();
    PageNotGoodbye();
    PageNotCompliment();
    assert s[11..14] == "age";
    ContainsAt(s, "age", 11);
    assert AnyKeywordIn(AgeKeywords, s) by { assert AgeKeywords[0] == "age"; }

  }

  /** Matching is by substring, so a question about a "page" is taken for a question about
      the assistant's age and never reaches the documents. */
  lemma PageAsksForAge(clock: Clock, draw: nat)
    ensures HandleSpecialKeywords("Summarize page 3", clock, draw) == (true, Some(AgeResponses[0].head))
  {
    assert ToLower("Summarize page 3") == "summarize page 3";
    PageFirstMatch();
    AnswerOf("Summarize page 3", clock, draw, Age);
    assert draw % |AgeResponses| == 0;
    RenderFixed(AgeResponses[0].head, clock);
  }
}
