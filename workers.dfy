/** The queue workers: the welcome-email handler and the daily news-email
    handler, with the two text generators they share.

    Every call to an external collaborator (user and watchlist queries, the
    news API, the Gemini client, the mail transport, the date formatter) is
    an input here: how each awaited call settles is given, and the model
    states what the handlers do with every combination of outcomes. */
module Workers {
  import opened JsString
  import AiFactory

  const MaxArticlesPerUser := 6
  const NoNewsSentence := "No market news available today."
  const WelcomeFallbackIntro :=
    "Thanks for joining Openstock. You now have the tools to track markets and make smarter moves."

  /** How an awaited call settles: with a value, with null or undefined, or
      by throwing. */
  datatype Settled<T> = Resolved(value: T) | ResolvedNull | Rejected

  /** One generateContent call on the Gemini client: its response text, or a
      thrown error. */
  datatype Generation = Generated(text: string) | GenerationFailed

  /** One sendMail call: it resolves or it throws. */
  datatype Delivery = Accepted | Refused

  datatype Article = Article(headline: string, summary: string, source: string, url: string, datetime: int)

  datatype User = User(id: string, email: string, name: string)

  /** One entry of the handler's perUser array. */
  datatype UserArticles = UserArticles(user: User, articles: seq<Article>)

  /** The arguments of one sendNewsSummaryEmail call. */
  datatype NewsEmail = NewsEmail(email: string, date: string, newsContent: string)

  /** How each external call made on behalf of one user settles, in the order
      the handler makes them. */
  datatype UserCalls = UserCalls(
    watchlist: Settled<seq<string>>,     // getWatchlistSymbolsByEmail(user.email)
    personalNews: Settled<seq<Article>>, // getNews(symbols)
    generalNews: Settled<seq<Article>>,  // getNews()
    summary: Generation,                 // generateContent inside generateNewsSummary
    delivery: Delivery)                  // sendNewsSummaryEmail

  /** What the news handler's promise settles with. */
  datatype NewsJobResult =
    | NoUsersFound               // { success: false, message: 'No users found' }
    | Processed(usersProcessed: nat) // { success: true, usersProcessed }
    | HandlerRejected            // the user query threw; the job fails

  /** The module-level Gemini client exists exactly when GEMINI_API_KEY is
      truthy; the workers do not consult createAIProvider. */
  predicate GenAIConfigured(env: AiFactory.Env) {
    AiFactory.IsSet(env.geminiApiKey)
  }

  // ---------------------------------------------------------------------
  // generateWelcomeIntro and generateNewsSummary

  /** The fallback chain both generators follow: without a client, on a
      thrown error, or on a blank response the fixed sentence; otherwise the
      trimmed response. */
  function GenerateOrFallback(genAI: bool, call: Generation, fallback: string): (r: string)
    ensures genAI && call.Generated? && !Blank(call.text) ==> r == Trim(call.text)
    ensures !(genAI && call.Generated? && !Blank(call.text)) ==> r == fallback
  {
    if !genAI then fallback
    else match call
      case GenerationFailed => fallback
      case Generated(text) => if Trim(text) != "" then Trim(text) else fallback
  }

  /** Generated text is handed over already trimmed and non-empty. */
  lemma GeneratedTextIsTrimmed(genAI: bool, call: Generation, fallback: string)
    ensures var r := GenerateOrFallback(genAI, call, fallback);
      r != fallback ==> r != "" && Trim(r) == r
  {
    if call.Generated? {
      TrimIdempotent(call.text);
    }
  }

  /** generateWelcomeIntro: the trimmed generated introduction when there is
      one, the fixed welcome sentence otherwise; never empty. */
  function GenerateWelcomeIntro(genAI: bool, call: Generation): (r: string)
    ensures r != ""
    ensures r == WelcomeFallbackIntro || (genAI && call.Generated? && r == Trim(call.text))
  {
    GenerateOrFallback(genAI, call, WelcomeFallbackIntro)
  }

  /** generateNewsSummary: the trimmed generated summary when there is one,
      'No market news available today.' otherwise; never empty. */
  function GenerateNewsSummary(genAI: bool, call: Generation): (r: string)
    ensures r != ""
    ensures r == NoNewsSentence || (genAI && call.Generated? && r == Trim(call.text))
  {
    GenerateOrFallback(genAI, call, NoNewsSentence)
  }

  // ---------------------------------------------------------------------
  // The welcome-email handler

  /** The job data queued at sign-up. */
  datatype WelcomeJob = WelcomeJob(
    email: string, name: string, country: string,
    investmentGoals: string, riskTolerance: string, preferredIndustry: string)

  /** The arguments of one sendWelcomeEmail call. */
  datatype WelcomeEmail = WelcomeEmail(email: string, name: string, intro: string)

  datatype WelcomeResult = WelcomeSent(email: string) | WelcomeJobFailed

  /** One run of the welcome handler: the email it hands to the transport and
      what its promise settles with. */
  datatype WelcomeRun = WelcomeRun(mail: WelcomeEmail, result: WelcomeResult)

  /** The welcome handler always sends exactly one email, to the address and
      name of the job, with a non-empty introduction; the job succeeds with
      that address exactly when the transport accepts it. */
  function WelcomeEmailJob(job: WelcomeJob, genAI: bool, call: Generation, delivery: Delivery): (r: WelcomeRun)
    ensures r.mail.email == job.email && r.mail.name == job.name
    ensures r.mail.intro == GenerateWelcomeIntro(genAI, call) && r.mail.intro != ""
    ensures r.result == WelcomeSent(job.email) <==> delivery == Accepted
    ensures r.result == WelcomeJobFailed <==> delivery == Refused
  {
    var intro := GenerateWelcomeIntro(genAI, call);
    var mail := WelcomeEmail(job.email, job.name, intro);
    WelcomeRun(mail, if delivery == Accepted then WelcomeSent(job.email) else WelcomeJobFailed)
  }

  // ---------------------------------------------------------------------
  // Preparing one user's articles

  /** `(articles || [])` on a settled getNews call that did not throw. */
  function Listed(s: Settled<seq<Article>>): seq<Article> {
    if s.Resolved? then s.value else []
  }

  /** `.slice(0, 6)`: a prefix of at most six articles, the whole list when
      it is shorter. */
  function Cap(articles: seq<Article>): (r: seq<Article>)
    ensures |r| <= MaxArticlesPerUser && |r| <= |articles| && r == articles[..|r|]
    ensures |r| < MaxArticlesPerUser ==> r == articles
  {
    if |articles| <= MaxArticlesPerUser then articles else articles[..MaxArticlesPerUser]
  }

  /** The body of the preparation loop for one user, the try block with its
      catch: a throw from either of the first two calls, or from the general
      fetch when it is made, gives the empty list. The general fetch is made
      only when the capped personalised list is empty. */
  function PrepareArticles(calls: UserCalls): (r: seq<Article>)
    ensures |r| <= MaxArticlesPerUser
    ensures calls.watchlist.Rejected? || calls.personalNews.Rejected? ==> r == []
    ensures !calls.watchlist.Rejected? && Listed(calls.personalNews) != [] ==>
      r == Cap(Listed(calls.personalNews))
    ensures !calls.watchlist.Rejected? && !calls.personalNews.Rejected? && Listed(calls.personalNews) == [] ==>
      r == if calls.generalNews.Rejected? then [] else Cap(Listed(calls.generalNews))
  {
    if calls.watchlist.Rejected? || calls.personalNews.Rejected? then []
    else
      var personal := Cap(Listed(calls.personalNews));
      if personal != [] then personal
      else if calls.generalNews.Rejected? then []
      else Cap(Listed(calls.generalNews))
  }

  // ---------------------------------------------------------------------
  // The send loop, specified

  /** newsContent for one entry: a summary only when the entry has articles. */
  function NewsContent(genAI: bool, entry: UserArticles, summary: Generation): string {
    if |entry.articles| > 0 then GenerateNewsSummary(genAI, summary) else NoNewsSentence
  }

  /** The guard in front of sendNewsSummaryEmail. */
  predicate WorthSending(newsContent: string) {
    newsContent != "" && newsContent != NoNewsSentence
  }

  /** The emails the send loop hands to the transport for one entry: none or
      one. */
  function Outgoing(entry: UserArticles, summary: Generation, genAI: bool, date: string): seq<NewsEmail> {
    var content := NewsContent(genAI, entry, summary);
    if WorthSending(content) then [NewsEmail(entry.user.email, date, content)] else []
  }

  /** Every sendNewsSummaryEmail call the loop makes over `entries`, in order. */
  function Attempted(entries: seq<UserArticles>, calls: seq<UserCalls>, genAI: bool, date: string): seq<NewsEmail>
    requires |entries| == |calls|
  {
    if entries == [] then []
    else
      var n := |entries| - 1;
      Attempted(entries[..n], calls[..n], genAI, date) + Outgoing(entries[n], calls[n].summary, genAI, date)
  }

  /** The sendNewsSummaryEmail calls that resolved. */
  function Delivered(entries: seq<UserArticles>, calls: seq<UserCalls>, genAI: bool, date: string): seq<NewsEmail>
    requires |entries| == |calls|
  {
    if entries == [] then []
    else
      var n := |entries| - 1;
      Delivered(entries[..n], calls[..n], genAI, date)
        + (if calls[n].delivery == Accepted then Outgoing(entries[n], calls[n].summary, genAI, date) else [])
  }

  /** One more entry adds its own outgoing email to what is attempted, and
      to what is delivered when its send resolves. */
  lemma SendStep(entries: seq<UserArticles>, calls: seq<UserCalls>, genAI: bool, date: string, i: nat)
    requires |entries| == |calls| && i < |entries|
    ensures Attempted(entries[..i + 1], calls[..i + 1], genAI, date)
      == Attempted(entries[..i], calls[..i], genAI, date) + Outgoing(entries[i], calls[i].summary, genAI, date)
    ensures Delivered(entries[..i + 1], calls[..i + 1], genAI, date)
      == Delivered(entries[..i], calls[..i], genAI, date)
        + (if calls[i].delivery == Accepted then Outgoing(entries[i], calls[i].summary, genAI, date) else [])
  {
    assert entries[..i + 1][..i] == entries[..i];
    assert calls[..i + 1][..i] == calls[..i];
  }

  // ---------------------------------------------------------------------
  // The news-email handler

  /** The preparation loop: one entry pushed per user, in order, with the
      articles prepared for that user. */
  method PrepareAll(users: seq<User>, calls: seq<UserCalls>) returns (perUser: seq<UserArticles>)
    requires |calls| == |users|
    ensures |perUser| == |users|
    ensures forall i :: 0 <= i < |users| ==> perUser[i] == UserArticles(users[i], PrepareArticles(calls[i]))
  {
    perUser := [];
    for i := 0 to |users|
      invariant |perUser| == i
      invariant forall k :: 0 <= k < i ==> perUser[k] == UserArticles(users[k], PrepareArticles(calls[k]))
    {
      perUser := perUser + [UserArticles(users[i], PrepareArticles(calls[i]))];
    }
  }

  /** The send loop: a summary for each entry with articles, an email when
      the summary is real, and a refused send caught so that the loop goes
      on. */
  method SendAll(perUser: seq<UserArticles>, calls: seq<UserCalls>, genAI: bool, date: string)
    returns (attempted: seq<NewsEmail>, delivered: seq<NewsEmail>)
    requires |calls| == |perUser|
    ensures attempted == Attempted(perUser, calls, genAI, date)
    ensures delivered == Delivered(perUser, calls, genAI, date)
  {
    attempted, delivered := [], [];
    for i := 0 to |perUser|
      invariant attempted == Attempted(perUser[..i], calls[..i], genAI, date)
      invariant delivered == Delivered(perUser[..i], calls[..i], genAI, date)
    {
      var entry := perUser[i];
      var newsContent := NewsContent(genAI, entry, calls[i].summary);
      if WorthSending(newsContent) {
        var mail := NewsEmail(entry.user.email, date, newsContent);
        attempted := attempted + [mail];
        if calls[i].delivery == Accepted {
          delivered := delivered + [mail];
        }
      }
      SendStep(perUser, calls, genAI, date, i);
    }
    assert perUser[..|perUser|] == perUser;
    assert calls[..|perUser|] == calls;
  }

  /** The news-email handler. It prepares one entry per user, then runs the
      send loop over the entries. `date` is what getFormattedTodayDate
      returns. */
  method NewsEmailJob(users: Settled<seq<User>>, calls: seq<UserCalls>, genAI: bool, date: string)
    returns (result: NewsJobResult, perUser: seq<UserArticles>, attempted: seq<NewsEmail>, delivered: seq<NewsEmail>)
    requires users.Resolved? ==> |calls| == |users.value|
    ensures result == HandlerRejected <==> users.Rejected?
    ensures result == NoUsersFound <==> users.ResolvedNull? || users == Resolved([])
    ensures result.Processed? ==> users.Resolved? && result.usersProcessed == |users.value|
    ensures !result.Processed? ==> perUser == [] && attempted == [] && delivered == []
    ensures result.Processed? ==>
      && |perUser| == |users.value|
      && (forall i :: 0 <= i < |perUser| ==>
            perUser[i] == UserArticles(users.value[i], PrepareArticles(calls[i])))
      && attempted == Attempted(perUser, calls, genAI, date)
      && delivered == Delivered(perUser, calls, genAI, date)
  {
    if users.Rejected? {
      return HandlerRejected, [], [], [];
    }
    if users.ResolvedNull? || |users.value| == 0 {
      return NoUsersFound, [], [], [];
    }
    perUser := PrepareAll(users.value, calls);
    attempted, delivered := SendAll(perUser, calls, genAI, date);
    result := Processed(|users.value|);
  }

  // ---------------------------------------------------------------------
  // Properties of the send loop

  /** An entry gets an email exactly when it has articles, a Gemini client
      exists, the call returned non-blank text, and that text, trimmed, is not
      the no-news sentence itself. */
  lemma EmailedIff(genAI: bool, entry: UserArticles, summary: Generation)
    ensures WorthSending(NewsContent(genAI, entry, summary)) <==>
      && |entry.articles| > 0
      && genAI
      && summary.Generated?
      && !Blank(summary.text)
      && Trim(summary.text) != NoNewsSentence
  {
  }

  /** Without a Gemini client the loop sends no news email at all. */
  lemma {:induction false} NoClientNoNewsEmail(entries: seq<UserArticles>, calls: seq<UserCalls>, date: string)
    requires |entries| == |calls|
    ensures Attempted(entries, calls, false, date) == []
  {
    if entries != [] {
      var n := |entries| - 1;
      NoClientNoNewsEmail(entries[..n], calls[..n], date);
    }
  }

  /** The loop sends no more emails than there are entries. */
  lemma {:induction false} AtMostOneEmailPerUser(entries: seq<UserArticles>, calls: seq<UserCalls>, genAI: bool, date: string)
    requires |entries| == |calls|
    ensures |Attempted(entries, calls, genAI, date)| <= |entries|
  {
    if entries != [] {
      var n := |entries| - 1;
      AtMostOneEmailPerUser(entries[..n], calls[..n], genAI, date);
    }
  }

  /** Every email the loop sends goes to the user of an entry that has
      articles, carries that entry's content, and that content passed the
      guard. */
  lemma {:induction false} OnlyUsersWithArticlesEmailed(entries: seq<UserArticles>, calls: seq<UserCalls>, genAI: bool, date: string, m: NewsEmail)
    requires |entries| == |calls|
    requires m in Attempted(entries, calls, genAI, date)
    ensures exists i :: (0 <= i < |entries| && |entries[i].articles| > 0
      && m == NewsEmail(entries[i].user.email, date, NewsContent(genAI, entries[i], calls[i].summary))
      && WorthSending(m.newsContent))
  {
    var n := |entries| - 1;
    if m in Attempted(entries[..n], calls[..n], genAI, date) {
      OnlyUsersWithArticlesEmailed(entries[..n], calls[..n], genAI, date, m);
      var i :| 0 <= i < n && |entries[..n][i].articles| > 0
        && m == NewsEmail(entries[..n][i].user.email, date, NewsContent(genAI, entries[..n][i], calls[..n][i].summary))
        && WorthSending(m.newsContent);
      assert entries[..n][i] == entries[i] && calls[..n][i] == calls[i];
    } else {
      assert m in Outgoing(entries[n], calls[n].summary, genAI, date);
    }
  }

  /** The indices of the entries whose content passes the guard. */
  ghost function EligibleIndices(entries: seq<UserArticles>, calls: seq<UserCalls>, genAI: bool): set<nat>
    requires |entries| == |calls|
  {
    set i: nat | i < |entries| && WorthSending(NewsContent(genAI, entries[i], calls[i].summary))
  }

  /** One email per entry that passes the guard, and no other: the loop
      sends exactly as many emails as there are eligible entries. */
  lemma {:induction false} OneEmailPerEligibleEntry(entries: seq<UserArticles>, calls: seq<UserCalls>, genAI: bool, date: string)
    requires |entries| == |calls|
    ensures |Attempted(entries, calls, genAI, date)| == |EligibleIndices(entries, calls, genAI)|
  {
    if entries != [] {
      var n := |entries| - 1;
      OneEmailPerEligibleEntry(entries[..n], calls[..n], genAI, date);
      var all := EligibleIndices(entries, calls, genAI);
      var before := EligibleIndices(entries[..n], calls[..n], genAI);
      var eligible := WorthSending(NewsContent(genAI, entries[n], calls[n].summary));
      var here: set<nat> := if eligible then {n} else {};
      forall i: nat
        ensures i in all <==> i in before + here
      {
        if i < n {
          assert entries[..n][i] == entries[i] && calls[..n][i] == calls[i];
          assert i !in here;
        } else if i == n {
          assert i !in before;
          assert i in all <==> eligible;
        } else {
          assert i !in all && i !in before && i !in here;
        }
      }
      assert all == before + here;
      assert n !in before;
      assert |Outgoing(entries[n], calls[n].summary, genAI, date)| == |here|;
    }
  }

  /** The emails the loop sends for one entry are among all it sends. */
  lemma {:induction false} AttemptedIncludesEntry(entries: seq<UserArticles>, calls: seq<UserCalls>, genAI: bool, date: string, i: nat)
    requires |entries| == |calls| && i < |entries|
    ensures forall m :: m in Outgoing(entries[i], calls[i].summary, genAI, date) ==> m in Attempted(entries, calls, genAI, date)
  {
    var n := |entries| - 1;
    var prefix := Attempted(entries[..n], calls[..n], genAI, date);
    var last := Outgoing(entries[n], calls[n].summary, genAI, date);
    assert Attempted(entries, calls, genAI, date) == prefix + last;
    if i < n {
      assert entries[..n][i] == entries[i] && calls[..n][i] == calls[i];
      AttemptedIncludesEntry(entries[..n], calls[..n], genAI, date, i);
    }
    forall m | m in Outgoing(entries[i], calls[i].summary, genAI, date)
      ensures m in Attempted(entries, calls, genAI, date)
    {
      if i < n {
        assert m in prefix;
      } else {
        assert i == n && m in last;
      }
    }
  }

  /** Every entry whose content passes the guard gets its email. */
  lemma EveryEligibleUserEmailed(entries: seq<UserArticles>, calls: seq<UserCalls>, genAI: bool, date: string, i: nat)
    requires |entries| == |calls| && i < |entries|
    requires WorthSending(NewsContent(genAI, entries[i], calls[i].summary))
    ensures NewsEmail(entries[i].user.email, date, NewsContent(genAI, entries[i], calls[i].summary))
      in Attempted(entries, calls, genAI, date)
  {
    AttemptedIncludesEntry(entries, calls, genAI, date, i);
  }

  /** Which emails are attempted does not depend on how earlier sends went:
      a refused send does not stop the loop. */
  lemma {:induction false} SendFailuresDoNotStopTheLoop(entries: seq<UserArticles>, calls: seq<UserCalls>, calls': seq<UserCalls>, genAI: bool, date: string)
    requires |entries| == |calls| == |calls'|
    requires forall i :: 0 <= i < |calls| ==> calls[i].summary == calls'[i].summary
    ensures Attempted(entries, calls, genAI, date) == Attempted(entries, calls', genAI, date)
  {
    if entries != [] {
      var n := |entries| - 1;
      SendFailuresDoNotStopTheLoop(entries[..n], calls[..n], calls'[..n], genAI, date);
    }
  }

  /** The delivered emails are attempted ones, and all of them when every send
      resolves. */
  lemma {:induction false} DeliveredAmongAttempted(entries: seq<UserArticles>, calls: seq<UserCalls>, genAI: bool, date: string)
    requires |entries| == |calls|
    ensures |Delivered(entries, calls, genAI, date)| <= |Attempted(entries, calls, genAI, date)|
    ensures forall m :: m in Delivered(entries, calls, genAI, date) ==> m in Attempted(entries, calls, genAI, date)
    ensures (forall i :: 0 <= i < |calls| ==> calls[i].delivery == Accepted) ==>
      Delivered(entries, calls, genAI, date) == Attempted(entries, calls, genAI, date)
  {
    if entries != [] {
      var n := |entries| - 1;
      DeliveredAmongAttempted(entries[..n], calls[..n], genAI, date);
    }
  }

  /** A user whose preparation threw (the watchlist lookup, the personalised
      fetch, or the general fetch made after an empty personalised list) is
      kept with no articles and is never emailed. */
  lemma FailedPreparationNeverEmailed(user: User, calls: UserCalls, genAI: bool, date: string)
    requires || calls.watchlist.Rejected?
             || calls.personalNews.Rejected?
             || (Listed(calls.personalNews) == [] && calls.generalNews.Rejected?)
    ensures PrepareArticles(calls) == []
    ensures Outgoing(UserArticles(user, PrepareArticles(calls)), calls.summary, genAI, date) == []
  {
  }

  // ---------------------------------------------------------------------
  // The workers and createAIProvider

  /** The workers' Gemini client and createAIProvider can disagree in both
      directions: with AI_PROVIDER 'none' and a Gemini key the workers still
      generate text, and with AI_PROVIDER 'openai' and only an OpenAI key the
      factory picks OpenAI while the workers have no client. */
  lemma WorkersIgnoreProviderSetting()
    ensures var env := AiFactory.Env(AiFactory.Some("none"), AiFactory.Some("g-key"), AiFactory.None, AiFactory.None, AiFactory.None);
      AiFactory.CreateAIProvider(env) == AiFactory.None && GenAIConfigured(env)
    ensures var env := AiFactory.Env(AiFactory.Some("openai"), AiFactory.None, AiFactory.Some("o-key"), AiFactory.None, AiFactory.None);
      AiFactory.CreateAIProvider(env).Some? && !GenAIConfigured(env)
  {
    assert ToLowerCase("none") == "none";
    assert ToLowerCase("openai") == "openai";
  }
}
