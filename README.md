# Openstock email workers and AI-provider selection, in Dafny

This project models the decision logic of the Openstock queue workers and of
the AI-provider factory, and proves what they promise.

- **`Workers`** (`workers.dfy`) models `lib/queue/workers.ts`:
  - the two text generators `generateWelcomeIntro` and `generateNewsSummary`.
    Each is a fallback chain: no Gemini client, a thrown error or blank
    output gives a fixed sentence; otherwise the trimmed generated text.
  - the `welcome-email` handler: one welcome email per job, with the
    generated introduction.
  - the `news-email` handler, as a method with the source's two loops.
    The preparation loop pushes one `{user, articles}` entry per user. The
    articles are the first six personalised ones, or the first six general
    ones when that list is empty, or none when preparing the user throws.
    The send loop then emails a user only when a real summary exists. A
    refused send is caught and the loop goes on.
- **`AiFactory`** (`ai_factory.dfy`) models `createAIProvider` in
  `lib/ai/factory.ts`. It is a pure function from the five environment
  variables to "no provider" or a provider kind with its key and model. It is
  proved equal to an independent first-match-over-preference-list
  definition.
- **`JsString`** (`js_string.dfy`) models the two JavaScript string built-ins
  the logic depends on: `trim` and `toLowerCase`.

Every external call is an input of the model rather than an effect:
- the user query, the watchlist query and the two `getNews` calls are each
  given as how the awaited call settles (`Settled`: resolved with a value,
  resolved with null, or rejected);
- one Gemini `generateContent` call is given as its text or a failure
  (`Generation`);
- one mail send is given as accepted or refused (`Delivery`);
- the date string comes from `getFormattedTodayDate`.

The outcomes for one user are bundled in `UserCalls` and lined up with the
user list. The news handler returns its result together with:
- the `perUser` array it built;
- every `sendNewsSummaryEmail` call it made (`attempted`);
- the subset of those calls that resolved (`delivered`).

The workers create their Gemini client from `GEMINI_API_KEY` alone
(`lib/queue/workers.ts:15-17`). They do not use `createAIProvider`.
`GenAIConfigured` models this. `WorkersIgnoreProviderSetting` shows that the
two can disagree in both directions.

### Behaviour worth knowing

- The news handler returns `{success: true, usersProcessed}` whenever the
  user list is non-empty, where `usersProcessed` is the number of users. A
  failed send is logged and the loop goes on.
- A user whose preparation throws is kept with an empty article list. Such a
  user is never emailed: an empty list yields the no-news sentence, and the
  guard skips it (`FailedPreparationNeverEmailed`).
- A user with articles but no Gemini client is never emailed either
  (`NoClientNoNewsEmail`).

## Model

| member | source | states |
|---|---|---|
| `JsString.Trim` | lib/queue/workers.ts:31 | `trim` keeps the input's own characters between a blank prefix and a blank suffix; it gives the empty string exactly when its input is all ECMAScript whitespace, and otherwise its result starts and ends with a non-whitespace character |
| `JsString.TrimIdempotent` | lib/queue/workers.ts:50 | trimming an already trimmed text changes nothing |
| `JsString.ToLowerCase` | lib/ai/factory.ts:7 | lowering keeps the length, leaves no ASCII capital, turns each capital into the small letter at the same place in the alphabet, and keeps every other character |
| `JsString.ToLowerCaseEqualIff` | lib/ai/factory.ts:7 | two strings lower to the same string exactly when they differ only in the case of their ASCII letters |
| `AiFactory.CreateAIProvider` | lib/ai/factory.ts:6-50 | a returned provider is never the NoneProvider class; its key is the non-empty value of its own kind's variable; its model name is non-empty |
| `AiFactory.CreateAIProviderIsFirstConfigured` | lib/ai/factory.ts:6-50 | the factory equals a first-match choice over the preference list of the setting: 'openai' gives [OpenAI], 'gemini' gives [Gemini], 'auto' gives [OpenAI, Gemini], anything else gives [] |
| `AiFactory.ProviderTypeDefaultsToAuto` | lib/ai/factory.ts:7 | an unset or empty AI_PROVIDER is read as 'auto' and chooses what 'auto' chooses |
| `AiFactory.ProviderTypeIgnoresCase` | lib/ai/factory.ts:7 | two AI_PROVIDER values that differ only in the case of their letters choose the same provider |
| `AiFactory.MixedCaseGeminiSetting` | lib/ai/factory.ts:7 | 'Gemini' and 'GEMINI' are read as 'gemini' and choose what 'gemini' chooses |
| `AiFactory.NoneSettingDisablesAI` | lib/ai/factory.ts:11-13 | 'none' gives no provider whatever keys are set |
| `AiFactory.OpenAISettingNeverFallsBack` | lib/ai/factory.ts:15-23 | 'openai' gives a provider iff OPENAI_API_KEY is set; that provider is OpenAI with OPENAI_MODEL or 'gpt-4o-mini', never Gemini |
| `AiFactory.GeminiSettingNeverFallsBack` | lib/ai/factory.ts:25-33 | 'gemini' gives a provider iff GEMINI_API_KEY is set; that provider is Gemini with GEMINI_MODEL or 'gemini-2.0-flash-exp', never OpenAI |
| `AiFactory.AutoSettingPrefersOpenAI` | lib/ai/factory.ts:35-49 | 'auto' picks OpenAI whenever its key is set, Gemini only when the OpenAI key is missing, and nothing when both are missing |
| `AiFactory.UnrecognisedSettingDisablesAI` | lib/ai/factory.ts:46-49 | any setting other than the four known ones gives no provider |
| `AiFactory.ProviderChosenIff` | lib/ai/factory.ts:6-50 | a provider is returned exactly when the setting names a provider whose key is set ('auto' naming both) |
| `Workers.GenerateOrFallback` | lib/queue/workers.ts:19-55 | the trimmed generated text when a client exists, the call returned and the text is not blank; the fixed sentence in every other case |
| `Workers.GeneratedTextIsTrimmed` | lib/queue/workers.ts:24-35 | a generator result other than the fixed sentence is non-empty and already trimmed |
| `Workers.GenerateWelcomeIntro` | lib/queue/workers.ts:19-36 | never empty; either the fixed welcome sentence or the trimmed text of a call that returned |
| `Workers.GenerateNewsSummary` | lib/queue/workers.ts:38-55 | never empty; either 'No market news available today.' or the trimmed text of a call that returned |
| `Workers.WelcomeEmailJob` | lib/queue/workers.ts:57-75 | one welcome email to the job's address and name with a non-empty introduction; the job succeeds with that address iff the send resolves, and fails otherwise |
| `Workers.Cap` | lib/queue/workers.ts:92 | `slice(0, 6)` keeps a prefix of at most six articles, and the whole list when it is shorter |
| `Workers.PrepareArticles` | lib/queue/workers.ts:88-104 | at most six articles; a throwing watchlist or personalised fetch gives []; a non-empty personalised list is kept, capped, and the general list is not used; the general fetch, capped, is used only when the capped personalised list is empty, and gives [] when it throws |
| `Workers.PrepareAll` | lib/queue/workers.ts:86-104 | the preparation loop pushes exactly one entry per user, in input order, each with that user's prepared articles; a user whose preparation threw is kept, not dropped |
| `Workers.SendAll` | lib/queue/workers.ts:106-124 | the send loop makes exactly the specified sequence of send calls, one per entry that passes the guard, in entry order, and the resolved ones are the specified delivered sequence |
| `Workers.NewsEmailJob` | lib/queue/workers.ts:79-127 | a throwing user query fails the job; a null or empty user list gives 'No users found' and sends nothing; otherwise the result is `usersProcessed = users.length`, perUser has one entry per user in input order with that user's prepared articles, and the calls made are exactly the specified send sequence whatever the earlier sends did |
| `Workers.EmailedIff` | lib/queue/workers.ts:108-120 | a user is emailed iff their list is non-empty, a client exists, the call returned non-blank text, and that text trimmed is not the no-news sentence |
| `Workers.NoClientNoNewsEmail` | lib/queue/workers.ts:38-41 | without a Gemini client the send loop sends no news email at all |
| `Workers.AtMostOneEmailPerUser` | lib/queue/workers.ts:108-124 | the loop sends no more emails than there are entries |
| `Workers.OneEmailPerEligibleEntry` | lib/queue/workers.ts:108-124 | the loop sends exactly as many emails as there are entries whose content passes the guard |
| `Workers.OnlyUsersWithArticlesEmailed` | lib/queue/workers.ts:108-120 | every email sent goes to the user of an entry with articles, carries that entry's summary, and that summary passed the guard |
| `Workers.AttemptedIncludesEntry` | lib/queue/workers.ts:108-124 | whatever the loop sends for one entry is among everything it sends |
| `Workers.EveryEligibleUserEmailed` | lib/queue/workers.ts:108-120 | every entry whose summary passes the guard gets its email |
| `Workers.SendFailuresDoNotStopTheLoop` | lib/queue/workers.ts:108-124 | the emails attempted do not depend on how any send went |
| `Workers.DeliveredAmongAttempted` | lib/queue/workers.ts:114-123 | the resolved sends are among the attempted ones, and are all of them when every send resolves |
| `Workers.FailedPreparationNeverEmailed` | lib/queue/workers.ts:88-103 | a user whose watchlist lookup, personalised fetch, or general fetch after an empty personalised list throws is kept with no articles and gets no email |
| `Workers.WorkersIgnoreProviderSetting` | lib/queue/workers.ts:15-17 | with AI_PROVIDER 'none' and a Gemini key the workers still have a client; with 'openai' and only an OpenAI key the factory picks OpenAI but the workers have none |

## Left out

- Redis and BullMQ: the connection setup and the `completed`/`failed` event handlers (`lib/queue/workers.ts:11-13`, `131-145`) are queue plumbing and logging. A rejected handler is modelled only as a failed job (`HandlerRejected`, `WelcomeJobFailed`).
- Prompt construction: the prompt templates (`lib/inngest/prompts`) are not part of this model. So are the welcome `userProfile` text, the `JSON.stringify` of the articles, and the Gemini model name hard-coded in the workers. Each AI call is represented only by its outcome.
- `getAllUsersForNewsEmail`, `getWatchlistSymbolsByEmail`, `getNews` and `getFormattedTodayDate` are defined in files not part of this model. Their results are inputs. Only array or null results are modelled; other non-array values are not.
- `lib/nodemailer/index.ts`: the OAuth token fetch, transport creation and caching, and the HTML templates wrap foreign libraries. A send is modelled as resolving or throwing.
- `lib/ai/providers/*.ts` are thin wrappers over the OpenAI and Gemini SDKs. A provider is modelled as its kind, key and model.
- `lib/actions/auth.actions.ts` and `scripts/*` hold sign-up plumbing, diagnostics, process spawning, signal handling and the cron schedule. They have no decision logic of their own.
- Concurrency: the handlers' awaits are modelled as sequential steps. Several workers running at once are not modelled.
- JsString.ToLowerCase: lowers only ASCII letters, unlike full Unicode `toLowerCase`. For matching the four keywords this gives the same result. The only non-ASCII character that lowers to an ASCII letter is U+212A (Kelvin sign, to 'k'), and no keyword contains 'k'.
