# ClientMint generation core, modelled in Dafny

ClientMint turns a business name and description into a complete single-page
website written by a hosted language model. This project models the
deterministic decisions around that call:

- the **plan registry** (`lib/plans.js`): four tiers, their limits, and the
  normalisation of stored plan keys, including the legacy `pro` key;
- the **clean-up pipeline** applied to the model's text, which the serverless
  function and the development server carry as identical copies: trim, strip
  a leading ```` ```html ```` fence, then a leading ```` ``` ```` fence, then a
  trailing ```` ``` ```` fence, then prepend `<!DOCTYPE html>\n` unless the text
  already starts with `<!doctype` in any case;
- the **serverless handler** (`netlify/functions/generate-website.js`) and the
  **development server** (`server.js`) as pure functions from the request (method,
  URL, whether the API key is set, the parsed body) and the outcome of the
  upstream call to the response status and body, together with the server's
  content-type table;
- the **browser client's** decisions (`app.js`): the submit handler's checks,
  the keyword classifier `getIndustryType`, and the hint chosen by
  `showErrorAlert`.

Modules, one per file: `Wrappers` (Option, Result), `Strings` (JavaScript's
`trim`, `\s`, `toLowerCase`, `startsWith`, `endsWith`, `includes`), `Plans`,
`Cleaning`, `Requests` and `Anthropic` (request/response shapes and the
upstream reply), `GenerateWebsite`, `Server`, `App`, and `Handlers`, which
states how the two handlers differ.

The upstream call is an input. The handlers receive what the HTTPS request
would have settled with: a transport error, or a status, the raw body and its parse.
The serverless client also has a socket timeout. Each handler's `CallAnthropic` maps that
outcome to the text or to the rejection message the source builds. Whether
`ANTHROPIC_API_KEY` is set is a boolean input. JSON bodies are modelled by what
the handlers read from them. Each of the two fields is either missing, null, a
boolean, a number, a string, or an object or array, and JavaScript truthiness
decides `!businessName`. An object or array is marked printable or not: one
with its own `toString` property (no JSON value is callable, and the
inherited `valueOf` returns the object itself), or an array holding such an
object through arrays at any depth, makes the prompt's template literal throw
a TypeError. An own `valueOf` alone does not: the inherited `toString` is tried
first. A body either does not parse, parses to `null`, or
parses to some other value.

Behaviour worth knowing, proved below:

- The two handlers check in different orders. Without a key and with a
  field missing, the serverless function answers 500 and the server 400. A body that is not JSON
  is a 400 for the serverless function and a 500 'Generation failed' for the
  server (its `JSON.parse` throws inside the same `try` as the upstream call).
  An absent body is `{}` to the serverless function, but an empty string that
  fails to parse for the server.
- Only the serverless function refuses text with neither `<!doctype` nor
  `<html`; the server serves any text the model returns.
- A present field that cannot be printed into the prompt stops both handlers
  before the upstream call. The serverless function builds the prompt outside
  its `try` blocks, so its handler rejects and returns no response record. The
  server builds it inside its `try`, so it answers 500 'Generation failed'.
- One would expect the pipeline to be idempotent: running it on its own
  output should change nothing. The code is idempotent only when the cleaned
  text is non-empty and does not itself end with a fence. Otherwise it is not: an empty
  answer, or one that cleans to nothing such as a bare ```` ``` ````, becomes
  `<!DOCTYPE html>\n`, which trims to `<!DOCTYPE html>` on a second run, and a cleaned text ending in a fence loses that fence on a
  second run (`Cleaning.NormalizeNotIdempotentOnEmpty`,
  `Cleaning.BareFenceCleansToEmpty`,
  `Cleaning.NormalizeNotIdempotentOnFence`). The model follows the code.
- `getIndustryType` matches substrings, so "Seafood stall" is a restaurant
  and "Pizza and yoga" is a restaurant because restaurants are tried first.

The wider system also has a rate limiter, a usage ledger, site and version
stores, a billing webhook and a publication router. They live outside the
files modelled here and are not modelled.

## Model

| member | source | states |
|---|---|---|
| Plans.PlanLimits | lib/plans.js:8-53 | every row's `key` field is the key of the tier it is stored under |
| Plans.KeysAreTableKeys | lib/plans.js:8-53 | the table's keys are exactly free, starter, business and agency, and each names one tier |
| Plans.PublishedWithinTotal | lib/plans.js:14-15 | no tier allows more published sites than sites in all; only the free tier allows none |
| Plans.TiersIncrease | lib/plans.js:9-52 | from free to agency, price, monthly AI edits and published sites strictly increase, total sites never decrease, and no feature is lost |
| Plans.PricedTiersArePaid | lib/plans.js:72-76 | the tiers with a payment price are exactly those with a non-zero monthly price, i.e. all but free |
| Plans.NormalizePlan | lib/plans.js:57-62 | a table key normalises to the tier it names |
| Plans.NormalizeMissing | lib/plans.js:58 | a missing or empty plan value is free |
| Plans.NormalizeLegacy | lib/plans.js:59 | the legacy key `pro` is starter, and getPlan('pro') is the starter row |
| Plans.NormalizeTableKey | lib/plans.js:60 | each of the four tier keys normalises to its own tier |
| Plans.NormalizeOther | lib/plans.js:61 | any other string is free |
| Plans.NormalizeIdempotent | lib/plans.js:57-62 | the result is always a table key, and normalising it again gives the same tier |
| Plans.NormalizeChangesOnlyLegacy | lib/plans.js:57-62 | a key is kept unchanged exactly when it is a table key; the only key mapped to another paid key is `pro` |
| Plans.GetPlan | lib/plans.js:64-66 | the row returned has the normalised key, and it is exactly the table's row for that key |
| Strings.ToLower | app.js:166 | the lower-cased text has the input's length, with each character lower-cased in place (ASCII only) |
| Strings.Includes | app.js:167-172 | the empty text occurs in every text, and a text occurs only in one at least as long; Strings.IncludesAt and Strings.IncludesWitness state that it occurs exactly when it sits at some position |
| Strings.IncludesAt | app.js:167-172 | an occurrence at any position is found by `includes` |
| Strings.IncludesWitness | app.js:167-172 | whenever `includes` holds, the text occurs at some position |
| Strings.NatToString | netlify/functions/generate-website.js:131 | the status is printed as a non-empty string of decimal digits that denotes it, with no leading zero |
| Strings.Trim | netlify/functions/generate-website.js:75 | the trimmed text has no white space at either end |
| Strings.TrimPadded | netlify/functions/generate-website.js:75 | trim removes exactly the white space around a text that starts and ends with non-space |
| Strings.TrimIdempotent | netlify/functions/generate-website.js:75 | trimming twice is trimming once |
| Cleaning.StripHtmlFence | netlify/functions/generate-website.js:76 | a text opening with ```` ```html ```` in any case loses exactly that fence and the white space after it; any other text is unchanged |
| Cleaning.StripFence | netlify/functions/generate-website.js:77 | a text opening with ```` ``` ```` loses exactly that fence and the white space after it; any other text is unchanged |
| Cleaning.StripClosingFence | netlify/functions/generate-website.js:78 | a text ending with ```` ``` ```` loses exactly that fence and the white space before it; any other text is unchanged |
| Cleaning.Clean | netlify/functions/generate-website.js:75-78 | the cleaned text has no white space at either end and is no longer than the answer |
| Cleaning.CleanUnfenced | netlify/functions/generate-website.js:75-78 | a text with no fence at either end after trimming is only trimmed |
| Cleaning.CleanFenced | netlify/functions/generate-website.js:75-78 | a document that starts with `<` and ends in a non-space, wrapped in ```` ``` ```` or ```` ```html ```` (any case) and a closing fence, with any white space around and between, cleans to exactly that document |
| Cleaning.EnsureDoctype | netlify/functions/generate-website.js:84-86 | the result starts with `<!doctype` in any case; it is the input exactly when the input already did, and otherwise the preamble followed by the input |
| Cleaning.HasMarker | netlify/functions/generate-website.js:80 | a text that starts with `<!doctype` in any case passes the marker check |
| Cleaning.StartsWithDoctype | netlify/functions/generate-website.js:84 | a text that passes the DOCTYPE test opens with `<` and is at least as long as the marker |
| Cleaning.DoctypeTestIsLowerPrefix | netlify/functions/generate-website.js:84 | the character-wise DOCTYPE test agrees with `toLowerCase().startsWith('<!doctype')` on every text |
| Cleaning.Normalize | server.js:78-85 | the pipeline's output starts with `<!doctype` in any case and so passes the marker check; it is the cleaned text exactly when that already starts with `<!doctype`, and otherwise the preamble followed by the cleaned text |
| Cleaning.NormalizeDoctypeTrimmedOnly | server.js:78-85 | a text that, once trimmed, starts with `<!doctype` and does not end with a fence comes out only trimmed |
| Cleaning.NormalizePreamble | netlify/functions/generate-website.js:75-86 | the preamble alone comes out as its first line, without the line break |
| Cleaning.NormalizeIdempotent | netlify/functions/generate-website.js:75-86 | the pipeline fixes its own output when the cleaned text is non-empty and does not end with a fence |
| Cleaning.NormalizeNotIdempotentOnEmpty | netlify/functions/generate-website.js:75-86 | an answer that cleans to nothing becomes the preamble, and a second run yields a different text |
| Cleaning.BareFenceCleansToEmpty | netlify/functions/generate-website.js:75-86 | a bare ```` ``` ````, a non-empty answer the upstream can deliver, cleans to nothing, so the pipeline is not idempotent on it |
| Cleaning.NormalizeNotIdempotentOnFence | netlify/functions/generate-website.js:75-86 | when the cleaned text ends with a fence, a second run yields a strictly shorter text |
| Requests.Truthy | netlify/functions/generate-website.js:44 | a field is falsy exactly when it is missing, null, false, zero or the empty string; an object or array is always truthy |
| Requests.FieldsPresent | netlify/functions/generate-website.js:44 | the field check fails exactly when either field is undefined, null, false, zero or the empty string |
| Requests.Printable | netlify/functions/generate-website.js:50 | only an object or array without a callable conversion cannot be printed |
| GenerateWebsite.CallAnthropic | netlify/functions/generate-website.js:125-145 | the call yields text exactly for a 200 reply with a non-empty first content text; a non-200 status yields 'Anthropic returned <status>' and the socket timeout 'Anthropic request timed out' |
| GenerateWebsite.ReadFields | netlify/functions/generate-website.js:36-42 | an absent body reads as two missing fields; the parse fails exactly for a body that is not JSON or is null; any other document yields its two properties |
| GenerateWebsite.ReachesUpstream | netlify/functions/generate-website.js:11-50 | a request passes every check before the call exactly when the handler's answer is the post-call part's answer, for every upstream outcome |
| GenerateWebsite.Respond | netlify/functions/generate-website.js:72-103 | after the call, 200 exactly when the call yielded text whose cleaned form has a marker, with the pipeline's output as the page; every other outcome is 500 'Generation failed' with a message |
| GenerateWebsite.Handle | netlify/functions/generate-website.js:3-104 | the handler rejects exactly for a keyed POST whose present fields cannot all be printed into the prompt; otherwise the status is 200, 400, 405 or 500, and a 200 is the preflight or a page that starts with `<!doctype` and contains a marker |
| GenerateWebsite.UnprintableFieldRejects | netlify/functions/generate-website.js:48-70 | present fields that cannot be printed into the prompt reject the handler, whatever the upstream would return |
| GenerateWebsite.OptionsFirst | netlify/functions/generate-website.js:11-13 | OPTIONS gets 200 and an empty body before any other check |
| GenerateWebsite.OtherMethodsRefused | netlify/functions/generate-website.js:15-17 | any method but OPTIONS and POST gets 405 'Method not allowed' |
| GenerateWebsite.KeyCheckedBeforeBody | netlify/functions/generate-website.js:22-32 | a POST without the key gets 500 'ANTHROPIC_API_KEY not set' whatever its body |
| GenerateWebsite.BodyErrors | netlify/functions/generate-website.js:34-46 | with the key set, a body that is not JSON or is null gets 400 'Invalid JSON body', and one lacking a truthy field, or no body at all, gets 400 'Missing ...' |
| GenerateWebsite.NoUpstreamCallBeforeValidation | netlify/functions/generate-website.js:11-46 | a request failing any check before the call gets the same answer whatever the upstream would return, and no 200 unless it is the preflight |
| GenerateWebsite.UpstreamFailures | netlify/functions/generate-website.js:96-102 | a non-200 status, missing or empty text, an unparseable reply, a transport error or the timeout gives 500 'Generation failed' with the rejection's message |
| GenerateWebsite.MarkerRequired | netlify/functions/generate-website.js:80-82 | cleaned text containing neither `<!doctype` nor `<html` in any case gives 500 with 'Response does not appear to be valid HTML' |
| GenerateWebsite.PageServed | netlify/functions/generate-website.js:84-94 | a generation that passes every check is answered 200 with the pipeline's output as the page |
| GenerateWebsite.SuccessMeans | netlify/functions/generate-website.js:84-94 | a non-preflight 200 happens exactly when every check passes; the page is the cleaned text, with the preamble prepended exactly when it did not start with `<!doctype` |
| GenerateWebsite.FencedAnswerServed | netlify/functions/generate-website.js:73-94 | a fenced HTML answer is served as 200 with the document between the fences, led by the preamble when it lacks one |
| Server.MimeTypes | server.js:8-17 | the extension table; its eight entries are stated by Server.ContentTypes |
| Server.ContentType | server.js:110 | the type is one of the listed types or text/plain |
| Server.ContentTypes | server.js:8-17 | each of the eight extensions has its listed type, and text/plain is returned exactly for an unlisted extension |
| Server.ContentTypesDistinct | server.js:8-17 | distinct listed extensions have distinct types |
| Server.CallAnthropic | server.js:153-171 | the call yields text exactly for a 200 reply with a non-empty first content text; a non-200 status yields 'Anthropic returned <status>: ' and at most 200 characters of the reply |
| Server.Destructure | server.js:37 | the destructuring succeeds exactly for a non-empty body that parses to a value other than null, and yields that document's two properties |
| Server.ReachesUpstream | server.js:37-74 | when the request passes every check before the call, it succeeds exactly when the reply delivers text; otherwise it never succeeds |
| Server.Generate | server.js:35-96 | the route answers 200, 400 or 500, and a 200 page starts with `<!doctype`; it answers 'Generation failed' for the prompt's conversion error exactly when both fields are present, the key is set and a field cannot be printed |
| Server.UnprintableFieldFails | server.js:54-74 | present fields that cannot be printed into the prompt make the handler answer 500 'Generation failed' before the call |
| Server.Handle | server.js:19-129 | a request is served from disk exactly when it is not OPTIONS, not `/health` and not a POST to the generation route; `/` is served as index.html |
| Server.OptionsAnyUrl | server.js:25-29 | OPTIONS gets 200 and an empty body for every URL |
| Server.HealthAnyMethod | server.js:101-105 | `/health` gets 200 with ok:true for every method but OPTIONS |
| Server.GenerateRouteNeedsPost | server.js:32 | a GET or any other method to the generation route is served from disk |
| Server.FieldsCheckedFirst | server.js:39-43 | a missing or falsy field gets 400 whether or not the key is set, whatever the upstream would return |
| Server.KeyCheckedAfterFields | server.js:45-50 | a missing key gets 500 'API key not configured' only once both fields are present |
| Server.BodyExceptions | server.js:35-95 | an empty, unparseable or null body gets 500 'Generation failed' |
| Server.NoUpstreamCallBeforeValidation | server.js:37-50 | a request stopped before the call gets the same answer whatever the upstream would return, never 200 |
| Server.UpstreamFailures | server.js:91-95 | an upstream failure gets 500 'Generation failed' with its message |
| Server.EveryTextServed | server.js:76-89 | there is no marker check: every delivered text is served with 200 as the pipeline's output |
| Server.ServedPage | server.js:78-89 | the page starts with `<!doctype`, and is only the trimmed text when that already starts with one and does not end with a fence |
| App.Validate | app.js:19-33 | the form starts generation exactly when the name has at least 2 and the description at least 10 characters; otherwise it shows one of the three alerts |
| App.EmptinessFirst | app.js:20-23 | an empty field is reported first, whatever the lengths |
| App.NameBeforeDescription | app.js:25-28 | a short name is reported before a short description |
| App.DescriptionLast | app.js:30-33 | a short description is reported only when the name is long enough |
| App.UserData.constructor | app.js:6-10 | the record starts with an empty name, description and generated HTML |
| App.UserData.Submit | app.js:13-37 | stores the trimmed inputs, keeps the generated HTML, and starts generation exactly when the trimmed name has at least 2 and the trimmed description at least 10 characters |
| App.ValidationIgnoresPadding | app.js:16-17 | white space around the inputs does not change the decision |
| App.Classify | app.js:165-174 | a restaurant keyword always gives restaurant, and any other category chosen has one of its keywords in the lower-cased description |
| App.Industry.Label | app.js:167-173 | the label is 'business' exactly for the fallback |
| App.LabelsDistinct | app.js:167-173 | distinct industries return distinct strings |
| App.ClassifyIsFirstMatch | app.js:165-174 | the classifier is the first category, in table order, one of whose keywords occurs in the lower-cased description |
| App.ClassifyIgnoresCase | app.js:166 | descriptions that agree once lower-cased are classified alike |
| App.ClassifyPrecedence | app.js:167-172 | a category is chosen exactly when one of its keywords occurs and none of an earlier category's does |
| App.ClassifyFallback | app.js:173 | 'business' is chosen exactly when no keyword occurs |
| App.KeywordInsideWord | app.js:167-172 | a keyword counts wherever it occurs, inside a longer word too |
| App.PizzaBeforeYoga | app.js:167-169 | "Pizza and yoga" is a restaurant |
| App.SubstringNotWord | app.js:167 | "Seafood stall" is a restaurant, through the substring "food" |
| App.SelectHint | app.js:131-143 | the generic hint is chosen exactly when the message mentions neither the missing key, nor a timeout, nor a network error |
| App.HintText | app.js:131-143 | the configuration hint alone opens with a warning sign; every other hint opens with a light bulb |
| App.AlertMessage | app.js:127-143 | the alert is the header, the error message, a blank line and the chosen hint |
| App.AlertOpensWithMessage | app.js:128-129 | the alert always begins with the header and the error message |
| App.HintPrecedence | app.js:131-143 | the key hint is chosen exactly when the message names the missing key; the timeout hint exactly when it does not but mentions a timeout; the network hint exactly when neither holds and it mentions a network error |
| App.TimedOutHint | app.js:134 | a message saying "timed out" that cannot name the key variable gets the timeout hint |
| App.ClientTimeoutHint | app.js:51 | the client's own 60-second timeout message gets the timeout hint |
| Handlers.KeyAndFieldsOrder | server.js:39-50 | with no key and a missing field, the serverless function answers 500 and the server 400 |
| Handlers.MalformedBody | netlify/functions/generate-website.js:36-42 | a body that is not JSON, or is null, is a 400 for the serverless function and a 500 for the server |
| Handlers.EmptyBody | netlify/functions/generate-website.js:37 | an absent body is `{}` (400, missing fields) for the serverless function and a parse error (500) for the server |
| Handlers.MarkerCheckOnlyServerless | netlify/functions/generate-website.js:80-82 | with printable fields, a delivered text with no marker fails on the serverless function and is served by the server |
| Handlers.SamePage | server.js:78-89 | when both handlers succeed on the same text they serve the same page |
| Handlers.UnprintableField | netlify/functions/generate-website.js:50 | a present field that cannot be printed rejects the serverless handler and gets 500 'Generation failed' from the server; neither calls the upstream |

## Left out

- The HTTPS clients `callAnthropic` (network I/O, request payloads, model names, token limits). Both are replaced by their settled outcome as an input. The server's client sets no timeout, so a hung upstream never answers; the server model assumes the reply arrives.
- Non-string `content[0].text` values: the model treats the text as a string or absent. A truthy non-string would make `html.trim()` throw.
- The prompt template text of both handlers: it is configuration.
- CORS and content-type headers of the responses, the logging, and the health route's timestamp.
- Static file serving, `path.join`/`path.extname` and the fallback to index.html: filesystem I/O. The model keeps the decision to serve a file, the path joined (`/` as index.html) and the extension-to-type lookup.
- The whole `health.js` function: a constant, an environment flag and a clock reading.
- `MAX_GLOBAL_TOKENS_PER_MONTH` (read from the environment) and the placeholder price identifier strings: configuration. Only the set of priced tiers is modelled.
- Plans.NormalizePlan: JavaScript's `PLANS[plan]` also finds inherited properties, so a key such as `constructor` or `toString` is returned unchanged, and getPlan then returns a prototype member rather than a plan row. The model's table has exactly four keys and maps such keys to free.
- `normalizePlan` accepts any JavaScript value; the model takes a missing value or a string (the values that site rows hold). Other falsy values behave like a missing one.
- Strings are sequences of Unicode scalar values. Lengths in app.js and the 200-character slice in server.js count UTF-16 code units in the source, so they differ for characters outside the Basic Multilingual Plane.
- Case folding (`toLowerCase` and the regular expressions' `i` flag) is ASCII only. Unicode letters whose lower case is an ASCII letter, or that lower-case to several characters, are not modelled.
- GenerateWebsite.Handle: what the platform answers when the handler rejects (the `Rejected` outcome) is not modelled; it is outside the function.
- Requests.Printable: whether a composite value converts is a flag on the field, not computed from the object's keys, so the model does not state which objects have their own `toString`.
- JSON numbers are modelled as reals; a field holding a number is truthy unless it is zero.
- The DOM, the iframe, `fetch`, the loading, editor and home screens, the progress animation (`Math.random`, `setInterval`), the `Promise.race` timeout, and the upgrade button in app.js: UI, randomness, timers and concurrency. `getIndustryType` reads `userData.businessDescription`; the model passes the description as an argument (`App.Classify`).
- How the client turns a server error into an error message (`generateWebsiteWithAI`): it is part of the `fetch` path.
