# scopebound core, modelled in Dafny

scopebound is a client-project scoping service. An agency's organization
sends a client an AI-generated intake form. The answers are turned into a
project timeline by an LLM. The timeline is shared with the client, who can
chat about it and request scope changes, which become change orders for the
team.

This project models the core of that service, one Dafny module per source
file:

- **Shared helpers.** `lib/sanitize.ts`, `lib/url.ts`, `lib/auth.ts`
  configuration, `lib/auth-helpers.ts`, `lib/api-errors.ts`,
  `lib/rate-limit.ts` and `middleware.ts`.
- **AI glue.** `lib/ai/claude.ts`, `lib/ai/generateForm.ts`,
  `lib/ai/generateTimeline.ts` and the timeline prompt.
- **API routes.**
  - `POST /api/change-orders`;
  - `GET`/`PATCH /api/organization/settings`;
  - `POST /api/organization/invite`;
  - `GET`/`POST /api/projects`.
- **React components.** Form renderer, timeline editor, view, stats, chat
  sidebar and proposal comparison, and the team and project-type settings
  pages.
- **The toast hook.** `hooks/use-toast.ts`.

JavaScript's built-ins are stated once, in module `Js`
(`js_builtins.dfy`). These cover `\s`, `trim`, `split`, `join`, literal
`replaceAll`, ASCII case mapping, `String(n)`, `Math.floor`/`ceil`/`round`/`abs`
and `x || []`. Every other module uses them.

How each kind of code is modelled:

- **Pure code becomes functions.** Sanitizers, prompt building, error
  mapping, view arithmetic and proposal comparison are functions. Lemmas
  state what those functions guarantee.
- **Routes become a table state plus a spec function.** Database tables
  are the fields of one value (`Tables.Db`), held by the class
  `Tables.Database`.
  - Each route is a spec function from the old tables to
    (reply, new tables, e-mails sent).
  - Beside it is a method that takes the route's early returns step by
    step and is proved equal to the spec.
- **Module-level state becomes classes.** The rate-limit store, the Claude
  request window and the toast listener registry are classes whose methods
  update fields.
- **React components become classes.** Each component's state is a class.
  Its handlers are methods that receive their request's outcome as a
  parameter, since `fetch` is not modelled. They also receive what the user
  answered to `confirm()` and the clock readings they take.
- **Toasts become a field.** Every toast raised is appended to the
  component's `toasts` field.

Two behaviours of the code are worth stating up front:

- **Change-order token mismatch.** A share token that does not match the
  timeline's answers 403 "Invalid access token"
  (app/api/change-orders/route.ts:42-46), not 404.
- **Delta signs.** A `+` is prefixed only to a positive delta
  (app/api/change-orders/route.ts:100-101), so a zero delta has no sign.

## Model

| member | source | states |
|---|---|---|
| Sanitize.SanitizeHtmlIsEscapeAll | lib/sanitize.ts:1-8 | the five sequential global replacements equal escaping each character independently (`<`, `>`, `"`, `'`, `/` to their entities) |
| Sanitize.SanitizeHtmlSafe | lib/sanitize.ts:1-8 | the output contains none of the five special characters and is never shorter than the input |
| Sanitize.SanitizeHtmlKeepsPlainText | lib/sanitize.ts:1-8 | text without the five characters passes through unchanged |
| Sanitize.SanitizeHtmlNotInjective | lib/sanitize.ts:1-8 | `&` is not escaped, so `<` and the already-escaped `&lt;` give the same output |
| Sanitize.SanitizeHtmlAppend | lib/sanitize.ts:1-8 | sanitizing distributes over concatenation |
| Sanitize.CollapseRunsNoAdjacent | lib/sanitize.ts:11 | after `replace(/\s+/g, " ")` no two whitespace characters are adjacent |
| Sanitize.CollapseRunsOutside | lib/sanitize.ts:11 | replacing runs keeps every character outside the run class, in order |
| Sanitize.CollapseRunsRep | lib/sanitize.ts:11 | every run character left in the result is the replacement character |
| Sanitize.CollapseRunsFixpoint | lib/sanitize.ts:11 | text whose runs are already single replacement characters is unchanged |
| Sanitize.SanitizeInputShape | lib/sanitize.ts:10-12 | `sanitizeInput` output has no whitespace at the ends, no two adjacent spaces, no whitespace but `' '`, and keeps every non-whitespace character in order |
| Sanitize.SanitizeInputIdempotent | lib/sanitize.ts:10-12 | sanitizing input twice is sanitizing it once |
| Sanitize.SanitizeInputFixpoint | lib/sanitize.ts:10-12 | text already in collapsed form is left alone |
| Sanitize.IsValidEmailMatchesRegex | lib/sanitize.ts:14-17 | the scan for the first `@` accepts exactly what `/^[^\s@]+@[^\s@]+\.[^\s@]+$/` matches |
| Sanitize.IsValidEmailShape | lib/sanitize.ts:14-17 | a valid e-mail has no whitespace, exactly one `@` after a non-empty local part, and a `.` strictly inside the domain, and conversely |
| Sanitize.ReplaceDisallowed | lib/sanitize.ts:30 | each character outside `[a-zA-Z0-9._-]` becomes `_`, position by position |
| Sanitize.SanitizeFileNameClean | lib/sanitize.ts:28-33 | a sanitized file name uses only `[A-Za-z0-9._-]`, never contains `__`, and has at most 255 characters |
| Sanitize.SanitizeFileNameIdempotent | lib/sanitize.ts:28-33 | sanitizing a sanitized name changes nothing |
| ApiErrors.HandleApiError | lib/api-errors.ts:15-49 | an `APIError` keeps its status, message and details; a zod error is 400 "Validation failed" with one `{path, message}` per issue; another `Error` is 500 with its message; anything else is 500 "An unexpected error occurred" |
| ApiErrors.IssueDetailsOf | lib/api-errors.ts:29-32 | one detail per issue, in order, its path joined with dots |
| ApiErrors.HandleApiErrorStatus | lib/api-errors.ts:15-49 | only an `APIError` chooses its status; any other thrown value gives 400 exactly when it is a zod error and 500 otherwise |
| ApiErrors.PathTextExample | lib/api-errors.ts:30 | the path `["sections", 0, "title"]` reads `sections.0.title` |
| ApiErrors.Unauthorized | lib/api-errors.ts:51-53 | the thrown error is handled as 401 with the given message, default "Unauthorized" |
| ApiErrors.Forbidden | lib/api-errors.ts:55-57 | the thrown error is handled as 403, default "Forbidden" |
| ApiErrors.NotFound | lib/api-errors.ts:59-61 | the thrown error is handled as 404, default "Not found" |
| ApiErrors.BadRequest | lib/api-errors.ts:63-65 | the thrown error is handled as 400 with the message, carrying details exactly when given |
| Middleware.DecideOutcomes | middleware.ts:6-34 | a request either passes or is redirected to `/login`, exactly when the path is not public, not under `/api/`, and there is no session cookie; the redirect to `/dashboard` is unreachable, because auth pages are public and return first |
| Middleware.AuthPathsArePublic | middleware.ts:3-4 | every auth path is also a public path |
| Middleware.PublicAndApiPass | middleware.ts:10-17 | public pages and `/api/` routes pass whatever the cookie |
| Middleware.LoginWithSessionPasses | middleware.ts:10-12 | `/login` with a session cookie passes rather than going to the dashboard |
| AuthHelpers.MembershipOf | lib/auth-helpers.ts:12-28 | a membership is found exactly when some row has that user and organization, and the row found is one of them |
| AuthHelpers.MembershipOfIsFirst | lib/auth-helpers.ts:16-27 | the row found is the first matching row (`limit(1)` in storage order) |
| AuthHelpers.OwnerIsMember | lib/auth-helpers.ts:30-44 | owner access implies member access; member access is exactly having a membership row |
| AuthHelpers.FirstRowDecidesOwnership | lib/auth-helpers.ts:30-36 | with duplicate rows, a member row stored before an owner row denies owner access, and the other order grants it |
| AuthHelpers.IsOwnerIffOwnerRow | lib/auth-helpers.ts:30-36 | with one row per user and organization, owner access is exactly having an owner row |
| Url.BaseUrl | lib/url.ts:6-26 | the base URL is never empty |
| Url.BaseUrlPriority | lib/url.ts:6-26 | the app URL as given, else `https://` and the first trimmed Replit domain, else the request origin, else `http://localhost:5000`; a later source is ignored when an earlier one is set |
| Url.LaterDomainsIgnored | lib/url.ts:13-17 | only the first comma-separated Replit domain matters |
| AuthConfig.BuildTrustedOrigins | lib/auth.ts:7-24 | the loop builds the local origin, one `https://` origin per trimmed Replit domain in order, then the app URL when set |
| AuthConfig.TrustedOriginsShape | lib/auth.ts:7-24 | the list's length is 1 + domains + (app URL set), the first entry is the local origin, entry `1+i` is domain `i`, and the last is the app URL when set |
| AuthConfig.Secret | lib/auth.ts:44 | `SESSION_SECRET`, else `BETTER_AUTH_SECRET`, else the development default; never empty; the development secret is used exactly when neither set variable supplies another value |
| AuthConfig.AuthBaseUrl | lib/auth.ts:46 | the app URL when set, else the local origin; never empty |
| AuthConfig.AuthBaseUrlIsTrusted | lib/auth.ts:19-24 | the library's own base URL is always among its trusted origins |
| AuthConfig.BaseUrlIsTrusted | lib/auth.ts:7-24 | without a request origin, the URL `getBaseUrl` builds is always a trusted origin |
| UseToast.ToastHub.constructor | hooks/use-toast.ts:11-12 | the registry starts with no listeners, the counter at 0 and nothing delivered |
| UseToast.ToastHub.AddListener | hooks/use-toast.ts:14-15 | the listener is appended to the registry; the counter and the deliveries are unchanged |
| UseToast.ToastHub.Unsubscribe | hooks/use-toast.ts:16-21 | the first registration of the listener is removed, if there is one, by `indexOf` and `splice` |
| UseToast.ToastHub.EmitToast | hooks/use-toast.ts:24-29 | the counter goes up first and the id is its decimal text; the id is fresh; every listener, in registry order, receives the toast exactly once |
| UseToast.AddThenRemove | hooks/use-toast.ts:14-21 | unsubscribing a listener just added gives the registry back |
| UseToast.RemoveFirst | hooks/use-toast.ts:17-19 | removal takes out exactly one occurrence of the listener, when present, and keeps the rest |
| UseToast.IndexOf | hooks/use-toast.ts:17 | `indexOf` returns the first position of the element, or -1 exactly when it is absent |
| UseToast.IdsUnique | hooks/use-toast.ts:25 | no two toasts get the same id |
| UseToast.TwoToastsInOrder | hooks/use-toast.ts:14-29 | two toasts in a row get different ids and reach a listener registered before them in emission order |
| RateLimit.RateLimitStore.constructor | lib/rate-limit.ts:8 | the store starts empty |
| RateLimit.RateLimitStore.ExpiredNow | lib/rate-limit.ts:12-19 | the first loop of the cleanup collects exactly the keys whose window has passed, in insertion order |
| RateLimit.RateLimitStore.DeleteAll | lib/rate-limit.ts:21-23 | deleting the collected keys removes them from the key order and from the records, and nothing else |
| RateLimit.RateLimitStore.Delete | lib/rate-limit.ts:22 | `Map.delete` removes one key from the insertion order and the records |
| RateLimit.RateLimitStore.Cleanup | lib/rate-limit.ts:11-31 | the store after cleanup is `Cleaned` of the store before it |
| RateLimit.CleanedSound | lib/rate-limit.ts:11-31 | after cleanup every record was already in the store, unchanged and unexpired; the keys left are the live keys, minus the oldest 1000 when more than 10000 remain |
| RateLimit.CleanedWithinBound | lib/rate-limit.ts:11-24 | with at most 10000 live records, cleanup keeps exactly the unexpired ones |
| RateLimit.Decide | lib/rate-limit.ts:43-62 | a missing or expired record starts a new window with count 1; a full window denies with 0 remaining and `reset` as the ceiling of the seconds left; otherwise the count goes up and `remaining` is `maxRequests - count` |
| RateLimit.RateLimitStore.Admit | lib/rate-limit.ts:43-62 | the decision step, as statements on the store, equals `Step` on the cleaned store |
| RateLimit.RateLimitStore.Check | lib/rate-limit.ts:37-63 | one `check`, with its clock reading and the cleanup's own, equals `Checked` of the old store and the client identifier |
| RateLimit.FoundRecordNotExpired | lib/rate-limit.ts:38-45 | because the cleanup reads the clock after `check` does, a record found after cleanup is never expired at `check`'s time |
| RateLimit.CheckKeepsCountBound | lib/rate-limit.ts:53-61 | a check never raises a record's count beyond `maxRequests`, so the stored counts stay bounded |
| RateLimit.CheckRemaining | lib/rate-limit.ts:45-62 | after a check the key has a record; a success reports `maxRequests` minus its count, and a denial reports 0 and leaves the record alone |
| RateLimit.FirstCheckAdmits | lib/rate-limit.ts:45-50 | the first check on an empty store succeeds with `maxRequests - 1` remaining and a count of 1 |
| RateLimit.ClientIdentifier | lib/rate-limit.ts:67-71 | the key is `ip:` and the first comma-separated entry of `x-forwarded-for` when set, else `x-real-ip` when set, else `127.0.0.1` |
| RateLimit.SharedStoreCrossTalk | lib/rate-limit.ts:8 | all limiters share one store under the same key: for any address key and any time, five AI requests from that address at that time make the auth limiter's next `check` for it denied |
| RateLimit.Limiter.constructor | lib/rate-limit.ts:35-36 | a limiter built from a configuration gets a new, empty store of its own |
| RateLimit.Limiter.Check | lib/rate-limit.ts:35-65 | a limiter that owns its store checks exactly as `Checked` on that store |
| RateLimit.AiRequestsLeaveAuthAlone | lib/rate-limit.ts:73-81 | with a store per limiter, AI-limited requests leave the auth limiter's state untouched |
| Claude.ParseIntDeltaSeconds | lib/ai/claude.ts:50-52 | a delta-seconds `Retry-After` value is read back as the number it writes |
| Claude.ParseIntHttpDate | lib/ai/claude.ts:50-52 | an HTTP-date `Retry-After` value parses to NaN |
| Claude.ParseIntDigits | lib/ai/claude.ts:51 | `parseInt` of a run of decimal digits is their value |
| Claude.LeadingDigits | lib/ai/claude.ts:51 | `parseInt` reads the longest prefix of digits in its radix |
| Claude.MapSdkError | lib/ai/claude.ts:43-66 | a connection error becomes a plain error "Connection failed: …" with no status; a rate-limit error becomes a 429 carrying the parsed `retry-after` when that header is non-empty; an API error becomes a 529 overloaded error when its status is 529, else a plain error with its message and status; anything else is rethrown as it was |
| Claude.HandleClaudeError | lib/ai/claude.ts:37-42 | a successful operation's value is returned unchanged, and only a success returns |
| Claude.HandleClaudeErrorStatus | lib/ai/claude.ts:22-34 | the mapped error's status is 429 for rate limits, the SDK status for API errors, and absent for connection errors |
| Claude.RetryAfterSeconds | lib/ai/claude.ts:49-56 | a `retry-after: n` header yields a rate-limit error carrying `n` |
| Claude.EstimateTokens | lib/ai/claude.ts:71-75 | the estimate is the least `r` with `4r` at least the text's length, and 0 exactly for the empty text |
| Claude.EstimateTokensForMessages | lib/ai/claude.ts:77-82 | the estimate for messages is the estimate for their concatenated contents |
| Claude.EstimateTokensForMessagesAppend | lib/ai/claude.ts:77-82 | estimating two message lists together is at most the sum of the separate estimates and at least that sum less one |
| Claude.InWindow | lib/ai/claude.ts:103 | the filter keeps exactly the times less than one window old |
| Claude.InWindowAscending | lib/ai/claude.ts:103 | filtering keeps the times in ascending order |
| Claude.RateLimiter.CanMakeRequest | lib/ai/claude.ts:100-105 | the window is pruned to the recent times, and a request may be made exactly when fewer than `maxRequests` remain |
| Claude.RateLimiter.RecordRequest | lib/ai/claude.ts:107-109 | the current time is appended; the times stay ascending when the clock does not go back |
| Claude.RateLimiter.GetWaitTime | lib/ai/claude.ts:111-117 | the wait is 0 when a request may be made, else one window less the age of the oldest recent request, as `WaitTime` states |
| Claude.WaitTimeBounds | lib/ai/claude.ts:111-117 | with a single clock reading and no future times, the wait is between 0 and one window and is 0 exactly when the limiter is not full |
| Claude.RateLimiter.constructor | lib/ai/claude.ts:95-98 | a new limiter has the given limit and window and no recorded requests |
| ClaudeResponse.FirstText | lib/ai/generateForm.ts:51-54 | a text block is found exactly when the reply holds one |
| ClaudeResponse.FirstTextIsFirst | lib/ai/generateForm.ts:51 | the text taken is the first text block of the reply |
| ClaudeResponse.FencedBlockIffTwoFences | lib/ai/generateForm.ts:62 | the fence pattern matches exactly when the reply contains two non-overlapping "```" |
| ClaudeResponse.FencedBlockHasNoFence | lib/ai/generateForm.ts:62 | the lazy capture never contains a fence |
| ClaudeResponse.JsonText | lib/ai/generateForm.ts:62-64 | the text handed to `JSON.parse` is the trimmed captured block when the pattern matches, else the trimmed reply |
| ClaudeResponse.JsonFenceExample | lib/ai/generateForm.ts:62-63 | "```json\n{}\n```" yields `{}` |
| ClaudeResponse.GenerateErrors | lib/ai/generateForm.ts:76-85 | a `ClaudeError` from the call passes through unchanged; any other thrown error becomes a plain `ClaudeError` with the "Failed to generate …: " prefix and its message ("Unknown error" for a non-`Error`); failures after the call are plain errors without a status |
| ClaudeResponse.GenerateNoText | lib/ai/generateForm.ts:51-54 | a reply without a text block fails with "No text content in Claude response" |
| ClaudeResponse.GenerateSuccess | lib/ai/generateForm.ts:34-75 | generation succeeds exactly when the call returns, has a text block, the extracted JSON parses, and the schema accepts it |
| GenerateForm.GenerateForm | lib/ai/generateForm.ts:22-86 | a non-Claude error becomes "Failed to generate form: " and its message; success exactly when the reply parses and validates; the output is the validated value |
| GenerateForm.SlugShape | lib/ai/generateForm.ts:94-97 | the slug uses only `[a-z0-9_]` and never has two `_` in a row |
| GenerateForm.Slug | lib/ai/generateForm.ts:97 | the slug has at most 30 characters |
| GenerateForm.GenerateQuestionId | lib/ai/generateForm.ts:89-99 | a generated id is never empty |
| GenerateForm.QuestionIdChars | lib/ai/generateForm.ts:89-99 | a generated id uses only `[a-z0-9_]` |
| GenerateForm.QuestionIdTail | lib/ai/generateForm.ts:98 | the id is `q_`, the section index, `_`, the question index, `_`, and the slug |
| GenerateForm.QuestionIdPositions | lib/ai/generateForm.ts:89-99 | two equal generated ids have the same section and question indices |
| GenerateForm.SlugOfPlainLabel | lib/ai/generateForm.ts:94-97 | a short label of lower-case letters and digits is its own slug |
| GenerateForm.SlugExample | lib/ai/generateForm.ts:94-97 | "Team size?" becomes `team_size_` |
| GenerateForm.SanitizeQuestionSpec | lib/ai/generateForm.ts:108-133 | the result is well formed; a non-empty id is kept, an empty one is generated from the indices and label; a choice question without options becomes text without options; anything else keeps its type and options |
| GenerateForm.SanitizeQuestionFixpoint | lib/ai/generateForm.ts:108-133 | a well-formed question is unchanged |
| GenerateForm.SanitizeFormOutputSpec | lib/ai/generateForm.ts:102-137 | the result is well formed and keeps the sections' titles, descriptions and question counts; question `j` of section `i` is sanitized with indices `i` and `j` |
| GenerateForm.SanitizeFormOutputFixpoint | lib/ai/generateForm.ts:102-137 | a well-formed form is unchanged |
| GenerateForm.SanitizeFormOutputIdempotent | lib/ai/generateForm.ts:102-137 | sanitizing twice is sanitizing once |
| GenerateTimeline.GenerateTimeline | lib/ai/generateTimeline.ts:25-107 | a non-Claude error becomes "Failed to generate timeline: " and its message; success exactly when the extracted text, with entities decoded and then trimmed, parses and validates |
| GenerateTimeline.GenerateTimelineWithoutEntities | lib/ai/generateTimeline.ts:72-82 | without `&` in the reply, timeline generation treats the reply exactly as form generation does |
| GenerateTimeline.DecodeEntitiesNoAmpersand | lib/ai/generateTimeline.ts:75-80 | text without `&` is not changed by the five replacements |
| GenerateTimeline.DecodeEntitiesShrinks | lib/ai/generateTimeline.ts:75-80 | decoding never lengthens the text |
| GenerateTimeline.DoubleEscapedDecodes | lib/ai/generateTimeline.ts:76-77 | `&amp;` is decoded first, so `&amp;lt;` becomes `<`: double-escaped text is decoded twice |
| GenerateTimeline.HexEntitiesStay | lib/ai/generateTimeline.ts:75-80 | `&#x27;` and `&#x2F;`, which `sanitizeHtml` produces, are not decoded |
| GenerateTimeline.FencedBlockIsSlice | lib/ai/generateTimeline.ts:72-73 | every character of the captured block comes from the reply |
| TimelinePrompt.AnswerLine | lib/ai/prompts/timelineGenerationPrompt.ts:150-158 | every answer line starts with `A: ` |
| TimelinePrompt.UnansweredLines | lib/ai/prompts/timelineGenerationPrompt.ts:150-158 | a missing answer, a `null` answer and an empty array all read "A: Not answered" |
| TimelinePrompt.SingletonListIsScalar | lib/ai/prompts/timelineGenerationPrompt.ts:151-154 | a one-element array is rendered like that element on its own |
| TimelinePrompt.FormatFormResponses | lib/ai/prompts/timelineGenerationPrompt.ts:126-164 | the loop that appends to `formatted` produces exactly the rendering defined section by section and question by question |
| TimelinePrompt.AppendSection | lib/ai/prompts/timelineGenerationPrompt.ts:136-161 | one pass of the outer `forEach` appends exactly that section's block |
| TimelinePrompt.QuestionText | lib/ai/prompts/timelineGenerationPrompt.ts:142-160 | one pass of the inner `forEach` builds the question's label line, required marker and answer line |
| TimelinePrompt.SectionHeadText | lib/ai/prompts/timelineGenerationPrompt.ts:137-140 | the section heading, with the description line only when the description is non-empty |
| TimelinePrompt.FormattedResponsesEmpty | lib/ai/prompts/timelineGenerationPrompt.ts:130-134 | the rendering is empty exactly when the form has no sections field |
| TimelinePrompt.FormattedResponsesPerSection | lib/ai/prompts/timelineGenerationPrompt.ts:136-161 | adding a section at the end adds its heading and its questions' blocks at the end and changes nothing before |
| TimelinePrompt.SectionsBlockAppend | lib/ai/prompts/timelineGenerationPrompt.ts:136-161 | the rendering of two runs of sections is the concatenation of their renderings |
| TimelinePrompt.FormattedResponsesLocal | lib/ai/prompts/timelineGenerationPrompt.ts:143 | the rendering depends only on the answers to the form's own question ids |
| TimelinePrompt.FormResponsesPart | lib/ai/prompts/timelineGenerationPrompt.ts:60 | the questionnaire block is non-empty only when both the responses and a form with sections are given |
| TimelinePrompt.CustomInstructionsPart | lib/ai/prompts/timelineGenerationPrompt.ts:48-49 | the custom-instructions line appears exactly when the instructions are a non-empty string, and is then the labelled text with a newline |
| FormRenderer.RuleForAccepts | components/forms/FormRenderer.tsx:58-76 | a required checkbox question accepts a non-empty array, a required other question a non-empty string; an optional question accepts a missing value or a value of its kind |
| FormRenderer.BuildValidationSchema | components/forms/FormRenderer.tsx:53-81 | the loop over sections and questions builds exactly the shape defined question by question |
| FormRenderer.RulesFromKeys | components/forms/FormRenderer.tsx:56-78 | the shape has a key exactly for each question id |
| FormRenderer.RulesFromLastWins | components/forms/FormRenderer.tsx:61-75 | each id gets the rule of the last question carrying it |
| FormRenderer.RulesFromAppend | components/forms/FormRenderer.tsx:56-78 | building over two runs of questions is building over the first and continuing with the second |
| FormRenderer.ValidationRulesIff | components/forms/FormRenderer.tsx:53-81 | with distinct question ids, the object schema accepts the values exactly when each question's own rule accepts its answer |
| FormRenderer.IdsOf | components/forms/FormRenderer.tsx:149-151 | the field names are the question ids in order |
| FormRenderer.BuildDefaultValues | components/forms/FormRenderer.tsx:84-105 | the loop builds exactly the defaults defined question by question |
| FormRenderer.DefaultForSpec | components/forms/FormRenderer.tsx:89-100 | a provided value other than `undefined` wins; otherwise a checkbox starts with `[]`, a required question with `""`, and an optional one with `undefined` |
| FormRenderer.DefaultsFromKeys | components/forms/FormRenderer.tsx:87-102 | the defaults have a key exactly for each question id |
| FormRenderer.DefaultsFromLastWins | components/forms/FormRenderer.tsx:89-100 | each id gets the default of the last question carrying it |
| FormRenderer.DefaultsFromAppend | components/forms/FormRenderer.tsx:87-102 | building over two runs of questions is building over the first and continuing with the second |
| FormRenderer.DefaultPassesIffOptional | components/forms/FormRenderer.tsx:58-100 | without provided values, a question's default passes its rule exactly when the question is optional |
| FormRenderer.HandleFormSubmit | components/forms/FormRenderer.tsx:123-133 | the loop over the keys keeps exactly the submitted entries |
| FormRenderer.Submitted | components/forms/FormRenderer.tsx:124-131 | the submitted keys are those whose value is neither `undefined` nor `""`, with their values unchanged |
| FormRenderer.SubmittedProperties | components/forms/FormRenderer.tsx:128 | an empty checkbox array is still submitted, and filtering twice is filtering once |
| FormRenderer.SubmittedStillSatisfies | components/forms/FormRenderer.tsx:123-133 | values the schema accepted are still accepted after filtering |
| FormRenderer.ToggleCheckbox | components/forms/FormRenderer.tsx:209-217 | ticking appends the option to the current values (none counts as `[]`); unticking leaves exactly the other values |
| FormRenderer.TickUntick | components/forms/FormRenderer.tsx:209-217 | ticking and then unticking an unticked option restores the values |
| FormRenderer.UntickKeepsOrder | components/forms/FormRenderer.tsx:215 | unticking works element by element, keeping the order of the rest |
| TimelineEditor.Apply | components/timeline/TimelineEditor.tsx:45 | an empty update leaves the phase as it was |
| TimelineEditor.UpdatedPhases | components/timeline/TimelineEditor.tsx:41-47 | the length and order are kept; exactly the phases with the id get the update |
| TimelineEditor.AddedPhase | components/timeline/TimelineEditor.tsx:51-62 | the phases are kept and one phase of 1 week with the single task "New task" and no dependencies is appended |
| TimelineEditor.AddAfterRemoveRepeatsId | components/timeline/TimelineEditor.tsx:53 | the new id counts phases: after removing `phase-1` of two, the added phase repeats `phase-2` |
| TimelineEditor.RemovedPhasesMembers | components/timeline/TimelineEditor.tsx:66-72 | exactly the phases with another id remain, unchanged, so other phases' dependencies are untouched |
| TimelineEditor.RemovedPhasesAppend | components/timeline/TimelineEditor.tsx:69 | removal works element by element, keeping the order of the rest |
| TimelineEditor.RemovedPhasesAbsent | components/timeline/TimelineEditor.tsx:69 | removing an id no phase has changes nothing |
| TimelineEditor.ReplacedTask | components/timeline/TimelineEditor.tsx:92 | the length is kept and only the task at the index is replaced |
| TimelineEditor.RemovedTask | components/timeline/TimelineEditor.tsx:104 | the task at the index is removed; an index outside the list changes nothing |
| TimelineEditor.WithTasks | components/timeline/TimelineEditor.tsx:74-108 | only the task lists of the phases with the id are edited |
| TimelineEditor.TaskEditsAreLocal | components/timeline/TimelineEditor.tsx:74-108 | the task edits change nothing but the target phases' task lists; adding appends "New task"; an index outside every target list changes nothing |
| TimelineEditor.TotalWeeksAppend | components/timeline/TimelineEditor.tsx:112 | the sum of durations over two runs of phases is the sum of the two sums |
| TimelineEditor.TotalWeeksOfDurations | components/timeline/TimelineEditor.tsx:112 | the sum depends only on the durations |
| TimelineEditor.Recalculated | components/timeline/TimelineEditor.tsx:110-124 | the phases, assumptions and risks are kept; the weeks are the sum of durations, the hours 40 per week, the cost the hours times the rate |
| TimelineEditor.AddedPhaseAddsAWeek | components/timeline/TimelineEditor.tsx:51-64 | adding a phase adds one week and 40 hours' worth of cost |
| TimelineEditor.TaskEditsKeepTotal | components/timeline/TimelineEditor.tsx:74-108 | task edits and renames leave the total weeks unchanged |
| TimelineEditor.Editor.constructor | components/timeline/TimelineEditor.tsx:35-36 | the editor starts from the timeline it was given, with the project rate |
| TimelineEditor.Editor.UpdatePhase | components/timeline/TimelineEditor.tsx:41-49 | the phases are updated and the totals recalculated |
| TimelineEditor.Editor.AddPhase | components/timeline/TimelineEditor.tsx:51-64 | a phase is appended and the totals recalculated |
| TimelineEditor.Editor.RemovePhase | components/timeline/TimelineEditor.tsx:66-72 | the phases with the id are removed and the totals recalculated |
| TimelineEditor.Editor.AddTask | components/timeline/TimelineEditor.tsx:74-83 | only the task lists change; the totals are not recalculated |
| TimelineEditor.Editor.UpdateTask | components/timeline/TimelineEditor.tsx:85-97 | only the task lists change; the totals are not recalculated |
| TimelineEditor.Editor.RemoveTask | components/timeline/TimelineEditor.tsx:99-108 | only the task lists change; the totals are not recalculated |
| TimelineEditor.Editor.RecalculateTotals | components/timeline/TimelineEditor.tsx:110-124 | the timeline becomes its recalculated form |
| TimelineView.Toggled | components/timeline/TimelineView.tsx:43-53 | the toggled id flips membership; every other id keeps it |
| TimelineView.ToggledTwice | components/timeline/TimelineView.tsx:43-53 | toggling an id twice restores the set |
| TimelineView.ExpandedPhases.constructor | components/timeline/TimelineView.tsx:40 | no phase starts expanded |
| TimelineView.ExpandedPhases.TogglePhase | components/timeline/TimelineView.tsx:43-53 | the expanded set becomes its toggled form |
| TimelineView.WeekMarkers | components/timeline/TimelineView.tsx:55-56 | the markers are 1 to the ceiling of the total weeks (none when that is not positive) |
| TimelineView.WeekMarkersCover | components/timeline/TimelineView.tsx:55-56 | for a positive total, the last marker is the first whole week at or past the total |
| TimelineView.Divide | components/timeline/TimelineView.tsx:61-63 | a JavaScript division is a finite number exactly when the divisor is non-zero |
| TimelineView.PositionAt | components/timeline/TimelineView.tsx:59-74 | position `i` shows phase `i` with colour `i mod 8` |
| TimelineView.PhasePositions | components/timeline/TimelineView.tsx:58-75 | the loop that advances `currentWeek` yields, for each phase in order, the position defined by the prefix sum of the earlier durations |
| TimelineView.TotalWeeksStep | components/timeline/TimelineView.tsx:64 | each step of the loop adds the phase's duration to the running week |
| TimelineView.PositionsChain | components/timeline/TimelineView.tsx:60-69 | the first phase starts at week 0, each phase ends where the next starts, and the last ends at the sum of the durations |
| TimelineView.PositionsTile | components/timeline/TimelineView.tsx:61-62 | when the total weeks are the (non-zero) sum of durations, the bars start at 0%, abut, and end at 100% |
| TimelineView.BudgetSumIsShare | components/timeline/TimelineView.tsx:63 | the budgets of the first `n` phases are their share of the weeks times the total cost |
| TimelineView.BudgetsSumToTotalCost | components/timeline/TimelineView.tsx:63 | when the total weeks are the (non-zero) sum of durations, the phase budgets sum to the total cost |
| TimelineView.RemainingDays | components/timeline/TimelineView.tsx:88 | the day remainder lies in 0..5 |
| TimelineView.RemainingDaysBounds | components/timeline/TimelineView.tsx:87-88 | no days remain exactly when the fraction is below 0.1; five remain exactly when it is at least 0.9, without a carry into weeks |
| TimelineView.FormatDurationWhole | components/timeline/TimelineView.tsx:90-92 | a whole number of weeks reads "N week" or "N weeks", singular exactly for 1 |
| TimelineView.FormatDurationShort | components/timeline/TimelineView.tsx:93 | with a fraction of at least 0.1 the text is "Nw Dd" with D in 1..5 |
| TimelineStats.FormatDurationLongWeeks | components/timeline/TimelineStats.tsx:35-43 | the text always starts with the whole weeks and "week"/"weeks" |
| TimelineStats.NoCarryIntoWeeks | components/timeline/TimelineStats.tsx:36-37 | 1.95 weeks reads "1 week, 5 days" |
| TimelineStats.SingularOnlyForOne | components/timeline/TimelineStats.tsx:40-42 | 1.2 weeks reads "1 week, 1 day" and 2 weeks "2 weeks" |
| TimelineStats.TotalTasksAppend | components/timeline/TimelineStats.tsx:88 | the task total over two runs of phases is the sum of the two totals |
| TimelineStats.TotalTasksCountsAll | components/timeline/TimelineStats.tsx:88 | the task total is the number of tasks across all phases |
| TimelineStats.AddedTaskCount | components/timeline/TimelineStats.tsx:88 | adding a task to a phase id raises the total by the number of phases with that id |
| TimelineStats.CountsOf | components/timeline/TimelineStats.tsx:85-100 | the phase, task and risk figures are the lengths of the phases, all tasks and the risks |
| ChangeOrders.CostImpact | app/api/change-orders/route.ts:100 | the cost line carries `+` exactly for a positive delta and shows the delta's absolute value |
| ChangeOrders.WeeksImpact | app/api/change-orders/route.ts:101 | the timeline line carries `+` exactly for a positive delta and shows the delta itself |
| ChangeOrders.CostSignLost | app/api/change-orders/route.ts:100 | a cost decrease and the matching increase show the same amount, only the increase marked |
| ChangeOrders.HtmlItems | app/api/change-orders/route.ts:106 | one `<li>` element per change, in order |
| ChangeOrders.TextLines | app/api/change-orders/route.ts:129 | one `- ` line per change, in order |
| ChangeOrders.ChangesAppend | app/api/change-orders/route.ts:106-129 | one more change adds one more item at the end of both renderings |
| ChangeOrders.ChangesAbsent | app/api/change-orders/route.ts:106-129 | a missing or empty change list renders as nothing |
| ChangeOrders.UsersWithId | app/api/change-orders/route.ts:82 | the join picks exactly the users with the member's id |
| ChangeOrders.OwnerContactsAreOwners | app/api/change-orders/route.ts:76-88 | every contact is a user holding an owner membership of the organization |
| ChangeOrders.NotificationsTargets | app/api/change-orders/route.ts:138-147 | each email goes to a contact's non-empty address with "New Change Order Request: " and the project name as subject |
| ChangeOrders.NotificationsCount | app/api/change-orders/route.ts:138-147 | one email per contact with an address |
| ChangeOrders.NotesOrNull | app/api/change-orders/route.ts:66 | empty or missing notes are stored as null, others as given |
| ChangeOrders.PostCheckOrder | app/api/change-orders/route.ts:22-172 | unparseable JSON gives 500, a schema rejection 400, an unknown proposal 404, a missing session or token mismatch 403, an existing order 400; a rejected request changes nothing and sends nothing; success exactly when every check passes, and then exactly one row is added |
| ChangeOrders.PostStoredRow | app/api/change-orders/route.ts:60-69 | the row holds the session's project, the request's proposal and email, the notes or null, and is pending approval; the reply carries its id, status and the success message |
| ChangeOrders.PostTwiceRejected | app/api/change-orders/route.ts:49-58 | repeating an accepted request is refused with 400 and changes nothing |
| ChangeOrders.PostEmails | app/api/change-orders/route.ts:71-148 | the emails go only to owners of the project's organization, one per owner with an address; none when the project row is missing |
| ChangeOrders.PostChangeOrder | app/api/change-orders/route.ts:22-172 | the handler's reply, new tables and emails are those `Post` defines, so every property proved of `Post` holds of the handler |
| InviteRoute.RateLimitComesFirst | app/api/organization/invite/route.ts:15-24 | a refused rate check answers 429 with the reset time before anything else is looked at, and changes nothing |
| InviteRoute.PostInviteCheckOrder | app/api/organization/invite/route.ts:13-130 | past the limiter, no session gives 401, a body that is not JSON 500, a schema rejection 400 "Invalid input", a non-owner 403, an unknown organization 404, and an invite already in the table for that organization and address 400 "User already invited", each in that order; a refused request stores and sends nothing; an invite is sent exactly when every check passes, and then exactly one row is added |
| InviteRoute.PostInviteRow | app/api/organization/invite/route.ts:79-98 | the invite carries the request's organization, address and role, the inviter's id, an expiry seven days after now and is unaccepted; the email goes to the trimmed address |
| InviteRoute.PostInviteTwice | app/api/organization/invite/route.ts:61-77 | repeating an invite that was sent is refused with 400 "User already invited" and changes nothing |
| InviteRoute.PostInviteRoute | app/api/organization/invite/route.ts:13-130 | the handler's reply, new tables and recipient are those `PostInvite` defines |
| SettingsRoute.GetSettingsCheckOrder | app/api/organization/settings/route.ts:10-39 | no session gives 401, a missing or empty organization id 400, a non-member 403; a refused request changes nothing |
| SettingsRoute.GetSettingsOutcomes | app/api/organization/settings/route.ts:41-67 | for a member, existing settings are returned as stored; when none exist an owner creates and gets the defaults (rate "150", colour "#10b981", no logo) and a non-owner gets 404 with nothing stored |
| SettingsRoute.GetSettingsCreatesOnce | app/api/organization/settings/route.ts:41-67 | after an owner's first read created the settings, any member's read returns them and stores nothing more |
| SettingsRoute.Keep | app/api/organization/settings/route.ts:140-143 | a field given in the update replaces the stored one; a missing one keeps it |
| SettingsRoute.UpdatedSettings | app/api/organization/settings/route.ts:138-147 | exactly the settings rows of the organization are updated; the length and the other rows are kept |
| SettingsRoute.Renamed | app/api/organization/settings/route.ts:110-114 | exactly the organizations with the id take the new name |
| SettingsRoute.PatchSettingsOutcomes | app/api/organization/settings/route.ts:85-171 | a non-owner gets 403 and nothing changes; an owner renaming an organization that does not exist gets 404 "Organization not found" and nothing changes; the update succeeds exactly for an owner whose settings pass the second schema and whose rename, if any, finds the organization; then the organization is renamed when the body gave a non-empty name (and untouched otherwise), and has exactly the returned settings, updated field by field from the prior row or inserted |
| SettingsRoute.PatchRenameSurvivesRejection | app/api/organization/settings/route.ts:109-129 | the rename is written before the second schema check, so a rejected update still renames the organization, with the settings untouched |
| SettingsRoute.PatchWithoutNameKeepsOrganizations | app/api/organization/settings/route.ts:109 | without a non-empty name no organization row changes |
| SettingsRoute.PatchSettingsRoute | app/api/organization/settings/route.ts:85-171 | the handler's reply and new tables are those `PatchSettings` defines |
| SettingsRoute.GetSettingsRoute | app/api/organization/settings/route.ts:10-75 | the handler's reply and new tables are those `GetSettings` defines |
| ProjectsRoute.SelectedRows | app/api/projects/route.ts:60-65 | exactly the rows of the organization (and of the status, when one is given) are selected |
| ProjectsRoute.Insert | app/api/projects/route.ts:71 | inserting into a newest-first list keeps it newest first and adds exactly the one row |
| ProjectsRoute.SortNewestFirst | app/api/projects/route.ts:71 | the list is ordered by creation time, newest first, and is a permutation of its input |
| ProjectsRoute.ListProjectsContents | app/api/projects/route.ts:26-81 | no session gives 401, a missing or empty organization id 400, a non-member 403 "Not a member of this organization", in that order; the list is returned exactly for a member, and is then the selected rows newest first, each as often as stored |
| ProjectsRoute.StatusNarrowsTheList | app/api/projects/route.ts:60-65 | a status filter only removes rows, and an empty status filters nothing |
| ProjectsRoute.HourlyRateFor | app/api/projects/route.ts:115-124 | the rate stored is never empty: the request's, else the organization's default, else "150" |
| ProjectsRoute.CreateProjectOutcome | app/api/projects/route.ts:84-150 | a non-member gets 403 and nothing changes; a member gets 201 and a draft project created by them with the request's fields and rate, appended to the table |
| ProjectsRoute.CreateProjectRoute | app/api/projects/route.ts:84-150 | the handler's reply and new tables are those `CreateProject` defines |
| TeamSettings.Firsts | components/settings/TeamSettings.tsx:220-222 | at most one letter per space-separated part |
| TeamSettings.Initials | components/settings/TeamSettings.tsx:218-225 | the initials have at most two characters |
| TeamSettings.InitialsOfTwoWords | components/settings/TeamSettings.tsx:218-225 | two words give their upper-cased first letters, however many spaces lie between them |
| TeamSettings.EmptyPartsThenWord | components/settings/TeamSettings.tsx:220-222 | the empty parts that runs of spaces produce contribute no letter |
| TeamSettings.InitialsKeepTwo | components/settings/TeamSettings.tsx:224 | of three words only the first two initials are kept |
| TeamSettings.WithRole | components/settings/TeamSettings.tsx:144-146 | the length and order are kept; exactly the members with the id take the new role |
| TeamSettings.WithRoleTwice | components/settings/TeamSettings.tsx:144-146 | the last role change of a member wins |
| TeamSettings.RemovalIsExact | components/settings/TeamSettings.tsx:176 | exactly the members with the id are removed, element by element, in order; removing again or removing an absent id changes nothing |
| TeamSettings.InviteRefusalTextAsWritten | components/settings/TeamSettings.tsx:104-107 | the refusal text is never empty: the body's `message`, else a fixed text |
| TeamSettings.InviteRefusalLosesReason | components/settings/TeamSettings.tsx:104-107 | the invite route's refusal "User already invited", sent as `error`, is shown as "Failed to send invite" |
| TeamSettings.InviteRefusalText | components/settings/TeamSettings.tsx:104-107 | the corrected refusal text shows the body's `error` when it has one |
| TeamSettings.InviteRefusalKeepsReason | components/settings/TeamSettings.tsx:104-107 | with the corrected text, the route's reason is what the user sees |
| TeamSettings.TeamPage.constructor | components/settings/TeamSettings.tsx:57-63 | the page starts loading, with empty lists, the dialog closed, no address, the member role and no toasts |
| TeamSettings.TeamPage.FetchTeam | components/settings/TeamSettings.tsx:65-90 | each list is replaced only when its own request was ok; loading ends either way; nothing else changes |
| TeamSettings.TeamPage.SendInvite | components/settings/TeamSettings.tsx:92-130 | an accepted invite is appended, announced with the address, and the dialog closes with its fields reset; a refusal only raises an error toast with the body's `message` or "Failed to send invite" (the text as written), a thrown error one with its message or the fixed text; sending ends either way |
| TeamSettings.TeamPage.ChangeRole | components/settings/TeamSettings.tsx:132-160 | the role changes only after an ok response; one success or error toast is raised |
| TeamSettings.TeamPage.RemoveMember | components/settings/TeamSettings.tsx:162-190 | nothing happens unless confirmed; the member is removed only after an ok response; one success or error toast is raised |
| TeamSettings.TeamPage.CancelInvite | components/settings/TeamSettings.tsx:192-216 | the invite is removed only after an ok response; one success or error toast is raised |
| ProjectTypesSettings.ReplacedById | components/settings/ProjectTypesSettings.tsx:99 | the length is kept; every element with the saved id becomes the saved type and the rest stay |
| ProjectTypesSettings.ReplaceByIdProperties | components/settings/ProjectTypesSettings.tsx:99 | with unique ids an edit replaces exactly the one element with the saved id, in place, and loses no other type |
| ProjectTypesSettings.ReplaceAbsentId | components/settings/ProjectTypesSettings.tsx:99 | a saved id not in the list changes nothing |
| ProjectTypesSettings.DeleteIsExact | components/settings/ProjectTypesSettings.tsx:134 | deleting takes out exactly the type with that id and keeps the order of the rest |
| ProjectTypesSettings.ProjectTypesPage.constructor | components/settings/ProjectTypesSettings.tsx:30-39 | the page starts loading, with no types, the dialog closed, nothing being edited and empty fields |
| ProjectTypesSettings.ProjectTypesPage.FetchProjectTypes | components/settings/ProjectTypesSettings.tsx:41-57 | the list is replaced only after an ok response; loading ends either way |
| ProjectTypesSettings.ProjectTypesPage.OpenDialog | components/settings/ProjectTypesSettings.tsx:59-78 | editing fills the fields from the type, with missing fields as `""`; creating empties them; the dialog opens |
| ProjectTypesSettings.ProjectTypesPage.Save | components/settings/ProjectTypesSettings.tsx:80-118 | a `PATCH` to the type's URL when editing, else a `POST` to the collection, with the fields; after an ok response the saved type replaces its namesakes or is appended and the dialog closes; otherwise only an error toast |
| ProjectTypesSettings.ProjectTypesPage.Delete | components/settings/ProjectTypesSettings.tsx:120-148 | nothing happens unless confirmed; the type is removed only after an ok response; one success or error toast is raised |
| ProposalComparison.FindById | components/timeline/TimelineProposalComparison.tsx:55 | nothing is found exactly when no proposal has the id; otherwise the first proposal with the id |
| ProposalComparison.LoadProposal | components/timeline/TimelineProposalComparison.tsx:50-75 | an ok response shows the proposal found, or raises "Proposal not found" when there is none or no list; a non-ok response shows nothing and raises nothing; a thrown error raises the load error toast |
| ProposalComparison.ImpactOf | components/timeline/TimelineProposalComparison.tsx:183-214 | an increase or decrease always carries a positive amount |
| ProposalComparison.BadgeShape | components/timeline/TimelineProposalComparison.tsx:148-169 | a badge appears exactly for a non-zero delta, destructive and with `+` exactly for a positive one; the cost badge shows the absolute value, which with its sign restored is the delta |
| ProposalComparison.ImpactMatchesTotals | components/timeline/TimelineProposalComparison.tsx:93-94 | the change each impact line describes, added to the current total, is the proposed total, and its kind follows the sign of the delta |
| ProposalComparison.BadgeAgreesWithImpact | components/timeline/TimelineProposalComparison.tsx:148-214 | a badge is shown exactly when the impact line reports a change, with `+` exactly for an increase |
| ProposalComparison.RequestNamesShownProposal | components/timeline/TimelineProposalComparison.tsx:234 | the change-order request names the proposal on screen and the page's client email |
| ChatSidebar.EmptyEmailRejected | components/timeline/TimelineChatSidebar.tsx:81 | an empty address never passes the email check, which is the address pattern of the sanitizer |
| ChatSidebar.NextSessionId | components/timeline/TimelineChatSidebar.tsx:145-147 | the session id after a reply is either the one held or the one received |
| ChatSidebar.SessionIdKept | components/timeline/TimelineChatSidebar.tsx:145-147 | a held id is never replaced; without one, a non-empty received id is taken; afterwards an id is held when either was set |
| ChatSidebar.FailureKeepsOptimisticMessage | components/timeline/TimelineChatSidebar.tsx:103-156 | the failure filter builds its id from a second clock reading, so it removes the optimistic message exactly when both readings are the same millisecond |
| ChatSidebar.ChatSidebarState.constructor | components/timeline/TimelineChatSidebar.tsx:36-44 | the sidebar starts with no messages, proposals, input, address, session or toasts, not loading |
| ChatSidebar.ChatSidebarState.LoadChatHistory | components/timeline/TimelineChatSidebar.tsx:60-77 | an ok response replaces messages and proposals (missing as empty) and the session id; a session address is taken, marked submitted and reported; otherwise nothing changes |
| ChatSidebar.ChatSidebarState.SubmitEmail | components/timeline/TimelineChatSidebar.tsx:79-91 | a valid address is marked submitted and reported; an invalid one raises "Invalid email" and changes nothing else |
| ChatSidebar.ChatSidebarState.SendMessage | components/timeline/TimelineChatSidebar.tsx:93-160 | blank input sends nothing and changes nothing; otherwise the trimmed text is sent with the address only when submitted, the input clears, the user message is appended, then the reply or the failure is taken, and loading ends |
| ChatSidebar.ChatSidebarState.TakeReply | components/timeline/TimelineChatSidebar.tsx:125-147 | the assistant message is appended; a proposal is appended and announced; the session id follows the held-id rule |
| ChatSidebar.ChatSidebarState.TakeFailure | components/timeline/TimelineChatSidebar.tsx:120-123 | the error toast carries the route's `error`, else "Failed to send message", or the thrown message; the messages are filtered by the id built at failure time |
| ChatSidebar.TwoReplies | components/timeline/TimelineChatSidebar.tsx:93-160 | two answered sends add four messages, and the first session id received is kept |

## Left out

- Database, authentication library and Claude SDK: tables are values, the session is an optional user, and a Claude call is given as its outcome, because their behaviour is not visible in this code.
- `JSON.parse` and zod schemas: their verdicts are inputs (a parse that may fail, a validation that may reject), because their internals belong to libraries.
- Email delivery and the email templates' fixed wording: an email records its recipient, subject and the values it shows.
- Rendering, scrolling, routers and `confirm()`: the answer to `confirm()` is a parameter.
- Timers: the `setInterval` cleanup of lib/rate-limit.ts:33, and `waitIfNeeded` and `callClaudeWithRateLimit` of lib/ai/claude.ts:119-137, which only sleep and retry around the modelled window.
- The Anthropic client configuration and model constants of lib/ai/claude.ts:4-8 and 139-147, which are fixed values passed to the SDK.
- Concurrency: requests are sequential, so the check-then-act races of the change-order, invite and settings routes and overlapping chat sends are not modelled.
- Floating-point rounding and locale formatting (`toFixed`, `toLocaleString`, `Intl.NumberFormat`): numbers are `real` and results are stated before rounding.
- `Date.now()`, `new Date()` and `process.env`: clock readings and environment variables are parameters.
- `isValidUrl` in lib/sanitize.ts:19-26, which depends on the platform's URL parser.
- The thin routes (organization members, invites, project types, usage, organizations, authentication), each a membership check around one query.
- The fixed wording of the timeline prompt and the whole form-generation prompt, which are static text; only the conditional parts of the timeline prompt are modelled.
- The chat endpoint that stores messages and extracts proposals: it is not part of this model, and the sidebar and comparison view take its replies as inputs.
- Case mapping covers ASCII letters only, because the inputs of `toUpperCase`/`toLowerCase` here are names and labels and full Unicode case tables are not modelled.
- TimelineEditor.Recalculated: states the totals before `toFixed(1)` and `toFixed(2)` rounding, because floating-point rounding is not modelled.
- TimelineEditor.Editor.AddPhase: counts the phases of the current state, where the source reads the list of the last render; the two agree unless updates are batched.
- InviteRoute.PostInviteRow: the expiry is now plus 7 × 24 hours, whereas `setDate` adds seven local calendar days, which differ across a daylight-saving change.
- InviteRoute.PostInviteRoute: the invite schema is not part of this model, so whether the team page's body passes it is decided by the `body` input; the database default of `inviteToken` is not modelled.
- SettingsRoute.PatchSettingsOutcomes: the second settings schema is the `settingsAccepted` input, and `updatedAt` is not modelled.
- SettingsRoute.Keep: fields left out of the body are kept, and a key present with the value `undefined` is treated the same way.
- ProjectsRoute.SortNewestFirst: projects created at the same instant come out in an order the model fixes, where the database promises none.
- ChatSidebar.ChatSidebarState.SendMessage: reads `sessionId` and `emailSubmitted` as they are when the call is made, where the source reads the values of the last render.
- ChatSidebar.ChatSidebarState.TakeFailure: a non-ok response whose body is not JSON makes `response.json()` throw; that error is modelled as a thrown error with its message.
- ProposalComparison.LoadProposal: `isLoading` is not modelled, since it only switches the spinner.

## Findings

| source | as written | input that shows it | evidently intended | confidence | as-written member | corrected member |
|---|---|---|---|---|---|---|
| lib/rate-limit.ts:8 | the AI, auth and invite limiters share one store keyed only by `ip:<address>`, so each limiter counts the others' requests against its own limit | five AI requests from one address (any address, any time) within a minute, then one auth-limiter `check` for it: the auth limiter sees a count of 5 and denies it (latent: no route calls the AI or auth limiter; login and sign-up use none, and the chat route imports an `applyRateLimit` that lib/rate-limit.ts does not export) | each limiter counts only its own requests | not executed | RateLimit.SharedStoreCrossTalk | RateLimit.Limiter.Check, with RateLimit.AiRequestsLeaveAuthAlone |
| components/settings/TeamSettings.tsx:104-107 | after a refused invite the page reads `message` from the reply, but the routes send `error` | the invite route refuses a repeated address with `{error: "User already invited"}`; the toast says "Failed to send invite" | the route's reason is shown | not executed | TeamSettings.InviteRefusalTextAsWritten, with TeamSettings.InviteRefusalLosesReason | TeamSettings.InviteRefusalText, with TeamSettings.InviteRefusalKeepsReason |
