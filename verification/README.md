# Salinas AI Consulting site: verified model of the core

This project models in Dafny the parts of the consulting web site that make
decisions:

- the fixed-window rate limiter, which exists in three copies (the client
  helper `checkRateLimit` and one in each serverless function), and the
  periodic sweep of expired entries;
- the HTML escaping chain (`sanitizeForDisplay` / `escapeHtml`);
- the client-side zod schemas and the two regular expressions (the
  injection screen and the email shape);
- the `send-inquiry` function: CORS allowlist, client key, rate limit,
  body-size limit, `validateInput` with its fixed order of checks, the
  composed email and the status of every response;
- the `chat` function: client key, rate limit, `validateMessages`, the
  conversation forwarded with the system prompt in front, and the mapping
  of the gateway's status;
- the chat widget: `streamChat` with its buffer of server-sent-event lines,
  the submit guard, and the contact form's checks and payload;
- the page head's path normalisation and robots tag, the `?to=` redirect page's
  allowlist, and the JSON-LD list builders with the home page FAQs.

Each module but `Json`, which shares `Common.dfy` with `Common`, has a file of its own. `Strings` gives `trim`, `\s`, `indexOf`, ASCII
case folding and `String(n)` their JavaScript meaning. `Common` and `Json`
hold the result shapes and the JSON values a body parses to. The rest
follow the source files.

The two handlers are pure decision functions (`SendInquiry.Decide`,
`ChatRelay.ChatDecide`). Each is paired with a class that owns the
function instance's rate-limit table and updates it in place
(`InquiryFunction`, `ChatFunction`). The limiter is a class with a map
field. Its methods are proved against the functional `RateLimit.Step` and
`RateLimit.Swept`, and the properties are lemmas about those functions.

The chat widget is a class whose fields are the component's state.
`StreamChat` and its inner loop `ReadLines` are proved against the
recursive specification functions `Consume` and `Drain`. The environment
enters as parameters:

- whether an API key is set and whether the email API accepted the email;
- the language-model gateway's answer and the system prompt text;
- the clock;
- the chunks the stream delivers;
- the result of `JSON.parse` plus the delta lookup (`parse`);
- zod's email check (`isEmail`).

## Model

| member | source | states |
|---|---|---|
| Strings.Trim | supabase/functions/send-inquiry/index.ts:72 | the trimmed string has no white space at either end and is no longer than the input |
| Strings.TrimStart | src/lib/validation.ts:7 | the result is a suffix of the input, and what was removed is all white space |
| Strings.TrimEnd | src/lib/validation.ts:7 | the result is a prefix of the input, and what was removed is all white space |
| Strings.TrimEmptyIffAllSpace | supabase/functions/send-inquiry/index.ts:72 | `s.trim().length === 0` holds exactly when every character is white space |
| Strings.TrimNoSpace | supabase/functions/send-inquiry/index.ts:118 | trimming a string with no white space returns it unchanged |
| Strings.TrimIdempotent | src/components/Chatbot.tsx:134 | trimming twice gives the same as trimming once |
| Strings.LowerAscii | src/lib/validation.ts:11 | the `i` flag maps each of A-Z to its own lower-case letter (code + 32) and leaves every other character alone |
| Strings.ToLowerAscii | supabase/functions/send-inquiry/index.ts:118 | the lower-cased address has the same length and folds character by character |
| Strings.IndexOf | src/components/Chatbot.tsx:90 | `indexOf` gives -1 exactly when the character is absent; otherwise the first position holding it |
| Strings.TrimKeepsAbsent | supabase/functions/chat/index.ts:113 | a character absent from a string is absent from its trim |
| Strings.NatToString | supabase/functions/send-inquiry/index.ts:158 | `String(n)` is a non-empty string of decimal digits, with no leading zero unless n is 0 |
| Strings.NatToStringRoundTrip | supabase/functions/send-inquiry/index.ts:158 | reading the digits of `String(n)` back gives n |
| Strings.IntToString | supabase/functions/send-inquiry/index.ts:157-158 | `String(n)` starts with "-" exactly for a negative number; the rest is decimal digits without a leading zero whose value is the magnitude |
| Json.Field | supabase/functions/send-inquiry/index.ts:64 | destructuring yields a value only for an object that has the key; arrays and other values yield `undefined` |
| Html.ReplaceAll | src/lib/validation.ts:76 | a global replace leaves a string without the character unchanged, and its result lacks the character when the replacement does |
| Html.ReplaceAllAppend | src/lib/validation.ts:76 | a global replace distributes over concatenation |
| Html.EscapeHtmlAppend | src/lib/validation.ts:74-81 | the five-pass chain distributes over concatenation |
| Html.LaterPassesKeep | src/lib/validation.ts:77-80 | on text without `<`, `>`, `"`, `'` only the `&` pass has an effect |
| Html.EscapeHtmlOrdinary | src/lib/validation.ts:74-81 | a character other than the five special ones is kept as it is |
| Html.EscapeHtmlAmpersand | src/lib/validation.ts:76 | `&` becomes `&amp;`, and the later passes do not touch that entity |
| Html.EscapeHtmlLt | src/lib/validation.ts:77 | `<` becomes `&lt;` |
| Html.EscapeHtmlGt | src/lib/validation.ts:78 | `>` becomes `&gt;` |
| Html.EscapeHtmlQuot | src/lib/validation.ts:79 | `"` becomes `&quot;` |
| Html.EscapeHtmlApos | src/lib/validation.ts:80 | `'` becomes `&#039;` |
| Html.EscapeHtmlOne | src/lib/validation.ts:74-81 | the chain on one character gives that character's entity, or the character itself |
| Html.EscapeHtmlIsPerCharacter | src/lib/validation.ts:74-81 | the chain as written equals escaping each character on its own: because `&` goes first, no entity is escaped twice within one call |
| Html.EscapeEachSafe | supabase/functions/send-inquiry/index.ts:126-133 | the per-character escape yields no `<`, `>`, `"` or `'` |
| Html.EscapeHtmlSafe | supabase/functions/send-inquiry/index.ts:126-133 | the escaped text holds none of `<`, `>`, `"`, `'` |
| Html.EscapeHtml | src/lib/validation.ts:74-81 | text with none of the five special characters comes back unchanged |
| Html.EscapeChar | src/lib/validation.ts:76-80 | every character has a non-empty escape, which is the character itself exactly when it is not special |
| Html.EscapeEach | src/lib/validation.ts:74-81 | escaping character by character never shortens the text and gives "" only for "" |
| Html.EscapeHtmlPlain | src/test/security-audit.test.ts:380-387 | text without the five special characters, and "" in particular, is returned unchanged |
| Html.EscapeEachPlain | src/test/security-audit.test.ts:384-387 | the per-character escape leaves text without special characters unchanged |
| Html.EscapeEachGrows | src/lib/validation.ts:74-81 | escaping never shortens the text, and lengthens it and introduces `&` exactly when a special character is present |
| Html.EscapeHtmlIdempotentIff | src/test/security-audit.test.ts:372-378 | escaping twice equals escaping once if and only if the text holds none of the five special characters |
| Html.EscapeHtmlReescapes | src/test/security-audit.test.ts:372-378 | an existing entity is escaped again: "&amp;" becomes "&amp;amp;" |
| Patterns.WordsThenEqualsMeaning | src/lib/validation.ts:11 | the recursive reading of `\w+=` holds exactly when a later `=` is preceded by one or more word characters only |
| Patterns.MatchStartsWith | src/lib/validation.ts:11 | a case-insensitive match begins with a character that folds to the pattern's first letter |
| Patterns.InjectionNeedsMarker | src/lib/validation.ts:11 | text with no `<`, `j`, `J`, `o`, `O` always passes the screen |
| Patterns.InjectionExamples | src/lib/validation.ts:11 | `<SCRIPT>`, `javascript:alert(1)` and `x onerror=y` are rejected |
| Patterns.HandlerWithSpacePasses | src/lib/validation.ts:11 | `onerror =` passes the screen: a space before `=` breaks `on\w+=` |
| Patterns.BlockedBeforeEquals | src/lib/validation.ts:11 | `\w+=` cannot match across a non-word character that comes before any `=` |
| Patterns.EmailNeedsAtAndDot | supabase/functions/send-inquiry/index.ts:83-86 | an accepted address contains `@` and a `.` after it |
| Validation.FieldIssues | src/lib/validation.ts:18-26 | a field raises no issue exactly when its trim is 1..max characters long and it is not flagged as an injection; a blank field's first issue is the "required" message |
| Validation.TextIssues | src/lib/validation.ts:18-26 | a text field raises no issue exactly when its trim is 1..max characters long and passes the injection screen; a blank field's first issue is the "required" message |
| Validation.EmailIssues | src/lib/validation.ts:27-31 | the email field raises no issue exactly when its trim passes the email check and has at most 255 characters |
| Validation.ParseChatMessage | src/lib/validation.ts:4-14 | a chat message is accepted exactly when its trim is 1..2000 characters long and passes the screen; the data is the trimmed text |
| Validation.ParseContactForm | src/lib/validation.ts:17-41 | the form is accepted exactly when all three fields pass their checks; the data holds the trimmed fields |
| Validation.ChatMessageBoundaries | src/lib/validation.ts:8-9 | a plain message of n letters is accepted exactly when 1 <= n <= 2000 |
| Validation.ChatMessageBlank | src/lib/validation.ts:7-8 | a white-space-only message fails with exactly "Message cannot be empty" |
| Validation.ChatLengthAfterTrim | src/lib/validation.ts:7-9 | surrounding white space does not count against the 2000-character limit |
| Validation.ContactNameBoundaries | src/lib/validation.ts:18-22 | with good email and message, a name of n letters is accepted exactly when 1 <= n <= 100 |
| RateLimit.CeilSeconds | src/lib/validation.ts:65 | `Math.ceil(d / 1000)` is the least whole number of seconds that covers d milliseconds |
| RateLimit.RateLimiter.constructor | src/lib/validation.ts:46 | a limiter starts with an empty table |
| RateLimit.Step | src/lib/validation.ts:49-71 | a missing or expired record opens a fresh window counting this call; a full live window denies, leaves the table alone and reports the rounded-up wait; otherwise the count goes up by one; other keys are untouched |
| RateLimit.Swept | supabase/functions/send-inquiry/index.ts:32-39 | the sweep keeps exactly the records whose window has not passed, unchanged |
| RateLimit.RateLimiter.Check | src/lib/validation.ts:49-71 | the limiter's verdict and new table are those of `Step` on the old table |
| RateLimit.RateLimiter.SweepExpired | supabase/functions/send-inquiry/index.ts:32-39 | the loop deleting expired entries leaves exactly `Swept` of the old table |
| RateLimit.Run | supabase/functions/chat/index.ts:48-63 | consecutive calls yield one verdict per call and keep a record for the key |
| RateLimit.RunInsideWindow | supabase/functions/chat/index.ts:48-63 | inside a live window, call i is admitted exactly when the starting count plus i is below the limit, and a denial before the reset time asks for a positive wait |
| RateLimit.DefaultsAdmitTen | src/lib/validation.ts:49-52 | with the default limit, the first ten calls of a minute are admitted and the rest denied |
| RateLimit.WindowAdmitsExactlyMax | supabase/functions/send-inquiry/index.ts:41-56 | from a fresh window, exactly the first `maxRequests` calls within the window are admitted |
| RateLimit.StepKeepsBound | supabase/functions/send-inquiry/index.ts:50-54 | every record's count stays between 1 and the limit |
| RateLimit.KeysIndependent | src/lib/validation.ts:55 | a call for one key does not change the verdict of a later call for another |
| RateLimit.SweepKeepsVerdicts | supabase/functions/send-inquiry/index.ts:32-39 | sweeping does not change any later verdict or the record a later call leaves |
| RateLimit.SweptIdempotent | supabase/functions/send-inquiry/index.ts:32-39 | sweeping twice at the same time is sweeping once |
| Http.FirstHop | supabase/functions/send-inquiry/index.ts:152 | `split(",")[0]` is the longest comma-free prefix |
| Http.ForwardedClient | supabase/functions/send-inquiry/index.ts:152 | the forwarded client holds no comma and no white space at either end; no header gives "", and a header with one entry gives that entry trimmed |
| Http.ForwardedClientFirstHop | supabase/functions/chat/index.ts:113 | the first entry of `x-forwarded-for` is the client, whatever proxies appended |
| SendInquiry.AllowOrigin | supabase/functions/send-inquiry/index.ts:9-10 | the allowed origin is always on the allowlist: the request's own origin if listed, the first entry otherwise |
| SendInquiry.CorsHeaders | supabase/functions/send-inquiry/index.ts:8-17 | the four CORS headers, with the allowed origin and `Vary: Origin` |
| SendInquiry.ClientKey | supabase/functions/send-inquiry/index.ts:152-153 | the key is never empty: the forwarded client, else a non-empty `x-real-ip` taken as it is, else "unknown", which is what a request with neither header gets |
| SendInquiry.StringField | supabase/functions/send-inquiry/index.ts:64 | a field yields a string exactly when it is present and holds one |
| SendInquiry.Kind | supabase/functions/send-inquiry/index.ts:67-69 | the type is recognised exactly when it is the string "question" or "consultation" |
| SendInquiry.CheckName | supabase/functions/send-inquiry/index.ts:72-77 | an accepted name is a non-blank string of at most 100 characters |
| SendInquiry.CheckEmail | supabase/functions/send-inquiry/index.ts:80-89 | an accepted email is a string matching the pattern, at most 255 characters |
| SendInquiry.CheckMessage | supabase/functions/send-inquiry/index.ts:92-97 | an accepted message is a non-blank string of at most 2000 characters |
| SendInquiry.CheckContext | supabase/functions/send-inquiry/index.ts:100-105 | the context is accepted exactly when absent or a string of at most 10000 characters; an empty string becomes no context; a kept context is never cut |
| SendInquiry.ValidateInput | supabase/functions/send-inquiry/index.ts:59-123 | accepted input is an object whose type is recognised |
| SendInquiry.ValidateInputAccepts | supabase/functions/send-inquiry/index.ts:113-122 | accepted data passed every stage and the screen; name and message are trimmed, the email lower-cased, the context as the context stage kept it |
| SendInquiry.FirstFailure | supabase/functions/send-inquiry/index.ts:59-111 | no failure is reported exactly when no check fails; a reported message belongs to a failing check |
| SendInquiry.FirstFailureAppend | supabase/functions/send-inquiry/index.ts:59-111 | the first failure of two runs of checks is that of the first run, if any, else that of the second |
| SendInquiry.NameFollowsChecks | supabase/functions/send-inquiry/index.ts:72-77 | the name stage reports the first of its two failing checks |
| SendInquiry.EmailFollowsChecks | supabase/functions/send-inquiry/index.ts:80-89 | the email stage reports, in order, missing, then pattern, then length |
| SendInquiry.MessageFollowsChecks | supabase/functions/send-inquiry/index.ts:92-97 | the message stage reports the first of its two failing checks |
| SendInquiry.ContextFollowsChecks | supabase/functions/send-inquiry/index.ts:100-105 | the context stage reports the format check before the length check |
| SendInquiry.InquiryChecks | supabase/functions/send-inquiry/index.ts:59-111 | twelve checks, the body shape first, then the inquiry type, with the injection screen last |
| SendInquiry.ValidateInputFollowsChecks | supabase/functions/send-inquiry/index.ts:59-111 | the validator fails exactly when a check in the list fails, with the message of the first one in source order |
| SendInquiry.ContextNotScreened | supabase/functions/send-inquiry/index.ts:108-109 | the context is not screened: swapping one context of at most 10000 characters for another never changes acceptance |
| SendInquiry.SameFieldsSameStages | supabase/functions/send-inquiry/index.ts:64-97 | the type, name, email and message stages read only their own fields |
| SendInquiry.ValidateInputStages | supabase/functions/send-inquiry/index.ts:59-123 | the input is accepted if and only if it is an object, every stage passes and neither name nor message trips the screen |
| SendInquiry.Skeleton | supabase/functions/send-inquiry/index.ts:200-233 | blanking the client's values keeps the number of pieces |
| SendInquiry.MainPieces | supabase/functions/send-inquiry/index.ts:200-217 | the heading, sender and message blocks consist of nine pieces |
| SendInquiry.BodyHoles | supabase/functions/send-inquiry/index.ts:207-223 | every escaped hole of the body holds a client value, and every client value has a hole |
| SendInquiry.TemplateFixed | supabase/functions/send-inquiry/index.ts:200-233 | two inquiries of the same kind, both with or both without context, share the template and differ only in the holes |
| SendInquiry.ContextBlockIffContext | supabase/functions/send-inquiry/index.ts:219-226 | the chat-context block is present exactly when there is a context |
| SendInquiry.EscapedPiecesSafe | supabase/functions/send-inquiry/index.ts:207-223 | no escaped hole renders `<`, `>`, `"` or `'` |
| SendInquiry.Subject | supabase/functions/send-inquiry/index.ts:197-198 | the subject is the kind's prefix and " from " followed by the escaped name |
| SendInquiry.HtmlPieces | supabase/functions/send-inquiry/index.ts:200-230 | the name, the email (twice) and the message fill holes 1, 3, 5 and 7 escaped; a context adds three pieces, its escaped value being hole 10; the body ends with the footer |
| SendInquiry.RenderAppend | supabase/functions/send-inquiry/index.ts:200-230 | rendering pieces in sequence is concatenating their renderings |
| SendInquiry.RenderEscapedSafe | supabase/functions/send-inquiry/index.ts:207-223 | escaped client values render to text with no `<`, `>`, `"` or `'` |
| SendInquiry.Compose | supabase/functions/send-inquiry/index.ts:241-247 | every email goes from the fixed sender to the one recipient, replies go to the client's validated address, and the subject and body are those built above |
| SendInquiry.SubjectEscapesName | supabase/functions/send-inquiry/index.ts:197-198 | the subject is the kind's prefix and " from ", then the escaped name, which holds no `<`, `>`, `"`, `'` |
| SendInquiry.Decide | supabase/functions/send-inquiry/index.ts:135-270 | every response carries the CORS headers with the allowed origin, and its status is one of 200, 400, 405, 413, 429, 500 |
| SendInquiry.DecideOrder | supabase/functions/send-inquiry/index.ts:138-193 | preflight, then method, then rate limit, then API key, then body size, then JSON and validation: each status, 400 included, arises exactly under its condition |
| SendInquiry.DecideRejectsBadInput | supabase/functions/send-inquiry/index.ts:180-192 | after the earlier checks pass, a body that is not JSON gets 400 "Invalid JSON" and a rejected one gets 400 with the validator's message, and no email is sent |
| SendInquiry.DecideMessages | supabase/functions/send-inquiry/index.ts:155-193 | a 429 reports the wait in header and message, a 500 only the generic message, a 405 "Method not allowed", a 413 "Request body too large", and a 400 either "Invalid JSON" or the validator's own error |
| SendInquiry.DecideSends | supabase/functions/send-inquiry/index.ts:187-258 | an email is handed to the email API exactly when every check passes, and the inquiry it is composed from (`Compose`) is the validated one; success is reported exactly when the API also accepted it |
| SendInquiry.InquiryFunction.constructor | supabase/functions/send-inquiry/index.ts:28 | a fresh instance starts with an empty rate-limit table |
| SendInquiry.InquiryFunction.Handle | supabase/functions/send-inquiry/index.ts:135-160 | a POST takes a rate-limit slot before any other check, and the response is `Decide` on that verdict; other methods leave the table alone |
| SendInquiry.InquiryFunction.Sweep | supabase/functions/send-inquiry/index.ts:32-39 | the cleanup timer leaves `Swept` of the table |
| ChatRelay.ClientKey | supabase/functions/chat/index.ts:113 | the key is the forwarded client, and "unknown" when there is none, as with no header; never empty and never with a comma |
| ChatRelay.RoleOf | supabase/functions/chat/index.ts:88-90 | a role is recognised exactly when it is "user" or "assistant", and never as the system role |
| ChatRelay.CheckElement | supabase/functions/chat/index.ts:81-100 | an element passes exactly when it is an object with a known role and string content of at most 4000 characters; only role and content are kept; a non-object, an unknown role, non-string content and content over 4000 characters each fail with their own message |
| ChatRelay.CheckElements | supabase/functions/chat/index.ts:81-103 | the list passes exactly when every element passes, keeping each in order; a failure carries the error of the first failing element |
| ChatRelay.CheckMessages | supabase/functions/chat/index.ts:66-77 | the messages pass exactly when the field is an array of 1 to 50 elements that each pass; a missing or non-array field, an empty array and more than 50 elements each fail with their own message; otherwise the elements are checked one by one |
| ChatRelay.ValidateMessages | supabase/functions/chat/index.ts:66-104 | the validation loop returns exactly `CheckMessages` |
| ChatRelay.FirstInvalidUnique | supabase/functions/chat/index.ts:81-98 | the first failing element determines the error |
| ChatRelay.ValidElementsDetermined | supabase/functions/chat/index.ts:100-103 | when every element passes, the kept list is the per-element results in order |
| ChatRelay.Forwarded | supabase/functions/chat/index.ts:157-160 | the gateway receives the system prompt first, then the validated conversation unchanged |
| ChatRelay.OnlyFirstIsSystem | supabase/functions/chat/index.ts:88-90 | a client cannot inject a system message: only the first forwarded message has that role |
| ChatRelay.ChatDecide | supabase/functions/chat/index.ts:106-197 | every response carries the wildcard CORS headers |
| ChatRelay.ChatOrder | supabase/functions/chat/index.ts:113-163 | rate limit, then JSON, then validation, then API key; a `null` body and a missing API key each end in the generic 500 message; the gateway is called exactly when all pass, with the forwarded conversation |
| ChatRelay.UpstreamMapping | supabase/functions/chat/index.ts:165-196 | a gateway success is relayed as an event stream; 429 and 402 pass through with their own messages; any other status is a 500 with "Unable to process your request", and a failed call the generic 500 message |
| ChatRelay.ChatFunction.constructor | supabase/functions/chat/index.ts:45 | a fresh instance starts with an empty rate-limit table |
| ChatRelay.ChatFunction.Handle | supabase/functions/chat/index.ts:106-120 | every request but a preflight takes a rate-limit slot, and the response is `ChatDecide` on that verdict |
| Chatbot.StripCR | src/components/Chatbot.tsx:94 | one trailing "\r" is removed, and a line without one is kept |
| Chatbot.PayloadKind | src/components/Chatbot.tsx:98-115 | `[DONE]` stops; an unparsable payload retries; a non-empty delta is appended as is; anything else is skipped |
| Chatbot.Classify | src/components/Chatbot.tsx:94-98 | only a non-blank `data: ` line can do anything other than be skipped |
| Chatbot.DataLine | src/components/Chatbot.tsx:96-98 | a `data: ` line is decided by its trimmed payload alone |
| Chatbot.Drain | src/components/Chatbot.tsx:90-116 | the inner loop only appends to the answer, and when it runs out of lines no "\n" is left in the buffer |
| Chatbot.DrainLeavesTail | src/components/Chatbot.tsx:91-92 | the inner loop leaves a tail of its input buffer, or on a retry that tail with its first line put back in front without its "\r" |
| Chatbot.Consume | src/components/Chatbot.tsx:83-117 | the outer loop only appends to the answer |
| Chatbot.RetryPutsLineBack | src/components/Chatbot.tsx:112-114 | a line that fails to parse is put back in front of the buffer, without its "\r", and the loop stops |
| Chatbot.RetryStalls | src/components/Chatbot.tsx:112-114 | once a complete line fails to parse, no later chunk adds anything to the answer |
| Chatbot.DrainHead | src/components/Chatbot.tsx:90-115 | the inner loop's step on a buffer whose first line is given |
| Chatbot.AfterDoneStillRead | src/components/Chatbot.tsx:99 | `[DONE]` ends only the inner loop: a delta after it in the same chunk is appended when the next chunk arrives |
| Chatbot.Join | src/components/Chatbot.tsx:168 | joining no lines gives "" |
| Chatbot.JoinSnoc | src/components/Chatbot.tsx:168 | one more line adds the separator and that line at the end |
| Chatbot.TranscriptLine | src/components/Chatbot.tsx:166-168 | a line starts with "User: " exactly when the message is the user's, and ends with the message's text |
| Chatbot.ChatContext | src/components/Chatbot.tsx:166-168 | no messages give "", and one message gives just its line |
| Chatbot.ChatContextSnoc | src/components/Chatbot.tsx:166-168 | each message adds one "User: " or "Assistant: " line to the context, after a "\n" |
| Chatbot.FormDecision | src/components/Chatbot.tsx:176-182 | a sent inquiry is a consultation whose context is the transcript |
| Chatbot.FormSendsIff | src/components/Chatbot.tsx:144-161 | the form is sent exactly when every field is non-blank and the untrimmed email matches; a blank field is reported before a bad email |
| Chatbot.FormSendsAsTyped | src/components/Chatbot.tsx:178-180 | name and message are sent trimmed, and the email exactly as typed, since a matching email has no white space |
| Chatbot.ChatWidget.constructor | src/components/Chatbot.tsx:26-36 | the widget starts with the greeting only, empty input and form, not loading, form hidden |
| Chatbot.ChatWidget.StreamChat | src/components/Chatbot.tsx:53-130 | failure before the stream removes the user's own message; failure while reading removes the partial answer; otherwise the user's message and the answer `Consume` builds are added; loading ends in every case |
| Chatbot.ChatWidget.ReadLines | src/components/Chatbot.tsx:89-116 | the inner loop leaves the buffer and answer `Drain` gives, and keeps the last message equal to the answer so far |
| Chatbot.ChatWidget.Submit | src/components/Chatbot.tsx:53-139 | blank input or a pending answer changes nothing; otherwise the input is cleared and its trimmed text sent; a request that fails before the stream leaves the transcript as it was, and a stream that fails while reading leaves it with just the user's message added |
| Chatbot.ChatWidget.SubmitForm | src/components/Chatbot.tsx:141-214 | the form's decision is `FormDecision` on the fields and transcript; only a successful send clears and closes the form and adds the thank-you reply |
| Chatbot.ChatWidget.InquirySent | src/components/Chatbot.tsx:195-203 | the form is cleared and closed and the thank-you reply appended |
| SeoHead.StripTrailingSlashes | src/components/SEOHead.tsx:25 | `replace(/\/+$/, "")` keeps a prefix, removes only slashes, and leaves no trailing slash |
| SeoHead.NormalizePath | src/components/SEOHead.tsx:25 | "/" stays "/"; any other path loses its trailing slashes |
| SeoHead.NormalizeKeeps | src/components/SEOHead.tsx:25 | a path without a trailing slash is unchanged |
| SeoHead.NormalizeAllSlashes | src/components/SEOHead.tsx:25 | a path of slashes only, other than "/", normalises to "" |
| SeoHead.AllSlashesStrip | src/components/SEOHead.tsx:25 | removing the trailing run of a slashes-only string leaves "" |
| SeoHead.NormalizeIdempotent | src/components/SEOHead.tsx:25 | normalising twice is normalising once |
| SeoHead.NormalizeIgnoresSlashes | src/components/SEOHead.tsx:25 | extra trailing slashes never change the normalised path, unless the path becomes "/" |
| SeoHead.RobotsTags | src/components/SEOHead.tsx:33-39 | exactly one robots tag, the no-index one exactly when asked for |
| SeoHead.PageHead | src/components/SEOHead.tsx:16-61 | og:type defaults to "website" and the image to the site's og-image; without noIndex the robots tag is the index directive; title and description repeat in the Open Graph and Twitter tags |
| SeoHead.PageHeadCanonical | src/components/SEOHead.tsx:16-61 | the canonical address is the site address plus the normalised path; og:url and twitter:url equal it; one robots tag; both images agree |
| SeoHead.SameCanonical | src/components/SEOHead.tsx:25-26 | two paths that differ only in trailing slashes share one canonical address |
| ExternalRedirect.Target | src/pages/ExternalRedirect.tsx:12-20 | a key present with a non-empty address leads there; a missing, empty or unknown key leads home |
| ExternalRedirect.TargetAllowlisted | src/pages/ExternalRedirect.tsx:4-20 | the page only ever sends the browser home or to an allowlisted address |
| ExternalRedirect.TargetExamples | src/pages/ExternalRedirect.tsx:4-20 | `linkedin` leads to the profile; no key or any other key leads home |
| StructuredData.BreadcrumbElements | src/components/StructuredData.tsx:242-247 | one list element per breadcrumb |
| StructuredData.FaqEntities | src/components/StructuredData.tsx:219-226 | one question per FAQ |
| StructuredData.BreadcrumbsRoundTrip | src/components/StructuredData.tsx:242-247 | the breadcrumbs can be read back from the list in order, and positions run 1, 2, ... |
| StructuredData.FaqRoundTrip | src/components/StructuredData.tsx:219-226 | the FAQs can be read back from the questions in order |
| StructuredData.BreadcrumbAppend | src/components/StructuredData.tsx:242-247 | one more breadcrumb adds one element at the end, numbered after the others |
| StructuredData.FaqConcat | src/components/StructuredData.tsx:219-226 | the questions for two runs of FAQs are the two lists one after the other |
| StructuredData.HomepageFaqsShape | src/components/StructuredData.tsx:292-319 | five FAQs, each question ending in "?" and each answer longer than 50 characters |

## Left out

- The network, `fetch`, `Deno.serve`, `req.json()` and the environment are parameters or left out. `Request.body` is the parsed body or its absence, and `contentLength` is `parseInt` of the header.
- The stream reader and `TextDecoder` are left out: a response is modelled as the text chunks it delivers, then a flag saying whether reading failed.
- `JSON.parse` plus the delta lookup is the parameter `parse`. A non-string truthy delta, which JavaScript would coerce into text, is not modelled.
- zod's `.email()` check is the parameter `isEmail`: its pattern is not modelled.
- Lengths are counted in Unicode characters, not UTF-16 code units. `toLowerCase` is modelled on ASCII letters only. The `\s` class is spelled out character by character.
- JSON numbers are integers. Floating-point values in a body are not modelled.
- Time is a parameter. The `setInterval` timer, concurrency between requests and React's batched state updates are left out. The widget's updates are applied in order.
- ExternalRedirect.Target: a lookup through the object prototype (a key such as `constructor`) is not modelled. The model reads only the table's own keys. Such keys lead to a same-site relative address, never to an external one.
- Inline styles, the exact whitespace of the email template, the system prompt text, the JSX markup, the toasts, `isSubmitting`, scrolling and focus are left out. The email body is modelled as its sequence of fixed pieces and escaped values.
- Only the list builders of `StructuredData.tsx` are modelled. The fixed organisation, person, website and service objects are constant data and are left out.
- Chatbot.ChatWidget.ReadLines: the `break` statements of the inner loop are written as a stop flag. The behaviour is the same.
- SendInquiry.ValidateInput: its own contract states only the object and type facts. The rest of what an accepted input satisfies is stated by `ValidateInputAccepts` and `ValidateInputStages`.
- Chatbot.FormDecision: its own contract states only the kind and context of a sent inquiry. Acceptance and the field values are stated by `FormSendsIff` and `FormSendsAsTyped`.
- RateLimit.RunInsideWindow: stated for consecutive calls to one key inside one window. Interleaving with other keys is covered separately by `KeysIndependent`.
- The site's other components, its routes and the tests are not part of this model.
