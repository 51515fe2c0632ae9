# TekMakon site logic in Dafny

This project models the behavioural core of the TekMakon company website, a Next.js
application, and proves properties of that model. Four pieces are covered:

- **The chat endpoint** (`ChatAnswers`, `ChatKnowledge`, `ChatRoute`). A fixed, ordered
  knowledge base of eighteen entries. Each entry has lower-case trigger phrases and a
  canned answer. The message is lower-cased. The first entry with a trigger occurring
  anywhere in it supplies the answer. When no entry matches, a fixed menu is the answer.
  A request whose body cannot be read, or whose `message` is not a string, gets a
  500 response with a fixed error.
- **The contact endpoint** (`ContactRoute`). It checks that four required fields are
  present, then checks the address against `^[^\s@]+@[^\s@]+\.[^\s@]+$`. It then composes
  one notification mail and hands it to the mail service, and maps the outcome to a
  200, 400 or 500 response.
- **The navigation bar's active-link test** (`Navbar`). The home link is active only on
  `/`. Any other link is active on every path that its href begins.
- **The chat widget's conversation state** (`ChatSession`). Its parts are the initial
  greeting, a send that ignores blank input, the reply or error message once the
  request ends, and a clear.

`Text` holds the string primitives these rely on:
- JavaScript white space;
- `includes` and `startsWith`;
- a search for the first occurrence of a character, used to decide the address pattern;
- ASCII `toLowerCase`;
- `trim`.

`Wrappers` holds `Option`.

Each operation is paired with an independent statement of what it should compute, and
lemmas connect the two:
- the `find`/`some`/`includes` scan against "first entry with an occurring trigger";
- the one-pass address check against the regular expression's language;
- `startsWith` against the sequence prefix relation;
- `trim` against "all white space";
- every transition of the widget against a state invariant.

Some consequences of the chat table's order are proved along the way:
- "ai" is a substring of "maintenance", "email" and "explain";
- so the support entry's "maintenance" trigger can never select it, and the contact
  entry's "email" trigger can never select it either;
- the message "maintenance" is answered by the AI entry, although the support entry
  matches it too;
- the message "explain modbus" is still answered by the Modbus entry, although the AI
  entry matches it too, because the Modbus entry comes earlier in the table.

## Model

| member | source | states |
|---|---|---|
| Text.IsWhitespace | src/app/api/contact/route.ts:24 | The white-space set of ECMAScript: the WhiteSpace and LineTerminator code points, which are both what the class `\s` matches and what `trim` strips. |
| Text.MatchesAtIsSlice | src/app/api/chat/route.ts:124 | Comparing a candidate occurrence character by character agrees with comparing the slice of the message with the trigger. |
| Text.IncludesFromIsOccurrence | src/app/api/chat/route.ts:124 | The left-to-right search from a start position finds the trigger exactly when it occurs at some position from there on. |
| Text.Includes | src/app/api/chat/route.ts:124 | `message.includes(trigger)` holds exactly when the trigger occurs in the message as a contiguous substring. |
| Text.OccursAtCompose | src/app/api/chat/route.ts:124 | A substring of a substring of the message is a substring of the message, at the summed offset. |
| Text.NoOccurrenceInBlank | src/app/api/chat/route.ts:124 | A string that starts with a non-white-space character occurs in no all-white-space message. |
| Text.StartsWith | src/components/layout/Navbar.tsx:60 | `pathname.startsWith(href)`, compared character by character, holds exactly when href is a prefix of the pathname. |
| Text.IndexOf | src/app/api/contact/route.ts:24 | The model's own search for the first `@`, used to decide the address pattern (the source calls no `indexOf`). The position reported is that of the first occurrence of the character. When none is reported, the character does not occur. |
| Text.ToLower | src/app/api/chat/route.ts:116 | Lower-casing keeps the length and maps every character on its own; only ASCII capitals change. |
| Text.ToLowerSlice | src/app/api/chat/route.ts:116 | Lower-casing a message and then taking a slice gives the same result as taking the slice and then lower-casing it. |
| Text.ToLowerFixesLowerCase | src/app/api/chat/route.ts:116 | A string without capitals is its own lower-case form. |
| Text.ToLowerKeepsBlank | src/app/api/chat/route.ts:116 | A blank message stays blank after lower-casing. |
| Text.TrimStart | src/components/chat/useChat.ts:34 | The result is a suffix of the input. Everything dropped is white space. The result is empty or starts with a non-white-space character. |
| Text.TrimEnd | src/components/chat/useChat.ts:34 | The result is a prefix of the input. Everything dropped is white space. The result is empty or ends with a non-white-space character. |
| Text.TrimBothEmptyIffBlank | src/components/chat/useChat.ts:34 | Dropping leading and then trailing white space leaves nothing exactly when every character is white space. |
| Text.Trim | src/components/chat/useChat.ts:34 | `content.trim()` is empty exactly when every character of the content is white space. |
| ChatKnowledge.IdentityTriggersWellFormed | src/app/api/chat/route.ts:8 | Each company-identity trigger is non-empty, starts with a non-white-space character and has no capital letter. |
| ChatKnowledge.LocationTriggersWellFormed | src/app/api/chat/route.ts:13 | The same for each location trigger. |
| ChatKnowledge.OpSuiteTriggersWellFormed | src/app/api/chat/route.ts:20 | The same for each OpSuite trigger. |
| ChatKnowledge.ModbusTriggersWellFormed | src/app/api/chat/route.ts:27 | The same for each Modbus trigger. |
| ChatKnowledge.IotTriggersWellFormed | src/app/api/chat/route.ts:32 | The same for each IoT trigger. |
| ChatKnowledge.PredictiveMaintenanceTriggersWellFormed | src/app/api/chat/route.ts:37 | The same for each predictive-maintenance trigger. |
| ChatKnowledge.StrategyTriggersWellFormed | src/app/api/chat/route.ts:44 | The same for each strategy trigger. |
| ChatKnowledge.RoadmapTriggersWellFormed | src/app/api/chat/route.ts:49 | The same for each roadmap trigger. |
| ChatKnowledge.WebSystemsTriggersWellFormed | src/app/api/chat/route.ts:56 | The same for each web-system trigger. |
| ChatKnowledge.MobileAppsTriggersWellFormed | src/app/api/chat/route.ts:61 | The same for each mobile-app trigger. |
| ChatKnowledge.OfflineAppsTriggersWellFormed | src/app/api/chat/route.ts:66 | The same for each offline-app trigger. |
| ChatKnowledge.AutomationTriggersWellFormed | src/app/api/chat/route.ts:73 | The same for each automation trigger. |
| ChatKnowledge.AiTriggersWellFormed | src/app/api/chat/route.ts:78 | The same for each AI trigger. |
| ChatKnowledge.StartingAProjectTriggersWellFormed | src/app/api/chat/route.ts:85 | The same for each starting-a-project trigger. |
| ChatKnowledge.PricingTriggersWellFormed | src/app/api/chat/route.ts:90 | The same for each pricing trigger. |
| ChatKnowledge.ContactTriggersWellFormed | src/app/api/chat/route.ts:95 | The same for each contact trigger. |
| ChatKnowledge.ResidentialTriggersWellFormed | src/app/api/chat/route.ts:102 | The same for each residential trigger. |
| ChatKnowledge.SupportTriggersWellFormed | src/app/api/chat/route.ts:107 | The same for each support trigger. |
| ChatKnowledge.KnowledgeBaseWellFormed | src/app/api/chat/route.ts:5-111 | Every trigger of every entry in the table is non-empty, starts with a non-white-space character and has no capital letter. |
| ChatRoute.AnyTriggerIncludedIsMatch | src/app/api/chat/route.ts:124 | The `some` scan over an entry's triggers succeeds exactly when one of the triggers occurs in the message. |
| ChatRoute.AnyTriggerIncluded | src/app/api/chat/route.ts:124 | `entry.triggers.some(trigger => message.includes(trigger))`, scanning the triggers in order. What it decides is stated by ChatRoute.AnyTriggerIncludedIsMatch. |
| ChatRoute.FindEntry | src/app/api/chat/route.ts:123-125 | The `find` scan reports an entry only if it matches and no earlier entry matches. It reports nothing only when no entry matches. |
| ChatRoute.FirstMatchUnique | src/app/api/chat/route.ts:123-125 | There is at most one first-matching entry. |
| ChatRoute.Lookup | src/app/api/chat/route.ts:119-129 | The answer is that of the first matching entry, or the fallback menu when nothing matches. It is always the fallback or one of the table's answers. |
| ChatRoute.Reply | src/app/api/chat/route.ts:116-129 | The reply to a message is the answer of the first entry with a trigger occurring in the lower-cased message, or the fallback menu when there is none. It is always the fallback or one of the table's answers. |
| ChatRoute.Post | src/app/api/chat/route.ts:113-144 | Status is 200 exactly when the body parses and `message` is a string. A 200 reply has role "assistant" and carries the knowledge-base reply to the message. Every other request gets a 500 response with "Failed to process message". |
| ChatRoute.EarlierEntryShadows | src/app/api/chat/route.ts:123-125 | Once an entry matches, no later entry is ever selected. |
| ChatRoute.MatchingEntryIsFoundOrShadowed | src/app/api/chat/route.ts:123-129 | If some entry matches, the scan selects that entry or an earlier one, so the reply comes from the table. |
| ChatRoute.SelectsFirstIncluded | src/app/api/chat/route.ts:123-125 | When an entry's `some` check succeeds and every earlier entry's fails, `find` selects that entry. |
| ChatRoute.ContainedTriggerIsShadowed | src/app/api/chat/route.ts:123-125 | A later trigger that contains an earlier entry's trigger can never decide the answer. Wherever it occurs, the earlier entry or one before it is selected. |
| ChatRoute.FindEntryAppend | src/app/api/chat/route.ts:123-125 | Scanning a table made of two parts: a match in the first part wins. Otherwise the match in the second part is reported, with its position offset by the first part's length. |
| ChatRoute.NoneIncludedFindsNothing | src/app/api/chat/route.ts:123-125 | When no entry's `some` check succeeds, `find` finds nothing. |
| ChatRoute.BlankMessageGetsFallback | src/app/api/chat/route.ts:116-129 | An empty or all-white-space message gets the fallback menu. |
| ChatRoute.TriggerFoundInAnyCase | src/app/api/chat/route.ts:116-125 | A trigger written with any capitalisation in the message makes the table answer, by that entry or an earlier one. |
| ChatRoute.VerbatimTriggerSelects | src/app/api/chat/route.ts:5-125 | Because every trigger is lower-case, a trigger written exactly as in the table anywhere in the raw message makes the table answer, by that entry or an earlier one. |
| ChatRoute.SameReplyIgnoringCase | src/app/api/chat/route.ts:116 | Messages that differ only in ASCII letter case get the same reply. |
| ChatRoute.MaintenanceNeverReachesSupport | src/app/api/chat/route.ts:78-110 | Any message mentioning "maintenance" is answered by the AI entry or an earlier one, never by the support entry. |
| ChatRoute.EmailNeverReachesContact | src/app/api/chat/route.ts:78-95 | Any message mentioning "email" is answered by the AI entry or an earlier one, never by the contact entry. |
| ChatRoute.TopicPositions | src/app/api/chat/route.ts:5-111 | The table has 18 entries. Modbus is at position 3, AI at 12, contact at 15 and support at 17. |
| ChatRoute.ReplyOfSelectedEntry | src/app/api/chat/route.ts:116-129 | The reply is the answer of the entry that the scan of the lower-cased message selects. |
| ChatRoute.MaintenanceMissesIdentityAndProducts | src/app/api/chat/route.ts:8-20 | "maintenance" matches no company-identity or product entry. |
| ChatRoute.MaintenanceMissesTeachingMode | src/app/api/chat/route.ts:27-37 | "maintenance" matches no teaching-mode entry. This holds even for "predictive maintenance". |
| ChatRoute.MaintenanceMissesStrategyServices | src/app/api/chat/route.ts:44-49 | "maintenance" matches no strategy entry. |
| ChatRoute.MaintenanceMissesMobileApps | src/app/api/chat/route.ts:61 | "maintenance" contains no mobile-app trigger. |
| ChatRoute.MaintenanceMissesCustomDevelopment | src/app/api/chat/route.ts:56-66 | "maintenance" matches no custom-development entry. |
| ChatRoute.MaintenanceFindsAiInItsGroup | src/app/api/chat/route.ts:73-78 | Within the automation-and-AI section, "maintenance" selects the AI entry. |
| ChatRoute.SupportMatchesMaintenance | src/app/api/chat/route.ts:107 | The support entry, at position 17, matches the message "maintenance" through its own trigger. |
| ChatRoute.MaintenanceSelectsAi | src/app/api/chat/route.ts:78-125 | The message "maintenance" selects the AI entry at position 12, although the support entry at position 17 matches it too: the earlier entry shadows it. |
| ChatRoute.MaintenanceReply | src/app/api/chat/route.ts:78-129 | The reply to "maintenance" is the AI entry's answer. |
| ChatRoute.ExplainModbusMissesIdentity | src/app/api/chat/route.ts:8 | "explain modbus" contains no company-identity trigger. |
| ChatRoute.ExplainModbusMissesLocation | src/app/api/chat/route.ts:13 | "explain modbus" contains no location trigger. |
| ChatRoute.ExplainModbusMissesCompanyIdentity | src/app/api/chat/route.ts:7-16 | "explain modbus" matches no company-identity entry. |
| ChatRoute.ExplainModbusMissesProducts | src/app/api/chat/route.ts:20 | "explain modbus" matches no product entry. |
| ChatRoute.ExplainModbusFindsModbusInItsGroup | src/app/api/chat/route.ts:27 | Within the teaching-mode section, "explain modbus" selects the Modbus entry. |
| ChatRoute.AiMatchesExplainModbus | src/app/api/chat/route.ts:78 | The AI entry, at position 12, matches "explain modbus", because its trigger "ai" occurs in "explain". |
| ChatRoute.ExplainModbusSelectsModbus | src/app/api/chat/route.ts:27-125 | The message "explain modbus" selects the Modbus entry at position 3, although the AI entry at position 12 matches it too: the earlier entry wins. |
| ChatRoute.ExplainModbusReply | src/app/api/chat/route.ts:27-129 | The reply to "explain modbus" is the Modbus entry's answer. |
| ContactRoute.IsValidEmail | src/app/api/contact/route.ts:24-25 | `emailRegex.test(email)` holds exactly when the address is in the language of `^[^\s@]+@[^\s@]+\.[^\s@]+$`. |
| ContactRoute.ValidEmailMatchesPattern | src/app/api/contact/route.ts:24-25 | An address accepted by the one-pass check, which splits at the first `@`, is in the language of `^[^\s@]+@[^\s@]+\.[^\s@]+$`. |
| ContactRoute.PatternMatchIsValidEmail | src/app/api/contact/route.ts:24-25 | An address in the regular expression's language passes the one-pass check. |
| ContactRoute.SplitAtFirstAt | src/app/api/contact/route.ts:24-25 | The one-pass check: there is a first `@`, something before it, and only `[^\s@]` characters around it, and the part after it has a `.` that is neither its first nor its last character. Its agreement with the regular expression is stated by ContactRoute.EmailCheckIsPattern. |
| ContactRoute.EmailCheckIsPattern | src/app/api/contact/route.ts:24-25 | The one-pass check accepts exactly the strings the regular expression accepts. |
| ContactRoute.EmailCharsJoin | src/app/api/contact/route.ts:24 | Two runs of `[^\s@]` joined by one more such character form a run. |
| ContactRoute.IndexOfFirst | src/app/api/contact/route.ts:24 | A character that is present with none before it is the first occurrence reported. |
| ContactRoute.ValidEmailShape | src/app/api/contact/route.ts:24-25 | An accepted address has no white space, has exactly one `@`, and does not start with `@`. |
| ContactRoute.NewlinesToBreaks | src/app/api/contact/route.ts:152 | `message.replace(/\n/g, "<br>")`, one character at a time. What the rewrite guarantees is stated by ContactRoute.NewlinesToBreaksShape and ContactRoute.NewlinesToBreaksAppend. |
| ContactRoute.NewlinesToBreaksShape | src/app/api/contact/route.ts:152 | After `message.replace(/\n/g, "<br>")` no line feed remains. The text grows by three characters per line feed. A message without line feeds is unchanged. |
| ContactRoute.NewlinesToBreaksAppend | src/app/api/contact/route.ts:152 | The rewrite distributes over concatenation, so it acts on each line feed independently. |
| ContactRoute.TextBody | src/app/api/contact/route.ts:169-182 | The plain-text template: heading, name, e-mail and inquiry-type lines, the message, then the reply-to line and the submission time, each field rendered as a template literal renders it. What it quotes is stated by ContactRoute.TextBodyQuotes. |
| ContactRoute.QuotedParts | src/app/api/contact/route.ts:169-182 | In a five-part concatenation, the second, third and fourth parts occur where they were placed. |
| ContactRoute.TextBodyQuotes | src/app/api/contact/route.ts:169-182 | The plain-text body quotes the message, after its labels, and the sender's address. |
| ContactRoute.TextBodyQuotesInquiryType | src/app/api/contact/route.ts:174 | The plain-text body quotes the inquiry type, rendered as a template literal renders it, after its label. |
| ContactRoute.Compose | src/app/api/contact/route.ts:33-183 | The mail has these fixed parts: sender hello@4wardph.com named "TekMakon Contact Form", the single recipient tekmakon2025@gmail.com, and category "Contact Form". The subject is the fixed prefix followed by the inquiry type. The HTML name, address, inquiry type and "Reply to" first name are the form's values, and its timestamp is the clock's long form. The HTML message is the `<br>` rewrite of the message: it has no line feed, is three characters longer per line feed, and equals the message when that had none. The text body is the plain-text template, and it quotes the message and the address. |
| ContactRoute.FailureText | src/app/api/contact/route.ts:193 | `error.message \|\| "Failed to send email"`: the error's own message when that is not empty, and "Failed to send email" when it is; never empty. |
| ContactRoute.Truthy | src/app/api/contact/route.ts:16 | JavaScript truthiness of a field: an absent field (`undefined`), `null` and the empty string are falsy, any other string is truthy. Its use is stated through ContactRoute.AllPresent. |
| ContactRoute.Render | src/app/api/contact/route.ts:47 | A field inside a template literal: an absent field renders as "undefined", `null` as "null", a string as itself. Its consequences are stated by ContactRoute.UnsetInquiryTypeIsInterpolated. |
| ContactRoute.AllPresent | src/app/api/contact/route.ts:16 | `!firstName \|\| !lastName \|\| !email \|\| !message` fails exactly when each of the four fields is a non-empty string, that is, when each is truthy. Nothing is trimmed and the inquiry type is not consulted. Its consequences are stated by ContactRoute.PresenceCheckedFirst and ContactRoute.SpacesCountAsPresent. |
| ContactRoute.Post | src/app/api/contact/route.ts:10-196 | An unreadable body gets a 500 response with the error's text. A missing required field gets a 400 response with "All fields are required", checked before the address. A bad address gets a 400 response with "Invalid email address". Exactly one mail is sent exactly when the four fields are present and the address is valid. The response is 200 with "Email sent successfully" exactly when that mail is delivered. A rejected mail gets a 500 response with the service's error text. |
| ContactRoute.SentMailIsComposed | src/app/api/contact/route.ts:44-183 | For a complete form with a valid address, the mails handed to the service are exactly one, the one composed from the form, whatever the service then does. |
| ContactRoute.PresenceCheckedFirst | src/app/api/contact/route.ts:16-30 | A form missing a required field is refused as incomplete even when its address is malformed. |
| ContactRoute.UnsetInquiryTypeIsInterpolated | src/app/api/contact/route.ts:44-182 | The inquiry type is never checked. A valid form without one, or with `null`, is still sent, and "undefined" or "null" is what reaches the subject after "New Contact Form Submission: ", the HTML inquiry-type value and the plain-text body. |
| ContactRoute.SpacesCountAsPresent | src/app/api/contact/route.ts:16 | Nothing is trimmed, and the inquiry type is not checked. Names and a message made of spaces still lead to a mail. |
| Navbar.IsActive | src/components/layout/Navbar.tsx:56-61 | The home link is active exactly when the pathname is `/`. Any other link is active exactly when its href is a prefix of the pathname. |
| Navbar.ActiveOnOwnPage | src/components/layout/Navbar.tsx:56-61 | Every link is active on its own href. |
| Navbar.NoSegmentBoundary | src/components/layout/Navbar.tsx:60 | "/about" is active on "/aboutus" as well as on "/about/team", because no path-segment boundary is checked. |
| Navbar.CanBothBeActiveIffOverlap | src/components/layout/Navbar.tsx:56-61 | Two hrefs can be active on the same pathname exactly when they overlap. A home href shares only `/`. Two other hrefs share a pathname exactly when one is a prefix of the other. |
| Navbar.NavLinksDisjoint | src/components/layout/Navbar.tsx:13-18 | No two of the four links overlap. |
| Navbar.AtMostOneActive | src/components/layout/Navbar.tsx:13-61 | Whatever the pathname, at most one of the four links is active. |
| ChatSession.Clear | src/components/chat/useChat.ts:19-31 | Whatever the prior state, clearing leaves exactly one assistant message, "Chat cleared. How can I help you now?", with nothing loading. |
| ChatSession.Send | src/components/chat/useChat.ts:33-48 | Blank input leaves the state unchanged. Other input appends exactly one user message, carrying the untrimmed input, keeps the earlier messages as a prefix, and sets loading. |
| ChatSession.ReplyContent | src/components/chat/useChat.ts:58-89 | An answered request contributes the server's content. A non-ok response or a thrown error contributes the fixed "trouble connecting" text. |
| ChatSession.Receive | src/components/chat/useChat.ts:60-89 | The end of a request appends exactly one assistant message, keeps the earlier messages as a prefix, and clears loading. |
| ChatSession.Step | src/components/chat/useChat.ts:19-89 | One event of the widget: a send, the end of a request, or a clear. What every event preserves is stated by ChatSession.StepKeepsCoherent. |
| ChatSession.Run | src/components/chat/useChat.ts:19-89 | The events applied in order. What every run preserves is stated by ChatSession.RunKeepsCoherent and ChatSession.RunWithoutClearAppends. |
| ChatSession.InitialCoherent | src/components/chat/useChat.ts:7-17 | The initial state, a single assistant greeting, satisfies the conversation invariant. |
| ChatSession.StepKeepsCoherent | src/components/chat/useChat.ts:19-89 | Every transition keeps the invariant: the conversation opens with an assistant message and no user message is blank. |
| ChatSession.RunKeepsCoherent | src/components/chat/useChat.ts:19-89 | Any sequence of sends, request endings and clears keeps the invariant. |
| ChatSession.ReachableCoherent | src/components/chat/useChat.ts:7-89 | Every state reachable from the initial one satisfies the invariant. |
| ChatSession.RunWithoutClearAppends | src/components/chat/useChat.ts:44-89 | Without a clear, messages are only appended. The earlier list stays a prefix. One message is added per non-blank send and one per ended request. |
| ChatSession.ClearForgetsHistory | src/components/chat/useChat.ts:19-31 | A clear forgets everything before it: the final state depends only on the events after the clear. |
| ChatSession.ReplyAfterClearIsKept | src/components/chat/useChat.ts:19-74 | A request that ends after a clear still appends its reply below the cleared greeting. |
| ChatSession.IsOk | src/components/chat/useChat.ts:58 | `response.ok`: the status is in the range 200 to 299. Its use is stated by ChatSession.OutcomeOf. |
| ChatSession.OutcomeOf | src/components/chat/useChat.ts:58-66 | The widget reads an answer exactly when the status is in the 2xx range and the body is a reply, and it takes that reply's content. |
| ChatSession.EndpointAnswers | src/components/chat/useChat.ts:52-66 | Posting any string message to the chat endpoint yields, to the widget, the knowledge-base reply to that message. |
| ChatSession.AnsweredTurn | src/components/chat/useChat.ts:37-74 | For non-blank input, a send followed by an answer appends the user's message and then the answer, and ends with nothing loading. |
| ChatSession.ConversationTurn | src/components/chat/useChat.ts:33-74 | For non-blank input, a full turn against the chat endpoint shows the user's message and then the endpoint's knowledge-base reply, and ends with nothing loading. |

## Left out

- Unicode case mapping: `toLowerCase` is modelled for ASCII capitals only. Other letters are left unchanged.
- White space is the set of ECMAScript WhiteSpace and LineTerminator code points. This is the set that both the regular-expression class `\s` and `trim` use.
- The 500 ms delay in the chat endpoint is not modelled: it has no effect on the result.
- The Mailtrap client is not modelled. The mail service is replaced by a `Delivery` parameter: the mail was accepted, or the service threw with a message. The API token and the client construction are left out.
- Contact fields other than strings and absent or null values are not modelled. This covers numbers, booleans and objects, for which JavaScript's coercions would apply.
- The clock is a parameter. The two renderings of "now" that the mail embeds are given as `Clock` strings. `Date` and locale formatting are not modelled.
- The HTML mail's markup and CSS are not modelled. Only the values it interpolates are kept, including the line-feed rewrite of the message.
- ContactRoute.Post: a request body that is JSON `null`, or whose reading throws, is one `Unparsable` case carrying the thrown error's message. How that message arises is not modelled.
- ChatRoute.Post: a body that is not JSON, or one that is `null`, is the single `Unparsable` case. A `message` field that is not a string is `NotString`. All of these end in the same 500 response.
- Message ids and timestamps in the chat widget are not modelled. Neither is the `fetch` call itself: a request's outcome is an input to the transition that appends its message.
- ChatSession.OutcomeOf: for a 2xx response whose body has no `content`, the hook stores an assistant message with undefined content, which the chat window cannot render. Here that case is read as a failed request. The chat endpoint never sends such a response.
- ChatSession.Send: the chat window's own guard, which refuses a send when `!text.trim() || isLoading` (src/components/chat/ChatWindow.tsx:49) and disables the send button on the same condition, is not modelled. The hook has no loading guard of its own, so the model also allows a send while a reply is pending. The invariants are proved over this larger set of runs.
- The suggestion shuffle, the theme toggle, the mobile menu's open and close state, and the static pages are rendering or randomness, and are not modelled.
- The `console.error` logging of a failed send (src/app/api/contact/route.ts:191) and of a failed chat request (src/components/chat/useChat.ts:76) is output only, and is not modelled.
- Strings are sequences of Unicode scalar values, while JavaScript strings are sequences of UTF-16 code units. A lone surrogate, which a JSON `\uD800` escape can produce, has no counterpart here. No result of the model depends on this for well-formed text.
