# Salary negotiation practice: a Dafny model

The application lets a candidate rehearse a salary negotiation. The candidate fills in a
scenario form: role, target salary, industry, company size, experience level and
counterpart persona. They then chat with a language model playing that counterpart,
and can ask for coaching feedback on the transcript. A separate endpoint stores sales
leads.

This project models the logic around those calls:

- **Practice page** (`practice.dfy`, `salary.dfy`):
  - the salary field's normaliser (keep the digits, regroup them the en-US way);
  - the form's validity test and its submit guard;
  - the text extracted from a chat message;
  - which messages are rendered and how;
  - the synthetic opening message;
  - the persona label shown in the chat header;
  - the `handleSend` guard, modelled as a class holding the input box and the messages sent.
- **Chat endpoint** (`chat_route.dfy`): the system prompt built from the scenario, and the persona lookup with its fallback.
- **Feedback endpoint** (`feedback_route.dfy`):
  - the speaker-labelled transcript;
  - the coach prompt;
  - the schema the generated feedback must satisfy, including the 1–10 score bound.
- **Leads endpoint** (`leads_route.dfy`):
  - validation;
  - name and email normalisation;
  - the status mapping;
  - the upsert into the `leads` table, modelled as a class over a map from email to name.

`wrappers.dfy` holds the shared `Option` type. `strings.dfy` holds JavaScript's `trim`, `toLowerCase`, `Array.prototype.join` and
substring occurrence, with their laws. Every function is deterministic by construction,
so "equal scenarios give identical prompts" needs no lemma.

## Model

| member | source | states |
|---|---|---|
| Strings.Trim | src/app/api/leads/route.ts:17 | `trim` returns the slice of its input that has only whitespace around it. The result is empty exactly when the input is all whitespace, and it starts and ends with a non-whitespace character. |
| Strings.TrimTruthy | src/app/practice/page.tsx:82-83 | `s.trim()` is truthy exactly when `s` has a character that is not whitespace. |
| Strings.TrimIdempotent | src/app/practice/page.tsx:309 | Trimming a trimmed text changes nothing. |
| Strings.TrimIgnoresSurroundingWhitespace | src/app/api/leads/route.ts:17 | Whitespace added on either side does not change what `trim` returns. |
| Strings.ToLower | src/app/api/leads/route.ts:17 | `toLowerCase`: same length, each character lower-cased on its own. ToLowerEqualIff states when two texts agree once lower-cased. |
| Strings.ToLowerEqualIff | src/app/api/leads/route.ts:17 | Two texts lower-case to the same text exactly when they differ only in letter case. |
| Strings.Join | src/app/api/feedback/route.ts:73 | `Array.prototype.join(sep)`. JoinLayout, JoinLength and JoinOccurs state where each element sits. |
| Strings.JoinLayout | src/app/api/feedback/route.ts:73 | `join(sep)` places element i at its offset, each followed by one separator except the last. |
| Strings.JoinLength | src/app/api/feedback/route.ts:73 | The joined text holds nothing but the elements and the separators between them. |
| Salary.NormaliseSalary | src/app/practice/page.tsx:138-145 | The salary `onChange` handler: the typed digits read as a number and written the en-US way, or "" when nothing typed was a digit. Its properties are stated by NormalisedEmptyIff, GroupShape and SalaryKeepsTypedDigits. |
| Salary.Value | src/app/practice/page.tsx:141 | `Number(raw)` on a digit string, as an exact natural. Decimal, ValueOfDropLeadingZeros and DecimalUnique tie it to the numeral. |
| Salary.Group | src/app/practice/page.tsx:141 | `toLocaleString("en-US")`: GroupShape states its comma layout and RemoveCommasOfGroup states its digits. |
| Salary.StripNonDigitsAppend | src/app/practice/page.tsx:139 | The digits of a + b are the digits of a followed by the digits of b: every typed digit is kept, in typed order. |
| Salary.StripNonDigitsChar | src/app/practice/page.tsx:139 | A single character is kept exactly when it is an ASCII digit. |
| Salary.StripNonDigits | src/app/practice/page.tsx:139 | The result holds only ASCII digits and is empty exactly when the input has none. An input of digits only comes back whole. |
| Salary.Decimal | src/app/practice/page.tsx:141 | The numeral of n is non-empty, reads back as n, and has a leading zero only for 0. |
| Salary.NormalisedEmptyIff | src/app/practice/page.tsx:138-145 | The stored salary is empty exactly when the typed text contains no ASCII digit. |
| Salary.GroupShape | src/app/practice/page.tsx:141 | Every grouped number is digits with a comma before each group of three counted from the right, and nothing else. |
| Salary.RemoveCommasOfGroup | src/app/practice/page.tsx:141 | Deleting the commas of the en-US form gives the plain numeral. |
| Salary.DecimalUnique | src/app/practice/page.tsx:141 | A digit string with no leading zero is the numeral of its own value. |
| Salary.SalaryKeepsTypedDigits | src/app/practice/page.tsx:139-141 | Deleting the commas of the stored salary gives the typed digits without their leading zeros, or "0" when all were zeros. |
| Practice.PersonaLabel | src/app/practice/page.tsx:315-317 | The chat header's name for the counterpart. PersonaLabelSpec states it. |
| Practice.GetTextFromMessage | src/app/practice/page.tsx:67-72 | `getTextFromMessage`. GetTextIsConcatenation and GetTextAppend state it. |
| Practice.FindPersona | src/app/practice/page.tsx:316 | `find` returns the first persona with that id, and returns nothing exactly when no id matches. |
| Practice.PersonaLabelSpec | src/app/practice/page.tsx:315-317 | Each listed persona id shows its own label. "Recruiter" is shown exactly when no listed id matches. |
| Practice.GetTextIsConcatenation | src/app/practice/page.tsx:67-72 | A message's text is the in-order concatenation of its "text" parts' text. Other parts, and text parts without text, add nothing. |
| Practice.GetTextAppend | src/app/practice/page.tsx:67-72 | Appending parts appends their text. |
| Practice.RenderMessages | src/app/practice/page.tsx:343-372 | Each bubble shows a message with non-empty text: right-aligned for "user", headed by the persona label for "assistant". Bubbles follow list order, at most one per message. |
| Practice.RenderMessagesComplete | src/app/practice/page.tsx:343-345 | Every message whose text is non-empty gets a bubble: a message is skipped only when its text is empty. |
| Practice.InitialMessages | src/app/practice/page.tsx:279-290 | The `messages` the chat starts from: one "user" message holding the opener. InitialTranscriptSpec states it. |
| Practice.OpenerNamesRole | src/app/practice/page.tsx:286 | The opener's text is its one text part, and it contains the role. |
| Practice.InitialTranscriptSpec | src/app/practice/page.tsx:277-290 | The chat starts with exactly one "user" message whose text contains the role. It renders as a single right-aligned bubble with no header. |
| Practice.FormValid | src/app/practice/page.tsx:82-83 | `isFormValid`: the role is not blank, the three selects are chosen, and the salary is not blank. ValidityOfTypedSalary and Submit state its use. |
| Practice.ValidityOfTypedSalary | src/app/practice/page.tsx:82-83 | Because of the normaliser, the form is valid exactly when the role is not blank, the three selects are chosen, and the typed salary had a digit. |
| Practice.SetupForm.constructor | src/app/practice/page.tsx:75-80 | Every field starts empty except the persona, which starts as "friendly-recruiter". |
| Practice.SetupForm.SetRole | src/app/practice/page.tsx:119 | The role input stores what was typed, unchanged. |
| Practice.SetupForm.TypeSalary | src/app/practice/page.tsx:138-145 | The salary field stores the normalised form of what was typed, which is empty exactly when nothing typed was a digit. |
| Practice.SetupForm.SetIndustry | src/app/practice/page.tsx:158 | The industry select stores the chosen value. |
| Practice.SetupForm.SetCompanySize | src/app/practice/page.tsx:182 | The company-size select stores the chosen value. |
| Practice.SetupForm.SetExperience | src/app/practice/page.tsx:206 | The experience select stores the chosen value. |
| Practice.SetupForm.SetPersona | src/app/practice/page.tsx:239 | The persona radio stores the chosen id. |
| Practice.SetupForm.Submit | src/app/practice/page.tsx:96-106 | A scenario is started exactly when the form is valid, and it carries the form's six fields. An invalid form starts nothing. |
| Practice.IsActive | src/app/practice/page.tsx:296 | `isActive`: the status is "streaming" or "submitted". SendDecisionSpec states its effect on sending. |
| Practice.SendDecision | src/app/practice/page.tsx:309-310 | What `handleSend` passes to `sendMessage`, if anything. SendDecisionSpec and ChatComposer.HandleSend state it. |
| Practice.SendDecisionSpec | src/app/practice/page.tsx:308-310 | A send happens exactly when no request is submitted or streaming and the input is not blank. The sent text is the trimmed input: non-empty, with nothing left to trim. |
| Practice.ChatComposer.constructor | src/app/practice/page.tsx:272 | The input box starts empty and nothing has been sent. |
| Practice.ChatComposer.SetInput | src/app/practice/page.tsx:400 | The input box holds what was typed, and what was sent is unchanged. |
| Practice.ChatComposer.HandleSend | src/app/practice/page.tsx:308-313 | With a blank input or an active request, nothing changes. Otherwise the input is cleared and the trimmed text is sent exactly once. Everything ever sent stays non-blank and trimmed. |
| Practice.SendTwice | src/app/practice/page.tsx:308-313 | Two sends in a row without typing send at most one message. When the first sends, it sends exactly the trimmed input and leaves the box empty. |
| ChatRoute.ResolvePersona | src/app/api/chat/route.ts:36-37 | The persona lookup with its fallback, reading only the table's own entries. ResolvePersonaSpec and FormPersonasHaveInstructions state it. |
| ChatRoute.BuildSystemPrompt | src/app/api/chat/route.ts:20-61 | `buildSystemPrompt`. PromptEmbedsScenario, PromptEmbedsPersona, PromptFrame and UnknownPersonaPromptIsFriendly state it. |
| ChatRoute.ResolvePersonaSpec | src/app/api/chat/route.ts:28-37 | Each of the three persona ids gets its own behaviour text, and only that id does. Every other id, including the empty one, gets the friendly recruiter's. |
| ChatRoute.FormPersonasHaveInstructions | src/app/api/chat/route.ts:28-34 | Every persona offered by the setup form has its own entry in the table, so the form never reaches the fallback. |
| ChatRoute.PromptEmbedsScenario | src/app/api/chat/route.ts:41-46 | The SCENARIO block holds role, industry, company size and experience verbatim on their labelled lines, and the salary after "$". |
| ChatRoute.PromptEmbedsPersona | src/app/api/chat/route.ts:48-49 | The resolved behaviour text comes directly after the "YOUR PERSONA:" line, followed by the RULES heading. |
| ChatRoute.PromptFrame | src/app/api/chat/route.ts:39-60 | Every prompt starts with the same introduction and SCENARIO heading, and ends with the same RULES block for every scenario. |
| ChatRoute.UnknownPersonaPromptIsFriendly | src/app/api/chat/route.ts:36-37 | A persona id outside the table gives exactly the friendly recruiter's prompt. |
| ChatRoute.InheritedKeySkipsFallback | src/app/api/chat/route.ts:36-37 | As written, a persona id naming an inherited `Object.prototype` member bypasses the fallback. The lookup returns that member instead of any behaviour text. |
| ChatRoute.ResolvePersonaAsWritten | src/app/api/chat/route.ts:36-37 | The lookup with its falsy-value fallback, as written, inherited `Object.prototype` members included. InheritedKeySkipsFallback and AsWrittenAgreesElsewhere state it. |
| ChatRoute.AsWrittenAgreesElsewhere | src/app/api/chat/route.ts:36-37 | For every other persona id, the lookup as written agrees with `ResolvePersona`. |
| FeedbackRoute.MessageText | src/app/api/feedback/route.ts:62-68 | A message's text for the transcript. TextPrecedence states it. |
| FeedbackRoute.Segment | src/app/api/feedback/route.ts:69-70 | One labelled transcript segment. SegmentSpec states it. |
| FeedbackRoute.Transcript | src/app/api/feedback/route.ts:59-73 | The transcript built from the messages. TranscriptLayout states it. |
| FeedbackRoute.CoachPrompt | src/app/api/feedback/route.ts:78-100 | The coach prompt. CoachPromptEmbeds states it. |
| FeedbackRoute.TextPrecedence | src/app/api/feedback/route.ts:62-68 | A message's text is its `content` when present, whatever its parts say. Otherwise it is the concatenation of its text parts, or "" when it has no parts. |
| FeedbackRoute.SegmentSpec | src/app/api/feedback/route.ts:69-70 | A segment starts with "CANDIDATE: " exactly when the role is "user", and with "COUNTERPART: " for every other role. It ends with the message text, and its length is the label's plus the text's, so nothing lies between them. |
| FeedbackRoute.TranscriptLayout | src/app/api/feedback/route.ts:59-73 | The transcript holds one segment per message in message order, separated by "\n\n", and nothing else. It is empty exactly for an empty message list. |
| FeedbackRoute.CoachPromptEmbeds | src/app/api/feedback/route.ts:78-89 | The coach prompt holds every scenario field on its labelled line, the persona id as given, and the whole transcript under its heading. |
| FeedbackRoute.ParseStrength | src/app/api/feedback/route.ts:24-33 | A strength passes exactly when it is an object with string `point` and `quote`, and the result holds those two strings. Other keys are dropped. |
| FeedbackRoute.ParseWeakness | src/app/api/feedback/route.ts:34-48 | A weakness passes exactly when it is an object with string `point`, `quote` and `suggestion`, and the result holds those three strings. Other keys are dropped. |
| FeedbackRoute.ParseEach | src/app/api/feedback/route.ts:24-51 | An array passes exactly when every element does. The result has the array's length, and its element i is what the item schema gives for element i. Any length is accepted. |
| FeedbackRoute.ParseFeedback | src/app/api/feedback/route.ts:7-12 | Every input the schema accepts is an object whose `overallScore` is a number between 1 and 10, and the result carries that same score. |
| FeedbackRoute.FeedbackRoundTrip | src/app/api/feedback/route.ts:7-52 | A feedback object's JSON passes the schema exactly when its score is in [1, 10], and then it parses back to the same object. |
| LeadsRoute.ValidLead | src/app/api/leads/route.ts:7 | The validation guard, negated. LeadResponseSpec states it. |
| LeadsRoute.NormName | src/app/api/leads/route.ts:17 | The stored name, `name.trim()`. NormalisedOutput states it. |
| LeadsRoute.NormEmail | src/app/api/leads/route.ts:17 | The stored key, `email.trim().toLowerCase()`. NormalisedOutput, SameKeyIff, SurroundingWhitespaceSameKey and NormEmailIdempotent state it. |
| LeadsRoute.Respond | src/app/api/leads/route.ts:7-29 | The endpoint's response for a request and a store outcome. LeadResponseSpec states it. |
| LeadsRoute.Stored | src/app/api/leads/route.ts:14-27 | The table after a request. UpsertSpec, StoredKeepsNormalised and ResubmitKeepsOneRow state it. |
| LeadsRoute.LeadResponseSpec | src/app/api/leads/route.ts:7-29 | 400 with "Name and valid email are required" exactly when the name is missing or blank, or the email is missing, blank or has no "@". Otherwise 500 with "Failed to save lead" exactly when the store fails, and 200 `{success: true}` when it does not. |
| LeadsRoute.UpsertSpec | src/app/api/leads/route.ts:7-19 | Only a 200 changes the table. It then maps the normalised email to the trimmed name, and every other row is unchanged. |
| LeadsRoute.LeadsTable.Post | src/app/api/leads/route.ts:4-30 | The endpoint returns the status mapping's response and leaves the table upserted or unchanged accordingly. |
| LeadsRoute.StoredKeepsNormalised | src/app/api/leads/route.ts:14-18 | A table whose rows all have a trimmed, lower-case email key containing "@" and a trimmed, non-empty name keeps that property after any request, whether it succeeds, fails or is rejected. |
| LeadsRoute.TrimKeepsAt | src/app/api/leads/route.ts:7 | Trimming never removes an "@". |
| LeadsRoute.NormalisedOutput | src/app/api/leads/route.ts:17 | A valid request stores a trimmed, lower-case key containing "@" and a trimmed, non-empty name. |
| LeadsRoute.SameKeyIff | src/app/api/leads/route.ts:17 | Two emails share a key exactly when, once trimmed, they differ only in letter case. |
| LeadsRoute.SurroundingWhitespaceSameKey | src/app/api/leads/route.ts:17 | Whitespace around an email does not change its key. |
| LeadsRoute.NormEmailIdempotent | src/app/api/leads/route.ts:17 | Normalising a key again gives the same key. |
| LeadsRoute.ResubmitKeepsOneRow | src/app/api/leads/route.ts:17-18 | Two submissions whose emails differ only in case or surrounding whitespace leave one row for that address, holding the latest name, and add at most one row. |

## Left out

- LLM calls and streaming (`streamText`, `generateObject`, the chat hook and its transport) are foreign calls. The chat status is an input to the send guard, and the model's feedback reaches the schema as a JSON value.
- The Supabase client is a map from email to name. Whether the upsert fails is a parameter. After a failure the table is taken to be unchanged; the source does not say what a failed upsert leaves behind.
- Salary.NormaliseSalary: numbers are exact naturals. `Number(raw)` loses precision from 2^53 upwards (16 or more digits), and that is not modelled.
- Strings.ToLower: only ASCII letters are case-mapped. JavaScript's full Unicode case mapping is library behaviour.
- Request bodies whose fields are not strings are out of scope (`name.trim` on a number throws, giving a framework 500).
- In the leads request, a missing `name` or `email` is modelled as absent and gets the 400.
- In the feedback request, `messages` and `scenario` are required, and in the chat request so is `scenario`. A body without them throws (at `messages.map`, `scenario.role` or `scenario.persona`), giving a framework 500. FeedbackRoute.Transcript, FeedbackRoute.CoachPrompt and ChatRoute.BuildSystemPrompt take these values as given, so that error path is not modelled.
- The `console.error` call that logs a store failure in the leads endpoint is output only and is not modelled.
- A missing scenario field is interpolated by JavaScript as "undefined". The prompts here take the fields as strings, so that text is not modelled.
- JSON numbers are reals. NaN and the infinities, which the schema also rejects, are not represented.
- The schema's "2-4" and "3-5" counts are descriptions only, so no length bound is modelled.
- Rendering details are not modelled: CSS classes, scroll and focus effects, the typing indicator, the page's switch between the form and the chat, and its reset button.
- `maxDuration` and the choice of model name are deployment settings with no behaviour to state.
- ChatRoute.ResolvePersona: the rest of the model uses the corrected lookup, which reads only the table's own entries (see Findings).

## Findings

| source | as written | input that shows it | evidently intended | confidence | as-written member | corrected member |
|---|---|---|---|---|---|---|
| src/app/api/chat/route.ts:36-37 | The lookup `personaInstructions[scenario.persona]` falls back only on a falsy value, but it also reads properties the object literal inherits, and those are truthy. | persona "toString" (or "constructor", "valueOf", "__proto__") | Any persona id outside the table falls back to the friendly recruiter's text. | not executed | ChatRoute.InheritedKeySkipsFallback | ChatRoute.ResolvePersonaSpec |
