# AI Fitness Trainer: catalog filter, chat formatter and chat session

This project models, as pure functions over immutable data, the three pieces
of statable logic in the fitness trainer's browser client, and proves
properties of each.

- **Tutorial catalog** (`src/pages/ExerciseTutorials.tsx`).
  - The fixed table of fifty exercise tutorials is narrowed by a free-text query and a category selector.
  - The query is lower-cased and must occur in the lower-cased title, the description or some target muscle.
  - The category must be the sentinel `"All"` or equal the entry's category.
  - Difficulty labels map to badge colour classes.
  - Modules: `Catalog`, `CatalogData` (the literal table), `Sequences` (`Array.prototype.filter` and its laws), `Text` (`toLowerCase`, `includes`, `trim`).
- **Message formatter** (`formatMessage` in `src/pages/AIChatbot.tsx`).
  - Two global rewrites run one after the other.
  - First, `/\*\*(.+?)\*\*/g` becomes `<strong>$1</strong>`: a leftmost match with lazy inner text that is non-empty and crosses no line terminator, then the scan resumes after the match.
  - The regular-expression dot excludes all four ECMAScript line terminators: line feed, carriage return, U+2028 and U+2029. `Format.IsLineTerminator` lists them.
  - Then `/\n/g` becomes `<br/>`.
  - Module: `Format`.
- **Chat session** (`src/pages/AIChatbot.tsx`), module `Chat`.
  - The page state is a record: messages, draft, the signed-in user id, the loading, recording and speaking flags, the auto-play switch, and what local storage holds.
  - Every handler is a transition function.
  - Each network reply, browser capability and timer is a parameter or an event.
  - `handleSend` is split at its `await`:
    - `BeginSend` clears the draft and appends the user message, remembering the messages and the auto-play switch as they were. The source's closure captures them the same way.
    - `FinishSend` applies the outcome to whatever state the page is then in.

`wrappers.dfy` holds the `Option` type.

## Model

| member | source | states |
|---|---|---|
| Catalog.FilterTutorials | src/pages/ExerciseTutorials.tsx:546-555 | the filtered list never holds more entries than the table, which is what keeps "Showing N of M" (line 691) at N ≤ M |
| Catalog.FilterMembers | src/pages/ExerciseTutorials.tsx:546-555 | an entry is shown exactly when it is in the table, the lower-cased query occurs in its title, description or a target muscle, and the category is "All" or its own; under a real category every shown entry has that category |
| Catalog.FilterPositions | src/pages/ExerciseTutorials.tsx:546-555 | the result is the table restricted to the matching positions, in table order (an order-preserving subsequence) |
| Catalog.FilterShowsAllByDefault | src/pages/ExerciseTutorials.tsx:547-553 | with the empty query and "All", every entry is shown, because every string includes "" |
| Catalog.FilterIgnoresCase | src/pages/ExerciseTutorials.tsx:548-551 | two queries with the same lower-cased form give the same result |
| Catalog.FilterByLowerQuery | src/pages/ExerciseTutorials.tsx:548-551 | filtering by q is filtering by lowercase(q) |
| Catalog.FilterIsConjunction | src/pages/ExerciseTutorials.tsx:546-555 | the filter equals category-then-search and equals search-then-category |
| Catalog.FiltersIdempotent | src/pages/ExerciseTutorials.tsx:546-555 | the category filter and the search filter applied twice are each applied once |
| Catalog.FilterNarrows | src/pages/ExerciseTutorials.tsx:547-552 | a query whose lower-cased form contains another's shows a subset of that query's entries, and filtering that query's result by it gives the same list: typing more only removes entries |
| Catalog.FilterEmptyForUnknownQuery | src/pages/ExerciseTutorials.tsx:546-555 | a query that occurs in no entry's fields yields the empty list behind "No tutorials found", whatever the category |
| Catalog.FilterEmptyForOtherCategory | src/pages/ExerciseTutorials.tsx:553-554 | a real category that no entry has yields the empty list, whatever the query |
| Catalog.FilterKeepsMatchingList | src/pages/ExerciseTutorials.tsx:546-555 | a list whose every entry matches is shown whole |
| Catalog.FilterAppend | src/pages/ExerciseTutorials.tsx:546-555 | filtering the concatenation of two lists is filtering each and concatenating |
| Catalog.DifficultyColorTotal | src/pages/ExerciseTutorials.tsx:557-568 | the three difficulties get three distinct, non-grey classes, and a label gets grey exactly when it is none of them |
| Text.Includes | src/pages/ExerciseTutorials.tsx:548-551 | `includes` holds exactly when the word occurs at some position |
| Text.Trim | src/pages/AIChatbot.tsx:102-104 | `trim()` returns a slice with only white space around it; the slice is empty exactly when the draft is blank, and otherwise starts and ends with a non-space |
| Text.TrimIdempotent | src/pages/AIChatbot.tsx:102-104 | trimming a trimmed draft changes nothing |
| CatalogData.TableSize | src/pages/ExerciseTutorials.tsx:24-542 | the table has 50 entries, the M of "Showing N of M" |
| CatalogData.CoreSelection | src/pages/ExerciseTutorials.tsx:295-459 | "Core" with the empty query shows the Core section followed by the two Core entries listed under Full Body |
| CatalogData.CoreExample | src/pages/ExerciseTutorials.tsx:295-459 | that result is tutorials 27 to 32, then 41 and 42, in that order |
| CatalogData.TableCategoriesOffered | src/pages/ExerciseTutorials.tsx:544-554 | every entry's category is one of the selector's choices and never the "All" sentinel, and selecting it with an empty query shows the entry |
| CatalogData.SquatExample | src/pages/ExerciseTutorials.tsx:150-169 | "squat" under "All" shows tutorials 13 and 14, in that order |
| Format.MatchAt | src/pages/AIChatbot.tsx:332 | a match opened at a position closes at the nearest asterisk pair that leaves non-empty inner text and no line terminator; otherwise there is no match there |
| Format.FindClose | src/pages/AIChatbot.tsx:332 | the lazy search finds the first closing pair reachable without crossing a line terminator, or reports that none exists |
| Format.UnemphasizeEmphasize | src/pages/AIChatbot.tsx:332 | on text without `<`, turning the tags back into `**` recovers the input: the bold rewrite loses nothing |
| Format.EmphasizeFromKeepsNewlines | src/pages/AIChatbot.tsx:332 | the bold rewrite keeps every line feed, since bold text never spans a line |
| Format.BreakLinesShape | src/pages/AIChatbot.tsx:335 | after the line-break rewrite no line feed is left, and each one made the text four characters longer |
| Format.JoinBreakLines | src/pages/AIChatbot.tsx:335 | on text in which `<br/>` cannot occur, turning each `<br/>` back into a line feed recovers the input |
| Format.BreakLinesAppend | src/pages/AIChatbot.tsx:335 | the line-break rewrite works piece by piece |
| Format.FormatMessage | src/pages/AIChatbot.tsx:327-338 | the formatted message contains no line feed |
| Format.FormatMessageLength | src/pages/AIChatbot.tsx:327-338 | each input line feed becomes exactly one `<br/>` |
| Format.FormatMessageRoundTrip | src/pages/AIChatbot.tsx:327-338 | a message without `<` is recovered from its formatted form by turning `<br/>` into line feeds and the tags into `**` |
| Format.FormatMessagePlain | src/pages/AIChatbot.tsx:327-338 | a message with no asterisk and no line feed is returned unchanged |
| Format.FormatMessageExample | src/pages/AIChatbot.tsx:327-338 | `"**Day 1**\nRun 5k"` becomes `"<strong>Day 1</strong><br/>Run 5k"` |
| Format.FormatMessageStarsOnly | src/pages/AIChatbot.tsx:332 | `"****"` is unchanged, since bold text must be non-empty |
| Chat.Initial | src/pages/AIChatbot.tsx:33-40 | the page starts with no messages, an empty draft, no user id, not loading, recording or speaking, automatic read-aloud on, and storage as given |
| Chat.CheckAuth | src/pages/AIChatbot.tsx:74-84 | a signed-in user's id becomes the page's user id; without a session or user nothing changes; nothing but the user id changes |
| Chat.LoadHistory | src/pages/AIChatbot.tsx:86-95 | a saved conversation replaces the messages and nothing else; nothing stored, or text that does not parse, leaves the state alone |
| Chat.ClearChat | src/pages/AIChatbot.tsx:318-325 | the messages become empty and storage holds nothing; nothing else changes |
| Chat.ClearChatIdempotent | src/pages/AIChatbot.tsx:318-325 | clearing twice is clearing once, and a reload after a clear shows nothing |
| Chat.ToggleAutoPlay | src/pages/AIChatbot.tsx:355-362 | the button flips the read-aloud switch and nothing else |
| Chat.ToggleAutoPlayInvolution | src/pages/AIChatbot.tsx:355-362 | pressing it twice restores the state |
| Chat.History | src/pages/AIChatbot.tsx:114-117 | the request history has one entry per message, holding only its role and content |
| Chat.ReplyContent | src/pages/AIChatbot.tsx:135-139 | the reply-or-fallback content is never empty; it is the fallback exactly when the reply is missing, empty or the fallback text itself, and otherwise it is the reply |
| Chat.BeginSend | src/pages/AIChatbot.tsx:101-127 | a send starts exactly when the draft is not blank and a user is known; it then appends the trimmed draft as a user message, clears the draft and sets loading, changing nothing else, and remembers the earlier messages, the read-aloud switch and the request built from them |
| Chat.FinishSend | src/pages/AIChatbot.tsx:129-163 | loading always ends; a failure restores the remembered messages and saves nothing; a reply installs the remembered messages, the user message and the assistant message (fallback content, tutorials defaulting to none) and saves exactly that; the reply is read aloud exactly when the remembered switch was on and it is not the fallback; nothing but messages, storage and loading changes |
| Chat.SendIgnored | src/pages/AIChatbot.tsx:101-102 | a blank draft or a missing user leaves the whole state unchanged and reads nothing aloud |
| Chat.SendReplied | src/pages/AIChatbot.tsx:101-163 | a reply leaves the messages as the old messages, the trimmed draft as a user message, and the assistant message with tutorials defaulting to none; storage equals the new messages, the draft is empty, loading is off, and nothing else changes |
| Chat.SendFailed | src/pages/AIChatbot.tsx:152-163 | a failure leaves the messages and storage as before the send, the draft cleared, loading off, and nothing read aloud |
| Chat.SendRequest | src/pages/AIChatbot.tsx:104-127 | the request carries the trimmed draft, the user id, and the history of the messages before the send, not the new one |
| Chat.ReadAloudRule | src/pages/AIChatbot.tsx:145-150 | the answer is read aloud exactly when the switch was on at the send, a reply arrived, and it is not the fallback text; what is read is the reply |
| Chat.SendKeepsMirrored | src/pages/AIChatbot.tsx:141-159 | a send that starts from storage mirroring the conversation ends with it still mirroring, whatever the outcome |
| Chat.Speak | src/pages/AIChatbot.tsx:240-263 | while the speaking flag is on (a request pending or audio playing), the button clears it and requests nothing; otherwise it sets it and requests the text in "en"; nothing else changes |
| Chat.SpeechArrived | src/pages/AIChatbot.tsx:265-315 | audio changes nothing, so the speaking flag keeps its value (off if the button was pressed again while the request was pending); with no audio (abort, bad status, network error) the flag goes off and nothing else changes |
| Chat.StopWhilePendingStillPlays | src/pages/AIChatbot.tsx:240-274 | pressing the button again while the speech request is pending clears the flag without cancelling the request, so the audio that then arrives plays with the flag off and a further press starts a second request |
| Chat.PlaybackFinished | src/pages/AIChatbot.tsx:276-288 | the audio's `ended` and `error` events end the speaking state and change nothing else |
| Chat.SpeechRoundTrip | src/pages/AIChatbot.tsx:240-315 | starting to read aloud and reaching any end returns the page to the state it was in |
| Chat.StartVoiceInput | src/pages/AIChatbot.tsx:166-237 | no media support changes nothing; a granted microphone starts recording; a refused one ends the recording state; only the recording flag changes |
| Chat.StopRecording | src/pages/AIChatbot.tsx:219-227 | the five-second timer ends recording and changes nothing else |
| Chat.TranscriptArrived | src/pages/AIChatbot.tsx:196-213 | a transcript, or "" when it is missing, replaces the draft; a failure leaves the state alone |
| Chat.VoiceRoundTrip | src/pages/AIChatbot.tsx:166-237 | a granted recording that runs out and is transcribed puts the transcript in the draft and otherwise returns to where it started |
| Chat.StepKeepsMirrored | src/pages/AIChatbot.tsx:86-99 | every event keeps storage mirroring the conversation |
| Chat.RunKeepsMirrored | src/pages/AIChatbot.tsx:86-99 | any sequence of events keeps storage mirroring the conversation |
| Chat.SessionMirrored | src/pages/AIChatbot.tsx:50-54 | from the first render and the history load, whatever storage held, storage mirrors the conversation after any sequence of events, sign-ins and sends included |
| Chat.StepShowsStored | src/pages/AIChatbot.tsx:86-163 | every event keeps the page showing what a reload would show: the saved conversation, or nothing when storage holds none |
| Chat.RunShowsStored | src/pages/AIChatbot.tsx:86-163 | any sequence of events keeps that |
| Chat.SessionShowsStored | src/pages/AIChatbot.tsx:50-54 | from the first render and the history load, whatever storage held, the page shows what a reload would show after any sequence of events, before the first reply and after a clear included |
| Chat.SessionSends | src/pages/AIChatbot.tsx:50-163 | after the history load, signing in and typing a draft, a send really happens: a reply extends the loaded conversation by the user and assistant messages and saves it, a failure keeps the loaded conversation and storage |

## Left out
- CatalogData.SquatExample: proves that tutorials 13 and 14 are shown for "squat", in order, but not that no other entry is. Showing the other 48 entries' fields free of "squat" is too expensive for the verifier on this literal table. `Catalog.FilterEmptyForUnknownQuery` gives the other half for any list whose entries' fields lack the query, but it is not applied to the other 48 entries.
- A query found nowhere in the table is shown to yield no entries for every table, by `Catalog.FilterEmptyForUnknownQuery`, rather than for a particular query on the literal table, for the same reason.
- Lower-casing is ASCII only. Every string in the table is ASCII; a non-ASCII query is lower-cased only in its ASCII letters.
- JSX rendering, `getCategoryIcon`, the welcome dialog, the first-visit flag, scrolling and focus: presentation only.
- Toasts: they carry no state. That is why a timed-out and a failed speech request are one outcome, `NoAudio`: they differ only in the toast text.
- The `/chat`, `/stt` and `/tts` requests are external I/O. Their answers are the parameters `ChatOutcome`, `TranscriptOutcome` and `SpeechOutcome`. The recorded audio is not modelled.
- Supabase authentication: `checkAuth` is the `SignIn` event, whose user is a parameter. Redirecting to the sign-in page is not modelled.
- Local storage and JSON:
  - `Storage` is `Empty`, `Saved(messages)` or `Unreadable`.
  - `Saved` assumes that JSON serialisation of a conversation parses back to the same conversation.
  - A stored value that parses to something other than a conversation is not modelled.
- `MediaRecorder`, microphone streams, `Audio` playback and object URLs are browser media APIs. Their effects are the events `VoiceStart`, `VoiceStop`, `Transcript`, `SpeechReply` and `PlaybackEnd`.
- Timers: the 5 s recording limit is the `VoiceStop` event and the 15 s speech abort is the `NoAudio` outcome; time itself is not modelled.
- The read-aloud a reply schedules after 500 ms is returned as `readAloud` and not applied: there is no event for that timer.
- The stale read behind that timer is not modelled. The timer calls the `handleTextToSpeech` of the render in which Send was pressed. That function decides between stopping and starting by `isSpeaking` as it was at that render, not when the timer fires.
- Interleaving: `FinishSend` accepts any current state, and its contract holds for every one. Beyond that contract, nothing is claimed about a page used while a send is in flight, such as clearing the chat before the reply arrives. `SendReplied`, `SendFailed` and `ReadAloudRule` cover a send with nothing in between.
- Buttons disabled while loading or recording are not modelled as guards: each transition is defined in every state.
