# Seowon Safe-Link: a Dafny model of its decision logic

Safe-Link is a construction-site interpreter web application. A Korean site
manager and foreign workers talk through push-to-talk buttons; their speech
is translated by a generative model and spoken back. The application also
offers:

- a glossary of site jargon ("nogada" slang) with user-added terms;
- a control centre of saved broadcast messages;
- an endpoint through which workers send messages to the manager;
- a request guard for signed-in areas.

This project models the deterministic logic inside those components as pure
Dafny functions over immutable datatypes and sequences. Everything the
application delegates to the outside world becomes a parameter:

- remote model replies, and whether an API key is configured;
- database contents and failures;
- browser storage;
- the speech-recognition and speech-synthesis APIs;
- clock readings.

Modules:

| module | file | models |
|---|---|---|
| `Wrappers` | wrappers.dfy | `Option` |
| `Strings` | strings.dfy | JS string operations used by the source: `startsWith`, `endsWith`, `includes`, ASCII `toLowerCase`, `trim` over the ECMAScript white-space set, decimal rendering, `padStart(2, '0')`, JS truthiness of strings |
| `Seqs` | seqs.dfy | `Array.prototype.filter` and subsequences |
| `Constants` | constants.dfy | the language, jargon and site tables |
| `Middleware` | middleware.dfy | the route guard |
| `ChatTimer` | chat_timer.dfy | the recording clock |
| `Pcm` | pcm.dfy | decoding of 16-bit little-endian PCM speech audio |
| `BrowserVoice` | browser_voice.dfy | voice choice for the browser speech fallback |
| `ChatSession` | chat_session.dfy | push-to-talk state machine, typed input, `handleFinalInput` |
| `Remote` | remote.dfy | a generative-model call: text or an exception |
| `TranslateRoute` | translate_route.dfy | `POST /api/translate` |
| `Glossary` | glossary.dfy | the glossary screen |
| `SavedMessages` | saved_messages.dfy | the control centre's saved messages |
| `HomePage` | home_page.dfy | the application shell: language label and pane visibility |
| `TtsRoute` | tts_route.dfy | `POST /api/tts` |
| `WorkerMessageRoute` | worker_message_route.dfy | `POST` and `GET /api/worker/message` |

## Model

| member | source | states |
|---|---|---|
| Constants.LanguagesWellFormed | lib/constants.ts:1-10 | The language table has 8 entries. Every code has the shape `xx-XX` (two lower-case letters, a dash, two upper-case letters). Codes are pairwise distinct, as their use as list keys requires. Every name and Korean label is non-empty. |
| Constants.SlangTableWellFormed | lib/constants.ts:14-111 | The jargon table has 69 rows. The jargon keys are pairwise distinct, since the glossary list uses them as keys. Every row has a non-empty jargon, standard term and all eight translations. |
| Constants.SitesNumbered | lib/constants.ts:114-141 | The site table has 26 entries, numbered 1 to 26 in order, and every site is active. |
| Middleware.Guard | middleware.ts:4-85 | Static assets, `/api` and `/_next` paths, `/favicon.ico` and image files pass whatever the cookies. A redirect only targets `/login`, `/dashboard` or `/tbm`. A protected path without a session goes to `/login`. On login/signup, a signed-in manager goes to `/dashboard` and a signed-in worker to `/tbm`; without a session, or with any other role, the page is shown. A signed-in non-manager is sent from `/dashboard` to `/tbm`, and the dashboard passes for a signed-in manager and nobody else. `/tbm` and `/chat` pass for any session, whatever its role. Every other path passes. |
| Middleware.AuthPagesUnprotected | middleware.ts:22-43 | No path is both a login/signup page and a protected page. |
| Middleware.NoRedirectLoop | middleware.ts:27-58 | Following any redirect with the same cookies is let through: the guard never loops. |
| Middleware.StaticBeforeProtection | middleware.ts:8-51 | The static test comes first: `/dashboard/logo.png` passes without a session, while `/dashboard` redirects to `/login`. |
| Middleware.UnknownRoleMayLogIn | middleware.ts:24-59 | For any non-empty token and any role other than manager and worker, the session may open `/login` and is sent from `/dashboard` to `/tbm`. |
| ChatTimer.FormatTimer | components/ChatPage.tsx:345-349 | The display is a minutes field, `:`, and a two-digit seconds field. The minutes read back as t div 600, the seconds as (t mod 600) div 10, always below 60. The display is exactly 5 characters iff t < 60000. |
| ChatTimer.Pad2Value | components/ChatPage.tsx:346-347 | A zero-padded decimal is all digits and reads back as its number. It has 2 characters below 100 and at least 3 from 100. |
| ChatTimer.FormatTimerExamples | components/ChatPage.tsx:345-349 | 0 ticks display as `00:00`; 655 ticks (65.5 s) as `01:05`. |
| Pcm.OrOfByteLanes | components/ChatPage.tsx:99 | On 16-bit words, the OR of a low byte with a high byte shifted by 8 equals low + 256·high. |
| Pcm.Combine | components/ChatPage.tsx:99 | The combined value lies in [0, 65536); its low byte is the first byte and its high byte the second. |
| Pcm.ToInt16 | components/ChatPage.tsx:97-99 | Storing into an `Int16Array` yields a value in [-32768, 32767] congruent to the input modulo 2^16. |
| Pcm.SampleAt | components/ChatPage.tsx:99 | Sample i is b[2i] + 256·b[2i+1], minus 65536 when the high byte's top bit is set. |
| Pcm.Decode | components/ChatPage.tsx:96-100 | The decoder yields floor(n/2) samples, sample i from bytes 2i and 2i+1. |
| Pcm.DecodeLoop | components/ChatPage.tsx:97-100 | The copy loop computes exactly the decoded sample sequence. |
| Pcm.DecodeEncode | components/ChatPage.tsx:98-100 | Decoding is a left inverse of little-endian 16-bit encoding: every sample survives the round trip. |
| Pcm.OddTrailingByteIgnored | components/ChatPage.tsx:97 | An unpaired trailing byte does not change the decoded samples. |
| BrowserVoice.BeforeDash | components/ChatPage.tsx:127 | The language prefix is a prefix of the code, contains no dash, and ends at the first dash or at the end. |
| BrowserVoice.FirstIndex | components/ChatPage.tsx:137-140 | `find` returns the first element meeting the test, or nothing when none does. |
| BrowserVoice.FirstByKeyword | components/ChatPage.tsx:143-151 | A voice chosen by the keyword loop passes the language test. The loop finds nothing iff no voice is a candidate for any keyword. |
| BrowserVoice.FirstByKeywordIs | components/ChatPage.tsx:143-151 | When keyword k is the first with a candidate and voice i is its first candidate, the loop picks voice i. |
| BrowserVoice.MandarinMatchesLang | components/ChatPage.tsx:136-146 | A preferred Mandarin voice also passes the general language test for `zh-CN`. |
| BrowserVoice.ChosenIndexMatches | components/ChatPage.tsx:133-156 | The chosen voice passes the language test. Nothing is chosen only when no voice passes it. |
| BrowserVoice.FallbackUtterance | components/ChatPage.tsx:115-161 | The utterance speaks the text. `zh-CN` and `zh` are spoken as `cmn-CN`, other codes unchanged. A voice is set iff some listed voice passes the language test, and the voice set is one of those. |
| BrowserVoice.KeywordPriority | components/ChatPage.tsx:131-151 | For any text and codes other than `zh-CN`, the earliest keyword among Neural, Online, Natural, Premium and Google with a language-matching voice wins, taking its first such voice. |
| BrowserVoice.MandarinKeywordPriority | components/ChatPage.tsx:133-151 | For any text and `zh-CN` with no preferred Mandarin voice, the keyword loop decides: the earliest keyword with a language-matching voice wins, taking its first such voice. |
| BrowserVoice.PlainLanguageMatch | components/ChatPage.tsx:153-156 | For any text, with no keyword candidate, the first language-matching voice is used. |
| BrowserVoice.MandarinFirst | components/ChatPage.tsx:136-141 | For any text and `zh-CN`, the first preferred Mandarin voice wins over every keyword. |
| ChatSession.StartPtt | components/ChatPage.tsx:234-259 | Starting while recording, or without a recogniser, changes nothing. Otherwise recording starts for the role with an empty transcript and the timer at 0. The manager is heard in Korean, the worker in the selected language. A failing `start()` leaves recording off. |
| ChatSession.StopPtt | components/ChatPage.tsx:261-282 | Stopping while idle changes nothing. Otherwise recording stops and the role and transcript are cleared. The transcript is submitted for the recording role exactly when it is not blank. |
| ChatSession.Press | components/ChatPage.tsx:487-521 | A role's button is ignored while the other role records. Pressed while its role records, it stops recording. Pressed while idle, it starts recording for that role. Any submission belongs to the pressed role and is not blank. |
| ChatSession.Next | components/ChatPage.tsx:179-252 | Every event (button, recognition result, timer tick) keeps "recording iff a role is set". A submission is never blank. |
| ChatSession.Run | components/ChatPage.tsx:234-282 | Over any event sequence the state stays consistent, and every submitted text is non-blank. |
| ChatSession.SendTyped | components/ChatPage.tsx:454-467 | Blank typed input is neither sent nor cleared. Otherwise it is submitted as the manager's and the box is cleared. |
| ChatSession.HandleFinalInput | components/ChatPage.tsx:284-343 | Blank text does nothing. Otherwise the sender's bubble is added and the translation request is built. Only the manager's text becomes the last source. The status goes PROCESSING and ends READY on every path. On success, one reply bubble of the opposite role is added and spoken: in the worker's language for a manager, in Korean for a worker. Otherwise the turn is marked DELAYED and nothing is spoken. |
| ChatSession.MountedFinalInput | components/ChatPage.tsx:284-290 | As the home page mounts the screen (app/page.tsx:46 and 56 pass no `onLastManagerText`), a non-blank manager turn records its last source and then stops: no bubble, no request, no status change, nothing spoken. With the callback present, or on a worker turn, the handler runs to the end. |
| ChatSession.MountedManagerTurnLost | app/page.tsx:46-56 | Mounted without the callback, any non-blank manager text shows no bubble and sends no request, while the same turn with the callback shows the manager's bubble and sends the request. |
| ChatSession.ScreenBodyRejected | components/ChatPage.tsx:304-318 | The body the screen sends has no `targetLang`, so the translation route answers 400 for every non-blank turn. The turn then gets no reply bubble and is marked DELAYED. |
| ChatSession.EchoIsFailure | app/api/translate/route.ts:15-21 | The key-less echo returns the input text, but without `success` the screen treats it as a failure and speaks nothing. |
| ChatSession.AsRouteRequest | components/ChatPage.tsx:304-313 | The body the screen actually sends names no `targetLang`, so it never passes the route's 400 test (app/api/translate/route.ts:9-11), whatever its text. |
| ChatSession.IntendedRouteRequest | components/ChatPage.tsx:304-313 | The corrected body names `targetLang`: the worker's language for a manager, `ko-KR` for a worker. It passes the route's 400 test (app/api/translate/route.ts:9-11) exactly when the text is non-empty and, on a manager's turn, the selected language is non-empty. |
| ChatSession.IntendedBodyTranslates | components/ChatPage.tsx:318-330 | With the corrected body, a configured key and a model answer, the route succeeds. The model is asked to translate the text from Korean into the screen's language, for either role. The turn gets the opposite role's bubble and the trimmed translation is spoken: in the worker's language for a manager, in Korean for a worker. |
| TranslateRoute.Post | app/api/translate/route.ts:5-56 | A body without text or targetLang gets 400. With no key, the text is echoed with `fallback` and without `success`. Success holds iff a valid request reached a configured model that answered, and it returns the trimmed output. An unparsable body or a model exception gives 500 with an empty translation, `fallback` and "Translation failed". The model is prompted exactly for a valid request with a key, always from Korean into `langName` (`undefined` when absent), with the request's text. |
| TranslateRoute.TargetLangIgnored | app/api/translate/route.ts:7-38 | Past the 400 test the value of `targetLang` is never read: any two non-empty values give the same response. |
| Strings.Trim | app/api/translate/route.ts:41 | The trimmed text occurs in the original after its leading white space, and what is cut off on either side is white space. It is empty iff the original is blank; otherwise it neither starts nor ends with white space. |
| Glossary.AllTerms | components/GlossaryPage.tsx:44 | The listed terms are the built-in table followed by the user's terms. |
| Glossary.TermFromForm | components/GlossaryPage.tsx:52-63 | The added row copies jargon and standard term verbatim. Each translation is kept when typed and becomes `-` when empty, so an accepted row has every column filled. |
| Glossary.AddTerm | components/GlossaryPage.tsx:49-68 | Without jargon or standard term nothing changes. Otherwise exactly one row is appended, earlier rows keep their places, and the form is reset and closed. |
| Glossary.DeleteTerm | components/GlossaryPage.tsx:70-75 | No remaining user row has the deleted key. Every row with another key keeps all its copies, in their order. An absent key leaves the list unchanged. |
| Glossary.DeleteKeepsOthers | components/GlossaryPage.tsx:71 | A row survives deletion iff it was in the user's list with a different key. |
| Glossary.AddMakesCustom | components/GlossaryPage.tsx:77 | After an accepted add, the jargon is a custom term. |
| Glossary.DeleteRemovesCustom | components/GlossaryPage.tsx:77 | After a delete, the key is no longer a custom term. |
| Glossary.AddKeepsDuplicates | components/GlossaryPage.tsx:49-68 | There is no duplicate check: adding an existing key yields two user rows with it. |
| Glossary.AddThenDelete | components/GlossaryPage.tsx:65-71 | Deleting a freshly added, previously unused key restores the user's list. |
| Glossary.DeleteKeepsBuiltIns | components/GlossaryPage.tsx:44-75 | Deletion never touches the built-in rows, which still lead the list. |
| Glossary.FilterTerms | components/GlossaryPage.tsx:45-47 | Every shown row matches (the jargon contains the query, or the lower-cased standard term contains the lower-cased query). A matching row is shown as often as it is listed, a non-matching one never, and the rows keep their order. An empty query shows everything. |
| Glossary.FilterTermsMembership | components/GlossaryPage.tsx:45-47 | A row is shown iff it is listed and matches the query. |
| Glossary.NestedKeysGakku | lib/constants.ts:16-17 | Searching 가꾸 lists both the 가꾸 and the 가꾸목 rows. |
| Glossary.NestedKeysMakki | lib/constants.ts:44-45 | Searching 마끼 also lists 마끼자. |
| Glossary.NestedKeysDashi | lib/constants.ts:40 | Searching 다시 (line 87) also lists 도끼다시. |
| SavedMessages.DefaultMessages | components/ControlCenterPage.tsx:36-73 | There are four presets, each with usage count 0 and no translations. |
| SavedMessages.DefaultsDistinct | components/ControlCenterPage.tsx:36-73 | The presets have pairwise distinct ids and standard texts. |
| SavedMessages.MessageId | components/ControlCenterPage.tsx:385 | A new id is `msg-` followed by digits that read back as the clock reading. |
| SavedMessages.SaveMessage | components/ControlCenterPage.tsx:370-397 | A standard text already stored means refused, with the list unchanged. Otherwise the save is accepted and the new message is placed first, ahead of the unchanged old list. It has usage 0, the given translations or none, the given category or `general`. |
| SavedMessages.SaveKeepsTextsDistinct | components/ControlCenterPage.tsx:380-394 | If the stored standard texts are pairwise distinct before a save, they stay so after it. |
| SavedMessages.SecondSaveRefused | components/ControlCenterPage.tsx:380-382 | Saving the same text a second time is refused. |
| SavedMessages.DeleteMessage | components/ControlCenterPage.tsx:118-121 | No message with the id remains. Every message with another id keeps all its copies, in their order. An absent id changes nothing. |
| SavedMessages.DeleteKeepsOthers | components/ControlCenterPage.tsx:119 | A message survives iff it was stored with a different id. |
| SavedMessages.Broadcast | components/ControlCenterPage.tsx:124-132 | The original text is emitted when a listener exists. The list keeps its length and order. Exactly the messages with the broadcast id gain one use, with every other field unchanged. |
| SavedMessages.BroadcastUsage | components/ControlCenterPage.tsx:129-131 | The total usage grows by the number of stored messages carrying the id. |
| SavedMessages.BroadcastCountsOnce | components/ControlCenterPage.tsx:129-131 | With unique ids, a broadcast adds at most one use in total. |
| SavedMessages.FilterMessages | components/ControlCenterPage.tsx:138-143 | Every listed message is in the tab's category (or the tab is "all"), and its lower-cased standard or original text contains the lower-cased query. A message passing both tests is listed as often as it is stored, any other never, in the stored order. "All" with an empty query lists everything. |
| SavedMessages.FilterMessagesMembership | components/ControlCenterPage.tsx:138-143 | A message is listed iff it is stored and passes both the tab and the search. |
| SavedMessages.CountCategory | components/ControlCenterPage.tsx:353-356 | A category counter never exceeds the total, and it is zero exactly when no stored message is in the category. |
| SavedMessages.CountCategoryAppend | components/ControlCenterPage.tsx:353-356 | Storing one more message raises the counter of its own category by one and leaves every other category's counter unchanged, so with the empty list at zero the counter is the number of messages in the category. |
| SavedMessages.CountersWithinTotal | components/ControlCenterPage.tsx:350-356 | The safety and emergency counters together never exceed the total. |
| HomePage.FindLanguage | app/page.tsx:24 | The lookup returns the first entry with the code, or nothing iff no entry has it. |
| HomePage.FirstTwo | app/page.tsx:24 | `substring(0, 2)` is the prefix of length min(2, length). |
| HomePage.LangLabel | app/page.tsx:24 | An unlisted code is labelled `VI`. A listed one gets the first two characters of its name, or `VI` when the name is empty. The label is never empty. |
| HomePage.LabelsHaveTwoLetters | app/page.tsx:24 | With the built-in table, every label has length 2. |
| HomePage.InitialLabel | app/page.tsx:18-24 | The initial language `vi-VN` is labelled `Vi`, which differs in case from the fallback `VI`. |
| HomePage.UnlistedCode | app/page.tsx:24 | A code whose first letter no listed code shares gets `VI`. |
| HomePage.Render | app/page.tsx:20-70 | Before activation, only the start screen shows. The PC layout shows all three panes without navigation. The mobile layout shows exactly the pane named by the active tab, plus the navigation bar. |
| HomePage.MobileShowsOnePane | app/page.tsx:54-64 | On mobile, a tab naming a pane shows exactly that pane. |
| HomePage.NavigationOnlyOnMobile | app/page.tsx:68-70 | The navigation bar appears iff the screen is activated in the mobile layout. |
| TtsRoute.ElevenVoice | app/api/tts/route.ts:5-8 | The male voice id is chosen iff the gender is `male`; otherwise the female id. |
| TtsRoute.GeminiVoice | app/api/tts/route.ts:89-100 | The voice is the table row for the code (the default row when unlisted), then `m` for `male` and `f` otherwise. It is always a prebuilt voice name. |
| TtsRoute.GeminiVoiceExamples | app/api/tts/route.ts:89-100 | Korean female is Kore and Korean male is Puck. An unlisted code gives Fenrir for a man and Zephyr for a woman. |
| TtsRoute.Post | app/api/tts/route.ts:10-41 | A malformed body gives 200 with the browser fallback and no calls. Missing text or language gives 400 with no calls. ElevenLabs is called iff the request is valid and its key is set, and it is called first. Gemini is called iff the request is valid, its key is set and ElevenLabs gave no audio. Voices follow the gender, defaulting to `female`. ElevenLabs audio is `audio/mp3`; Gemini audio is `audio/L16` at 24000 Hz and only when inline data is present. Otherwise the browser speaks. |
| TtsRoute.NoKeysMeansBrowserSpeech | app/api/tts/route.ts:18-35 | With no keys, a valid request makes no call and gets the browser fallback. |
| TtsRoute.GeminiAfterElevenLabsFails | app/api/tts/route.ts:22-32 | A failed ElevenLabs call is followed by Gemini, whose audio is returned. |
| WorkerMessageRoute.TranslateToKorean | app/api/worker/message/route.ts:12-40 | The result is the trimmed model output when non-blank, else the original. An exception also gives the original, so the result is non-empty for a non-empty message. |
| WorkerMessageRoute.Post | app/api/worker/message/route.ts:43-80 | A missing name or message gives 400, with nothing stored and no model call. An unreadable body or a failing insert gives 500 with nothing stored. The translator receives the worker's language or `Unknown`. A success appends exactly one record: country and language default to `Unknown`, urgency to false, original text is the message, the translation is non-empty. |
| WorkerMessageRoute.PostRaisesUnread | app/api/worker/message/route.ts:56-97 | After a successful post, the unread count is one higher, and the stored message is among the candidates of an unread-only listing. |
| WorkerMessageRoute.Candidates | app/api/worker/message/route.ts:86-89 | When `unread` is exactly `true`, the candidates are the unread rows, each as often as it is stored, and no read row. Otherwise they are the whole table. |
| WorkerMessageRoute.Page | app/api/worker/message/route.ts:91 | The page is the first min(50, n) rows of the sorted candidates. |
| WorkerMessageRoute.SortNewestFirst | app/api/worker/message/route.ts:90 | The result is a permutation of the input with creation times non-increasing. |
| WorkerMessageRoute.UnreadCount | app/api/worker/message/route.ts:95-97 | The unread count never exceeds the table size, and it is zero iff every row is read. |
| WorkerMessageRoute.UnreadCountAppend | app/api/worker/message/route.ts:95-97 | Appending a row raises the unread count by one if it is unread, and leaves it unchanged otherwise. |
| WorkerMessageRoute.Get | app/api/worker/message/route.ts:83-111 | At most 50 messages, newest first, drawn from the table. Only unread ones when `unread` is exactly `true`. The unread count covers the whole table, whatever the filter and the limit. |
| WorkerMessageRoute.PageIsNewest | app/api/worker/message/route.ts:88-92 | The page is the first min(50, candidates) messages in the sorted order, and no left-out candidate is newer than a listed one. |

## Left out

- I/O is parameters, not modelled:
  - `fetch` to the translation and speech services, and Prisma queries;
  - `localStorage` reads and writes, including the glossary's save effect and JSON parse errors when loading;
  - base64 decoding (`atob`), and the SpeechRecognition and speechSynthesis APIs.
- Floating point and playback: Int16-to-float scaling, AudioContext playback, speech rate and pitch, and the ElevenLabs voice settings.
- Timers and clocks: the 100 ms interval is a `Tick` event; `Date.now()` is a `now` parameter; the `setTimeout` reset of the playing indicator is not modelled.
- Async interleaving: `handleFinalInput` is one atomic step. State updates from concurrent turns are not interleaved.
- Strings.Lower: lower-cases ASCII only, not the full Unicode mapping of `toLowerCase`. It is the identity on Hangul, which makes up most of the searched text.
- BrowserVoice.FallbackUtterance: the `langMap` lookup does not model inherited object keys such as `constructor`.
- TtsRoute.GeminiVoice: the voice-table lookup does not model inherited object keys.
- JSON values of unexpected types (a number where a string is expected, say): every body field is modelled as a string, or as absent.
- WorkerMessageRoute.SortNewestFirst: the database's order between messages with equal creation time is unspecified. The model keeps insertion order and claims nothing about ties.
- WorkerMessageRoute.Post: assumes a new record is unread. The schema that sets the default of `isRead` is not part of this model.
- WorkerMessageRoute.Get: a database failure during the listing (500 "Failed to fetch messages") is not modelled.
- The `config.matcher` pattern in middleware.ts is framework configuration and is not modelled.
- The re-broadcast trigger of the chat screen (it resends the last manager text) is not modelled; it calls `handleFinalInput`, which is.
- Not modelled, because they are display components or configuration:
  - `components/Header.tsx`, `components/Navigation.tsx`, `components/LanguageChips.tsx`, `components/DashboardPanel.tsx`;
  - `prisma.config.ts`, `app/(manager)/dashboard/page.tsx`, `app/(worker)/chat/page.tsx`.
- The comment above the site table calls it sorted in Korean alphabetical order, but it is not (블랑써밋 precedes 부산대방2차). Nothing about its order is claimed.
- The slang standardiser and dictionary translator are not modelled, because the code contains neither.
- ChatSession.IntendedBodyTranslates: the corrected body fixes the manager's turn only. A worker's turn still has the route prompt the model from Korean into the worker's language (app/api/translate/route.ts:26-38), while the screen speaks the reply as Korean. No corrected prompt is modelled, because the intended wording of a worker-to-Korean prompt is not evident from the code.

## Findings

| source | as written | input that shows it | evidently intended | confidence | as-written member | corrected member |
|---|---|---|---|---|---|---|
| components/ChatPage.tsx:308-313 | The chat screen posts `{text, langName, isManager, sourceLang}` to the translation route, which refuses any body without `targetLang` (app/api/translate/route.ts:7-11). Every turn gets 400, no reply bubble is added and the status goes DELAYED. | Any non-blank text from either role | Send `targetLang`: the selected worker language for a manager, `ko-KR` for a worker. This fixes the manager's turn; the route's prompt still translates from Korean for either role | not executed | ChatSession.ScreenBodyRejected | ChatSession.IntendedBodyTranslates |
| app/page.tsx:46-56 | The home page renders the chat screen without its `onLastManagerText` prop, which the screen calls on every manager turn (components/ChatPage.tsx:289). The call throws, so the manager's bubble, the status change and the translation request never happen. | Any non-blank manager text | Pass the callback, so the handler runs to the end | not executed | ChatSession.MountedManagerTurnLost | ChatSession.HandleFinalInput |
