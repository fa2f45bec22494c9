# MandarinBuilder: a Dafny model of its decision and state logic

MandarinBuilder is a Next.js site for learning Mandarin. This project models the parts of it that make decisions or keep state, and proves properties of them:

- **The `/api/tts` route.** It validates the request, normalises the voice against a six-name allow-list and calls a primary text-to-speech provider. It classifies the provider's status: 429 falls back once to a secondary provider; 401/402 becomes 403; any other failure becomes 503. On success it answers with a `data:audio/mpeg;base64,` URL.
- **The "Chinese part" of a reply.** This is the trimmed text before the first `(`, captured by `/^([^(]+)/`. Four components extract it. `Text.ChineseText` defines it once, and each component's own function is stated against that definition.
- **The two chat panels.** They keep a display list next to the chat hook's list. They share a user-message sync rule and an assistant append rule, have an auto-play switch, and handle the TTS endpoint's answer in their playback paths.
- **The voice overlays.** These are the recogniser toggles, the fixed replies, and the subtitle split with its pinyin and definition tables.
- **Small components.** The flashcard deck's cyclic navigation, the slideshow's interval, the background picker's "selection is always unlocked" guard, and the vocabulary page's case-insensitive topic filter.
- **Validators.** The signup and login forms, and the API-key field's blank-key guards.
- **The HSK word list.** `getHsk` normalises the list and the hover card looks entries up in it.
- **`public/script.js`.** The legacy script's globals: chat sending with auto-pause, Anki import merge, example editing, the campaign track and the milestone checks.

Layout: one module per source file, plus four shared modules.

- `Text`: JavaScript `trim`, ASCII `toLowerCase`, `includes` and the `(`-prefix capture.
- `ChatDisplay`: the display-list rules shared by the two chat panels.
- `TtsClient`: what a component receives from `/api/tts`.
- `Cyclic`: the modular successor and predecessor.

Pure code is written as functions and lemmas. A component whose handlers update state becomes a `class`, with a method per handler. Each method's `ensures` gives the whole new state in terms of the old state. Some handlers `await` something and change state on both sides of it; these are split into a method before the `await` and a method after it.

The outside world enters as parameters:

- provider replies and `fetch` outcomes;
- whether `recognition.start()` throws;
- which reply `Math.random` picked;
- the parsed JSON;
- base64, as a function-typed parameter.

Timers are separate methods, one per callback.

Where the hover card joins definitions, the separator is taken as the characters the source file actually holds. These are U+00EF U+00BC U+203A and a space: a full-width semicolon whose bytes were read back in a Western code page.

## Model

| member | source | states |
|---|---|---|
| Text.LeadingSpaces | app/api/tts/route.ts:37 | counts the whitespace at the front of a string: every counted character is whitespace and the next one is not |
| Text.TrailingSpaces | app/api/tts/route.ts:37 | counts the whitespace at the end of a string: every counted character is whitespace and the one before them is not |
| Text.Trim | app/api/tts/route.ts:37 | `trim()` removes a whitespace prefix and a whitespace suffix and keeps the contiguous part between them; it yields "" exactly when the string is all whitespace, otherwise the result starts and ends with non-whitespace |
| Text.TrimIdempotent | app/api/tts/route.ts:37 | trimming twice gives the same string as trimming once |
| Text.TrimKeepsSpaceFree | app/api/tts/route.ts:37 | a non-empty string with no whitespace at either end is its own trim |
| Text.LowerChar | app/api/tts/route.ts:48 | ASCII capitals map to their lower-case letter; every other character is unchanged |
| Text.ToLower | app/api/tts/route.ts:48 | `toLowerCase()` keeps the length and lower-cases each character in place |
| Text.ToLowerIdempotent | app/acquire/vocabulary/page.tsx:105 | lower-casing twice gives the same string as lower-casing once |
| Text.ToLowerFixesLower | app/api/tts/route.ts:48-49 | a string without ASCII capitals is its own lower-case form |
| Text.IncludesEmpty | app/acquire/vocabulary/page.tsx:105 | every string includes "" |
| Text.ParenIndex | components/chat-interface.tsx:78 | the position of the first `(`, or the length when there is none; no `(` before it |
| Text.ParenPrefixMatch | components/chat-interface.tsx:78 | `/^([^(]+)/` fails exactly on empty content or content starting with `(`; otherwise the capture is a non-empty prefix without `(`, followed by `(` or by the end |
| Text.ChineseText | components/chat-interface.tsx:77-80 | the extracted text never contains `(`, is "" for empty or `(`-leading content, and is the trimmed text before the first `(` |
| Text.ChineseTextIgnoresAfterParen | components/chat-interface.tsx:77-80 | whatever follows the first `(` has no effect: `head + "(" + tail` gives `trim(head)` |
| ChatDisplay.UserMessages | components/chat-interface.tsx:67 | the filter keeps only user messages, each taken from the list, and never lengthens it |
| ChatDisplay.UserMessagesSnoc | components/chat-interface.tsx:67-68 | filtering `ms + [m]` gives the filter of `ms`, plus `m` when it is a user message |
| ChatDisplay.LastUserIndex | components/chat-interface.tsx:69 | the position of the latest user message (-1 when there is none): that entry is a user message and none comes after it |
| ChatDisplay.LastUserMessageIsLast | components/chat-interface.tsx:67-69 | `userMsgs[userMsgs.length - 1]` exists exactly when some user message exists, and it is the latest one |
| ChatDisplay.SyncUserMessages | components/chat-interface.tsx:66-75 | when the chat has more user messages than the display list, one user entry copying the latest user message's id and content is appended; otherwise the list is unchanged |
| ChatDisplay.SyncAddsOneUserEntry | components/chinese-chatbot.tsx:194-210 | the sync keeps the old list as a prefix, adds exactly one entry and one user message when it fires, and keeps the list to user and assistant entries |
| ChatDisplay.SyncSettlesAfterOneMessage | components/chat-interface.tsx:66-75 | with one new user message the effect fires once and then, re-run on its own result, changes nothing |
| ChatDisplay.SyncRepeatsLatestWhenBehind | components/chinese-chatbot.tsx:194-210 | when the display is two user messages behind, the re-runs append the latest user message twice and then settle; the earlier message is never shown |
| ChatDisplay.AppendAssistant | components/chat-interface.tsx:82-90 | an assistant message is appended as an assistant entry at the end; any other message leaves the list unchanged; the list stays displayable |
| ChatDisplay.AppendAssistantKeepsUserCount | components/chinese-chatbot.tsx:68-78 | appending a reply never changes the user entries, so it cannot trigger the sync on its own |
| TtsRoute.RequestText | app/api/tts/route.ts:36-37 | a string `text` is trimmed; anything else becomes "" |
| TtsRoute.NormalizeVoice | app/api/tts/route.ts:45-50 | the voice is always one of the six allowed names: the lower-cased string when that is allowed, otherwise "alloy" |
| TtsRoute.NormalizeVoiceIdempotent | app/api/tts/route.ts:45-50 | normalising a normalised voice changes nothing |
| TtsRoute.ValidVoicesAreLowerCase | app/api/tts/route.ts:7 | each allowed name is its own lower-case form |
| TtsRoute.NormalizeAllowedVoice | app/api/tts/route.ts:46-50 | an allowed name passes through unchanged |
| TtsRoute.NormalizeVoiceIgnoresCase | app/api/tts/route.ts:48-49 | a voice and its lower-cased form normalise alike |
| TtsRoute.AudioDataUrl | app/api/tts/route.ts:105 | the audio URL is the `data:audio/mpeg;base64,` prefix (RFC 2397, section 3) followed exactly by the base64 text |
| TtsRoute.GoogleTts | app/api/tts/route.ts:10-32 | the fallback is called with the text; on audio it answers 200 with the text, the data URL and `fallback: true`; on any failure, 503 with the fallback-failed message |
| TtsRoute.Post | app/api/tts/route.ts:34-107 | see the breakdown below the table |
| TtsRoute.NoFallbackUrl | app/api/tts/route.ts:24-31 | no answer of the route carries a `fallbackUrl` field: only `text`, `audioData`, `fallback` or `error` |
| TtsRoute.AtMostOneFallbackHop | app/api/tts/route.ts:72-82 | at most two provider calls, and the secondary only after the primary |
| TtsRoute.HealthyPrimaryScenario | app/api/tts/route.ts:100-106 | `{text: "你好", voice: "nova"}` with a 200 primary gives 200 audio without `fallback`, after one `tts-1`/`nova` request and no secondary call |
| TtsRoute.QuotaFallbackScenario | app/api/tts/route.ts:72-82 | `{text: "你好"}` with a 429 primary and a healthy secondary gives 200 audio with `fallback: true`, after two provider calls, the first with "alloy" |
| TtsClient.FromRoute | components/chat-interface.tsx:105-110 | a component receives the route's status and the route's body as `BodyOf` reads it |
| TtsClient.BodyOf | components/chinese-chatbot.tsx:112 | the JSON a component reads from a route payload has exactly the payload's field names with the same values, and a payload without a body is not JSON |
| TtsClient.ShownError | components/chat-interface.tsx:118 | `err.message \|\| err` for an `Error` is never empty and is the message when there is one |
| TtsClient.DecimalString | components/chat-interface.tsx:111 | `${status}` is a non-empty string of decimal digits without a leading zero |
| TtsClient.DecimalStringValue | components/chat-interface.tsx:111 | the digits written denote exactly the status |
| Cyclic.Next | components/flashcard.tsx:27 | `(i + 1) % n` stays below `n`, is `i + 1` before the last slot and wraps the last slot to 0 |
| Cyclic.Prev | components/flashcard.tsx:32 | `(i - 1 + n) % n` stays below `n`, is `i - 1` for a positive slot and wraps 0 to `n - 1` |
| Cyclic.NextPrevInverse | components/flashcard.tsx:25-33 | next then previous, and previous then next, return to the same slot |
| Cyclic.Advance | components/flashcard.tsx:27 | `k` successive steps forward stay within the `n` slots |
| Cyclic.AdvanceIsShift | components/flashcard.tsx:27 | `k` steps forward from `i` land on `(i + k) % n` |
| Cyclic.NextOfRemainder | components/image-slideshow.tsx:52 | one step from `x % n` lands on `(x + 1) % n` |
| Cyclic.ModOfShift | components/image-slideshow.tsx:52 | `(q * n + r) % n == r` for `r < n` |
| Cyclic.BlocksAreOrdered | components/image-slideshow.tsx:52 | a later block of `n` numbers starts after an earlier one ends |
| Cyclic.FullCycle | components/flashcard.tsx:27 | `n` steps forward return every slot to itself |
| ChatInterfaceComponent.MediaErrorMessage | components/chat-interface.tsx:150-168 | `MediaError` codes 1–4 (WHATWG HTML, section 4.8.11.1) each get their own message; any other code, or none, gets "Failed to load audio" |
| ChatInterfaceComponent.MediaErrorMessagesDistinct | components/chat-interface.tsx:153-167 | two codes with the same message are equal whenever either is a known code |
| ChatInterfaceComponent.PlaybackError | components/chat-interface.tsx:139-184 | only a started `play()` leaves no toast; a rejected `play()`, a media error and the 8000 ms timer each leave their own non-empty message |
| ChatInterfaceComponent.PlayAudioError | components/chat-interface.tsx:101-121 | see the breakdown below the table |
| ChatInterfaceComponent.RouteRepliesReachPlayer | components/chat-interface.tsx:110-114 | against the route, every error answer is shown with the route's own message, and every audio answer reaches the player |
| ChatInterfaceComponent.ChatInterface.constructor | components/chat-interface.tsx:30-43 | starts with the welcome entry, nothing playing, auto-play off, "alloy" and no error |
| ChatInterfaceComponent.ChatInterface.SyncUserMessages | components/chat-interface.tsx:66-75 | the display list becomes the sync of the chat into it; nothing else changes |
| ChatInterfaceComponent.ChatInterface.ProcessNewMessage | components/chat-interface.tsx:82-95 | the list gets the assistant append; the Chinese part is handed to playback exactly when the message is an assistant one, auto-play is on and that part is non-empty |
| ChatInterfaceComponent.ChatInterface.ChangeVoice | components/chat-interface.tsx:261 | the voice changes only to an allowed name; any other value leaves it as it was, so the voice is always allowed |
| ChatInterfaceComponent.ChatInterface.ToggleAutoPlay | components/chat-interface.tsx:196 | flips auto-play and nothing else |
| ChatInterfaceComponent.ChatInterface.StartPlayAudio | components/chat-interface.tsx:97-108 | raises the processing flag, clears the error and requests the text with the selected voice, which is always an allowed one |
| ChatInterfaceComponent.ChatInterface.FinishPlayAudio | components/chat-interface.tsx:110-121 | the error becomes `PlayAudioError` of the answer and the processing flag is lowered on every path |
| ChatInterfaceComponent.ChatInterface.PlayButton | components/chat-interface.tsx:218-226 | a button exists exactly for assistant entries with Chinese text, and it is disabled exactly while audio is processed |
| ChineseChatbotComponent.PlayAudioOutcome | components/chinese-chatbot.tsx:96-179 | a rejected fetch, a non-ok status or a non-JSON body gives only the toast; otherwise no toast, synthesis speaks exactly when available, loaded and finished, and the file fallback runs exactly when it did not speak and the body has a non-empty `fallbackUrl` |
| ChineseChatbotComponent.FallbackPlaysWhenOffered | components/chinese-chatbot.tsx:153-172 | an ok answer whose body has a non-empty `fallbackUrl` plays the file, without a toast, whenever synthesis does not finish |
| ChineseChatbotComponent.FallbackNeverPlays | components/chinese-chatbot.tsx:153 | against the route, the file fallback never plays, because no route body carries `fallbackUrl` |
| ChineseChatbotComponent.RequestUsesDefaultVoice | components/chinese-chatbot.tsx:100-106 | the request carries no voice, so the route always speaks with "alloy" |
| ChineseChatbotComponent.ChineseChatbot.constructor | components/chinese-chatbot.tsx:19-30 | starts with the welcome entry and the three flags off |
| ChineseChatbotComponent.ChineseChatbot.LoadVoices | components/chinese-chatbot.tsx:52-57 | voices are marked loaded once some voice is reported, and never unmarked |
| ChineseChatbotComponent.ChineseChatbot.SyncUserMessages | components/chinese-chatbot.tsx:194-210 | the display list becomes the sync of the chat into it; nothing else changes |
| ChineseChatbotComponent.ChineseChatbot.ProcessNewMessage | components/chinese-chatbot.tsx:68-87 | the list gets the assistant append; audio is requested exactly when the message is an assistant one, auto-play is on and its Chinese part is non-empty |
| ChineseChatbotComponent.ChineseChatbot.ToggleAutoPlay | components/chinese-chatbot.tsx:236 | flips auto-play and nothing else |
| ChineseChatbotComponent.ChineseChatbot.StartPlayAudio | components/chinese-chatbot.tsx:96-106 | raises the processing flag, sends a body holding only the text, and captures the `voicesLoaded` of the moment the handler runs |
| ChineseChatbotComponent.ChineseChatbot.FinishPlayAudio | components/chinese-chatbot.tsx:108-179 | the outcome is `PlayAudioOutcome` of the answer with the captured `voicesLoaded`, so voices that arrive during the request are not used; the processing flag is lowered on every path |
| ChatMessageComponent.GetChineseText | components/chat-message.tsx:20-24 | "" for any non-assistant entry whatever its content; the extracted Chinese part for an assistant entry |
| ChatMessageComponent.GetChineseTextIsPrefix | components/chat-message.tsx:20-24 | for `head + "(" + tail`, an assistant entry gives `trim(head)` and a user entry "" |
| ChatMessageComponent.ChatMessageView.constructor | components/chat-message.tsx:17 | starts not playing |
| ChatMessageComponent.ChatMessageView.StartPlayAudio | components/chat-message.tsx:26-30 | with no Chinese text nothing happens; otherwise the flag goes up and `onPlayAudio` receives that text |
| ChatMessageComponent.ChatMessageView.FinishPlayAudio | components/chat-message.tsx:31-35 | the flag is lowered whether or not `onPlayAudio` threw, and a throw propagates |
| ChatMessageComponent.ChatMessageView.PlayButton | components/chat-message.tsx:59-65 | a button exists exactly for assistant entries with Chinese text, disabled exactly while either flag is up |
| VoiceTutorComponent.SpokenText | components/voice-tutor-interface.tsx:102-106 | no request when the match fails (empty or `(`-leading reply); otherwise the request text is the extracted Chinese part |
| VoiceTutorComponent.SpokenTextOfReply | components/voice-tutor-interface.tsx:102-106 | a reply whose head has no `(` and no whitespace at its ends speaks exactly that head |
| VoiceTutorComponent.SpokenTextOfResponses | components/voice-tutor-interface.tsx:91-106 | each of the four replies speaks exactly its Chinese sentence, which is non-empty |
| VoiceTutorComponent.PlayAudioOutcome | components/voice-tutor-interface.tsx:140-177 | a rejected fetch, a non-JSON body, a non-ok status, a non-empty `error` field or an empty or missing `audioData` each fail with their message; only an ok answer with audio and no error is played; nothing is rethrown |
| VoiceTutorComponent.RouteRepliesToTutor | components/voice-tutor-interface.tsx:150-162 | against the route, audio is always played with the route's fallback mark, and errors carry the route's status and message |
| VoiceTutorComponent.DefaultVoiceReachesRoute | components/voice-tutor-interface.tsx:13 | with the default voice the route speaks with "nova" |
| VoiceTutorComponent.VoiceTutor.constructor | components/voice-tutor-interface.tsx:13-17 | the voice defaults to "nova"; nothing is listening, said, processed or answered |
| VoiceTutorComponent.VoiceTutor.ToggleListening | components/voice-tutor-interface.tsx:114-137 | without a recogniser nothing changes; while listening it stops; when idle it clears speech and reply and listens unless `start()` throws |
| VoiceTutorComponent.VoiceTutor.RecognitionResult | components/voice-tutor-interface.tsx:37-48 | shows the transcript and hands a final one over; nothing else changes |
| VoiceTutorComponent.VoiceTutor.RecognitionStopped | components/voice-tutor-interface.tsx:50-57 | listening stops; nothing else changes |
| VoiceTutorComponent.VoiceTutor.StartUserInput | components/voice-tutor-interface.tsx:83-85 | the processing flag goes up |
| VoiceTutorComponent.VoiceTutor.ChooseResponse | components/voice-tutor-interface.tsx:91-106 | the reply shown is one of the four, and its non-empty Chinese sentence is requested with the selected voice |
| VoiceTutorComponent.VoiceTutor.FinishUserInput | components/voice-tutor-interface.tsx:107-111 | the outcome is `PlayAudioOutcome` of the answer and the processing flag is lowered on every path |
| VoiceInterfaceComponent.Subtitles | components/voice-interface.tsx:158 | one single-character bubble per non-whitespace character of the message, never more bubbles than characters |
| VoiceInterfaceComponent.SubtitlesAppend | components/voice-interface.tsx:158 | splitting distributes over concatenation, so bubbles keep the message's order |
| VoiceInterfaceComponent.SubtitlesOfSpaces | components/voice-interface.tsx:158 | whitespace never yields a bubble |
| VoiceInterfaceComponent.SubtitlesOfSpaceFree | components/voice-interface.tsx:158 | a message without whitespace yields exactly its characters, in order |
| VoiceInterfaceComponent.PinyinFor | components/voice-interface.tsx:196-246 | the table's pinyin for a listed character, the word itself otherwise |
| VoiceInterfaceComponent.DefinitionFor | components/voice-interface.tsx:248-298 | the table's definition for a listed character, "" otherwise |
| VoiceInterfaceComponent.LookupsAgree | components/voice-interface.tsx:196-298 | the two tables have the same keys and no empty value: a word gets both a pinyin and a definition, or the word itself and "" |
| VoiceInterfaceComponent.PinyinKeysHaveDefinitions | components/voice-interface.tsx:196-298 | every pinyin key has a definition |
| VoiceInterfaceComponent.DefinitionKeysHavePinyin | components/voice-interface.tsx:196-298 | every definition key has a pinyin |
| VoiceInterfaceComponent.PinyinValuesNonEmpty | components/voice-interface.tsx:196-246 | no listed pinyin is empty, so `\|\| word` never overrides one |
| VoiceInterfaceComponent.DefinitionValuesNonEmpty | components/voice-interface.tsx:248-298 | no listed definition is empty |
| VoiceInterfaceComponent.KnownIsWide | components/voice-interface.tsx:196-246 | every listed character lies at or above U+4E00 and is not U+FEFF |
| VoiceInterfaceComponent.KnownIsNotSpace | components/voice-interface.tsx:196-246 | no listed character is whitespace |
| VoiceInterfaceComponent.CoveredMessage | components/voice-interface.tsx:158 | a message of listed characters gives one listed bubble per character |
| VoiceInterfaceComponent.ReplyKnown0 | components/voice-interface.tsx:49 | every character of reply 0 is listed in the tables |
| VoiceInterfaceComponent.ReplyKnown1 | components/voice-interface.tsx:54 | every character of reply 1 is listed in the tables |
| VoiceInterfaceComponent.ReplyKnown2 | components/voice-interface.tsx:59 | every character of reply 2 is listed in the tables |
| VoiceInterfaceComponent.ReplyKnown3 | components/voice-interface.tsx:64 | every character of reply 3 is listed in the tables |
| VoiceInterfaceComponent.ReplyKnown4 | components/voice-interface.tsx:69 | every character of reply 4 is listed in the tables |
| VoiceInterfaceComponent.ReplyMessagesKnown | components/voice-interface.tsx:47-73 | every reply's message is non-empty and made of listed characters |
| VoiceInterfaceComponent.ReplyIsListed | components/voice-interface.tsx:47-73 | every reply's message is non-empty |
| VoiceInterfaceComponent.RepliesAreCovered | components/voice-interface.tsx:152-160 | every reply gives one bubble per character, each with its own pinyin and definition |
| VoiceInterfaceComponent.VoiceInterface.SubtitleWords | components/voice-interface.tsx:367-374 | while subtitles are shown the bubbles are the message split into characters, in order; none while they are hidden |
| VoiceInterfaceComponent.VoiceInterface.ShownWordsAreKnown | components/voice-interface.tsx:367-374 | in every reachable state, the bubbles on screen are the shown reply split into characters, each with its own pinyin and definition |
| VoiceInterfaceComponent.VoiceInterface.constructor | components/voice-interface.tsx:32-144 | starts blank and idle; the unsupported message remains only for an unsupported browser mounted open, because a closed mount's close effect clears it in the same commit |
| VoiceInterfaceComponent.VoiceInterface.HandleMicClick | components/voice-interface.tsx:164-193 | the error is cleared first; unsupported: the unsupported message and no change to listening; listening: stop; idle: speech cleared and listening, unless `start()` throws, which sets the start error and stops |
| VoiceInterfaceComponent.VoiceInterface.RecognitionResult | components/voice-interface.tsx:95-106 | shows the transcript and hands a final one over; nothing else changes |
| VoiceInterfaceComponent.VoiceInterface.RecognitionError | components/voice-interface.tsx:108-112 | shows "Recognition error: " and the code, and stops listening; nothing else changes |
| VoiceInterfaceComponent.VoiceInterface.RecognitionEnded | components/voice-interface.tsx:114-116 | listening stops; nothing else changes |
| VoiceInterfaceComponent.VoiceInterface.RespondAfterDelay | components/voice-interface.tsx:151-161 | message, pinyin and translation all come from the same one of the five replies, and subtitles are shown |
| VoiceInterfaceComponent.VoiceInterface.CloseReset | components/voice-interface.tsx:129-144 | closing resets message, pinyin, translation, subtitles, speech, error and listening, and stops a running recogniser |
| VoiceInterfaceComponent.VoiceInterface.ToggleFullScreen | components/voice-interface.tsx:314 | flips full screen and nothing else |
| FlashcardComponent.Flashcard.constructor | components/flashcard.tsx:19-22 | starts at the first card, unflipped and not expanded |
| FlashcardComponent.Flashcard.HandleNext | components/flashcard.tsx:25-28 | moves to the next card with wrap-around, staying in range, shows the front and keeps the size |
| FlashcardComponent.Flashcard.HandlePrev | components/flashcard.tsx:30-33 | moves to the previous card, wrapping 0 to the last, shows the front and keeps the size |
| FlashcardComponent.Flashcard.ToggleFlip | components/flashcard.tsx:35-37 | flips only the flip flag |
| FlashcardComponent.Flashcard.ToggleExpand | components/flashcard.tsx:39-41 | flips only the size flag |
| FlashcardComponent.Flashcard.CurrentCard | components/flashcard.tsx:43 | the card on display is a card of the deck |
| FlashcardComponent.Flashcard.Label | components/flashcard.tsx:54 | "Card k of n" has 1 ≤ k ≤ n, n the deck size, and card k is the one on display |
| ImageSlideshowComponent.Source | components/image-slideshow.tsx:69 | the image's own URL, or the placeholder when it is empty |
| ImageSlideshowComponent.NoPlaceholder | components/image-slideshow.tsx:15-48 | every one of the eight images has its own URL, so the placeholder is never used |
| ImageSlideshowComponent.Priority | components/image-slideshow.tsx:73 | only slide 0 is loaded with priority |
| ImageSlideshowComponent.Slideshow.constructor | components/image-slideshow.tsx:13 | starts at slide 0 |
| ImageSlideshowComponent.Slideshow.Tick | components/image-slideshow.tsx:50-53 | each tick advances one slide modulo eight, staying in range |
| ImageSlideshowComponent.Slideshow.Opacity | components/image-slideshow.tsx:60-66 | a slide is fully opaque exactly when it is the current one, and invisible otherwise |
| ImageSlideshowComponent.Slideshow.OpaqueSlides | components/image-slideshow.tsx:60-66 | the set of opaque slides is exactly the current slide |
| ImageSlideshowComponent.EightTicksCycle | components/image-slideshow.tsx:52 | eight ticks return to the starting slide |
| SignupPage.Validate | app/signup/page.tsx:28-41 | see the breakdown below the table |
| SignupPage.BlankConfirmationIsMismatch | app/signup/page.tsx:28-36 | a blank confirmation is not a missing field: with the other three filled it is a mismatch |
| SignupPage.MismatchBeforeLength | app/signup/page.tsx:33-41 | a mismatch is reported even when the password is also too short |
| SignupPage.SignupForm.constructor | app/signup/page.tsx:15-21 | starts empty, not submitting, not succeeded, with no error |
| SignupPage.SignupForm.Type | app/signup/page.tsx:15-18 | the inputs set the four fields and nothing else |
| SignupPage.SignupForm.Submit | app/signup/page.tsx:23-43 | clears the error and validates; a failure shows its message and leaves both flags; a pass starts submitting |
| SignupPage.SignupForm.Settle | app/signup/page.tsx:46-58 | the call resolves: success is shown and submitting ends, the fields and error unchanged |
| LoginPage.Validate | app/login/page.tsx:25-28 | fails, with "Email and password are required", exactly when either field is empty |
| LoginPage.AnyFilledFormPasses | app/login/page.tsx:24-30 | a one-character password passes: there is no length rule |
| LoginPage.LoginForm.constructor | app/login/page.tsx:15-18 | starts empty, not submitting, with no error |
| LoginPage.LoginForm.Type | app/login/page.tsx:15-16 | the inputs set the two fields and nothing else |
| LoginPage.LoginForm.Submit | app/login/page.tsx:20-30 | clears the error; submits exactly when both fields are filled, otherwise shows the message and leaves the flag |
| LoginPage.LoginForm.Settle | app/login/page.tsx:33-42 | redirects to "/" and ends submitting |
| Hsk.Or | lib/getHsk.ts:21 | `a \|\| b`: `a` when truthy, else `b` |
| Hsk.TransformEntry | lib/getHsk.ts:20-28 | `word` is `hanzi` if truthy else `word`; `definitions` is `translations`, else `definitions`, else []; the sentences default to ""; `pinyin` and `audioSrc` are copied; the level is the given one |
| Hsk.Transform | lib/getHsk.ts:19-29 | one entry per record, in the same order, each at the given level |
| Hsk.TransformAppend | lib/getHsk.ts:19-29 | transforming a concatenation is concatenating the transforms |
| Hsk.Spread | lib/getHsk.ts:32-39 | the files spread in order, with consecutive levels: as many entries as records, levels within range and never decreasing |
| Hsk.SpreadStep | lib/getHsk.ts:32-39 | the spread from the file at index k is that file transformed with level k + 1, followed by the spread of the files after it |
| Hsk.GetHsk | lib/getHsk.ts:32-47 | the dataset has as many entries as the six files have records, with levels 1 to 6 never decreasing along the array |
| Hsk.GetHskStartsWithLevelOne | lib/getHsk.ts:33 | the first file's records come first, as level 1 entries, in their order |
| Hsk.GetHskIsSixLevels | lib/getHsk.ts:32-39 | the dataset is the six files in order, the k-th file's records transformed with level k |
| HoverCardComponent.FindFirst | components/HoverCard.jsx:10 | the first entry whose `word` equals the prop; none when no entry matches |
| HoverCardComponent.Join | components/HoverCard.jsx:39 | `join` of no items is "" and of one item is that item |
| HoverCardComponent.JoinSnoc | components/HoverCard.jsx:39 | joining one more item appends the separator and the item |
| HoverCardComponent.DefinitionsText | components/HoverCard.jsx:39 | an array is joined with the separator; a string is shown as is |
| HoverCardComponent.Render | components/HoverCard.jsx:10-55 | nothing is rendered exactly when no entry matches; otherwise the first match's word and pinyin, a play control exactly when it has `audioSrc`, its definitions, the sentence block exactly when the sentence is truthy, the level badge exactly when the level is truthy |
| HoverCardComponent.HskCardsShowLevel | components/HoverCard.jsx:51-55 | on the HSK dataset every rendered card has its level badge, showing a level from 1 to 6 |
| VocabularyPage.FilterTopics | app/acquire/vocabulary/page.tsx:105 | a topic is kept exactly when its lower-cased name includes the lower-cased query; nothing is added |
| VocabularyPage.FilterAppend | app/acquire/vocabulary/page.tsx:105 | filtering distributes over concatenation, so the original order is kept |
| VocabularyPage.FilterKeepsAllMatches | app/acquire/vocabulary/page.tsx:105 | when every topic matches, the list comes back whole |
| VocabularyPage.EmptyQueryListsAll | app/acquire/vocabulary/page.tsx:84-105 | an empty query lists all twelve topics |
| VocabularyPage.QueryCaseIgnored | app/acquire/vocabulary/page.tsx:105 | the query's case does not change the result |
| VocabularyPage.NameCaseIgnored | app/acquire/vocabulary/page.tsx:105 | a topic name's case does not change whether it matches |
| VocabularyPage.Menu | app/acquire/vocabulary/page.tsx:165-178 | the filtered items exactly when some topic matches, otherwise the "No topics found" line with the query |
| VocabularyPage.Vocabulary.constructor | app/acquire/vocabulary/page.tsx:100-102 | starts loading, with an empty query and the first deck |
| VocabularyPage.Vocabulary.SetSearchQuery | app/acquire/vocabulary/page.tsx:101 | sets the query only |
| VocabularyPage.Vocabulary.SelectDeck | app/acquire/vocabulary/page.tsx:195-196 | the current deck becomes exactly the clicked deck |
| VocabularyPage.Vocabulary.LoadingDone | app/acquire/vocabulary/page.tsx:107-114 | the loading flag goes down; nothing else changes |
| VocabularyPage.Vocabulary.FilteredTopics | app/acquire/vocabulary/page.tsx:105 | the shown topics are exactly the sample topics matching the current query |
| ProgressPage.TileImage | app/journey/progress/page.tsx:108-116 | indices 0, 1 and 3 have their own images; every other index gets the placeholder |
| ProgressPage.UnlockedHavePictures | app/journey/progress/page.tsx:15-26 | a background is unlocked exactly when it has its own picture |
| ProgressPage.Progress.constructor | app/journey/progress/page.tsx:12-13 | starts loading with background 1 selected, which is unlocked |
| ProgressPage.Progress.Click | app/journey/progress/page.tsx:104 | a click on an unlocked tile selects it; a locked tile is ignored; the selection stays unlocked |
| ProgressPage.Progress.LoadingDone | app/journey/progress/page.tsx:28-35 | the loading flag goes down; the selection is unchanged |
| ProgressPage.Progress.TileAt | app/journey/progress/page.tsx:94-126 | a tile shows its image, is highlighted only when unlocked and selected, and carries the "Locked" overlay exactly when locked |
| ProgressPage.Progress.OneHighlightedTile | app/journey/progress/page.tsx:96-103 | in every reachable state exactly the selected tile is highlighted |
| LegacyScript.ExampleText | public/script.js:116 | the word's stored non-empty example, or "No example available." |
| LegacyScript.EditShowsOnHover | public/script.js:86-117 | after an edit, hovering the word shows the new example |
| LegacyScript.ImportIdempotent | public/script.js:138 | importing the same data twice gives the same dictionary as importing it once |
| LegacyScript.CompletedStepsArePrefix | public/script.js:155-163 | completed steps form a prefix of the track, as long as the progress clamped to 0..10 |
| LegacyScript.Globals.constructor | public/script.js:6-12 | the globals start at zero, empty and off |
| LegacyScript.Globals.SetAutoPause | public/script.js:39-41 | the checkbox sets auto-pause; nothing else changes |
| LegacyScript.Globals.Type | public/script.js:33 | typing sets the chat input; nothing else changes |
| LegacyScript.Globals.SendChatMessage | public/script.js:43-49 | blank input is ignored and nothing changes; otherwise the trimmed text is appended as a user line, the input cleared and the reply scheduled, and nothing else changes |
| LegacyScript.Globals.BotReplyArrives | public/script.js:49-61 | the fixed bot line and its subtitle appear; with auto-pause on, send is disabled; otherwise hiding is scheduled; nothing else changes |
| LegacyScript.Globals.HideSubtitle | public/script.js:59 | the subtitle is hidden; nothing else changes |
| LegacyScript.Globals.EditExample | public/script.js:86-92 | a non-empty answer replaces only the shown word's example; a word without a card throws and nothing changes; a cancelled or empty answer changes nothing; the other globals never change |
| LegacyScript.Globals.ShowHoverFlashcard | public/script.js:112-117 | shows the word and its example text; nothing else changes |
| LegacyScript.Globals.ImportAnki | public/script.js:130-146 | no file: an alert and no change; a parse failure: the error alert and no change; otherwise the parsed keys overwrite equal keys and all other cards stay; the other globals never change |
| LegacyScript.Globals.CampaignSteps | public/script.js:152-164 | exactly ten steps numbered 1 to 10, step `i` completed exactly when `i` is at most the progress |
| LegacyScript.Globals.CheckBackgroundUnlocks | public/script.js:199-203 | the unlock alert fires exactly when the points reach 50 |
| LegacyScript.Globals.CheckConversationMilestones | public/script.js:208-213 | the milestone alert fires exactly when the count is one of the eleven milestones |
| ApiKeyInputComponent.CopyButtonCoversNonBlank | components/api-key-input.tsx:99 | the copy button is shown for every key the handlers act on; a blank key is exactly an all-whitespace one |
| ApiKeyInputComponent.ApiKeyInput.constructor | components/api-key-input.tsx:18-29 | the button text and success message default as declared; the key starts empty, hidden, not saved and not copied |
| ApiKeyInputComponent.ApiKeyInput.Type | components/api-key-input.tsx:65 | the input sets the key only |
| ApiKeyInputComponent.ApiKeyInput.HandleSave | components/api-key-input.tsx:31-38 | a blank key does nothing; otherwise `onSave`, when given, receives the untrimmed key and the saved flag goes up |
| ApiKeyInputComponent.ApiKeyInput.SavedTimerFires | components/api-key-input.tsx:39-41 | the saved flag goes down |
| ApiKeyInputComponent.ApiKeyInput.HandleCopy | components/api-key-input.tsx:44-48 | a blank key does nothing; otherwise the untrimmed key goes to the clipboard and the copied flag goes up |
| ApiKeyInputComponent.ApiKeyInput.CopiedTimerFires | components/api-key-input.tsx:49-51 | the copied flag goes down |
| ApiKeyInputComponent.ApiKeyInput.ToggleShow | components/api-key-input.tsx:71 | flips only whether the key is shown |
| ApiKeyInputComponent.ApiKeyInput.InputType | components/api-key-input.tsx:63 | "text" exactly when shown, "password" otherwise |
| ApiKeyInputComponent.ApiKeyInput.SaveLabel | components/api-key-input.tsx:88-95 | the success message while saved, the button text otherwise |
| ApiKeyInputComponent.ApiKeyInput.CopyButtonShown | components/api-key-input.tsx:99 | the copy button exists exactly when the key is non-empty |

`TtsRoute.Post` states:

- A `null` body answers 500.
- Otherwise 400 comes exactly when the trimmed text is empty. No provider is called in that case.
- A missing or empty key answers 500 before any call.
- With a non-empty text and a key, the primary is always called, exactly once. It receives `tts-1`, the normalised voice and the trimmed text.
- The secondary is called once, with the same text, exactly on a 429.
- Audio echoes the trimmed text in a `data:audio/mpeg;base64,` URL. It carries `fallback: true` exactly when the secondary produced it.
- Classification of the primary's status:
  - 429 gives 200 with the secondary's audio and `fallback: true`, or 503 when the secondary fails;
  - 401/402 give 403;
  - any other non-ok status gives 503;
  - 2xx gives 200 with the primary's audio and no `fallback`;
  - an unreachable primary gives 500 without a body.
- The status is always one of 200, 400, 403, 500 or 503.
- 200 comes exactly for audio, and every error message is non-empty.

`ChatInterfaceComponent.PlayAudioError` states:

- A rejected fetch, a non-JSON body, a non-ok status (showing the route's error, or "API" and the status) and a missing `audioData` each give their "Could not play audio:" message.
- Only received audio reaches the player. The player then decides the message.

`SignupPage.Validate` states:

- The checks run in order: required fields, then match, then length.
- The first failing check's message wins.
- `confirmPassword` takes part only in the match check.
- Validation passes exactly when email and name are filled, the passwords match and the password has at least 8 characters.

## Left out

- Rendering and styling: JSX output, CSS classes, icons, the draggable frame and the scroll-to-bottom refs.
  - Only the values the markup shows are modelled: labels, the presence of buttons, tile highlighting and opacity.
- Timers are separate events, one method per callback: the 500, 800, 1000, 1500, 2000, 3000, 5000 and 8000 ms delays.
- `Math.random` is a `choice` parameter.
- The network, audio and speech APIs are outcomes passed in as parameters. This covers `fetch`, the Audio element, SpeechSynthesis, SpeechRecognition, the clipboard, `alert`, `prompt` and FileReader.
- `Buffer` base64 (RFC 4648, section 4) is an uninterpreted function parameter. `encodeURIComponent` is left out.
- The route's `runtime` and `maxDuration` exports, the `console` logging, and the Authorization header.
- A failure of the primary's `arrayBuffer()` is not modelled; the body is assumed readable.
- Text.ToLower: lower-cases ASCII letters only, because only ASCII names are compared against it. Case mapping beyond ASCII is not modelled.
- Text.Trim: strings are sequences of code points, not UTF-16 code units. Whitespace is the ECMAScript WhiteSpace and LineTerminator set, which lies in the Basic Multilingual Plane.
- SignupPage.Validate: measures the password's length in code points, not UTF-16 code units. This differs only for characters outside the Basic Multilingual Plane.
- VoiceInterfaceComponent.Subtitles: splits into code points where `split("")` splits into UTF-16 code units. This differs only outside the Basic Multilingual Plane, where the tables have no entries.
- VoiceInterfaceComponent.PinyinFor and VoiceInterfaceComponent.DefinitionFor: the lookup of a multi-character key that names an inherited `Object.prototype` property is not modelled; the overlay only looks up single characters.
- VoiceInterfaceComponent.VoiceInterface.SubtitleWords: the `subtitles` array is derived from the message rather than stored. It is only ever set to the message's split, in the same step that raises `showSubtitles`.
- VoiceInterfaceComponent.VoiceInterface.ToggleFullScreen: full screen is kept as a flag; its visual effect is not modelled.
- TtsClient.Body: a field is seen as absent, a string, or (for `fallback`) true; JSON fields of other types, such as a numeric `error`, are not modelled.
- ChatInterfaceComponent.PlayAudioError: a rejected `play()` whose error has an empty message is shown as "Error", whatever the error's name.
- ChatInterfaceComponent.PlayAudioError: the outcome is the first event that settles the playback promise, and a started `play()` settles it before the audio ends. The 8000 ms timer is cleared only by `onended`. So after a media error, after a rejected `play()`, and after a successful play whose audio lasts longer than 8 s, the timer still fires later and replaces the message with "Audio playback timed out.". That later toast is not modelled.
- ChatInterfaceComponent.ChatInterface.ProcessNewMessage: reads the current `autoPlayAudio` and `selectedVoice`. The source calls it from the chat hook's `onFinish`, whose closure may hold the values of the render that submitted the message.
- ChineseChatbotComponent.ChineseChatbot.ProcessNewMessage: reads the current `autoPlayAudio`. The source calls it from the chat hook's `onFinish`, whose closure may hold an older value. When that call starts `handlePlayAudio`, the `voicesLoaded` it captures may likewise be older than the one `StartPlayAudio` reads.
- The chat hook (`useChat`), its input handling and the `/api/chat` route are not part of this model. The chat's message list is a parameter of the sync methods.
- Message timestamps are not modelled.
- FlashcardComponent.Flashcard.constructor: requires a non-empty deck, because the render reads `cards[currentIndex]` and fails on an empty one.
- The flashcard's pinyin and examples display is not modelled.
- SignupPage.SignupForm.Settle: the `catch` branch is not modelled, because the simulated call cannot reject.
- The 2000 ms redirect after sign-up is not modelled.
- LoginPage.LoginForm.Settle: the `catch` branch is not modelled, because the simulated call cannot reject.
- HoverCardComponent.Render: the `playing` flag of the play button and the Audio object are not modelled.
- Hsk.GetHsk: the six JSON data files are inputs. Their contents are not part of this model.
- LegacyScript: the tiger animation and its random phrases are not modelled.
- LegacyScript: `isDarkMode`, `currentBackground`, `sentenceWords` and `isTigerSpeaking` are not modelled. No function of the script reads or writes them.
- LegacyScript: the load handler first calls `initTabs`, `initSettings` and `initSentenceBuilder`, which the script does not define, so in a browser the later initialisers would not run. The model treats every handler as installed.
- LegacyScript: `userPoints`, `currentConversationCount` and `campaignProgress` are never changed by the script, so the checks read whatever values they hold.
- LegacyScript.Globals.ImportAnki: imports only JSON objects whose values are card objects. Arrays, primitives, and property assignment on non-object cards are not modelled.
- LegacyScript.Globals.ImportAnki: a file read failure is not modelled.
- components/progress-timeline.tsx is not part of this model. Its only logic is a floating-point width.
- lib/audio-utils.ts is not part of this model. It is only media plumbing and timers.
- The remaining presentational pages and components are not part of this model.
