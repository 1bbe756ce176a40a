# Chat widget reply pipeline and credential store, modelled in Dafny

This project models the parts of a marketing website's front-end script that
make decisions:

- the chat widget's **fallback keyword responder**: a fixed, ordered table of
  keyword rules over the lower-cased message, where the first rule that fires
  supplies a randomly drawn canned reply;
- the **reply pipeline** (`AIChat.generateResponse`): the append-only
  conversation history, the request sent to the chat-completion endpoint
  (system prompt plus the last ten history entries), and the fallback on every
  failure;
- the **single-flight guard** (`isProcessing`) of the two click handlers;
- the **credential store** (`ChatbotConfig`): one API key in `localStorage`;
- the **portfolio filter**: which cards a filter shows and the 150 ms reveal
  stagger.

Modules: `Wrappers` (Option, Result, Outcome), `Text` (`toLowerCase`,
`includes`, `trim`), `Fallback`, `Storage` (`localStorage` as a class over a
`map<string, string>`), `Config`, `Chat`, `Portfolio`.

The asynchronous `generateResponse` awaits twice, on the `fetch` and on
`response.json()` (script.js:898, 918). The model merges the two awaits into
one input, `FetchOutcome`: a network error, or an HTTP status and the string
found at `choices[0].message.content`. It splits the method at that point:
`AIChat.HandleClick` runs a click handler up to the suspension, or to its end
when no key is stored; `AIChat.ResolveFetch` runs the rest once the call
settles. Any click between the two is dropped by the guard.
`Math.random()` is an input `roll` with `0 <= roll < 1`, and the index it
selects is `Math.floor(roll * n)`, as in the code.

Facts about the code the model keeps:

- The keyword rules are tested in the order services, pricing, contact,
  timeline, greeting, identity, websites, e-commerce, web app, chatbot
  (script.js:943-1037); the first rule whose keyword occurs wins.
- The user message is pushed onto the history before the slice is taken
  (script.js:883-895). The request therefore holds at most 1 + 10 = 11
  messages, and its last entry is the new message.
- No branch that returns the fallback reply pushes anything onto the history
  (script.js:879, 935).
- `getApiKey` tests `!apiKey` (chatbot-config.js:28), so a stored empty
  string counts as not configured. `isConfigured` agrees with it.

## Model

| member | source | states |
|---|---|---|
| Text.LowerChar | script.js:940 | an upper-case letter maps to the letter 0x20 above it, any other character to itself, and the result is never upper case |
| Text.Lower | script.js:940 | `toLowerCase` keeps the length and lower-cases every character in place |
| Text.LowerIdempotent | script.js:940 | lower-casing a lower-cased message changes nothing |
| Text.ContainsIff | script.js:943 | `includes` holds exactly when the needle occurs at some position, in both directions |
| Text.ContainsPrefixOfNeedle | script.js:952 | a message containing `t + u` contains `t` |
| Text.TrimStart | chatbot-config.js:16 | the result is a suffix of the input without leading whitespace, and everything dropped is whitespace |
| Text.TrimEnd | chatbot-config.js:16 | the result is a prefix of the input without trailing whitespace, and everything dropped is whitespace |
| Text.Trim | chatbot-config.js:16 | the trimmed key is a slice of the input with only whitespace before and after it, it neither starts nor ends with whitespace, and it is empty exactly when the input is all whitespace |
| Text.TrimIdempotent | chatbot-config.js:21 | trimming the stored (already trimmed) key changes nothing |
| Fallback.Classify | script.js:943-1047 | the chosen group is hit by the message, no group tested earlier is hit, and the default group is chosen exactly when no group is hit |
| Fallback.Pick | script.js:949 | `Math.floor(Math.random() * n)` is a valid index below `n` |
| Fallback.Choose | script.js:939-1048 | the drawn reply belongs to the first group the lower-cased message hits, its position is below that group's reply count (four for the default group, three for the others), and it is a default reply when no group is hit |
| Fallback.ChooseCaseInsensitive | script.js:940 | for the same draw, a message and its lower-cased copy get the same reply |
| Fallback.QuantoCiVuoleIsPricing | script.js:952-970 | a message containing "quanto ci vuole" never gets the timeline group, and gets a pricing reply unless a services keyword also occurs |
| Storage.LocalStorage.constructor | chatbot-config.js:27 | the store starts with the entries the page's `localStorage` already holds, which `getItem` reads |
| Storage.LocalStorage.GetItem | chatbot-config.js:27 | `getItem` returns the stored value, or null when the key is absent |
| Storage.LocalStorage.SetItem | chatbot-config.js:21 | `setItem` overwrites one entry and keeps all others |
| Storage.LocalStorage.RemoveItem | chatbot-config.js:36 | `removeItem` drops one entry, and an absent key is no error |
| Config.AfterSet | chatbot-config.js:15-23 | a missing, empty or blank key fails with EmptyKey, and any other key stores its trimmed form under `openai_api_key` with every other entry kept |
| Config.AfterRemove | chatbot-config.js:35-38 | removing drops `openai_api_key` and keeps every other entry |
| Config.SetThenGet | chatbot-config.js:15-31 | after setting an acceptable key, reading returns the trimmed key and the store is configured |
| Config.BlankKeysRefused | chatbot-config.js:16-18 | a missing key, and every key made only of whitespace (the empty key included), is refused with EmptyKey |
| Config.LastWriteWins | chatbot-config.js:21 | of two successful sets, the second decides the stored key |
| Config.RemoveIdempotent | chatbot-config.js:35-43 | after a remove the store is not configured and reading fails, and a second remove changes nothing |
| Config.ChatbotConfig.constructor | chatbot-config.js:5-12 | the endpoint, model, 500 tokens, temperature 0.7 and both penalties 0.1 |
| Config.ChatbotConfig.SetApiKey | chatbot-config.js:15-23 | it throws on a missing or blank key and leaves the store alone; otherwise the new store is the one AfterSet gives |
| Config.ChatbotConfig.GetApiKey | chatbot-config.js:26-32 | it returns what StoredKey gives for the current store |
| Config.ChatbotConfig.RemoveApiKey | chatbot-config.js:35-38 | the new store is the one AfterRemove gives |
| Config.ChatbotConfig.IsConfigured | chatbot-config.js:41-43 | it is true exactly when getApiKey would succeed |
| Chat.LastN | script.js:894 | `slice(-n)` gives the last `min(len, n)` entries of the history |
| Chat.Outbound | script.js:889-895 | the request's messages are the system prompt followed by the last ten history entries, at most 11 in all, ending with the newest entry |
| Chat.AppendUserKeepsWellFormed | script.js:883-886 | appending the user message keeps the history free of system entries, with every assistant entry right after a user entry |
| Chat.AppendAnswerKeepsWellFormed | script.js:922-925 | appending the assistant reply right after its user message keeps the history well formed |
| Chat.SystemPromptOnlyAtHead | script.js:889-895 | the system prompt appears in the request only at its head |
| Chat.AIChat.constructor | script.js:668-672 | a new widget has an empty history and is not processing |
| Chat.AIChat.GetApiKey | script.js:1050-1062 | whether it asks ChatbotConfig or reads localStorage itself, the result is StoredKey of the store |
| Chat.AIChat.BeginResponse | script.js:867-912 | without a key, the history is unchanged and the reply is the fallback for the message; with a key, the user message is appended and the request is built from the history that already holds it |
| Chat.AIChat.CompleteResponse | script.js:914-936 | on success the history grows by the assistant reply, which is returned; on any failure the history is unchanged and the fallback for the original message is returned |
| Chat.AIChat.HandleClick | script.js:683-717 | a click off a button, or while a message is in flight, is ignored and changes nothing; otherwise the message is answered at once without a key, or left awaiting its request with the guard set |
| Chat.AIChat.ResolveFetch | script.js:689-715 | when the awaited fetch settles, the handler (action button or quick reply) finishes as CompleteResponse says and the guard is released |
| Chat.SecondClickWhileInFlight | script.js:683-717 | a second click while the first is in flight is dropped, and the history gains exactly (user, first) and, on success, (assistant, reply) in that order |
| Portfolio.CountShown | script.js:283-301 | the number of shown cards is at most the number of cards |
| Portfolio.Schedule | script.js:282-310 | there is one effect per card |
| Portfolio.FilterPortfolioItems | script.js:282-310 | the loop with its `visibleIndex` counter produces exactly the Schedule of the cards |
| Portfolio.ScheduleAt | script.js:285-301 | a card is revealed exactly when `filter == "all"`, its category equals the filter, or it has the filter as a class, and then 150 ms after each earlier shown card |
| Portfolio.RevealDelaysAreStaircase | script.js:283-301 | the revealed cards get the delays 0, 150, 300, ... in order, because hidden cards do not advance the counter |
| Portfolio.AllShowsEverything | script.js:288 | the filter "all" reveals the i-th card after i * 150 ms |
| Portfolio.CountAll | script.js:288 | the filter "all" shows every card |

## Left out

- Custom cursor, scaling, parallax, 3D tilt, ripple geometry and `animateCounter`: floating-point animation driven by mouse events and timers.
- IntersectionObserver, scroll and visibility handlers, the back-to-top button and the mobile menu: browser event plumbing.
- Message rendering (`createMessageElement`, `addUserMessage`, `addBotMessage`, avatars, timestamps), typing indicators, `scrollToBottom` and opening or closing the window: DOM output.
- The `fetch` call and `response.json()`: foreign calls, modelled only as the `FetchOutcome` input, which merges the two awaits into one outcome.
- `Math.random()`: an input `roll`.
- `console.log` output, `showInstructions` and the load-time message: console output.
- The CSS transitions and timeouts of the filter UI other than the reveal delay: display timing.
- The `catch` branches of the two click handlers (script.js:692-695, 710-713), including the `fallbackResponses.error` text: they run only when `addBotMessage` throws on a reply that is not a string, a case the model does not produce (see the Chat.AIChat.CompleteResponse line). The unused `offline` and `loading` texts are not modelled either.
- Fallback.Respond: has no contract of its own; what it promises is stated on Fallback.Choose, the reply it looks up. The model does not prove facts about the reply texts themselves (that they are non-empty, or their exact wording beyond the literals in Fallback.ReplyText), because reasoning about these long string literals exhausts the solver.
- Text.Lower: lower-cases only Basic Latin and Latin-1 letters; the rest of Unicode case mapping, including mappings that change the length, is not modelled.
- Config.ChatbotConfig.SetApiKey: the key is modelled as a string or null; a non-string argument, on which the code would fail at `trim`, is not modelled.
- Chat.AIChat.CompleteResponse: a 2xx body without a string at `choices[0].message.content` is modelled as a failure (fallback reply, history unchanged). The code instead pushes an assistant entry with that non-string content (script.js:922-925) and returns it; `addBotMessage` then throws at `message.replace` (script.js:848), and the handler's `catch` shows the fallback reply (script.js:694) or the `fallbackResponses.error` text (script.js:712). A body without `choices[0].message` throws inside `generateResponse` and does get the fallback, as modelled.
- Chat.AIChat.HandleClick: the key is looked up on the store as it is at the click. A change of the store while a fetch is awaited does not affect that request, and the model does not track it. The clicked button's message is assumed to be a string. A button without `data-message` passes `undefined` (script.js:687, 705); `addUserMessage` then throws at `message.replace` (script.js:848) before the `try` (script.js:688, 706), so the `finally` never runs, `isProcessing` stays true, and every later click is ignored. The model does not capture this lock-up.
- Storage.LocalStorage.GetItem: modelled as never throwing. A browser throws SecurityError when storage is blocked, and `getApiKey` or `isConfigured` then throws where the model reads a value.
- Storage.LocalStorage.SetItem: modelled as never throwing. A browser throws SecurityError when storage is blocked and QuotaExceededError when the store is full, and `setApiKey` then throws to its caller with the store unchanged.
- Storage.LocalStorage.RemoveItem: modelled as never throwing. A browser throws SecurityError when storage is blocked, and `removeApiKey` then throws to its caller.
