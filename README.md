# DMS ordering chatbot: the chat-session controller in Dafny

This project models the chat-session controller of the DMS ordering bot, a
Lightning Web Component. It covers the three versions of the component:

- `LLLndVoice/chatBotContainer.js` — classifier-backed, with speech input;
- `LLMJS._Working.js` — classifier-backed, without speech;
- `chatBotContainer.js` — rule-based.

The controller keeps a transcript of messages, a row of quick-reply buttons,
a typing indicator, the open and full-screen flags of the chat window and the
text in the input box (plus the microphone state, or a cart snapshot, in some
versions). A user turn trims the typed text, shows it, and dispatches it:

- The classifier-backed versions ask a Gemini classifier for an intent. They
  parse its JSON reply, where a parse failure counts as `unknown`. They then
  branch on the action tag to a handler that calls the ordering gateway (Apex
  methods on catalog and cart), or fall back to a case-insensitive keyword
  test.
- The rule-based version matches a few exact commands and an `add ` prefix.

Modules:

- `Base`: `Option`.
- `Text`: the string built-ins the controller relies on: `trim`, ASCII
  `toLowerCase`, `indexOf`/`includes`, `startsWith` and the first-occurrence
  `replace`.
- `Commerce`:
  - the gateway's records (products, cart lines, cart, catalog display);
  - `Remote<T>`, a remote answer that either resolves or rejects;
  - the log entries of remote calls;
  - the first-match lookups by name, ignoring case.
- `Transcript`:
  - messages, with an abstract `Body` naming which reply was shown;
  - tables and quick replies;
  - the CSS/icon getters.
- `Tables`: each rendered table (search hits, cart, configurable catalog,
  rule-based product list) as a function. The `forEach` loop that builds it is
  a method proved to produce exactly that function.
- `Intent`:
  - the parsed classifier reply and the closed set of action tags;
  - the keyword fallback `Resolve`, proved equal to a first-match reading of
    its priority table.
- `Assistant`: one dispatch of the two classifier-backed versions as a pure
  step function on a `Conversation`, selected by `Variant`. The remote answers
  for the step come in a `Backend`, and every remote call is logged.
- `AssistantFacts`: what those versions promise, proved over `Assistant`:
  - routing;
  - the append-only transcript and call log;
  - exactly when the typing indicator stays on;
  - the lookup rules of add and remove;
  - the shape of the rendered tables.
- `VoiceBot`, `WorkingBot`: `ChatBotContainer` classes whose fields are the
  component's tracked fields. Each handler updates them in place and is proved
  to move the state exactly as the `Assistant` step function says. The facts
  of `AssistantFacts` therefore hold of the objects.
- `RuleBot`: the rule-based version, with its own step function `Process`, its
  facts, and a `ChatBotContainer` class proved against `Process`. This version
  keeps its own state type `RuleState` (it holds the cart snapshot and a log of
  requests each tagged with the typing indicator, and its bot messages always
  replace the quick replies),
  so its `UserSays` and `BotSays` are defined on it separately from those of
  `Assistant`.

How the asynchronous code is treated:

- One user turn is one atomic step. Each remote call is made at most once per
  turn, and what it answers is an input to the step.
- A rejected promise is `Rejected`. So is a `TypeError` the code would throw
  (`.action` of a `null` reply, `.toLowerCase()` of a missing slot, `.items` of
  a `null` cart).
- Where the code awaits the handler inside its `try`, a rejection ends in the
  apology message.
- Where it does not await the handler (the handlers started by
  `handleUnknownInput`), or has no `try` at all (the rule-based version), the
  rejection escapes. Nothing is shown and the typing indicator stays on. The
  one exception is the rule-based `loadCart` that follows a successful add:
  it runs after the confirmation was shown and the indicator cleared, so its
  rejection leaves both as they are. The model keeps that behaviour as
  written, and `AssistantFacts.TypingClearedUnlessFallbackStalls`,
  `RuleBot.TypingDuringRequests` and `RuleBot.AddFound` state it exactly.

## Model

| member | source | states |
|---|---|---|
| Text.TrimStart | LLLndVoice/chatBotContainer.js:150 | the leading part removed is blank, the rest is a suffix of the input that does not start with white space |
| Text.TrimEnd | LLLndVoice/chatBotContainer.js:150 | the trailing part removed is blank, the rest is a prefix of the input that does not end with white space |
| Text.TrimParts | LLLndVoice/chatBotContainer.js:150 | removing the blank end of what remains after removing the blank start leaves an infix of the text between two blank ends, with no white space at either end, empty exactly when the text is blank |
| Text.Trim | LLLndVoice/chatBotContainer.js:150-151 | `trim()` gives the infix of the text left after its blank leading and trailing parts are removed; it is empty exactly when the text is blank (so `!msg` holds), and otherwise starts and ends with a non-space character |
| Text.TrimFixed | LLLndVoice/chatBotContainer.js:150 | a text with no white space at either end is left unchanged by `trim()` |
| Text.Lower | LLLndVoice/chatBotContainer.js:393 | `toLowerCase()` keeps the length and maps every character through the ASCII lower-case map |
| Text.LowerIdempotent | chatBotContainer.js:104 | lower-casing twice is lower-casing once, so the rule-based add re-lowering an already lower-cased input changes nothing |
| Text.IndexOf | LLLndVoice/chatBotContainer.js:393-399 | `indexOf`: the result is an occurrence with no earlier occurrence, or there is no occurrence at all |
| Text.ReplaceFirst | chatBotContainer.js:122 | `replace(pat, rep)` with a string pattern: the text is unchanged when the pattern does not occur; otherwise the part before the first occurrence is kept, the replacement stands at its position, and the rest after the occurrence follows |
| Text.ReplacePrefix | chatBotContainer.js:120-122 | on a text starting with the pattern, replacing it by `''` leaves exactly what follows the prefix |
| Commerce.OrElse | LLMJS._Working.js:223 | `x ?? d`: the value itself unless it is null or undefined, and then the default |
| Commerce.Truthy | chatBotContainer.js:168 | definition, no contract of its own: JavaScript truthiness of a gateway field (non-empty string, non-zero number); used by `RuleBot.ReloadCart`, whose behaviour `RuleBot.ReloadKeepsOnlyNamedCarts` states |
| Commerce.ProductIndex | LLLndVoice/chatBotContainer.js:225 | `products.find` by lower-cased name: the first product whose name equals the key, or none when no product does |
| Commerce.FirstProductMatch | chatBotContainer.js:124 | a product matching the key with no matching product before it is the one found |
| Commerce.NoProductMatch | chatBotContainer.js:124 | with no product matching the key, nothing is found |
| Commerce.LineIndex | LLLndVoice/chatBotContainer.js:242 | `cartData.items.find` by lower-cased product name: the first matching line, or none when no line matches |
| Transcript.ContainerClassDistinguishes | LLLndVoice/chatBotContainer.js:101-106 | the container class string determines both the open and the full-screen flag |
| Transcript.FullscreenIcon | LLLndVoice/chatBotContainer.js:97-99 | definition, no contract of its own: the contract icon in full screen, the expand icon otherwise |
| Transcript.ContainerClass | LLLndVoice/chatBotContainer.js:101-106 | definition, no contract of its own: `chat-container`, then ` open`, then ` fullscreen` as the flags say; `Transcript.ContainerClassDistinguishes` proves both flags can be read back |
| Transcript.MicIcon | LLLndVoice/chatBotContainer.js:448-450 | definition, no contract of its own: the red dot while listening, the microphone otherwise |
| Transcript.MicButtonClass | LLLndVoice/chatBotContainer.js:452-454 | definition, no contract of its own: `mic-button`, plus ` active` while listening |
| Tables.SearchTable | LLMJS._Working.js:211-228 | the header Name, Price, Stock and one row per hit, holding its name, its price and its stock, with a missing stock shown as 0 |
| Tables.BuildSearchTable | LLMJS._Working.js:219-225 | the `forEach` loop builds exactly the search table |
| Tables.CartTable | LLLndVoice/chatBotContainer.js:293-331 | the header Item, Price, Qty, Total, one row per cart line (name, unit price, quantity, line total), and the grand total in the footer |
| Tables.BuildCartTable | LLLndVoice/chatBotContainer.js:308-317 | the `forEach` loop builds exactly the cart table |
| Tables.CatalogTable | LLLndVoice/chatBotContainer.js:364-387 | one header cell per field holding its label, one row per product, one cell per field in field order, and a missing value shown as `''` |
| Tables.BuildCatalogTable | LLLndVoice/chatBotContainer.js:370-385 | the nested `forEach` loops build exactly the catalog table |
| Tables.ProductListing | chatBotContainer.js:113-116 | one line per catalog product, in order, with its name and unit price |
| Tables.BuildListing | chatBotContainer.js:114-116 | the `forEach` loop builds exactly the product listing |
| Intent.Interpret | LLLndVoice/chatBotContainer.js:166-174 | definition, no contract of its own: a parse failure stands for `{ action: 'unknown' }`; `AssistantFacts.UnparsableReplyFallsBack` states where it leads |
| Intent.ActionOf | LLLndVoice/chatBotContainer.js:177-213 | the `switch` selects a handler exactly when the tag is one of the seven handler tags, and then the handler of that tag; anything else is `unknown` |
| Intent.ActionOfTag | LLLndVoice/chatBotContainer.js:177-213 | every action's tag routes back to that action |
| Intent.QuantityOrOne | LLLndVoice/chatBotContainer.js:179 | `quantity \|\| 1`: a missing or zero quantity becomes 1, any other is kept |
| Intent.Resolve | LLLndVoice/chatBotContainer.js:391-406 | definition, no contract of its own: the keyword fallback's decision on the lower-cased input; `Intent.ResolveIsFirstMatch`, `Intent.ResolveIgnoresCase`, `Intent.ProductsOutrankHelp` and `Intent.HelpOnlyAlone` state its properties |
| Intent.ResolveIsFirstMatch | LLLndVoice/chatBotContainer.js:391-406 | the keyword fallback picks the first rule of the priority table (product/item, cart/basket, checkout/buy, help) one of whose keywords occurs in the lower-cased input |
| Intent.ResolveIgnoresCase | LLLndVoice/chatBotContainer.js:393-399 | the fallback's decision does not depend on letter case |
| Intent.ProductsOutrankHelp | LLMJS._Working.js:332-347 | an input mentioning both "help" and "product" shows the products |
| Intent.HelpOnlyAlone | LLLndVoice/chatBotContainer.js:391-401 | help is chosen only when "help" occurs and no higher-priority keyword does |
| Assistant.FindProduct | LLLndVoice/chatBotContainer.js:225 | the first product whose name equals the slot ignoring case; a missing slot throws as soon as there is a product to compare |
| Assistant.FindLine | LLLndVoice/chatBotContainer.js:242 | the first cart line whose product name equals the slot ignoring case; a missing slot throws as soon as there is a line to compare |
| Assistant.UserSays | LLLndVoice/chatBotContainer.js:108-119 | definition, no contract of its own: `addUserMessage`: one user message appended; `AssistantFacts.SendRecordsTrimmedText` states its place in a turn |
| Assistant.BotSays | LLLndVoice/chatBotContainer.js:121-137 | definition, no contract of its own: `addBotMessage`; `AssistantFacts.BotSaysAppendsOne` states its effect |
| Assistant.Apologize | LLLndVoice/chatBotContainer.js:215-219 | definition, no contract of its own: the outer `catch`; `AssistantFacts.ClassifierFailureApologises` and `AssistantFacts.SettleAppends` state its effect |
| Assistant.Settle | LLLndVoice/chatBotContainer.js:177-219 | definition, no contract of its own: an awaited handler inside the outer `try`: a rejection ends in the apology; `AssistantFacts.SettleAppends`, `SettleApologises`, `AddClearsTyping`, `RemoveClearsTyping` and `LookupsClearTyping` state its properties |
| Assistant.Awaited | LLLndVoice/chatBotContainer.js:177-211 | definition, no contract of its own: the `switch` cases that `await` a handler, and that handler's outcome; `AssistantFacts.RejectedHandlerIsSilent` and `HandlerFailureApologises` state what follows when it rejects |
| Assistant.HandleAddToCart | LLLndVoice/chatBotContainer.js:223-238 | definition, no contract of its own: `handleAddToCart`; `AssistantFacts.AddToCartFirstMatch`, `AddToCartNoMatch`, `AddAppends` and `AddClearsTyping` state its properties |
| Assistant.HandleRemoveFromCart | LLLndVoice/chatBotContainer.js:240-255 | definition, no contract of its own: `handleRemoveFromCart`; `AssistantFacts.RemoveFirstMatch`, `RemoveNoMatch`, `RemoveAppends` and `RemoveClearsTyping` state its properties |
| Assistant.HandleSearchProducts | LLLndVoice/chatBotContainer.js:257-288 | definition, no contract of its own: `handleSearchProducts` in both versions; `AssistantFacts.SearchWithoutHits`, `SearchRendersOneRowPerHit`, `SearchAnswersYes` and `SearchAppends` state its properties |
| Assistant.HandleShowCart | LLLndVoice/chatBotContainer.js:290-336 | definition, no contract of its own: `handleShowCart`; `AssistantFacts.EmptyCartReported`, `CartRendersOneRowPerLine` and `ShowCartAppends` state its properties |
| Assistant.HandleCheckout | LLLndVoice/chatBotContainer.js:338-342 | definition, no contract of its own: `handleCheckout`; `AssistantFacts.CheckoutEchoesGateway` and `CheckoutAppends` state its properties |
| Assistant.HandleHelp | LLLndVoice/chatBotContainer.js:346-362 | definition, no contract of its own: `handleHelp`; `AssistantFacts.HelpRestoresDefaultReplies` and `HelpAppends` state its properties |
| Assistant.HandleShowProducts | LLLndVoice/chatBotContainer.js:364-389 | definition, no contract of its own: `handleShowProducts`; `AssistantFacts.CatalogRendersOneRowPerRecord` and `ShowProductsAppends` state its properties |
| Assistant.HandleUnknownInput | LLLndVoice/chatBotContainer.js:391-406 | definition, no contract of its own: `handleUnknownInput`; `AssistantFacts.FallbackAppends`, `FallbackTyping` and `NotUnderstoodReply` state its properties |
| Assistant.ProcessInput | LLLndVoice/chatBotContainer.js:157-220 | definition, no contract of its own: `processInput`; `AssistantFacts.ProcessInputAppends`, `TypingClearedUnlessFallbackStalls`, `UnparsableReplyFallsBack`, `UnlistedTagFallsBack`, `ClassifierFailureApologises`, `HandlerFailureApologises`, `AddDefaultsToOne` and `RemoveForwardsQuantityOnlyWithVoice` state its properties |
| Assistant.HandleSend | LLLndVoice/chatBotContainer.js:149-155 | definition, no contract of its own: `handleSend` on the box's text; `AssistantFacts.BlankSendChangesNothing` and `SendRecordsTrimmedText` state its properties |
| AssistantFacts.BlankSendChangesNothing | LLLndVoice/chatBotContainer.js:149-151 | a blank input box appends nothing, calls nothing, changes nothing |
| AssistantFacts.BotSaysAppendsOne | LLLndVoice/chatBotContainer.js:121-137 | `addBotMessage` appends exactly one message after the earlier ones; the quick replies change only when a list is given, and are then shown exactly when it is non-empty |
| AssistantFacts.AddAppends | LLLndVoice/chatBotContainer.js:223-238 | adding keeps every earlier message and call in place, whether it resolves or rejects, and every message it adds is the bot's |
| AssistantFacts.RemoveAppends | LLLndVoice/chatBotContainer.js:240-255 | removing keeps every earlier message and call in place and adds only bot messages |
| AssistantFacts.SearchAppends | LLLndVoice/chatBotContainer.js:257-288 | searching keeps every earlier message and call in place and adds only bot messages |
| AssistantFacts.ShowCartAppends | LLLndVoice/chatBotContainer.js:290-336 | showing the cart keeps every earlier message and call in place and adds only bot messages |
| AssistantFacts.CheckoutAppends | LLLndVoice/chatBotContainer.js:338-342 | checking out keeps every earlier message and call in place and adds only bot messages |
| AssistantFacts.ShowProductsAppends | LLLndVoice/chatBotContainer.js:364-389 | showing the catalog keeps every earlier message and call in place and adds only bot messages |
| AssistantFacts.HelpAppends | LLLndVoice/chatBotContainer.js:346-362 | help keeps every earlier message and call in place and adds only a bot message |
| AssistantFacts.LookupsAppend | LLLndVoice/chatBotContainer.js:290-389 | showing the cart, checking out, showing the catalog and help keep every earlier message and call in place and add only bot messages |
| AssistantFacts.FallbackAppends | LLLndVoice/chatBotContainer.js:391-406 | the keyword fallback keeps every earlier message and call in place and adds only bot messages, whichever handler it starts |
| AssistantFacts.SettleAppends | LLLndVoice/chatBotContainer.js:215-219 | the outer `catch` only appends its apology, a bot message |
| AssistantFacts.SettleApologises | LLLndVoice/chatBotContainer.js:215-219 | a rejected awaited handler ends in exactly one apology, a plain bot message, with the indicator off and the quick replies as the handler left them |
| AssistantFacts.RejectedHandlerIsSilent | LLLndVoice/chatBotContainer.js:177-206 | every awaited handler that rejects does so before it has shown anything or touched the quick replies |
| AssistantFacts.HandlerFailureApologises | LLLndVoice/chatBotContainer.js:177-219 | a `null` parsed reply (reading `.action` throws) or a rejected awaited handler: the turn shows exactly one apology after the earlier messages, turns the indicator off, leaves the quick replies as they were, and has asked the classifier about the input |
| AssistantFacts.AwaitedAppends | LLLndVoice/chatBotContainer.js:177-206 | every handler the `switch` awaits keeps the transcript and call log as prefixes and adds only bot messages |
| AssistantFacts.ProcessInputAppends | LLLndVoice/chatBotContainer.js:157-220 | a dispatch keeps the transcript and call log as prefixes, every message it adds is the bot's, and its first new call is the classifier's, on the input |
| AssistantFacts.SendRecordsTrimmedText | LLLndVoice/chatBotContainer.js:149-154 | a non-blank send appends exactly one user message, holding the trimmed text, followed only by bot messages, and classifies that same text |
| AssistantFacts.UnparsableReplyFallsBack | LLLndVoice/chatBotContainer.js:166-174 | a classifier reply that is not JSON is handled as `unknown`: the fallback decides on the original input |
| AssistantFacts.UnlistedTagFallsBack | LLLndVoice/chatBotContainer.js:177-213 | a missing tag or one outside the seven handler tags goes to the fallback with the original input |
| AssistantFacts.ClassifierFailureApologises | LLLndVoice/chatBotContainer.js:157-219 | a rejected classifier call appends exactly one apology, clears the typing indicator and leaves the quick replies as they were |
| AssistantFacts.AddClearsTyping | LLLndVoice/chatBotContainer.js:223-238 | an awaited add ends with the indicator off, through its own reply or the apology |
| AssistantFacts.RemoveClearsTyping | LLLndVoice/chatBotContainer.js:240-255 | an awaited removal ends with the indicator off |
| AssistantFacts.LookupsClearTyping | LLLndVoice/chatBotContainer.js:257-389 | awaited search, show cart, checkout and show products end with the indicator off |
| AssistantFacts.FallbackTyping | LLLndVoice/chatBotContainer.js:391-406 | entered with the indicator on, the fallback leaves it on exactly when the handler it starts rejects |
| AssistantFacts.TypingClearedUnlessFallbackStalls | LLLndVoice/chatBotContainer.js:157-220 | after a dispatch the typing indicator is on exactly when the fallback started a handler whose remote call rejected |
| AssistantFacts.StalledFallbackIsSilent | LLLndVoice/chatBotContainer.js:391-398 | such an escaped rejection leaves the transcript without reply or apology |
| AssistantFacts.AddToCartFirstMatch | LLLndVoice/chatBotContainer.js:223-233 | with a product matching the name ignoring case, `addToCart` gets the first such product's Id and the quantity, and the confirmation names that product and quantity |
| AssistantFacts.AddToCartNoMatch | LLLndVoice/chatBotContainer.js:234-236 | with no matching product there is one not-found reply and no `addToCart` call |
| AssistantFacts.AddDefaultsToOne | LLLndVoice/chatBotContainer.js:178-179 | through the dispatcher, a missing or zero quantity adds one unit |
| AssistantFacts.RemoveNoMatch | LLLndVoice/chatBotContainer.js:240-253 | with no cart line matching the name there is one not-found reply and no `removeItem` call |
| AssistantFacts.RemoveFirstMatch | LLLndVoice/chatBotContainer.js:240-250 | `removeItem` gets the first matching line's product Id and the quantity handed over, and the reply names that line |
| AssistantFacts.RemoveForwardsQuantityOnlyWithVoice | LLMJS._Working.js:134-136 | through the dispatcher, the quantity slot reaches `removeItem` in the voice version and never in the other |
| AssistantFacts.SearchWithoutHits | LLMJS._Working.js:229-233 | no hits: one "nothing found" reply, quick replies unchanged, indicator off |
| AssistantFacts.SearchRendersOneRowPerHit | LLMJS._Working.js:211-228 | with hits, exactly one HTML message is appended, the Name/Price/Stock table with one row per hit (missing stock shown as 0); quick replies unchanged, indicator off |
| AssistantFacts.SearchAnswersYes | LLLndVoice/chatBotContainer.js:261-263 | with hits, the voice version appends exactly one plain "yes, available" message naming the keyword; quick replies unchanged, indicator off |
| AssistantFacts.EmptyCartReported | LLMJS._Working.js:236-281 | a null cart, one without items or with no items gives the "cart is empty" reply |
| AssistantFacts.CartRendersOneRowPerLine | LLMJS._Working.js:239-277 | a non-empty cart gives one HTML table with one row per line and the grand total |
| AssistantFacts.CheckoutEchoesGateway | LLLndVoice/chatBotContainer.js:338-342 | checkout makes exactly one `checkout` call; when it resolves, its message is appended verbatim and the indicator cleared, and when it rejects nothing is appended and the attempt is unresolved |
| AssistantFacts.CatalogRendersOneRowPerRecord | LLMJS._Working.js:305-330 | the catalog is one HTML message with one header cell per field and one row per product of one cell per field |
| AssistantFacts.HelpRestoresDefaultReplies | LLMJS._Working.js:292-303 | help appends one message, restores the four default quick replies and clears the indicator |
| AssistantFacts.NotUnderstoodReply | LLLndVoice/chatBotContainer.js:402-405 | no fallback keyword: one "didn't understand" reply, indicator off, no remote call |
| VoiceBot.ChatBotContainer.constructor | LLLndVoice/chatBotContainer.js:17-86 | the initial fields and `connectedCallback`: one HTML welcome message, the four default quick replies shown, the recognizer present exactly when the browser offers one |
| VoiceBot.ChatBotContainer.ToggleChat | LLLndVoice/chatBotContainer.js:88-91 | flips `isOpen` and always leaves full screen off |
| VoiceBot.ChatBotContainer.ToggleFullscreen | LLLndVoice/chatBotContainer.js:93-95 | flips `isFullscreen` and changes nothing else |
| VoiceBot.ChatBotContainer.ToggleMic | LLLndVoice/chatBotContainer.js:436-446 | no recognizer: nothing changes; otherwise `isListening` flips |
| VoiceBot.ChatBotContainer.RecognitionResult | LLLndVoice/chatBotContainer.js:69-73 | a recognition result replaces the input text and sends nothing |
| VoiceBot.ChatBotContainer.RecognitionEnded | LLLndVoice/chatBotContainer.js:75-82 | the end or an error of recognition stops listening |
| VoiceBot.ChatBotContainer.HandleInput | LLLndVoice/chatBotContainer.js:139-141 | the input box's value becomes the input text |
| VoiceBot.ChatBotContainer.AddUserMessage | LLLndVoice/chatBotContainer.js:108-119 | appends one user message, changes nothing else |
| VoiceBot.ChatBotContainer.AddBotMessage | LLLndVoice/chatBotContainer.js:121-137 | moves the state as `addBotMessage` (see `AssistantFacts.BotSaysAppendsOne`) |
| VoiceBot.ChatBotContainer.HandleAddToCart | LLLndVoice/chatBotContainer.js:223-238 | updates the fields and reports resolution exactly as `Assistant.HandleAddToCart` |
| VoiceBot.ChatBotContainer.HandleRemoveFromCart | LLLndVoice/chatBotContainer.js:240-255 | as `Assistant.HandleRemoveFromCart`, with the quantity passed on |
| VoiceBot.ChatBotContainer.HandleSearchProducts | LLLndVoice/chatBotContainer.js:257-288 | as `Assistant.HandleSearchProducts` for the voice version: a yes-or-no answer |
| VoiceBot.ChatBotContainer.HandleShowCart | LLLndVoice/chatBotContainer.js:290-336 | as `Assistant.HandleShowCart`, the table built by its loop |
| VoiceBot.ChatBotContainer.HandleCheckout | LLLndVoice/chatBotContainer.js:338-342 | as `Assistant.HandleCheckout`: the gateway's message shown verbatim |
| VoiceBot.ChatBotContainer.HandleHelp | LLLndVoice/chatBotContainer.js:346-362 | as `Assistant.HandleHelp` for the voice version: HTML help with the default replies |
| VoiceBot.ChatBotContainer.HandleShowProducts | LLLndVoice/chatBotContainer.js:364-389 | as `Assistant.HandleShowProducts`, the table built by its nested loops |
| VoiceBot.ChatBotContainer.HandleUnknownInput | LLLndVoice/chatBotContainer.js:391-406 | as `Assistant.HandleUnknownInput`: the started handler's rejection is dropped |
| VoiceBot.ChatBotContainer.Apologize | LLLndVoice/chatBotContainer.js:215-219 | the outer `catch`: indicator off, one apology, quick replies kept |
| VoiceBot.ChatBotContainer.ProcessInput | LLLndVoice/chatBotContainer.js:157-220 | the whole dispatch moves the state as `Assistant.ProcessInput` for the voice version, so every `AssistantFacts` lemma holds of it |
| VoiceBot.ChatBotContainer.HandleSend | LLLndVoice/chatBotContainer.js:149-155 | blank input leaves everything, the input box included, unchanged; otherwise the turn runs as `Assistant.HandleSend` and the box is cleared |
| VoiceBot.ChatBotContainer.HandleKeyPress | LLLndVoice/chatBotContainer.js:143-155 | Enter sends as `handleSend`: the turn runs as `Assistant.HandleSend` and the box is cleared unless it was blank; any other key changes nothing |
| VoiceBot.ChatBotContainer.HandleQuickReply | LLLndVoice/chatBotContainer.js:408-412 | the button's label is sent as if typed |
| WorkingBot.ChatBotContainer.constructor | LLMJS._Working.js:15-37 | on connect the transcript holds exactly one plain-text welcome message and the four default quick replies are shown |
| WorkingBot.ChatBotContainer.ToggleChat | LLMJS._Working.js:39-42 | flips `isOpen` and always leaves full screen off |
| WorkingBot.ChatBotContainer.ToggleFullscreen | LLMJS._Working.js:44-46 | flips `isFullscreen` and changes nothing else |
| WorkingBot.ChatBotContainer.HandleInput | LLMJS._Working.js:90-92 | the input box's value becomes the input text |
| WorkingBot.ChatBotContainer.AddUserMessage | LLMJS._Working.js:59-70 | appends one user message, changes nothing else |
| WorkingBot.ChatBotContainer.AddBotMessage | LLMJS._Working.js:72-88 | moves the state as `addBotMessage` (see `AssistantFacts.BotSaysAppendsOne`) |
| WorkingBot.ChatBotContainer.HandleAddToCart | LLMJS._Working.js:174-189 | as `Assistant.HandleAddToCart` |
| WorkingBot.ChatBotContainer.HandleRemoveFromCart | LLMJS._Working.js:191-205 | as `Assistant.HandleRemoveFromCart` with no quantity: `removeItem` never receives one |
| WorkingBot.ChatBotContainer.HandleSearchProducts | LLMJS._Working.js:207-234 | as `Assistant.HandleSearchProducts` for this version: the hits as a table built by its loop, or "nothing found" |
| WorkingBot.ChatBotContainer.HandleShowCart | LLMJS._Working.js:236-282 | as `Assistant.HandleShowCart` |
| WorkingBot.ChatBotContainer.HandleCheckout | LLMJS._Working.js:284-288 | as `Assistant.HandleCheckout` |
| WorkingBot.ChatBotContainer.HandleHelp | LLMJS._Working.js:292-303 | as `Assistant.HandleHelp` for this version: plain-text help with the default replies |
| WorkingBot.ChatBotContainer.HandleShowProducts | LLMJS._Working.js:305-330 | as `Assistant.HandleShowProducts` |
| WorkingBot.ChatBotContainer.HandleUnknownInput | LLMJS._Working.js:332-347 | as `Assistant.HandleUnknownInput` |
| WorkingBot.ChatBotContainer.Apologize | LLMJS._Working.js:166-170 | the outer `catch`: indicator off, one apology, quick replies kept |
| WorkingBot.ChatBotContainer.ProcessInput | LLMJS._Working.js:108-171 | the whole dispatch moves the state as `Assistant.ProcessInput` for this version (removal without quantity, search on the `query` slot) |
| WorkingBot.ChatBotContainer.HandleSend | LLMJS._Working.js:100-106 | blank input leaves everything unchanged; otherwise the turn runs as `Assistant.HandleSend` and the box is cleared |
| WorkingBot.ChatBotContainer.HandleKeyPress | LLMJS._Working.js:94-106 | Enter sends as `handleSend`: the turn runs as `Assistant.HandleSend` and the box is cleared unless it was blank; any other key changes nothing |
| WorkingBot.ChatBotContainer.HandleQuickReply | LLMJS._Working.js:349-353 | the button's label is sent as if typed |
| RuleBot.UserSays | chatBotContainer.js:63-74 | definition, no contract of its own: `addUserMessage` of the rule-based version, over its own state type; `RuleBot.SendDispatchesLowerCase` states its place in a turn |
| RuleBot.BotSays | chatBotContainer.js:77-91 | definition, no contract of its own: `addBotMessage`, which always replaces the quick replies; `RuleBot.ReplyWithoutListClearsQuickReplies` states its effect |
| RuleBot.ReloadCart | chatBotContainer.js:166-174 | definition, no contract of its own: `loadCart`; `RuleBot.ReloadKeepsOnlyNamedCarts` states its effect |
| RuleBot.Classify | chatBotContainer.js:109-162 | definition, no contract of its own: the tests of `processInput` in their order; `RuleBot.ClassifyCommands` states which input selects which command |
| RuleBot.Dispatch | chatBotContainer.js:109-163 | definition, no contract of its own: the branch a command selects; `RuleBot.ProcessAppends`, `TypingDuringRequests`, `UnrecognisedCommand`, `ShowProductsListsCatalog`, `AddFound`, `AddMissing` and `RemoveAndCheckoutResetCart` state its properties |
| RuleBot.Process | chatBotContainer.js:109-163 | definition, no contract of its own: `processInput`: the branch `Classify` selects; `RuleBot.AddNamedProduct` and `AddUnknownProduct` state the add path from the raw input |
| RuleBot.Send | chatBotContainer.js:99-106 | definition, no contract of its own: `handleSend`; `RuleBot.BlankSendChangesNothing` and `SendDispatchesLowerCase` state its properties |
| RuleBot.ClassifyCommands | chatBotContainer.js:109-162 | the command tests never overlap: exactly one of "show products", the `add ` prefix, "show cart", "remove", "checkout" or none applies, and the add name is the text after the prefix, trimmed and lower-cased |
| RuleBot.BlankSendChangesNothing | chatBotContainer.js:99-101 | blank input: nothing is shown, nothing is dispatched |
| RuleBot.SendDispatchesLowerCase | chatBotContainer.js:99-106 | the user message holds the trimmed text in its original case, and the dispatch sees only its lower-cased form |
| RuleBot.ReplyWithoutListClearsQuickReplies | chatBotContainer.js:77-91 | `addBotMessage` without a list appends one message, clears the quick replies and hides them |
| RuleBot.ReloadKeepsOnlyNamedCarts | chatBotContainer.js:166-174 | `loadCart` keeps the snapshot exactly when it has a truthy `productName`; otherwise the cart becomes null and "cart is empty" is appended |
| RuleBot.AddAppends | chatBotContainer.js:120-135 | an `add` dispatch keeps every earlier message and request in place |
| RuleBot.ProcessAppends | chatBotContainer.js:109-163 | every dispatch keeps every earlier message and request in place |
| RuleBot.UnrecognisedCommand | chatBotContainer.js:156-162 | anything else: one "didn't understand" reply, no gateway call, indicator off |
| RuleBot.ShowProductsListsCatalog | chatBotContainer.js:110-119 | "show products" appends one message listing every catalog product once, in order |
| RuleBot.AddFound | chatBotContainer.js:126-130 | a found product: the catalog read and `addToCart` with the indicator on, then the confirmation, then a cart reload with the indicator off |
| RuleBot.AddNamedProduct | chatBotContainer.js:120-130 | "add <name>": `addToCart` gets the first product whose name equals the trimmed, lower-cased name, with no quantity, and the confirmation names it |
| RuleBot.AddUnknownProduct | chatBotContainer.js:131-134 | no such product: one "Product not found." reply and no `addToCart` call |
| RuleBot.AddMissing | chatBotContainer.js:131-134 | an `add` whose name is not found appends only "Product not found.", after the catalog read, and ends with the indicator off |
| RuleBot.RemoveAndCheckoutResetCart | chatBotContainer.js:142-155 | "remove" and "checkout" each echo the gateway's message and set the cart to null |
| RuleBot.AddTyping | chatBotContainer.js:120-135 | the typing facts below, for an `add` dispatch |
| RuleBot.TypingDuringRequests | chatBotContainer.js:109-163 | every gateway call of a dispatch is made with the indicator on, except the cart reload after an add; a dispatch ends with the indicator off exactly when it appended a reply |
| RuleBot.ChatBotContainer.constructor | chatBotContainer.js:13-36 | one greeting and two quick replies shown, no cart, nothing requested |
| RuleBot.ChatBotContainer.ToggleChat | chatBotContainer.js:39-42 | flips `isOpen` and always leaves full screen off |
| RuleBot.ChatBotContainer.ToggleFullscreen | chatBotContainer.js:45-47 | flips `isFullscreen` and changes nothing else |
| RuleBot.ChatBotContainer.HandleInput | chatBotContainer.js:94-96 | the input box's value becomes the input text |
| RuleBot.ChatBotContainer.AddUserMessage | chatBotContainer.js:63-74 | appends one user message, changes nothing else |
| RuleBot.ChatBotContainer.AddBotMessage | chatBotContainer.js:77-91 | appends one bot message and always replaces the quick replies (see `RuleBot.ReplyWithoutListClearsQuickReplies`) |
| RuleBot.ChatBotContainer.LoadCart | chatBotContainer.js:166-174 | moves the state as `loadCart` (see `RuleBot.ReloadKeepsOnlyNamedCarts`) and reports whether `getCart` resolved |
| RuleBot.ChatBotContainer.ProcessInput | chatBotContainer.js:109-163 | the whole dispatch moves the state as `RuleBot.Process`, so every `RuleBot` lemma holds of it |
| RuleBot.ChatBotContainer.HandleSend | chatBotContainer.js:99-106 | blank input leaves everything unchanged; otherwise the trimmed text is shown, its lower-cased form dispatched, and the box cleared |
| RuleBot.ChatBotContainer.HandleQuickReply | chatBotContainer.js:177-181 | the button's label is sent as if typed |

## Left out

- The gateway (`OrderChatController`) and the Gemini classifier (`GeminiController`): their code is not part of this model. Each call is logged, and what it answers is an input to the step (`Backend`, `RuleBackend`).
- `JSON.parse` is the `parse` parameter. `None` stands for a parse error. A slot holding a JSON value of another type than the one modelled (say, a numeric `product`) is not modelled.
- Rendering and the DOM:
  - `renderedCallback`'s `innerHTML` injection;
  - `scrollToBottom` and its timer;
  - avatars, CSS classes of messages;
  - the exact HTML markup, emoji and wording of each reply.

  A message records which reply it is (`Body`), its arguments, and whether it is HTML. Tables are rows of field values, not markup, and price formatting (`₹`) is not modelled.
- Message ids (`Date.now()`) and timestamps (`toLocaleTimeString`) depend on the clock and are left out.
- `recordId`/`contactId` is passed unchanged to every gateway call and is not modelled.
- Interleaving of asynchronous work:
  - `handleSend` does not await `processInput`;
  - `handleUnknownInput` does not await its handlers;
  - the rule-based add does not await its `loadCart`;
  - the rule-based unknown command replies after a one-second timer.

  Each turn is one atomic step that includes this work, in program order. Two overlapping turns are not modelled.
- Text.Lower: ASCII letters only, not Unicode case mapping. Names with non-ASCII letters that differ only in case do not match in the model.
- The speech engine: only whether the browser offers one, `start`/`stop` as the `isListening` flip, and the `onresult`/`onend`/`onerror` callbacks. `voice/voiceInputApp.js` is not part of this model.
- The getters (`fullscreenIcon`, `chatContainerClass`, `micIcon`, `micButtonClass`) are functions of the flags in `Transcript`, not members of the classes.
- NaN and the other falsy values of JavaScript are modelled only as far as the code tests them: the quantity slot (`|| 1`) and the cart's `productName` in `loadCart`.
- RuleBot.ChatBotContainer.LoadCart: the snapshot is kept as the single `productName` field that `loadCart` tests; the rest of the gateway's cart object is not modelled.
