# Hover-question controller of a completion-API browser extension

This project models the content script of a browser extension that sends page
text to a text-completion API. When the page's DOM has loaded, the script attaches a mouse-over listener to
every `h2`, `h3` or `p` element present at that moment whose text looks like a
question. Hovering such an element runs one request. A busy flag stops a
second request while one is in flight. The last element that passed the gate
is remembered, so hovering it again right away does nothing. The result
appears in one floating box that is created when first needed. The box has
three visual states: loading, answer and error. Settings come from the
extension's local key-value store. The API key is read as stored, with no
default. The model, temperature and max-tokens settings each fall back to a
default when the stored value is falsy. Every successful answer is appended to a stored
history list.

Modules:

- `Optional` (optional.dfy): `Option`, which stands for `null`/`undefined`.
- `Question` (question.dfy): the classifier `IsQuestion`. It lower-cases the text and tests it as a raw prefix against the eleven listed words. It does no trimming and needs no word boundary.
- `Settings` (settings.dfy): the store as a `map<string, Value>` and JavaScript truthiness. Also the API-key getter (no fallback), the three setting getters with their `||` fallbacks, and the history append that `saveInteraction` performs.
- `FloatingBox` (floating_box.dfy): the box as a value that holds an identity, a state tag, a text, and whether the Close button is still inside it. The colour triples appear only as a map to the tag.
- `HoverController` (hover_controller.dfy): the class `HoverSession`. Its fields are the module-level variables `isLoading`, `currentQuestion` and `floatingBox`, plus the store. Its methods are the steps of `handleMouseOver`, the show steps, the Close listener and the store writes. The awaits of the handler are taken as sequential steps: `Begin` (the gate), `RequireApiKey` (the missing-key abort) and `Complete` (the request's outcome, which is given as an input). `HandleMouseOver` runs them in order.

Consequences the model makes explicit:

- Assigning `innerText` replaces all of an element's children. The Close button is appended when the box is created (content.js:113), and every show step then sets the box's `innerText` (content.js:69, 77, 85). So no state between handler steps holds the Close button. `HoverSession.Valid` records this, and `CloseClicked` then changes nothing.
- The classifier does not trim (content.js:64), so text with leading whitespace is never a question.
- A missing API key leaves the box on "Loading..." and `currentQuestion` set (content.js:21-26), so the same element cannot retrigger until another element passes the gate.
- The handler uses `event.target`, which can be a child of the element the listener was attached to. Its text is the prompt and the history question, and the classifier is not re-applied to it. The model takes that target as the input `Element`.

## Model

| member | source | states |
|---|---|---|
| Question.IsQuestion | content.js:62-65 | `isQuestion`: the left-to-right `some` scan of the eleven words over the lowered text; its meaning is stated by the Question lemmas below |
| Question.ToLower | content.js:64 | lower-casing keeps the length and lowers each character in place |
| Question.SomeStartsWithIff | content.js:64 | the left-to-right `some` scan is true iff some listed word is a prefix of the string |
| Question.IsQuestionIff | content.js:62-65 | a text is a question iff its lower-cased form starts with one of the eleven words |
| Question.IsQuestionLooksAtSixCharacters | content.js:63-64 | only the first six characters (the length of "should") decide the result |
| Question.IsQuestionExtends | content.js:64 | no word boundary is checked: appending anything to a question-like text keeps it question-like |
| Question.IsQuestionFirstLetter | content.js:62-65 | a question-like text has at least two characters and starts with w, h, i, c or s in either case |
| Question.OtherFirstLetterIsNotQuestion | content.js:62-65 | a text that starts with any other character is not a question |
| Question.LeadingWhitespaceIsNotQuestion | content.js:64 | there is no trimming: text that starts with whitespace is never a question |
| Question.CapitalisedQuestionMatches | content.js:64 | "What is X?" is a question (the test ignores case) |
| Question.PrefixWithoutWordBoundaryMatches | content.js:64 | "however" is a question because it starts with "how" |
| Question.AuxiliaryPrefixMatches | content.js:64 | "Issue" is a question because it starts with "is" |
| Question.StatementDoesNotMatch | content.js:62-65 | "The sky is blue." is not a question |
| Settings.Truthy | content.js:159-175 | JavaScript ToBoolean as used by `||` and `!`: "", 0, NaN, false and null are falsy, every object is truthy |
| Settings.ApiKey | content.js:148-154 | the stored key as is, with no default: absent (`undefined`) exactly when nothing is stored under "apiKey" |
| Settings.HasApiKey | content.js:23 | the key check lets the request go ahead: a key is stored and it is truthy |
| Settings.StoredHistory | content.js:195 | `get({history: []})`: the stored list, the empty list when nothing is stored, none when the stored value is not a list |
| Settings.SelectedModel | content.js:156-162 | the resolved model is always truthy, and it is either the stored value or "gpt-3.5-turbo" |
| Settings.CustomTemperature | content.js:164-170 | the resolved temperature is always truthy, and it is either the stored value or 0.7 |
| Settings.CustomMaxTokens | content.js:172-178 | the resolved max-tokens is always truthy, and it is either the stored value or 100 |
| Settings.UnsetSettingsUseDefaults | content.js:148-178 | with nothing stored there is no API key, and the settings are "gpt-3.5-turbo", 0.7 and 100 |
| Settings.StoredSettingUsedIffTruthy | content.js:159-175 | a stored setting is used iff it is truthy, so a stored 0, NaN or "" falls back to the default |
| Settings.SettingsAreIndependent | content.js:148-178 | writing one key never changes how the other settings resolve |
| Settings.AppendInteraction | content.js:194-200 | the history gains exactly one entry, at the end; earlier entries and all other keys stay the same; a non-list history is left alone |
| Settings.HistoryIsAppendOnly | content.js:194-200 | after several appends the history is the old list followed by the new entries in order, and no setting has changed |
| FloatingBox.NewBox | content.js:92-113 | a newly created box: no colours, no text, only the Close button inside |
| FloatingBox.GetOrCreate | content.js:91-123 | the existing box when the slot holds one, otherwise a new box with the next identity |
| FloatingBox.Render | content.js:69-70 | assigning `innerText` and colours: the box keeps its identity, takes the given state and text, and loses every child including the Close button (also content.js:77-78, 85-86) |
| FloatingBox.StyleIdentifiesState | content.js:67-89 | the three colour sets and the unstyled box are pairwise different, so the colours identify the state |
| HoverController.RequestFor | content.js:22-45 | the request carries the stored key, the resolved settings (all truthy) and the element's text as the prompt |
| HoverController.HoverSession.constructor | content.js:11-13 | a session starts idle, with no previous element and no box |
| HoverController.HoverSession.GetOrCreateFloatingBox | content.js:91-123 | returns the existing box unchanged; creates a new box with a new identity and a Close button only when there is none |
| HoverController.HoverSession.Show | content.js:67-89 | the shared shape of the three show steps: get or create the box, then render the given state and text on it |
| HoverController.HoverSession.ShowLoadingIndicator | content.js:75-81 | the box (existing or new) shows "Loading..." in the loading state and has lost its Close button |
| HoverController.HoverSession.ShowAnswerBox | content.js:67-73 | the box (existing or new) shows the answer in the answer state and has lost its Close button |
| HoverController.HoverSession.ShowErrorBox | content.js:83-89 | the box (existing or new) shows the message in the error state and has lost its Close button |
| HoverController.HoverSession.CloseClicked | content.js:115-118 | closing empties the slot when the button is still inside the box, so the next show creates a new box; in a Valid state nothing changes |
| HoverController.HoverSession.Begin | content.js:16-21 | the gate passes iff the session is idle and the element is not the last one; if it is blocked nothing changes; if it passes, the element is recorded, the busy flag is set and the box shows "Loading..." |
| HoverController.HoverSession.RequireApiKey | content.js:22-26 | without a truthy key the busy flag is cleared and nothing else changes; with one, nothing changes |
| HoverController.HoverSession.Complete | content.js:47-58 | ok shows the answer and appends one history entry; not-ok and a thrown error show their fixed messages and leave the store alone; the busy flag is always cleared |
| HoverController.HoverSession.SaveInteraction | content.js:194-200 | the store becomes the old store with one interaction appended |
| HoverController.HoverSession.SaveApiKey | content.js:186-188 | only the API key entry changes |
| HoverController.HoverSession.SaveSelectedModel | content.js:190-192 | only the model entry changes |
| HoverController.HoverSession.HandleMouseOver | content.js:15-60 | a blocked hover sends nothing and changes nothing; a hover that passes sends a request iff a truthy key is stored, and it always ends idle with the element recorded; without a key the box stays on "Loading..." and the store is unchanged; with a key the box and the store reflect the outcome |
| HoverController.HoverSameElementTwice | content.js:17-18 | hovering the same element twice in a row from idle sends no second request, whatever the first run did |
| HoverController.HoverWhileBusy | content.js:17-19 | while a request is in flight, a hover over another element is dropped |

## Left out

- The page-load registration (content.js:1-9): a DOM query and listener attachment. The classifier it applies is modelled.
- The request itself, JSON encoding, headers and response parsing (content.js:33-50): the request's parameters are modelled as `CompletionRequest`, and its result is the input `FetchOutcome`. A response body that fails to parse, or that has no `choices[0]`, throws inside the `try`, so it is the `Exception` outcome.
- Settings.StoredHistory: `Value` represents only arrays of history entries. A stored array of other values (say `[1]`, or entries missing a field) has no exact representation. The closest value is `Object`, a non-array, for which the model leaves the store unchanged. In the code `push` succeeds on any array (content.js:196-197) and the longer list is written back (content.js:198). Nothing in the extension stores such an array.
- `sanitizeInput` (content.js:180-184): it relies on the browser's HTML serializer. The prompt in `CompletionRequest` is the element's text before escaping.
- `positionFloatingBox` (content.js:131-146): debounce timers, pointer coordinates and pixel offsets. It also adds a new `mousemove` listener on every show; the model keeps no listeners.
- The box's fixed inline styles and the colour values beyond the state tag (content.js:94-112, 125-129).
- `logError` (content.js:202-247): a developer console panel with no effect on the controller's state.
- HoverController.HoverSession.HandleMouseOver: storage reads and writes are assumed to succeed and their callbacks to run. In the code the reads at content.js:22 and 28-30 come after `isLoading = true` (content.js:19) and outside the `try`/`finally`. If one of them throws, or its callback never runs, the handler stops with `isLoading` still true, and every later hover is dropped. A synchronous throw from the history read inside `saveInteraction` (content.js:49) would reach the `catch` and show the exception message instead of the answer. The model captures neither, so "always ends idle" holds only under this assumption.
- Interleaving of awaits and of storage callbacks: each step is atomic. So the model does not capture a slow history write racing another one, or a hover that arrives during an await.
- The ISO-8601 timestamp: it is an opaque string parameter.
- Question.ToLower: lowers only the ASCII letters, where JavaScript applies full Unicode case mapping. For this prefix test the answer is the same. The only non-ASCII characters whose lower-case forms contain an ASCII letter are U+0130, which becomes "i" followed by a combining dot and so cannot complete "is", and U+212A, which becomes "k", a letter no listed word uses.
- background.js and popup.js: the context-menu path (which sends its own completion request and shows the result in an injected alert) and the settings form. They affect the modelled state only through the store keys read here.
