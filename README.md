# GhibliStudio image generation core, modelled in Dafny

GhibliStudio is a browser front end. The user uploads a photo, picks a style
("mode") and sends the photo with that mode's prompt to Google's Gemini
image model. The page then shows the returned image and a history of past
generations. This project models the three parts of it that hold logic, and
proves properties of them:

- **Mode registry** (`modes.dfy`, module `Modes`). The constant table of four
  modes, looked up by id the way `imageGenerationModes.find(m => m.id === id)`
  does.
- **Gemini client** (`gemini.dfy`, module `Gemini`). It covers:
  - the JSON body of the request: the prompt with the fixed facial-fidelity
    suffix, the two-part layout, the safety settings, and the `??` defaults of
    the tuning fields;
  - stripping the data-URL prefix from the FileReader result
    (`split(',')[1]`);
  - decoding the response into a `data:` URL or one of three errors;
  - folding every failure into the single user-facing message.
- **Generation orchestrator** (`app.dfy`, module `App`). The `App`
  component's state hooks are the fields of class `Component`. Its handlers
  are methods: mode selection, image upload, key change and `handleGenerate`.
  Each method's new state is given by a pure function of the old one
  (`Begin`, `Finish`, `Attempt`), and the lemmas are about those functions.
  `handleGenerate` is split at its `await` into two methods:
  - `BeginGenerate`: the guards, the in-flight flag and the mode lookup;
  - `FinishGenerate`: recording the client's answer.
  
  `HandleGenerate` runs both as one attempt. The state functions take the
  mode table as a parameter, so their properties hold for any table. The
  component always passes the registry.

Supporting modules:
- `Wrappers`: `Option` and `Result`.
- `Types`: the record types of `types/index.ts`.
- `Builtins`: JavaScript's `Array.prototype.find` and `String.prototype.split`.
  `Split` is proved a round trip with `Join`, and unique.

Inputs from outside are parameters:
- The HTTP POST is `post: (apiKey, Request) -> Result<Response, string>`. An
  error stands for a transport failure or a non-2xx status.
- The FileReader outcome is `read: Result<string, string>`.
- The client's answer to the orchestrator is `reply: Result<string, string>`.
- The timestamp from `new Date()` is an opaque `Timestamp`.

Details of the code that the model keeps:
- `split(',')[1]` gives the text between the first and the second comma. It is
  not "everything after the first comma". With no comma it is `undefined`,
  modelled as `None` in the request part.
- `handleGenerate` does not check `isGenerating`. Only the disabled button
  stops a second attempt while one is in flight (`HandlerIgnoresInFlight`).
- The error of a failed attempt is not cleared on success. It was already
  cleared when the attempt began.
- `!selectedMode` is also true for the empty string, so `Truthy` treats `''`
  as "no mode".

## Model

| member | source | states |
|---|---|---|
| Builtins.FindIndex | Code/playground/ghibli/src/services/gemini.ts:125 | the index returned is the first element satisfying the predicate; None iff no element does |
| Builtins.Find | src/App.tsx:59 | `find` returns an element satisfying the predicate with none before it; undefined iff none satisfies it |
| Builtins.Split | Code/playground/ghibli/src/services/gemini.ts:56 | `split` yields at least one piece, no piece holds the separator, and there is one piece iff the string has no separator |
| Builtins.JoinSplit | Code/playground/ghibli/src/services/gemini.ts:56 | joining the pieces of a split with the separator gives back the original string |
| Builtins.SplitUnique | Code/playground/ghibli/src/services/gemini.ts:56 | any separator-free pieces that join to a string are exactly its split |
| Builtins.SplitWithoutSeparator | Code/playground/ghibli/src/services/gemini.ts:56 | a string without the separator splits into itself alone |
| Builtins.SplitAfterSeparator | Code/playground/ghibli/src/services/gemini.ts:56 | the text before the first separator is the first piece; the rest splits independently |
| Modes.Ids | Code/playground/ghibli/src/config/modes.ts:3-32 | the id list has one id per table entry, in table order |
| Modes.FindMode | src/App.tsx:59 | a found mode is the first table entry with the requested id; nothing is found iff no entry has that id |
| Modes.RegistryIds | Code/playground/ghibli/src/config/modes.ts:3-32 | the table holds exactly ghibli, disney, cyberpunk, oil-painting, in that order |
| Modes.RegistryDistinct | Code/playground/ghibli/src/config/modes.ts:5-26 | the table's ids are pairwise distinct |
| Modes.FindModeUnique | src/App.tsx:59 | in any table with distinct ids, looking up an entry's id returns that entry |
| Modes.RegistryLookup | Code/playground/ghibli/src/config/modes.ts:5-26 | looking up any registry id returns the unique registry entry with that id |
| Modes.RegistryNames | Code/playground/ghibli/src/config/modes.ts:6-27 | each id resolves to the entry named Ghibli Mode, Disney Mode, Cyberpunk Mode, Oil Painting Mode respectively |
| Modes.UnknownIdNotFound | src/App.tsx:59-60 | an id missing from a table's id list is not found in that table |
| Modes.TemplatesNonEmpty | Code/playground/ghibli/src/config/modes.ts:8-29 | every prompt template is non-empty |
| Gemini.DataUrl | Code/playground/ghibli/src/services/gemini.ts:131 | the URL is `data:`, then the MIME type, then `;base64,`, then the payload, and nothing else |
| Gemini.ExtractImage | Code/playground/ghibli/src/services/gemini.ts:110-131 | fails with "no candidates" iff candidates are missing or empty; with "no content parts" iff the first candidate lacks content, parts or any part; succeeds iff the first part with inline data has non-empty data; a success is a `data:` URL with non-empty base64 data |
| Gemini.ExtractSuccess | Code/playground/ghibli/src/services/gemini.ts:125-131 | the result is exactly `data:<mimeType>;base64,<data>` of the first part with inline data |
| Gemini.ExtractSkipsTextParts | Code/playground/ghibli/src/services/gemini.ts:125 | any number of text-only parts before the image part are skipped |
| Gemini.ExtractEmptyFirstData | Code/playground/ghibli/src/services/gemini.ts:125-128 | if the first part with inline data has empty data, extraction fails, wherever that part sits and whatever parts follow it, even ones with data |
| Gemini.ExtractOnlyFirstCandidate | Code/playground/ghibli/src/services/gemini.ts:115 | candidates after the first never affect the result |
| Gemini.EnhancedPrompt | Code/playground/ghibli/src/services/gemini.ts:64 | the enhanced prompt is the prompt followed by the fixed facial-fidelity suffix |
| Gemini.EnhancedPromptInjective | Code/playground/ghibli/src/services/gemini.ts:64 | different prompts give different enhanced prompts |
| Gemini.StripBase64Prefix | Code/playground/ghibli/src/services/gemini.ts:56 | undefined iff the data URL has no comma; a defined result has no comma |
| Gemini.StripDataUrl | Code/playground/ghibli/src/services/gemini.ts:54-57 | stripping a data URL built from a comma-free MIME type and payload gives back the payload |
| Gemini.ResolveConfig | Code/playground/ghibli/src/services/gemini.ts:86-93 | each set tuning field passes through unchanged; each unset one takes 0.6, 0.99, 40 or 8192; response MIME type and modalities are fixed |
| Gemini.OrDefault | Code/playground/ghibli/src/services/gemini.ts:87-90 | `x ?? d`: a set value passes through unchanged, an unset one gives the default |
| Gemini.DefaultConfigValues | Code/playground/ghibli/src/services/gemini.ts:87-90 | with no config the documented defaults are sent |
| Gemini.SafetySettings | Code/playground/ghibli/src/services/gemini.ts:79-85 | one BLOCK_NONE setting per harm category, in order |
| Gemini.BuildRequest | Code/playground/ghibli/src/services/gemini.ts:66-94 | one `user` content with exactly two parts: the enhanced prompt, then the file's MIME type with the stripped base64; the config is resolved; the safety settings are the five categories, each BLOCK_NONE |
| Gemini.RequestCarriesImage | Code/playground/ghibli/src/services/gemini.ts:51-78 | the request's image part carries the file's MIME type and its base64 payload unchanged |
| Gemini.GenerateImage | Code/playground/ghibli/src/services/gemini.ts:43-142 | succeeds iff the file is read, the POST answers and the response decodes, and then returns the decoded URL; every failure is the single generic message |
| Gemini.NoCandidatesIsGenericFailure | Code/playground/ghibli/src/services/gemini.ts:110-141 | a response without candidates reaches the caller as the generic message |
| App.Initial | src/App.tsx:12-18 | the session starts with the environment key, nothing selected, not generating, no error, empty history |
| App.FailedPrecondition | src/App.tsx:40-53 | the guards are checked in the order key, image, mode, and the first failing one gives its own message; there is none iff all three hold |
| App.Begin | src/App.tsx:39-61 | a failed guard changes only `error`; otherwise the flag is set, the error cleared, and the client called with the found mode's template, the file and the key; an unknown mode id ends with "Invalid mode selected" and the flag cleared; history unchanged |
| App.Finish | src/App.tsx:62-76 | a success prepends the record with the URL, the mode's template and name; a failure sets the thrown message and leaves history; the flag is false and nothing else changes |
| App.Attempt | src/App.tsx:39-77 | a client call happens iff the guards pass and the mode is found; with no call the history is unchanged; after a call the flag is false and the history grows by the new record or the error is the client's message; key, selection and image are untouched |
| App.GenerateEnabled | src/App.tsx:166 | the button is enabled only when no call is in flight, and then a click can fail only on the key guard; with no call in flight and all guards passing it is enabled |
| App.HistoryGrowsAtFront | src/App.tsx:71 | after any attempt the old history is a suffix of the new one, with at most one new entry |
| App.TwoSuccessesNewestFirst | src/App.tsx:64-71 | two successful attempts A then B leave the history [B, A] followed by the old history |
| App.TwoModesNewestFirst | src/App.tsx:35-71 | a success with mode A, then selecting mode B and a second success, leave the history [B-record with B's template and name, A-record] followed by the old history |
| App.InFlightDisablesGenerate | src/App.tsx:166 | while a call is in flight the Generate button is disabled |
| App.HandlerIgnoresInFlight | src/App.tsx:39-55 | the handler starts another call even when one is in flight; only the button guards against it |
| App.EnabledWithoutKey | src/App.tsx:40-43 | the button can be enabled with no key; the attempt then only sets the key message and makes no call |
| App.RegistrySelectionResolves | src/App.tsx:35-37 | a mode chosen from the registry always resolves to that entry, so only the key and image guards remain |
| App.UnknownModeRejected | src/App.tsx:59-60 | an id outside the registry ends with "Invalid mode selected", no call, flag cleared, history unchanged |
| App.GeminiNoCandidatesReported | src/App.tsx:62-73 | with the Gemini client, a response without candidates shows the generic message and leaves the history unchanged |
| App.Component.constructor | src/App.tsx:12-18 | the fields start at the initial hook values |
| App.Component.ChangeApiKey | src/App.tsx:91 | only the key changes |
| App.Component.HandleImageUpload | src/App.tsx:26-27 | only the current image changes |
| App.Component.PreviewLoaded | src/App.tsx:28-31 | only the preview changes, to the reader's result, which is null after a failed or aborted read |
| App.Component.HandleModeSelect | src/App.tsx:35-37 | only `selectedMode` changes, to the mode's id |
| App.Component.BeginGenerate | src/App.tsx:39-61 | the new state and the pending call are those of `Begin` |
| App.Component.FinishGenerate | src/App.tsx:62-76 | the new state is that of `Finish` |
| App.Component.HandleGenerate | src/App.tsx:39-77 | the new state and the call made are those of `Attempt` |
| App.TwoGenerations | src/App.tsx:35-71 | driving the component with a key and a file, a success in Ghibli mode, then Disney mode selected and a second success, gives the history [Disney record, Ghibli record], newest first, with no error |
| App.GenerateWithoutKey | src/App.tsx:40-43 | with no key the client is never called, the key message is shown, and the history stays empty |

## Left out

- The HTTP transport (`axios.post`), the key in the URL and the headers. The POST is the `post` parameter.
- The response's `usageMetadata`. It is never read.
- The FileReader's base64 encoding and its callbacks. The `read` parameter and the `result` argument of `PreviewLoaded` (the data URL, or null after a failed read) stand for their outcomes.
- `console.log`/`console.error` diagnostics. They do not affect results.
- The OpenAI client (`src/services/openai.ts`). It is a vendor wrapper whose only logic is taking the first URL.
- Styling (`styles.ts`), the JSX rendering, the Snackbar auto-hide and the mode-selector and uploader widgets.
- The uploader's "take the first accepted file" and its MIME allow-list. They belong to the widget library configuration.
- The start-up effect that reports a missing environment key. It is a one-off render effect.
- `ImageGenerationState` in `types/index.ts`. The component never uses it.
- Gemini.ResolveConfig: temperature, topP, topK and maxOutputTokens are opaque `real` values with no floating-point behaviour. The model passes them through or defaults them and does nothing else with them.
- App.Component.HandleGenerate: the non-`Error` fallback message `'Failed to generate image'` is not modelled. The client always throws an `Error`, and an error `reply` stands for its message.
- async suspension and interleaving. The in-flight window is the state between `BeginGenerate` and `FinishGenerate`; React's batching of state updates is not modelled.
