# Resume bullet point generator — a Dafny model

This project models the core of a browser application that turns a job
description and a candidate's work experience into resume bullet points. It asks
the OpenAI or the Anthropic chat API for them and keeps a local history of runs.

The model covers:

- **Prompt construction** (`src/utils/prompts.ts`). `trimIndent` and the prompt
  template are pure functions (`PromptLines`, `Prompts`, `PromptText`). The
  prompt is proved to consist, line by line, of these sections in order:
  - the system message;
  - the critical requirements, the fixed ones first and then the caller's;
  - the job fields and the experience fields;
  - the instructions;
  - a closing line naming `bulletPointCount || 5`.
- **Credential storage** (`src/services/storage.ts`). The API key is obfuscated
  by an exclusive or with a repeating key followed by `btoa`, and read back
  through `atob` (`SecureStorage`, with `CodeUnits` and `Base64` for the
  browser built-ins). Decryption undoes encryption for every text, including
  the texts `btoa` rejects, which both sides leave unchanged.
- **Run history** (`src/services/history.ts`). It is capped at the 50 most
  recent runs. `History` reads and writes a `localStorage` object
  (`BrowserStorage.LocalStorage`, a class whose `items` map the methods update).
- **The two provider adapters and the dispatcher** (`src/services/openai.ts`,
  `anthropic.ts`, `proxy.ts`):
  - each adapter builds its request body;
  - a response is parsed into trimmed, non-empty lines cut to the requested
    count (`BulletParse`);
  - the dispatcher turns any error an adapter throws into an error response.
- **The components** (`NumberInput`, `HistoryItemView`, `RunHistoryView`,
  `APISetupView`, `App`). A component with React state is a class whose
  fields are that state, with one method per handler. `NumberInput` keeps no
  state of its own: it is a module of functions, each handler returning the
  value it passes to the parent's `onChange`, and the two predicates that
  disable its buttons.

Two departures from the project's own description:

- The project's documentation says the dispatcher never throws. The code
  throws for an unknown provider before its `try` (`src/services/proxy.ts:20`).
  The model follows the code: `Proxy.GenerateBulletPoints` returns `Throw`
  there, and `App` shows the error's message.
- The OpenAI adapter's body model is `request.apiConfig.model || this.model`,
  and the dispatcher passes the same configured model to the constructor. So a
  configured empty model is sent as the empty model, not as "gpt-4"
  (`OpenAI.ModelChoice`).

Things that are parameters of the model:

- `fetch` is a function parameter from request to answer.
- `Date.now()` and the random id of `addRun` are `timestamp` and `id`
  parameters.
- `window.confirm` is a `confirmed` flag.
- A clipboard failure is a `clipboardFails` flag.
- A timer callback is a method of its own.

## Model

| member | source | states |
|---|---|---|
| JsStrings.Trim | src/utils/prompts.ts:38 | the result neither starts nor ends with whitespace, holds only characters of the input, and a text already trimmed is returned unchanged |
| JsStrings.TrimIsInfix | src/utils/prompts.ts:38 | the result is an infix of the input with nothing but whitespace before and after it |
| JsStrings.TrimUnique | src/utils/prompts.ts:38 | any infix with only whitespace around it that neither starts nor ends with whitespace is the trimmed text |
| JsStrings.TrimIdempotent | src/utils/prompts.ts:38 | trimming twice is trimming once |
| JsStrings.TrimLeadingWhitespace | src/utils/prompts.ts:82-100 | whitespace put in front of a text never survives trimming |
| JsStrings.Split | src/utils/prompts.ts:37 | splitting yields at least one piece and no piece holds the separator |
| JsStrings.SplitJoin | src/utils/prompts.ts:37-39 | joining pieces free of the separator and splitting again gives the pieces back |
| JsStrings.JoinSplit | src/utils/prompts.ts:37-39 | splitting a text and joining the pieces gives the text back |
| JsStrings.SplitConcat | src/utils/prompts.ts:37 | a separator between two texts splits the result into the pieces of each, in order |
| JsStrings.TrimEachIdempotent | src/utils/prompts.ts:38 | trimming every piece twice is trimming it once |
| JsStrings.TrimEachKeepsOut | src/utils/prompts.ts:38 | trimming never brings a separator into a piece |
| JsStrings.SlicePrefix | src/services/openai.ts:88 | `slice(0, end)` keeps a prefix of `min(end, length)` items, or of `length + end` for a negative end (none when that is negative) |
| JsStrings.ParseNatToString | src/App.tsx:89 | the decimal rendering of a number reads back as that number |
| JsStrings.NatToStringInjective | src/App.tsx:89 | two different numbers never render to the same text |
| CodeUnits.Utf16 | src/services/storage.ts:16 | a text has at least as many code units as characters |
| CodeUnits.Latin1Units | src/services/storage.ts:16-19 | a text is all one-byte characters exactly when its code units are all bytes, so `btoa` accepts the masked text exactly then |
| CodeUnits.FromLatin1OfUtf16 | src/services/storage.ts:33 | `String.fromCharCode` of the code units of a one-byte text rebuilds the text |
| CodeUnits.XorSelfInverse | src/services/storage.ts:16 | exclusive or with the same operand twice gives the value back |
| CodeUnits.XorBelow | src/services/storage.ts:16 | exclusive or of two values below 2^n stays below 2^n |
| CodeUnits.XorKeepsWide | src/services/storage.ts:16 | exclusive or with a byte keeps a code unit above 255 above 255 |
| Base64.Btoa | src/services/storage.ts:19 | `btoa` succeeds exactly when every code unit is below 256 |
| Base64.Atob | src/services/storage.ts:29 | `atob` succeeds exactly when the text, without ASCII whitespace and optional padding, has a length other than 1 modulo 4 and only alphabet characters |
| Base64.SextetRoundTrip | src/services/storage.ts:19 | every sextet's digit reads back as that sextet |
| Base64.BytesOfGroups | src/services/storage.ts:19 | reassembling the sextets of any byte string gives the bytes back |
| Base64.DecodeEncode | src/services/storage.ts:29 | `atob` of the encoding of any byte string gives those bytes |
| Base64.AtobBtoa | src/services/storage.ts:29 | `atob` undoes every `btoa` that succeeded |
| Base64.AtobRejectsForeign | src/services/storage.ts:29 | `atob` throws on a text holding a character outside the alphabet, `=` and whitespace |
| Base64.AtobRejectsLength | src/services/storage.ts:29 | `atob` throws on alphabet text whose length leaves a remainder of 1 by 4 |
| Base64.AtobRejectsMisplacedPadding | src/services/storage.ts:29 | `atob` throws on text without whitespace that has a `=` before its last two characters |
| BrowserStorage.LocalStorage.SetItem | src/services/storage.ts:48 | the item under the key is replaced and every other item is kept |
| BrowserStorage.LocalStorage.RemoveItem | src/services/storage.ts:72 | the key is forgotten and every other item is kept |
| SecureStorage.KeyUnit | src/services/storage.ts:16 | every code unit of the repeating obfuscation key is ASCII |
| SecureStorage.MaskedTwice | src/services/storage.ts:15-18 | masking twice with the repeating key gives the code units back |
| SecureStorage.MaskedBytes | src/services/storage.ts:15-18 | the mask keeps a code unit a byte exactly when it was one |
| SecureStorage.Encrypt | src/services/storage.ts:11-24 | the loop produces the masked code units, base64-encoded, or the text itself where `btoa` throws |
| SecureStorage.Decrypt | src/services/storage.ts:26-40 | the loop produces the unmasked characters of the decoded bytes, or the text itself where `atob` throws |
| SecureStorage.DecryptEncrypt | src/services/storage.ts:11-40 | decryption undoes encryption for every text |
| SecureStorage.EncryptFallback | src/services/storage.ts:19-23 | encryption falls back to the plain text exactly when a character is above U+00FF; otherwise its result is valid base64 of the masked code units |
| SecureStorage.DecryptFallback | src/services/storage.ts:36-39 | every text that `atob` rejects is returned unchanged by decryption |
| SecureStorage.DecryptRejected | src/services/storage.ts:29-39 | a foreign character, a length of 1 modulo 4 on alphabet text, or a misplaced `=` each make decryption return the text unchanged |
| SecureStorage.Sealed | src/services/storage.ts:44-47 | the saved record keeps provider and model; only the key is obfuscated |
| SecureStorage.LoadedConfig | src/services/storage.ts:54-68 | a record is loaded exactly when the item is present and parses as a configuration |
| SecureStorage.SaveAPIConfig | src/services/storage.ts:42-52 | only the configuration item changes, to the sealed record |
| SecureStorage.GetAPIConfig | src/services/storage.ts:54-68 | returns the loaded configuration, nothing for a missing, empty or unparsable item |
| SecureStorage.ClearAPIConfig | src/services/storage.ts:70-76 | only the configuration item is removed |
| SecureStorage.HasStoredAPIConfig | src/services/storage.ts:78-80 | true exactly when a configuration record is stored |
| SecureStorage.SaveThenLoad | src/services/storage.ts:42-68 | loading after saving gives back the configuration as saved, its key included |
| SecureStorage.ClearThenLoad | src/services/storage.ts:70-80 | after clearing nothing is loaded |
| SecureStorage.HistoryWriteKeepsConfig | src/services/history.ts:17-25 | writing or removing the history leaves the loaded configuration as it was |
| History.GetHistory | src/services/history.ts:7-15 | the stored list of runs, or empty when the item is missing or not a list |
| History.Recent | src/services/history.ts:20 | the last `min(n, 50)` runs, in their order |
| History.Stamp | src/services/history.ts:29-33 | the new run carries the given id and time and the run's parameters, request and response |
| History.WithoutRun | src/services/history.ts:40 | filtering never lengthens the list |
| History.SaveHistory | src/services/history.ts:17-25 | only the history item changes, to the most recent 50 runs |
| History.AddRun | src/services/history.ts:27-36 | the history item becomes the stored runs with the stamped run appended, cut to the most recent 50 |
| History.DeleteRun | src/services/history.ts:38-42 | the history item becomes the stored runs without those with the id |
| History.ClearHistory | src/services/history.ts:44-50 | only the history item is removed |
| History.SaveThenGet | src/services/history.ts:7-25 | what is read back after a save is the last `min(n, 50)` runs, in order |
| History.AddRunAppends | src/services/history.ts:27-36 | below the cap the run is appended; at the cap the oldest run is dropped; either way the new run is last |
| History.AddedRunIsNewest | src/services/history.ts:27-36 | after adding, the log holds at most 50 runs, grows by one below the cap, and ends with the new run |
| History.WithoutRunMembers | src/services/history.ts:40 | a run is kept exactly when it was present and its id differs |
| History.WithoutRunConcat | src/services/history.ts:40 | filtering keeps the order of the remaining runs |
| History.WithoutAbsentRun | src/services/history.ts:40 | deleting an id no run carries changes nothing |
| History.DeleteAbsentRun | src/services/history.ts:38-42 | deleting an absent id from a stored log of at most 50 runs reads back the same log |
| History.ClearThenGet | src/services/history.ts:44-50 | after clearing the log reads as empty |
| BulletParse.NonEmpty | src/services/openai.ts:87 | the filter keeps only non-empty lines of the input |
| BulletParse.NonEmptyMembers | src/services/openai.ts:87 | a line is kept exactly when it is present and non-empty |
| BulletParse.NonEmptyConcat | src/services/openai.ts:87 | the filter keeps the order of the lines |
| BulletParse.NonEmptyKeepsAll | src/services/openai.ts:87 | lines that are all non-empty pass unchanged |
| BulletParse.ContentLinesAreBullets | src/services/openai.ts:84-87 | every parsed line is trimmed, non-empty and free of line breaks |
| BulletParse.ParseBulletPoints | src/services/openai.ts:84-88 | the bullets are a prefix of the content lines, as long as `slice(0, count)` makes them, and each is a well-formed bullet |
| BulletParse.ContentLinesOfEmpty | src/services/openai.ts:84-87 | an empty answer parses to no bullets |
| BulletParse.ContentLinesOfJoin | src/services/openai.ts:84-87 | well-formed bullets joined by line breaks parse back to those bullets |
| BulletParse.ReparseJoined | src/components/HistoryItem.tsx:23 | bullets copied as one text parse back to the same bullets under a count at least their number |
| BulletParse.ParseIdempotent | src/services/openai.ts:84-88 | for a non-negative count, parsing the joined result of a parse gives the same bullets |
| PromptLines.TrimIndent | src/utils/prompts.ts:36-40 | the pieces of the result are the input's pieces, each trimmed |
| PromptLines.TrimIndentIdempotent | src/utils/prompts.ts:36-40 | `trimIndent` applied twice is applied once |
| PromptLines.Bulleted | src/utils/prompts.ts:86 | one `- item` line per item |
| PromptLines.IndentedLines | src/utils/prompts.ts:82-100 | the template's indentation never reaches the prompt's lines |
| PromptLines.TrimmedJoin | src/utils/prompts.ts:86 | the trimmed lines of a join are those of the joined texts, in order |
| PromptLines.ListLines | src/utils/prompts.ts:86 | an indented, joined list falls apart into the trimmed lines of its `- item` entries |
| PromptLines.BulletLinesConcat | src/utils/prompts.ts:71-72 | the fixed items' lines come before the caller's additions |
| Prompts.CreateResumeBulletsPrompt | src/utils/prompts.ts:62-101 | no line of the prompt starts or ends with whitespace |
| Prompts.BulletCount | src/utils/prompts.ts:69 | the count the prompt names is never 0: the requested one, or 5 in its place |
| Prompts.FinalLineIsSingleLine | src/utils/prompts.ts:98 | the closing line is one trimmed line |
| Prompts.SystemLines | src/utils/prompts.ts:83 | the system section is the message with its space-separated words trimmed, between empty lines |
| Prompts.ListSectionLines | src/utils/prompts.ts:85-86 | a list section is its heading, the fixed items, the additions and an empty line |
| Prompts.RequirementLines | src/utils/prompts.ts:71 | the requirements section lists the critical requirements, then the caller's |
| Prompts.JobLines | src/utils/prompts.ts:88-90 | the job section is the title, company and description lines, then an empty line |
| Prompts.ExperienceLines | src/utils/prompts.ts:92-93 | the experience section is the work experience and skills lines, then an empty line |
| Prompts.InstructionLines | src/utils/prompts.ts:72 | the instructions section lists the fixed instructions, then the caller's |
| Prompts.FinalLines | src/utils/prompts.ts:98 | the closing line survives the final trim unchanged |
| Prompts.PromptLayout | src/utils/prompts.ts:62-101 | the prompt's lines are the six sections in order, ending with the line naming the count |
| Prompts.PromptEndsWithCount | src/utils/prompts.ts:69 | the last line names the requested count, 5 when it is 0 |
| OpenAI.New | src/services/openai.ts:37-44 | an undefined model or token bound takes its default ("gpt-4", 1000); a given one is kept |
| OpenAI.BuildRequest | src/services/openai.ts:51-64 | a system message and the prompt as the user message, with the adapter's token bound |
| OpenAI.ReadResponse | src/services/openai.ts:75-90 | a network failure, a non-ok status and an unreadable body throw, the status with its prefixed body text; otherwise the parsed bullets with no error |
| OpenAI.GenerateBulletPoints | src/services/openai.ts:46-91 | a successful call carries no error |
| OpenAI.SuccessCarriesBullets | src/services/openai.ts:84-90 | a success holds at most `bulletPointCount` well-formed bullets |
| OpenAI.BodyModel | src/services/openai.ts:52 | a non-empty configured model is sent; otherwise the adapter's own model |
| OpenAI.ModelChoice | src/services/openai.ts:52 | a non-empty configured model is sent, "gpt-4" when none is configured, the empty model when it is empty; the configured token bound or 1000 |
| Anthropic.New | src/services/anthropic.ts:37-44 | an undefined model or token bound takes its default ("claude-3-5-sonnet-20241022", 1000); a given one is kept |
| Anthropic.BuildRequest | src/services/anthropic.ts:51-55 | one user message whose single text block is the prompt, with the adapter's model and token bound |
| Anthropic.ReadResponse | src/services/anthropic.ts:68-84 | a network failure, a non-ok status and an unreadable body throw, the status with its prefixed body text; otherwise the parsed bullets with no error |
| Anthropic.GenerateBulletPoints | src/services/anthropic.ts:46-85 | a successful call carries no error |
| Anthropic.SuccessCarriesBullets | src/services/anthropic.ts:78-84 | a success holds at most `bulletPointCount` well-formed bullets |
| Anthropic.ModelChoice | src/services/anthropic.ts:52 | the adapter's model is sent: the configured one, else the default; the configured token bound or 1000 |
| Proxy.SelectService | src/services/proxy.ts:12-21 | no adapter exactly for an unknown provider; otherwise the provider's adapter built from the configuration |
| Proxy.Call | src/services/proxy.ts:24 | the response either adapter returns carries no error |
| Proxy.Normalise | src/services/proxy.ts:23-31 | a response passes unchanged; a thrown error becomes no bullets and its message, anything else thrown "Unknown error" |
| Proxy.GenerateBulletPoints | src/services/proxy.ts:8-32 | the dispatcher throws exactly for an unknown provider |
| Proxy.UnsupportedProvider | src/services/proxy.ts:19-20 | the error thrown for an unknown provider names it |
| Proxy.ErrorOnlyFromThrow | src/services/proxy.ts:23-31 | for a known provider the response has an error exactly when the adapter threw |
| NumberInput.HandleDecrease | src/components/NumberInput.tsx:14-18 | a value is emitted exactly when above the minimum, one lower |
| NumberInput.HandleIncrease | src/components/NumberInput.tsx:20-24 | a value is emitted exactly when below the maximum, one higher |
| NumberInput.StepsStayInRange | src/components/NumberInput.tsx:14-24 | from a value in range, every step stays in range and moves by one in its direction |
| NumberInput.DecreaseDisabled | src/components/NumberInput.tsx:36 | (predicate) the value is at or below the minimum |
| NumberInput.IncreaseDisabled | src/components/NumberInput.tsx:52 | (predicate) the value is at or above the maximum |
| NumberInput.DisabledIffNoOp | src/components/NumberInput.tsx:34-52 | each button is disabled exactly when its handler would emit nothing |
| HistoryItemView.TruncateText | src/components/HistoryItem.tsx:14-16 | a text within the bound is unchanged; a longer one becomes its first `maxLength` characters and "..." |
| HistoryItemView.DetailPreview | src/components/HistoryItem.tsx:83-93 | the job description and the experience are shown cut at the default 100 characters: each fits in 103, begins like its field, and is the field itself when that fits |
| HistoryItemView.TruncateBound | src/components/HistoryItem.tsx:14-16 | the result fits the bound plus three and begins like the text; it equals the text exactly when the text fits or already is its own truncation |
| HistoryItemView.Preview | src/components/HistoryItem.tsx:104-108 | the first two bullets, each cut to 80 characters |
| HistoryItemView.MoreCount | src/components/HistoryItem.tsx:109-113 | a positive "+N more" exactly when there are more than two bullets |
| HistoryItemView.PreviewAccountsForAll | src/components/HistoryItem.tsx:104-113 | the preview and the "+N more" count add up to all bullets |
| HistoryItemView.HistoryItem.constructor | src/components/HistoryItem.tsx:8 | no copy is under way |
| HistoryItemView.HistoryItem.CopyAllBulletPoints | src/components/HistoryItem.tsx:18-31 | nothing during a copy; otherwise the bullets joined by line breaks reach the clipboard, and a clipboard failure resets the flag |
| HistoryItemView.HistoryItem.CopyFeedbackEnded | src/components/HistoryItem.tsx:26 | the copy flag is cleared |
| RunHistoryView.SortNewestFirst | src/components/RunHistory.tsx:22 | the array ends newest first and is a permutation of what it held |
| RunHistoryView.InsertNewest | src/components/RunHistory.tsx:22 | one more run joins the newest-first prefix, as a permutation |
| RunHistoryView.WithoutRunKeepsOrder | src/components/RunHistory.tsx:28 | deleting from a newest-first list keeps it newest first |
| RunHistoryView.RunHistoryView.constructor | src/components/RunHistory.tsx:12-13 | no runs, loading |
| RunHistoryView.RunHistoryView.LoadHistory | src/components/RunHistory.tsx:19-24 | the displayed runs are the stored ones, newest first, and loading has ended |
| RunHistoryView.RunHistoryView.HandleDelete | src/components/RunHistory.tsx:26-29 | the run goes from storage and from the view, where the rest keep their order |
| RunHistoryView.RunHistoryView.HandleClearAll | src/components/RunHistory.tsx:31-36 | on confirmation storage and view are emptied; otherwise nothing changes |
| APISetupView.HandleProviderChange | src/components/APISetup.tsx:23-29 | the provider changes with the first model of its list; key and token bound are kept |
| APISetupView.HandleKeyChange | src/components/APISetup.tsx:31-33 | only the key changes |
| APISetupView.HandleModelChange | src/components/APISetup.tsx:35-37 | only the model changes |
| APISetupView.SavedRecord | src/components/APISetup.tsx:41-45 | provider and key are saved, an undefined model as the empty one |
| APISetupView.FromSaved | src/components/APISetup.tsx:53-57 | the stored provider, key and model, with no token bound |
| APISetupView.SaveThenLoadConfig | src/components/APISetup.tsx:39-59 | loading after saving passes back the saved provider, key and model, without the token bound |
| APISetupView.APISetupView.constructor | src/components/APISetup.tsx:19-21 | the flag says whether a configuration is stored |
| APISetupView.APISetupView.HandleSaveConfig | src/components/APISetup.tsx:39-48 | nothing without a key; otherwise the record is stored and the flag set |
| APISetupView.APISetupView.HandleLoadStoredConfig | src/components/APISetup.tsx:50-59 | a configuration is passed exactly when one is stored, and it is the stored one |
| APISetupView.APISetupView.HandleClearStoredConfig | src/components/APISetup.tsx:61-67 | on confirmation the record goes, the flag drops and the key is emptied; otherwise nothing changes |
| App.InitialConfig | src/App.tsx:42-57 | the saved provider, key and model, else Anthropic with an empty key and its default model |
| App.StartsWithSavedConfig | src/App.tsx:42-57 | a saved configuration is the one the next start begins with |
| App.Numbered | src/App.tsx:88-92 | one entry per bullet, with its text, id "k+1" and not copied |
| App.NumberedIdsDistinct | src/App.tsx:88-92 | no two listed bullets share an id |
| App.Failed | src/App.tsx:84 | (predicate) the response carries a non-empty error |
| App.FailureMessage | src/App.tsx:108 | an error's message, else the generic failure text |
| App.MarkCopied | src/App.tsx:119-131 | exactly the bullets with the id get the flag; ids and texts are kept |
| App.MarkAbsent | src/App.tsx:119-123 | an id no bullet carries changes nothing |
| App.CopyMarksOne | src/App.tsx:115-134 | copying a listed bullet marks it alone, and the timer restores the list |
| App.IsFormValid | src/App.tsx:149 | (predicate) title, company, description, experience and key all non-empty |
| App.FormValidity | src/App.tsx:149 | a form is valid exactly when title, company, description, experience and key are all non-empty; skills and the count never matter |
| App.RestoredForm | src/App.tsx:137-140 | the run's parameters, with a count of 0 replaced by 5 |
| App.UnknownProviderMessage | src/App.tsx:107-108 | an unknown provider is shown as "Unsupported provider: " and its name |
| App.ShownError | src/App.tsx:84-109 | no error exactly for a response without a non-empty error; else the response's error or the thrown message |
| App.ShownBullets | src/App.tsx:84-109 | no bullets on an error, else the response's bullets numbered |
| App.Logged | src/App.tsx:84-106 | storage changes only on success, by appending the stamped run to the log |
| App.SuccessLogsOneRun | src/App.tsx:96-103 | after a success the newest logged run is the one generated, and the log grows by one below the cap |
| App.AppState.constructor | src/App.tsx:33-62 | an empty form asking for five bullets, the stored configuration, nothing generated, the input tab, no error |
| App.AppState.Settle | src/App.tsx:84-112 | error and bullets as `ShownError` and `ShownBullets` give, the run logged on success, the busy flag cleared |
| App.AppState.GenerateBulletPointsHandler | src/App.tsx:68-113 | without a key: the missing-key error and the API tab, nothing sent or stored; otherwise the dispatcher's outcome settled over a cleared error |
| App.AppState.CopyToClipboard | src/App.tsx:115-124 | the text of a bullet with the id is written exactly when one exists, and every such bullet is marked |
| App.AppState.CopyFeedbackEnded | src/App.tsx:126-132 | the mark of the id is cleared; nothing else changes |
| App.AppState.LoadRunFromHistory | src/App.tsx:136-147 | the run's form and provider and model with the current key, the input tab |

## Left out

- Network, timers and the clipboard are not executed. `fetch` is a function
  parameter. The `setTimeout` callbacks are methods of their own. A clipboard
  failure is a flag; `App.AppState.CopyToClipboard` assumes the clipboard
  write succeeds.
- `Date.now()` and `Math.random()` are parameters (`timestamp`, `id`) of
  `History.AddRun`. `generateId`'s base-36 rendering is not modelled.
- `window.confirm` is the `confirmed` parameter.
- `async`/`await` is sequential. No interleaving of handlers is modelled.
- SecureStorage.SaveAPIConfig, SecureStorage.ClearAPIConfig, History.SaveHistory
  and History.ClearHistory: the model's `setItem` and `removeItem` always
  succeed. The source catches a failing write (a full or unavailable
  `localStorage`), logs it and leaves storage unchanged; that path is not
  modelled. In particular `APISetupView.APISetupView.HandleSaveConfig` sets
  `hasStoredConfig` after saving, which the source also does when the write
  failed and nothing was stored (src/components/APISetup.tsx:46).
- `console.debug` and `console.error` are left out; they change no state.
- `maxTokens`, `bulletPointCount` and `timestamp` are JavaScript numbers
  (src/types/api.ts:7, 16; src/types/history.ts:5) and are modelled as
  unbounded integers: the core never gives them a fractional value, and
  floating-point rounding of very large values is not modelled.
- JSON: a stored item is either the record `JSON.stringify` wrote or
  `Corrupt`. Well-formed JSON of the wrong shape is treated like unparsable
  text, although the source would pass such an object on. The response
  body's `choices[0].message.content` (OpenAI) or `content[0].text`
  (Anthropic) arrives already extracted, or as a thrown error when it cannot
  be read.
- String lengths (`length`, `substring`) count characters, not UTF-16 code
  units. Only the credential obfuscation works on code units.
- `Array.prototype.sort` is modelled by an insertion sort. Only the order and
  the permutation are proved; which of two runs with equal timestamps comes
  first is not.
- `App`'s `handleInputChange` is not modelled: the field it sets is a runtime
  key. The rendering, `formatDate` and the password visibility toggle of
  `APISetup` are presentation only.
- The displayed run count of the history tab is the length of
  `RunHistoryView.RunHistoryView.history` and has no member of its own.
- OpenAI.GenerateBulletPoints: its own contract states only that a success
  carries no error. The properties of what it returns are stated on
  `OpenAI.ReadResponse` and `OpenAI.SuccessCarriesBullets`, because unfolding
  the prompt text in its contract is too costly for the verifier.
- Anthropic.GenerateBulletPoints: the same as for OpenAI, with
  `Anthropic.ReadResponse` and `Anthropic.SuccessCarriesBullets`.
- JsStrings.Trim: its own contract does not say that the result is an infix
  of the input with only whitespace around it. `JsStrings.TrimIsInfix` states
  that, and `JsStrings.TrimUnique` shows that it determines the result. Carrying
  it on every use of `Trim` makes the proofs about split lines too costly for
  the verifier.
- History.WithoutRun: its own contract bounds only the length. Which runs it
  keeps, and their order, are stated by `History.WithoutRunMembers` and
  `History.WithoutRunConcat`.
