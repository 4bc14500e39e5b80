# Pricing strategy chat: a Dafny model of the chat core

This project models the deterministic core of the pricing-strategy chat
application. The core has five parts:

- **`POST /api/chat`**: the keyword reply selector. It lowercases the message
  and tests for `price`/`pricing`, then `elasticity`, then `competition`, then
  falls back to the general reply. Only a pricing question builds the
  `pricing-analysis` artifact, and any exception gives the 500 answer.
- **`ChatInterface`**: the conversation state, which is the message log, the
  artifact log and the loading flag. Its one transition, `handleSendMessage`,
  is taken as an atomic step driven by an abstract gateway outcome.
- **`InputArea`**: the draft composer. It covers the text, the ordered list of
  pending attachments, the upload dialog flag, its three handlers and the
  condition that enables the send button.
- **`POST /api/parse`**: the `fileId` check, followed by the ordered
  `spreadsheet`/`csv`, then `pdf`, dispatch on `fileType`.
- **`POST /api/upload`**: the empty-list check, followed by a map that keeps
  length and order.

It also covers the records of `lib/types/message.ts`, the `Artifact` record
with its closed `ArtifactType` enumeration, and the default file-validation
constants.

Modules follow the source files:

| module | file | models |
|---|---|---|
| `Wrappers` | wrappers.dfy | `Option` |
| `Text` | text.dfy | `toLowerCase`, `includes`, `trim` on `seq<char>` |
| `Json` | json.dfy | values found in a parsed request body, truthiness |
| `Types` | types.dfy | lib/types/message.ts, lib/types/artifacts.ts:5-23 |
| `ChatRoute` | chat_route.dfy | app/api/chat/route.ts |
| `ParseRoute` | parse_route.dfy | app/api/parse/route.ts |
| `UploadRoute` | upload_route.dfy | app/api/upload/route.ts |
| `InputArea` | input_area.dfy | components/chat/InputArea.tsx |
| `ChatInterface` | chat_interface.dfy | components/chat/ChatInterface.tsx |

### Abstractions

- **Ids and clocks are parameters.** This covers `generateId()`, `Date.now()`,
  `Math.random()` and `new Date()`. Per-element values are functions of the
  element's index, and times are millisecond counts (`Time`). The source does
  not promise that ids are unique, and neither does the model.
- **A request body is a `Json.Body`.**
  - `Unparsable` stands for `request.json()` rejecting.
  - `NullBody` is a `null` body, whose destructuring throws.
  - `Fields` is the map of the body's own fields; a missing field reads as
    `Undefined`.
- **The chat client sees the network as a `GatewayOutcome`.** Either something
  threw, or a JSON value came back whose `message` (a string or not) and
  `artifact` (truthy or not) fields are read. `Deliver` connects this to the
  model of the mock route, so the client and the route can be reasoned about
  together.
- **`toLowerCase` is modelled on ASCII capitals only.** For the keyword
  dispatch this is exact:
  - every keyword is lowercase ASCII;
  - apart from two characters, no non-ASCII character lowercases to anything
    containing an ASCII letter;
  - U+212A KELVIN SIGN becomes `k`, which no keyword contains;
  - U+0130 becomes `i` followed by U+0307. No keyword ends in `i` or contains
    U+0307, so that `i` can never start or continue a match.
- **`trim` removes the full ECMAScript white-space and line-terminator set.**
  That set is written out code point by code point.

## Model

| member | source | states |
|---|---|---|
| Text.Lower | app/api/chat/route.ts:20 | lowercasing keeps the length and maps every position independently, ASCII capitals to their lowercase letter |
| Text.LowerFacts | app/api/chat/route.ts:20 | a lowercased text has no capitals, lowercasing twice is lowercasing once, and a text without capitals is its own lowercase |
| Text.Includes | app/api/chat/route.ts:20 | the left-to-right scan of `includes` is true exactly when the keyword occurs at some index (the empty keyword occurs everywhere) |
| Text.IncludesLowerIsCaseInsensitive | app/api/chat/route.ts:20 | searching the lowercased text for a lowercase keyword is exactly a case-insensitive occurrence test on the original text |
| Text.AbsentLetterRulesOut | app/api/chat/route.ts:39 | a keyword with a letter the text never has, case aside, does not occur in the text case-insensitively |
| Text.AbsentLetterExcludes | app/api/parse/route.ts:26 | a keyword with a letter the text never has does not occur in it |
| Text.AbsentPairExcludes | app/api/parse/route.ts:26 | a keyword with two adjacent letters the text never has side by side does not occur in it |
| Text.TrimStart | components/chat/InputArea.tsx:47 | the result is a suffix, the dropped prefix is all white space, and the result does not start with white space |
| Text.TrimEnd | components/chat/InputArea.tsx:47 | the result is a prefix, the dropped suffix is all white space, and the result does not end with white space |
| Text.Trim | components/chat/InputArea.tsx:47 | the result is a slice of the input with only white space outside it and no white space at either of its ends |
| Text.TrimEmptyIff | components/chat/InputArea.tsx:46 | `!input.trim()` holds exactly when the input is white space only |
| Text.TrimIdempotent | components/chat/InputArea.tsx:47 | trimming an already trimmed text changes nothing |
| Types.ParseRole | lib/types/message.ts:5 | exactly the three spellings `user`, `assistant`, `system` are roles, and each reads back to the role with that spelling |
| Types.RoleRoundTrip | lib/types/message.ts:5 | every role reads back from its spelling, so the role set is closed with three members |
| Types.ParseArtifactType | lib/types/artifacts.ts:5-13 | exactly the eight artifact-type spellings are artifact types, each reading back to the type with that spelling |
| Types.ArtifactTypeRoundTrip | lib/types/artifacts.ts:5-13 | every artifact type reads back from its spelling |
| Types.DefaultFileValidationValues | lib/types/message.ts:37-49 | max size 10485760 bytes, max 5 files, exactly seven pairwise distinct allowed MIME types, including `image/jpeg`, `image/jpg` and `text/csv` but not `application/zip` |
| ChatRoute.ClassifyMeaning | app/api/chat/route.ts:20-67 | pricing iff the message mentions `price` or `pricing` case-insensitively; elasticity iff no price keyword and `elasticity`; competition iff none of those and `competition`; general iff no keyword at all |
| ChatRoute.ClassifyIgnoresCase | app/api/chat/route.ts:20-47 | two messages equal after lowercasing get the same topic |
| ChatRoute.Decimal | app/api/chat/route.ts:31 | the printed `Date.now()` is a non-empty string of decimal digits without leading zeros whose value is the clock reading |
| ChatRoute.DecimalInjective | app/api/chat/route.ts:31 | different clock readings print differently, so they give different artifact ids |
| ChatRoute.HandleChat | app/api/chat/route.ts:8-80 | success iff the body has a string `message`, otherwise 500 with `Failed to process message`; on success 200, the message's topic, and an artifact exactly for a pricing question, with id `artifact-` followed by the decimal of the clock reading, type `pricing-analysis`, the fixed title and description, `{}` data and the two clock reads |
| ChatRoute.ReplyTextNonEmpty | app/api/chat/route.ts:69-73 | every normal reply carries a non-empty message |
| ChatRoute.ReplyDependsOnlyOnMessage | app/api/chat/route.ts:11-67 | bodies with the same `message` get the same answer, whatever `files` or other fields hold |
| ChatRoute.PriceBeatsElasticity | app/api/chat/route.ts:20-39 | "price elasticity" is a pricing question, since the first match wins |
| ChatRoute.PriceElasticityAnswer | app/api/chat/route.ts:20-38 | "price elasticity" gets the pricing reply and the pricing artifact |
| ChatRoute.PricingQuestionTopic | app/api/chat/route.ts:20 | "What price should I charge?" is a pricing question |
| ChatRoute.PricingQuestionExample | app/api/chat/route.ts:20-38 | "What price should I charge?" gets the pricing reply and the pricing artifact |
| ChatRoute.UpperCaseExample | app/api/chat/route.ts:20 | "PRICING" is a pricing question |
| ChatRoute.ElasticityQuestionTopic | app/api/chat/route.ts:39 | "Tell me about elasticity" is an elasticity question |
| ChatRoute.ElasticityQuestionExample | app/api/chat/route.ts:39-46 | "Tell me about elasticity" gets the elasticity reply and no artifact |
| ChatRoute.GeneralTopicExample | app/api/chat/route.ts:56 | "Hello" mentions no keyword and is a general question |
| ChatRoute.GeneralExample | app/api/chat/route.ts:56-67 | "Hello" gets the general reply and no artifact |
| ChatRoute.FailureExamples | app/api/chat/route.ts:74-79 | a missing message, a numeric message, a `null` body and unparsable JSON all get 500 with `Failed to process message` |
| ParseRoute.OptionalIncludes | app/api/parse/route.ts:26 | `fileType?.includes(k)` throws exactly for values other than undefined, null, string or array; `undefined` and `null` short-circuit to not found; on a string it finds exactly the substring occurrences; on an array it finds exactly the equal elements |
| ParseRoute.DataForType | app/api/parse/route.ts:24-46 | spreadsheet data iff the type contains `spreadsheet` or `csv`; PDF data iff it contains neither but contains `pdf`; `{}` iff it contains none of the three |
| ParseRoute.HandleParse | app/api/parse/route.ts:8-60 | unparsable or null body gives 500; a falsy `fileId` gives 400 with `File ID required` before anything else; success iff `fileId` is truthy and the type test does not throw; on success 200, `File parsed successfully` and the payload for the type (`{}` when the type is missing); a truthy `fileId` with a `fileType` that has no `includes` (number, boolean, object) gives 500 with `Failed to parse file`; every failure is 400 or 500 |
| ParseRoute.DataFor | app/api/parse/route.ts:24-46 | a missing or `null` type gives `{}`; a string type is dispatched on its substrings; an array type gets spreadsheet data iff it has the element `spreadsheet` or `csv`, PDF data iff it has neither but has `pdf`, `{}` iff it has none of them |
| ParseRoute.ArrayTypePayload | app/api/parse/route.ts:26-36 | an array type is tested for equal elements, not substrings: `["pdf", "csv"]` gets spreadsheet data and `["application/pdf"]` gets `{}` |
| ParseRoute.DataForStringIsDataForType | app/api/parse/route.ts:26-36 | a string `fileType` never throws and is dispatched by its substring tests |
| ParseRoute.SheetBeatsPdf | app/api/parse/route.ts:26-36 | a type containing both `csv` and `pdf` gets the spreadsheet data |
| ParseRoute.PdfTypePayload | app/api/parse/route.ts:36-45 | `application/pdf` gets the PDF data |
| ParseRoute.LegacyExcelTypePayload | app/api/parse/route.ts:24-36 | `application/vnd.ms-excel` matches neither test and gets `{}` |
| ParseRoute.SheetTypesPayload | app/api/parse/route.ts:26-35 | the OOXML spreadsheet type and `text/csv` get the spreadsheet data |
| ParseRoute.ImageTypesPayload | app/api/parse/route.ts:24-36 | the three image types get `{}` |
| ParseRoute.TypeTestIsCaseSensitive | app/api/parse/route.ts:26 | `text/CSV` gets `{}`, because the type test is case-sensitive |
| ParseRoute.ParseErrorExamples | app/api/parse/route.ts:13-18 | a missing or empty `fileId` gives 400 even with a valid type; a `null` body and a numeric type give 500; a bare `fileId` gives `{}` |
| UploadRoute.HandleUpload | app/api/upload/route.ts:8-45 | non-form body gives 500, an empty list gives 400 with `No files provided`; otherwise 200 with one entry per form entry in order, copying name, size and type, with the given id and time and url `/uploads/<name>` |
| UploadRoute.UploadKeepsNamesInOrder | app/api/upload/route.ts:24-26 | the answer's names, in order, are the request's names |
| UploadRoute.UrlRecoversName | app/api/upload/route.ts:29 | every url starts with `/uploads/`, and the rest of it is the entry's name |
| UploadRoute.TwoFilesExample | app/api/upload/route.ts:24-31 | two files give two entries, first to first |
| InputArea.SelectFiles | components/chat/InputArea.tsx:29-39 | the selected files go after the existing drafts in selection order, copying name, size and type with the given id and time and no url; the text is kept and the dialog closes |
| InputArea.WithoutId | components/chat/InputArea.tsx:42 | an entry is kept exactly when it was there and does not carry the id |
| InputArea.WithoutIdAppend | components/chat/InputArea.tsx:42 | the filter distributes over concatenation, so the kept entries keep their relative order |
| InputArea.WithoutAbsentId | components/chat/InputArea.tsx:42 | a list without the id is left unchanged |
| InputArea.WithoutIdIdempotent | components/chat/InputArea.tsx:41-43 | removing the same id twice is removing it once |
| InputArea.RemoveFile | components/chat/InputArea.tsx:41-43 | the remaining drafts are exactly those without the id; the text and the dialog flag are kept |
| InputArea.SelectThenRemove | components/chat/InputArea.tsx:29-43 | attaching one file and removing it by its fresh id gives the old drafts back |
| InputArea.HandleSend | components/chat/InputArea.tsx:45-50 | nothing is sent and nothing changes iff the text is white space only and there are no drafts; otherwise the trimmed text and the drafts (`undefined` when none) are sent and text and drafts are cleared |
| InputArea.ButtonMatchesGuard | components/chat/InputArea.tsx:100 | the enabled button and the send guard agree, and a disabled area never enables the button |
| InputArea.SentContentIsTrimmed | components/chat/InputArea.tsx:47 | the sent content neither starts nor ends with white space |
| InputArea.EmptyDraftCannotSend | components/chat/InputArea.tsx:25-27 | the initial composer (empty text, no drafts) has its button disabled and a send leaves it unchanged and sends nothing |
| InputArea.SendExamples | components/chat/InputArea.tsx:45-50 | blank text with no files is a no-op; blank text with a file sends an empty content with that file |
| ChatInterface.RequestFor | components/chat/ChatInterface.tsx:39-42 | the request carries the content, and for each attachment only its name and type, in order; `files` is absent exactly when there are no attachments |
| ChatInterface.ReplyContent | components/chat/ChatInterface.tsx:51-71 | the apology when the send threw; otherwise `data.message` when it is a non-empty string and the default text when it is missing or empty |
| ChatInterface.NewArtifacts | components/chat/ChatInterface.tsx:58-60 | exactly one artifact is added iff JSON came back with a truthy artifact (whatever `success` says), and it is that artifact |
| ChatInterface.Send | components/chat/ChatInterface.tsx:16-77 | the log grows by the user turn then the reply turn, the artifact log grows by the answer's artifact if any, and the flag ends false |
| ChatInterface.BeginSendIsBusy | components/chat/ChatInterface.tsx:29-30 | before the reply, the user turn is the last message, earlier turns and the artifacts are unchanged and the flag is set, so the composer (`disabled={isLoading}`) cannot send; a send is that first half followed by the reply half |
| ChatInterface.SendTurns | components/chat/ChatInterface.tsx:21-76 | exactly two turns are appended and earlier turns and artifacts are untouched; the user turn has the content and attachments; the assistant turn has the chosen reply and neither attachments nor an artifact id; at most one artifact is added; the flag is false |
| ChatInterface.SendKeepsPaired | components/chat/ChatInterface.tsx:29-55 | a send keeps the log a sequence of (user, assistant) pairs |
| ChatInterface.RunAppendsTurns | components/chat/ChatInterface.tsx:29-55 | a run of sends keeps every earlier turn in place and adds two turns per send |
| ChatInterface.RunAppendsArtifacts | components/chat/ChatInterface.tsx:58-60 | a run of sends appends the sends' artifacts in send order |
| ChatInterface.RunEndsIdle | components/chat/ChatInterface.tsx:74-76 | after any non-empty run of sends the flag is false |
| ChatInterface.RunKeepsPaired | components/chat/ChatInterface.tsx:29-55 | from a log of pairs, any run of sends ends in a log of pairs, so every user turn is followed by exactly one assistant turn |
| ChatInterface.RunFromInitialSession | components/chat/ChatInterface.tsx:12-14 | from the empty initial session, n sends give exactly n (user, assistant) pairs, and the artifact log is exactly the sends' artifacts in order |
| ChatInterface.RunTurnContents | components/chat/ChatInterface.tsx:21-55 | the k-th send's turns sit at positions 2k and 2k+1 after the old log and carry its content and its chosen reply |
| ChatInterface.MockRouteOutcome | components/chat/ChatInterface.tsx:34-51 | against the mock route the client always gets JSON with the reply text for its content, and an artifact of type `pricing-analysis` exactly for a pricing question |
| ChatInterface.SendThroughMockRoute | components/chat/ChatInterface.tsx:48-60 | against the mock route a send never takes the fallback texts: the reply turn is the route's reply, and one artifact is appended exactly for a pricing question |
| ChatInterface.FailedRouteGivesDefault | components/chat/ChatInterface.tsx:51 | a parsed error body yields the default text, not the apology, and no artifact |
| ChatInterface.ThrowGivesApology | components/chat/ChatInterface.tsx:61-76 | a send that throws still appends exactly one assistant turn, the apology, adds no artifact and clears the flag |

## Left out

- Simulated latency (the `setTimeout` delays in the three routes) and React
  state batching: each handler is one atomic step.
- `fetch`, `request.json()` and `request.formData()` as I/O. Their outcomes
  are inputs: a `Json.Body`, an optional list of form entries, a
  `GatewayOutcome`.
- Id and clock generation (`generateId`, `Date.now()`, `Math.random()`,
  `new Date()`). These are parameters. The two `new Date()` reads for an
  artifact's `createdAt`/`updatedAt` are separate inputs, and upload times are
  millisecond counts rather than ISO text.
- The floating-point `summary` of the spreadsheet payload
  (`avgPrice`, `totalRevenue`, `profitMargin`). The spreadsheet payload keeps
  `rows` and `columns`, and the summary is treated as part of that constant.
- The artifact payload interfaces of lib/types/artifacts.ts:25-77. These are
  unused by the core, and `data` is modelled as `{}` or opaque.
- `ChatState` in lib/types/message.ts. No code of the core reads or writes it.
- File validation in components/chat/FileUpload.tsx. It passes
  `DEFAULT_FILE_VALIDATION.maxSize` and `maxFiles` to react-dropzone, which
  applies them to each selection; that library is not part of this model, so
  only the constants are. `allowedTypes` is never consulted (the dropzone has
  its own accept map), and nothing caps the drafts accumulated across
  selections (components/chat/InputArea.tsx:37), so the model has no cap
  either.
- `console.error` logging, rendering and layout, and the Enter-key handler,
  which just calls `handleSend`.
- Unicode `toLowerCase` beyond ASCII capitals, for the reason given above.
  Lone UTF-16 surrogates cannot occur in a Dafny string.
- ChatInterface.ReplyContent: a non-string truthy `data.message` (a number,
  for example) would be used as content. The model reads a non-string
  `message` as absent, because the chat route only ever sends a string.
- ChatInterface.Send: the assistant turn is not linked to the artifact through
  `artifactId`. The code never sets that field, and the model follows the
  code.
- ChatInterface.NewArtifacts: a truthy `data.artifact` that is not an
  artifact record (a string, say) would be appended as it is. The model
  represents only artifact records, which is all the chat route sends.
