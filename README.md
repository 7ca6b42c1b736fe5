# Contract Insights: chat request, prompt and session model

A Dafny model of the logic in a small chat-over-PDFs web app. The app has two pieces of real logic:

- **The contract-chat flow** (`src/ai/flows/chat-with-contracts-flow.ts`, module `ChatFlow` in
  `chat_flow.dfy`). It tags every contract with an `isPdf` flag derived from its data URI. It renders
  the fixed prompt template into a sequence of segments, each either `Text(s)` or `Media(url)`. It
  turns a missing model output into the error `Failed to generate chat response, output was null.`
  The model is a function parameter that rejects, resolves to no output, or resolves to an output.
- **The page's session state** (`src/app/page.tsx`, class `ChatPage.ContractChatSession` in
  `chat_page.dfy`). The class holds:
  - the uploaded contracts;
  - the transcript;
  - the input box;
  - the two loading flags;
  - the error slot.

  Its handlers are:
  - `HandleFilesUpload`: the validating loop over a batch of files;
  - `HandleSendMessage`: the guards, then the question and exactly one AI message appended;
  - `ResetState`.

  Each handler returns the notifications it raises, as `Toast` tags.

Supporting modules:
- `Schemas` (`schemas.dfy`) holds the record shapes of `src/ai/schemas.ts`.
- `Text` (`text.dfy`) holds JavaScript's `startsWith` and `trim`.
- `Wrappers` (`wrappers.dfy`) holds `Option`, `Result` and `Thrown`. `Thrown` is a thrown value: an
  `Error` with a message, or anything else.

Template rendering follows Handlebars' standalone-tag rule. A line that holds only a block tag
(`{{#if}}`, `{{#each}}`, `{{else}}`, `{{/if}}`, `{{/each}}`) prints nothing, not even its newline.
Values are interpolated verbatim. "One `Contract Filename:` block per contract" is stated about the
segments the template emits: a header segment is one framed by `Contract Filename: ` and
`\nContract Content:\n`, and `HeaderNames` reads the announced names back. The claim is made at that
level because the user's question or a file name may themselves contain such text.

Three facts about the code shape the model:
- The fixed instructions open the prompt, before the contracts
  (src/ai/flows/chat-with-contracts-flow.ts:45-48).
- The flow has no check for an empty query. A blank question is stopped by the page's guard
  (src/app/page.tsx:109) and never reaches the flow.
- A model failure is not folded into the response text. It propagates out of the flow as a thrown
  error, and the page's `catch` turns it into the apology message (src/app/page.tsx:148-163).

## Model

| member | source | states |
|---|---|---|
| `Wrappers.MessageOr` | src/app/page.tsx:150 | an `Error` contributes its own message; any other thrown value contributes the fallback text |
| `Text.TrimStart` | src/app/page.tsx:119 | the result is a suffix of the input; everything dropped is whitespace; the result starts with non-whitespace or is empty |
| `Text.TrimEnd` | src/app/page.tsx:119 | the result is a prefix of the input; everything dropped is whitespace; the result ends with non-whitespace or is empty |
| `Text.Trim` | src/app/page.tsx:119 | the result is the input with exactly its leading and trailing whitespace removed: an infix whose surroundings are all whitespace, starting and ending with non-whitespace unless it is empty |
| `Text.BlankIffAllWhitespace` | src/app/page.tsx:109 | the input counts as blank exactly when every character is JavaScript whitespace |
| `ChatFlow.PrepareContract` | src/ai/flows/chat-with-contracts-flow.ts:26-29 | file name and data URI are kept; `isPdf` is set to whether the data URI starts with `data:application/pdf`, whatever the caller supplied |
| `ChatFlow.PreparePromptInput` | src/ai/flows/chat-with-contracts-flow.ts:25-31 | the query is kept; the same number of contracts in the same order; each contract keeps name and URI and gets `isPdf` from its URI's prefix |
| `ChatFlow.IsPdfDependsOnPrefixOnly` | src/ai/flows/chat-with-contracts-flow.ts:28 | two contracts whose data URIs share the first 20 characters get the same flag, whatever their names or earlier flags |
| `ChatFlow.PdfPrefixMakesPdf` | src/ai/flows/chat-with-contracts-flow.ts:28 | every URI that begins with the PDF prefix is flagged, whatever follows the prefix |
| `ChatFlow.PrepareIdempotent` | src/ai/flows/chat-with-contracts-flow.ts:25-31 | preparing an already prepared input returns it unchanged |
| `ChatFlow.ContractBlock` | src/ai/flows/chat-with-contracts-flow.ts:52-59 | a block opens with the contract's filename header and closes with `---` |
| `ChatFlow.RenderPrompt` | src/ai/flows/chat-with-contracts-flow.ts:45-67 | the prompt begins with the fixed instructions and ends with `User's Question: <query>` followed by `AI Response:` |
| `ChatFlow.HeaderRoundTrip` | src/ai/flows/chat-with-contracts-flow.ts:52 | a rendered header is recognised as a header and announces exactly the name it was built from |
| `ChatFlow.BlockHeaderNames` | src/ai/flows/chat-with-contracts-flow.ts:52-58 | a block announces exactly one name, its own contract's |
| `ChatFlow.BlockMediaUrls` | src/ai/flows/chat-with-contracts-flow.ts:54-58 | a block attaches its contract's data URI as media when `isPdf` is set, and nothing otherwise |
| `ChatFlow.BlockContent` | src/ai/flows/chat-with-contracts-flow.ts:52-58 | a block announces its contract once; it holds the media reference iff `isPdf`, and the placeholder iff not, so never both |
| `ChatFlow.BlocksHeaders` | src/ai/flows/chat-with-contracts-flow.ts:51-60 | the `#each` loop announces exactly the contracts' names, in input order |
| `ChatFlow.BlocksMedia` | src/ai/flows/chat-with-contracts-flow.ts:51-60 | the `#each` loop attaches as media exactly the flagged contracts' URIs, in input order |
| `ChatFlow.NoticeNotInBlocks` | src/ai/flows/chat-with-contracts-flow.ts:51-62 | the "no contracts" notice is no part of any contract block |
| `ChatFlow.PromptContracts` | src/ai/flows/chat-with-contracts-flow.ts:49-63 | the prompt's headers are the contracts' names in order, none for an empty list; its media are the flagged URIs |
| `ChatFlow.NoticeIffNoContracts` | src/ai/flows/chat-with-contracts-flow.ts:49-63 | the "no contracts" notice is in the prompt exactly when the contract list is empty |
| `ChatFlow.PreparedFlags` | src/ai/flows/chat-with-contracts-flow.ts:26-29 | after preparation, the flagged URIs are exactly the URIs with the PDF prefix, in order |
| `ChatFlow.ChatWithContractsFlow` | src/ai/flows/chat-with-contracts-flow.ts:84-90 | success exactly when the model yields an output, which is returned unchanged; no output gives the null-output error; a rejection propagates as it is |
| `ChatFlow.ChatWithContracts` | src/ai/flows/chat-with-contracts-flow.ts:33-38 | the model is asked about the prompt of the prepared input; no output gives the null-output error, an output is returned unchanged, a rejection propagates as it is |
| `ChatFlow.ChatPrompt` | src/ai/flows/chat-with-contracts-flow.ts:33-38 | for any request, the prompt the model sees names every contract once in order, attaches exactly the PDF URIs, has the notice iff there are no contracts, and ends with the question |
| `ChatFlow.LeasePdfScenario` | src/ai/flows/chat-with-contracts-flow.ts:50-58 | one contract `lease.pdf` with a PDF data URI: announced by name, attached as media, and no notice |
| `ChatPage.Screen` | src/app/page.tsx:53-87 | a file is accepted iff size ≤ 20·1024·1024, type is exactly `application/pdf` and reading succeeds, with the URI read; an oversized file gets the size verdict whatever its type; an in-limit non-PDF the type verdict; an in-limit PDF whose read rejects the read-failure verdict carrying what the reader threw |
| `ChatPage.BatchStep` | src/app/page.tsx:52-88 | one more file extends the accepted list, error slot, notifications and error flag exactly as one loop iteration does |
| `ChatPage.AcceptedAreValid` | src/app/page.tsx:52-88 | every accepted contract comes from the batch, passed both checks, and holds the data URI its file was read into |
| `ChatPage.AcceptedAppend` | src/app/page.tsx:76 | accepting a concatenated batch gives the concatenated results, so survivors keep input order even when other files fail |
| `ChatPage.AllAcceptedIffNoneRejected` | src/app/page.tsx:52-88 | at most one contract per file, and every file is accepted exactly when none is refused |
| `ChatPage.AnyRejectedSnoc` | src/app/page.tsx:52-88 | the error flag after one more file is the flag before it, or that file's refusal |
| `ChatPage.LastErrorEmptyIffNoneRejected` | src/app/page.tsx:48-87 | the error slot ends empty exactly when no file of the batch was refused |
| `ChatPage.LastRejectionExtends` | src/app/page.tsx:52-88 | an accepted file at the end of the batch keeps the last refused file where it was |
| `ChatPage.LastErrorIsLastRejection` | src/app/page.tsx:48-87 | a non-empty error slot holds the message of a refused file after which every file was accepted |
| `ChatPage.UploadOutcome` | src/app/page.tsx:92-103 | for a non-empty batch: "Upload Successful" iff every file was accepted; "Partial Upload" iff some were accepted and some refused; no closing notice iff none was accepted |
| `ChatPage.Request` | src/app/page.tsx:128-136 | the request carries the given query and one contract per upload, in order, with the file's name and stored data URI and no `isPdf` |
| `ChatPage.RequestLists` | src/app/page.tsx:128-131 | the request's contract names and PDF URIs are those of the uploads, in order |
| `ChatPage.SendPrompt` | src/app/page.tsx:128-138 | the prompt built for a send names every uploaded contract in upload order, attaches exactly the uploads with PDF data URIs, and ends with the question |
| `ChatPage.ReplyFromModel` | src/app/page.tsx:138-163 | when `chat` is the flow with its result and thrown message forwarded unchanged, the AI message is the model's `aiResponse` when there is output and the apology otherwise; the error slot shows the null-output error or the thrown message |
| `ChatPage.AppendPair` | src/app/page.tsx:116-163 | appending a user line (non-empty, no whitespace at either end) and then an AI message keeps the transcript a run of user–AI pairs |
| `ChatPage.AppendExchange` | src/app/page.tsx:116-163 | the trimmed text of a non-blank question is such a user line, so a send keeps the transcript a run of question–answer pairs |
| `ChatPage.ContractChatSession.constructor` | src/app/page.tsx:23-29 | the session starts empty: no contracts, no messages, empty input, flags false, no error |
| `ChatPage.ContractChatSession.SetChatInput` | src/app/page.tsx:207 | typing replaces the input and nothing else |
| `ChatPage.ContractChatSession.HandleFilesUpload` | src/app/page.tsx:44-106 | an empty batch changes nothing; otherwise the accepted contracts are appended after the existing ones, the error slot holds the last refusal, the upload flag is false, and the per-file and closing notifications are raised; the transcript, input and chat flag are untouched |
| `ChatPage.ContractChatSession.HandleSendMessage` | src/app/page.tsx:108-167 | blank input or a pending response: nothing changes. No uploads: only the "Please upload contracts" error, and the input is kept. Otherwise: the trimmed question and exactly one AI message (response or apology) are appended, the input is cleared, the chat flag is false, and the error slot follows the reply |
| `ChatPage.ContractChatSession.AskAndRecord` | src/app/page.tsx:116-163 | once the guards have passed, given the trimmed question: the question, asked with the uploads, and exactly one AI message (the reply's text or the apology) are appended, the input is cleared, the chat flag ends false, the error slot follows the reply, and "Chat Error" is raised only for a failed reply |
| `ChatPage.ContractChatSession.ResetState` | src/app/page.tsx:169-177 | contracts and transcript empty, input and error cleared, both loading flags false, "Reset Complete" raised |

## Left out

- Reading a file into a data URI with `FileReader` (src/app/page.tsx:35-42) is browser I/O. It is the parameter `read`, which resolves or rejects. A `File` carries an `id` standing for the file object, so two picked files with equal name, size and type may still read differently; what is not modelled is one file object reading differently at different times: `read` gives each file one fixed outcome.
- Random message and contract ids (src/app/page.tsx:33) and `new Date()` timestamps are dropped from `Message` and `UploadedContract`.
- Notifications are recorded as `Toast` tags with the file name or count. The notification library, the titles' wording and the variants are not modelled.
- The model call itself, the prompt engine, the safety settings (chat-with-contracts-flow.ts:68-75) and provider wiring are not modelled. The model is the function parameter `Model`. `src/ai/genkit.ts` is not part of this model.
- The template engine's media marker is modelled as a `Media` segment. HTML escaping of interpolated values is not modelled: values are inserted verbatim.
- Runtime schema validation (Zod) in `src/ai/schemas.ts` is not modelled. Only the shapes are used.
- `src/ai/flows/summarize-contract.ts` is not part of this model. Its only logic is a null-output check like the chat flow's.
- JSX rendering, the components under `src/components/contract-insights/` and the KB size display are UI, so they are left out. Which alert shows the error (page.tsx:185,197) is also left out.
- React's asynchronous state updates and interleaving of handlers are left out. Each handler is one sequential method. So the `isLoadingChatResponse` guard only matters when the flag is already set on entry.
- ChatPage.ContractChatSession.HandleSendMessage: takes the chat server action as the parameter `chat` rather than calling `ChatFlow.ChatWithContracts` itself, because the call crosses a client–server boundary that can throw for its own reasons. `ChatPage.ReplyFromModel` covers the case where `chat` is the flow reached through a transport that forwards the flow's result and its thrown message unchanged. A transport that replaces the thrown error with its own (production server-action builds report a generic message to the client) is just another `chat`: the apology and the "Chat Error" notification stay the same, but the error slot then shows the transport's message, not the null-output message.
- ChatPage.ContractChatSession.Valid: the object invariant covers only the transcript's shape, user then AI. The loading flags are not part of it, because their guard is meaningful only under interleaving.
