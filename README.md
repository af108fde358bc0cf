# Job-search assistant: provider dispatch, adapter normalisation and client state

This project is a Dafny model of the logic inside a job-search web application. The Express
server sends each AI request (chat, resume analysis, resume-to-job matching, cover letter,
interview questions, interview answer) to one of four language-model vendors: OpenAI,
Anthropic, Google Gemini or a local Ollama server. The React client keeps lists of job
applications, resume sections, interview questions and cover letters, plus the user's LLM
settings.

It covers three groups of logic:

- **Provider dispatch.** `server/routes.ts` repeats the same `switch` in six universal routes.
  `Dispatch` models it as one total decision function, parameterised by the operation. It also
  models the `catch` block's Gemini retry. The adapters are returned un-awaited and catch their
  own errors, so that retry cannot turn an adapter's failure into a Gemini call. `Dispatch`
  states this directly: `OllamaFailureReachesClient`, `CatchNeverRetries`.
- **Adapter normalisation**, in `GeminiAdapter`, `OllamaAdapter` and `OpenAIAdapter`, with shared
  pieces in `Providers`, `Payloads` and `JsonExtract`. This covers:
  - API-key resolution with JavaScript `||` truthiness;
  - zod `.default()` for the model and the endpoint;
  - request construction;
  - the three-stage JSON extraction: whole text, then the first fenced ```` ```json ```` block,
    then the first `{`…`}` span;
  - the Gemini chat-history conversion loop;
  - the 500 error texts `error.message || fallback`.
- **Client state.**
  - `Jobs` and `Applications`: favourite toggling, status updates, the status and search
    filters, and the per-status counts.
  - `ResumeEditor`: record and list updates, including the two in-place bullet edits, which
    work on an `array`.
  - `InterviewPrep`: question and answer list updates.
  - `CoverLetter`: letters are objects whose `content` the editor changes in place, so a
    letter is a class.
  - `LlmSettings`: the settings context and the settings hook.
  - `LlmConstants`: the provider, model and status tables.

Supporting modules:

- `Wrappers`: `Option` and `Result`.
- `Text`: ASCII `toLowerCase` and `trim`, `includes`, `indexOf`, and `split` on a separator.
- `Lists`: filtering and counting.

JSON parsing is foreign to the model. Every operation that parses takes the parser as a
function parameter `parse: string -> Result<V, string>`. Each outbound vendor or HTTP call is
likewise represented by its outcome, passed in as a parameter.

Two constants are modelled as written: the Ollama default model `"gamma3:1b"` and the Gemini
default `"gemini-pro"`.

The comments in `server/routes.ts` promise a fallback the code does not deliver, and the model
follows the code. The comment on the `ollama` case (`server/routes.ts:77`) says a failing
Ollama call will be caught and retried with Gemini, and the `catch` block tries Gemini "as a
last resort" (`server/routes.ts:100-103`). In the code, however, the route returns the
adapter's promise without awaiting it, and every adapter catches its own errors and answers 500
itself. The route's `catch` block therefore never sees an Ollama failure, and the client
receives the Ollama 500 unchanged.

## Model

| member | source | states |
|---|---|---|
| Providers.ResolveKey | server/api/gemini.ts:35-43 | The key is the request key when it is non-empty, else the environment key when non-empty; otherwise the call fails with "Invalid <vendor> API key". A resolved key is never empty. |
| Providers.ErrorText | server/api/ollama.ts:87-91 | `error.message \|\| fallback`, both ways: a non-empty message is reported as is, and an empty one is replaced by the fallback. So the text is never empty when the fallback is not. |
| Dispatch.TryBlock | server/routes.ts:46-90 | The provider switch, in both directions: OpenAI is invoked exactly when it is requested and it has an environment key or a truthy request key. Anthropic follows the same rule. Ollama is invoked exactly when requested. Every invocation carries the route's own operation. A rejection is a 400 and happens only when there is no Gemini key. |
| Dispatch.CatchBlock | server/routes.ts:92-111 | The catch path answers 500. It delegates to Gemini exactly when the provider is not `gemini`, a Gemini key exists and the retry does not throw. It answers 500 "Failed to get response from any AI provider" exactly when that retry throws. |
| Dispatch.AbsentProviderIsGemini | server/routes.ts:47 | A request with no provider is dispatched as if it asked for `gemini`, and it reaches the Gemini adapter. |
| Dispatch.OpenAIWithoutCredential | server/routes.ts:53-60 | `openai` without any credential goes to Gemini when the Gemini key is set, else answers 400 "OpenAI API key not provided". |
| Dispatch.AnthropicWithoutCredential | server/routes.ts:65-72 | The same rule for `anthropic`, with the message "Anthropic API key not provided". |
| Dispatch.OllamaAndGeminiUnchecked | server/routes.ts:78-81 | For `ollama` and `gemini` the outcome depends on neither the request key nor any environment key, and it is that provider's own adapter. |
| Dispatch.UnknownProvider | server/routes.ts:83-90 | An unrecognised provider goes to Gemini when its key is set, else answers 400 "Invalid LLM provider". |
| Dispatch.SubstitutionOnlyWhenUnusable | server/routes.ts:53-90 | Gemini is invoked only when it was asked for, when OpenAI or Anthropic lacks a credential, or when the provider is unknown. A usable OpenAI or Anthropic request never goes to Gemini. |
| Dispatch.SameTableForEveryRoute | server/routes.ts:116-463 | All six routes take the same decision; only the operation passed to the adapter differs. |
| Dispatch.CatchNeverRetries | server/routes.ts:92-111 | The try block rejects only when no Gemini key is set. So when sending that 400 throws, the catch answers 500 "Failed to get response from AI" and never retries Gemini. |
| Dispatch.OllamaFailureReachesClient | server/routes.ts:78 | A request for `ollama` receives exactly what the Ollama adapter answers, including its 500 failures. No Gemini fallback happens. |
| Dispatch.AtMostOneAdapter | server/routes.ts:92-111 | Once an adapter is invoked, the route's result is that adapter; the catch path's retry is not reached. |
| JsonExtract.FirstDelimited | server/api/gemini.ts:136-137 | The scan finds the match a regex engine reports for `open [\s\S]*? close`: the leftmost opening and the nearest closing after it. It finds nothing exactly when no match exists. |
| JsonExtract.RegexMatchUnique | server/api/gemini.ts:136-137 | The leftmost-shortest match is unique. |
| JsonExtract.Candidate | server/api/gemini.ts:136-141 | The fenced block is preferred over the brace span. `jsonMatch[1] \|\| jsonMatch[0]` takes the fence's body, or the whole fenced text when the body is empty. There is no candidate exactly when neither pattern matches. |
| JsonExtract.CandidateIsSubstring | server/api/gemini.ts:136-141 | The candidate is always a contiguous piece of the reply. |
| JsonExtract.ExtractJson | server/api/gemini.ts:129-148 | Text that parses whole is returned unchanged. Otherwise the candidate is parsed. The two failures are "Could not extract JSON from <vendor> response" when there is no candidate and "Could not parse JSON from <vendor> response" when the candidate does not parse. No other error is possible. |
| JsonExtract.ErrorsDistinct | server/api/gemini.ts:142-147 | The extraction error and the parse error are distinct messages. |
| JsonExtract.ExtractedFromPiece | server/api/ollama.ts:128-147 | Every successful extraction is the parse of some substring of the reply. |
| JsonExtract.ReextractCandidate | server/api/ollama.ts:128-147 | When the whole text does not parse but extraction succeeds, running the extraction on the candidate gives the same value. |
| Payloads.WireMessages | server/api/openai.ts:55-58 | Messages are forwarded in order, with the same length, each role translated to its wire name and the content unchanged. |
| Payloads.WireMessagesInjective | server/api/ollama.ts:69-72 | Distinct conversations give distinct wire messages, so nothing is lost in forwarding. |
| Payloads.OperationMessages | server/api/ollama.ts:116-122 | An operation sends exactly two messages: the system prompt, then a user message carrying the payload text. For matching that text is `"RESUME:\n" + resume + "\n\nJOB DESCRIPTION:\n" + jd`. The user message ends with the last input field. |
| GeminiAdapter.ModelOf | server/api/gemini.ts:16 | The model is the request's model when present, else "gemini-pro". |
| GeminiAdapter.FormattedHistory | server/api/gemini.ts:57-73 | The converted history keeps every message except an assistant message at index 0. It keeps text and order, with `user` mapped to `user` and `assistant` to `model`. |
| GeminiAdapter.FormattedHistoryAppend | server/api/gemini.ts:57-73 | One more message adds one entry, except for an assistant message at index 0. |
| GeminiAdapter.FormatHistory | server/api/gemini.ts:56-73 | The indexed loop with `push` builds exactly the converted history. |
| GeminiAdapter.HistoryIsPriorTurns | server/api/gemini.ts:76-84 | When the last turn is the user's, the history handed to `startChat` is exactly the converted prior turns, and the last converted entry is that user turn. |
| GeminiAdapter.ChatCompletion | server/api/gemini.ts:47-98 | The key error comes first. An empty conversation fails with the engine's TypeError text, and a conversation ending with an assistant turn fails with "The last message must be from the user". A message is sent exactly when none of these apply, with the prior turns as history. The reply echoes the requested or default model. A send failure gives `error.message \|\| "Failed to generate chat response"`. |
| GeminiAdapter.PromptMatchesUserContent | server/api/gemini.ts:124 | The prompt is the instructions, a blank line, the section heading (`RESUME:` or `JOB DESCRIPTION:` for single-input operations), then the same user text the other vendors send. |
| GeminiAdapter.OperationCall | server/api/gemini.ts:103-126 | A generation request is issued exactly when a key resolves. It carries the requested or default model, and its prompt is the instructions followed by the labelled payload. |
| GeminiAdapter.JsonReply | server/api/gemini.ts:101-156 | A key failure answers "Invalid Google Gemini API key". A generation failure answers its message or the operation's fallback. Otherwise the reply is exactly the three-stage extraction's outcome: its value on success, and "Could not extract JSON from Gemini response" or "Could not parse JSON from Gemini response" as the 500 error. Text that parses whole is returned as parsed. |
| GeminiAdapter.TextReply | server/api/gemini.ts:217-248 | A key failure answers "Invalid Google Gemini API key". A generation failure answers `error.message \|\| "Failed to generate cover letter"` (or "…interview answer"). Otherwise the generated text is returned unchanged. |
| OllamaAdapter.ModelOf | server/api/ollama.ts:12 | The model is the request's model when present, else "gamma3:1b". |
| OllamaAdapter.EndpointOf | server/api/ollama.ts:13 | The endpoint is the request's endpoint when present, else "http://localhost:11434". |
| OllamaAdapter.FailureText | server/api/ollama.ts:150-154 | Every operation has a non-empty fallback error text. |
| OllamaAdapter.ChatPost | server/api/ollama.ts:69-81 | The chat request goes to `<endpoint>/api/chat` with the resolved model and `stream: false`. It forwards every message with role and content unchanged and in order. |
| OllamaAdapter.ChatPostKeepsConversation | server/api/ollama.ts:69-79 | Two chat requests with the same body carry the same conversation. |
| OllamaAdapter.ContentOrEmpty | server/api/ollama.ts:84 | A missing or empty reply content becomes `""`; present content is kept. |
| OllamaAdapter.ChatReplyOf | server/api/ollama.ts:64-92 | The reply succeeds exactly when the call does. It carries the reply content or `""` and the requested model. A failure answers `error.message \|\| "Failed to generate chat response from Ollama"`. |
| OllamaAdapter.OperationPost | server/api/ollama.ts:116-123 | An operation posts exactly the system prompt and then the user text, to the resolved endpoint with the resolved model. |
| OllamaAdapter.JsonReply | server/api/ollama.ts:95-155 | A call failure answers `error.message` or the operation's "… with Ollama" fallback. Otherwise the reply is exactly the extraction's outcome on the content, or on `""`: its value, or "Could not extract JSON from Ollama response" / "Could not parse JSON from Ollama response". |
| OllamaAdapter.EmptyReplyNotExtracted | server/api/ollama.ts:126-147 | A reply with no content fails with "Could not extract JSON from Ollama response". |
| OllamaAdapter.TextReply | server/api/ollama.ts:221-256 | A cover letter or answer succeeds exactly when the call does, and it carries the content or `""`. A failure answers `error.message` or the operation's "… with Ollama" fallback. |
| OllamaAdapter.ModelsUrl | server/api/ollama.ts:39-42 | The connection test lists models from `<endpoint>/api/models`, which is `http://localhost:11434/api/models` when no endpoint is given. |
| OllamaAdapter.InstalledModels | server/api/ollama.ts:45-48 | Every listed model becomes `{name, status: "installed"}`, preserving count and order. A missing list gives `[]`. |
| OllamaAdapter.TestConnection | server/api/ollama.ts:37-61 | The models are fetched from `ModelsUrl(endpoint)`. The report is connected exactly when that fetch succeeded, with the fixed message and the mapped models. Otherwise it gives `error.message` or the fixed connection-failure text, never empty. |
| OpenAIAdapter.ModelOf | server/api/openai.ts:16 | The model is the request's model when present, else "gpt-4o". |
| OpenAIAdapter.ChatCall | server/api/openai.ts:47-59 | A completion is requested exactly when a key resolves. It carries the resolved model and every message, with role and content unchanged and in order. |
| OpenAIAdapter.ChatReplyOf | server/api/openai.ts:47-70 | Without a key the reply is "Invalid OpenAI API key". A successful reply carries the completion's content and the model the completion reports, not the requested one. A failed call answers `error.message \|\| "Failed to generate chat response"`. |
| OpenAIAdapter.OperationCall | server/api/openai.ts:95-102 | An operation sends the system prompt and then the user text. It asks for `json_object` format exactly for the analysis, matching and question operations. |
| OpenAIAdapter.ParseInput | server/api/openai.ts:104 | Empty or null content is parsed as `"{}"`; other content is parsed as is. |
| OpenAIAdapter.JsonReply | server/api/openai.ts:73-112 | Without a key the reply is "Invalid OpenAI API key". A reply succeeds exactly when the call succeeds and `content \|\| "{}"` parses. A failed call reports its message or the fallback, and so does a parse failure. |
| OpenAIAdapter.TextReply | server/api/openai.ts:157-190 | Without a key the reply is "Invalid OpenAI API key". A cover letter or answer succeeds exactly when the call succeeds, and it carries the content as returned. A failed call answers its message or the operation's fallback. |
| OpenAIAdapter.EmptyContentDiffersFromOllama | server/api/openai.ts:104 | An empty completion gives OpenAI an empty object where Ollama fails with its extraction error. |
| Jobs.AllStatusesListsEach | client/src/types/index.ts:31 | Every job status is one of the five listed. |
| Jobs.ToggleFavorite | client/src/components/job-search/JobSearch.tsx:74-78 | Length and order are kept. Only `favorite` can change, and it flips exactly for the jobs with the given id. |
| Jobs.ToggleFavoriteTwice | client/src/components/job-search/JobSearch.tsx:74-78 | Toggling twice for the same id restores the list. |
| Jobs.ToggleFavoriteCommutes | client/src/components/job-search/JobSearch.tsx:74-78 | Toggles for two ids commute. |
| Applications.UpdateStatus | client/src/components/applications/Applications.tsx:75-78 | Length and order are kept. Matching entries get the new status with every other field unchanged, and other entries are unchanged. |
| Applications.UpdateStatusOverrides | client/src/components/applications/Applications.tsx:75-78 | A second status update for the same id overrides the first. |
| Applications.ToggleFavorite | client/src/components/applications/Applications.tsx:86-90 | The applications toggle is the job-search toggle, and applying it twice restores the list. |
| Applications.FilteredApplications | client/src/components/applications/Applications.tsx:92-98 | An application is shown exactly when it passes the status filter and the case-insensitive search on title or company. Every passing entry is kept: the length is the number of passing entries, duplicates included. |
| Applications.FilteredIsSubsequence | client/src/components/applications/Applications.tsx:92-98 | The shown list is an order-preserving subsequence of the applications, as long as the number of passing entries. |
| Applications.NoFilterKeepsAll | client/src/components/applications/Applications.tsx:93-94 | The `all` filter with an empty term shows every application. |
| Applications.StatusFilterCount | client/src/components/applications/Applications.tsx:93 | A status filter shows exactly as many entries as have that status. |
| Applications.EmptyTermShortcutRedundant | client/src/components/applications/Applications.tsx:94-98 | The empty-term shortcut agrees with the substring test, since every string contains `""`. |
| Applications.SearchIgnoresTermCase | client/src/components/applications/Applications.tsx:95-97 | Searching for the lower-cased term gives the same result. |
| Applications.CountIsCountStatus | client/src/components/applications/Applications.tsx:100-104 | The recursive per-status count is the number of applications with that status. |
| Applications.StatusCounts | client/src/components/applications/Applications.tsx:100-104 | The accumulating loop produces counts whose displayed value, with `\|\| 0` for an absent status, is the number of applications with that status. A status is present exactly when its count is positive. |
| Applications.CountsSumToLength | client/src/components/applications/Applications.tsx:125 | The five status counts sum to the number of applications. |
| ResumeEditor.SetContact | client/src/components/resume-builder/ResumeEditor.tsx:39-47 | Only the named contact field changes. |
| ResumeEditor.UpdateContactInfo | client/src/components/resume-builder/ResumeEditor.tsx:39-47 | Only the named contact field changes; the rest of the resume is unchanged. |
| ResumeEditor.UpdateSummary | client/src/components/resume-builder/ResumeEditor.tsx:49-54 | Only the summary changes. |
| ResumeEditor.SetExperience | client/src/components/resume-builder/ResumeEditor.tsx:56-63 | Only the named field of an experience changes; its id and bullets are kept. |
| ResumeEditor.MapMatching | client/src/components/resume-builder/ResumeEditor.tsx:58-62 | The `map` keyed on id changes exactly the entries with that id, keeping length and order. |
| ResumeEditor.UpdateExperience | client/src/components/resume-builder/ResumeEditor.tsx:56-63 | Only the named field of the experiences with the given id changes. Ids, bullets and every other entry are unchanged. |
| ResumeEditor.ReplaceAt | client/src/components/resume-builder/ResumeEditor.tsx:70-71 | Exactly the element at the index is replaced. |
| ResumeEditor.RemoveAt | client/src/components/resume-builder/ResumeEditor.tsx:96-97 | `splice(index, 1)`: an in-range index removes exactly that element and keeps the rest in order. An index past the end changes nothing. |
| ResumeEditor.CopyAndSet | client/src/components/resume-builder/ResumeEditor.tsx:70-71 | Copying the bullets into a new array and assigning one slot gives the replaced list. |
| ResumeEditor.CopyAndSplice | client/src/components/resume-builder/ResumeEditor.tsx:96-97 | Copying the bullets into a new array and splicing one slot out gives the removed list. |
| ResumeEditor.UpdateBullet | client/src/components/resume-builder/ResumeEditor.tsx:65-77 | Exactly the bullet at the index of the matching experience changes. Other bullets, fields and experiences are unchanged. |
| ResumeEditor.AddBullet | client/src/components/resume-builder/ResumeEditor.tsx:79-89 | The matching experience gets one `""` bullet appended; everything else is unchanged. |
| ResumeEditor.RemoveBullet | client/src/components/resume-builder/ResumeEditor.tsx:91-103 | The matching experience loses exactly the bullet at the index, or nothing when the index is out of range. |
| ResumeEditor.RemoveAddedBullet | client/src/components/resume-builder/ResumeEditor.tsx:79-103 | With unique ids, removing the bullet just added restores the resume. |
| ResumeEditor.AddExperience | client/src/components/resume-builder/ResumeEditor.tsx:105-119 | One entry with empty text fields and bullets `[""]` is appended; earlier entries and the other resume fields are unchanged. |
| ResumeEditor.AddExperienceKeepsIdsUnique | client/src/components/resume-builder/ResumeEditor.tsx:105-119 | Adding an entry with a fresh id keeps experience ids unique. |
| ResumeEditor.AddSkill | client/src/components/resume-builder/ResumeEditor.tsx:123-132 | Whitespace-only input changes nothing and is left in the field. Otherwise the trimmed skill is appended and the input is cleared. |
| ResumeEditor.AddedSkillIsTrimmed | client/src/components/resume-builder/ResumeEditor.tsx:124-126 | An added skill is non-empty, has no surrounding whitespace, and is a slice of the input. |
| ResumeEditor.FilterIndexIsRemoveAt | client/src/components/resume-builder/ResumeEditor.tsx:134-139 | Filtering out one index is removal at that index. |
| ResumeEditor.RemoveSkill | client/src/components/resume-builder/ResumeEditor.tsx:134-139 | Only the skills change: the skill at the index is removed and the rest keep their order. |
| InterviewPrep.GenerateQuestions | client/src/components/interview-prep/InterviewPrep.tsx:57-72 | The existing list is kept and exactly two fixed questions with empty answers are appended. |
| InterviewPrep.GenerateAnswers | client/src/components/interview-prep/InterviewPrep.tsx:89-97 | Only entries whose answer is absent or empty get the fixed suggestion. Ids, questions and non-empty answers are unchanged. |
| InterviewPrep.GenerateAnswersIdempotent | client/src/components/interview-prep/InterviewPrep.tsx:89-97 | After generation no entry needs an answer, so a second generation changes nothing. |
| InterviewPrep.UpdateAnswer | client/src/components/interview-prep/InterviewPrep.tsx:108-112 | Only the answer of the entries with the id changes, keeping length and order. |
| InterviewPrep.UpdateQuestion | client/src/components/interview-prep/InterviewPrep.tsx:125-129 | Only the question of the entries with the id changes, keeping length and order. |
| InterviewPrep.EditsCommute | client/src/components/interview-prep/InterviewPrep.tsx:108-129 | An answer edit and a question edit commute. |
| InterviewPrep.AddQuestion | client/src/components/interview-prep/InterviewPrep.tsx:114-123 | One blank question and answer with the fresh id is appended. |
| InterviewPrep.RemoveQuestion | client/src/components/interview-prep/InterviewPrep.tsx:131-133 | Exactly the entries without the id remain, every one of them: the length is the number of entries with another id. |
| InterviewPrep.RemoveQuestionIsSubsequence | client/src/components/interview-prep/InterviewPrep.tsx:131-133 | The remaining entries keep their order, and none with another id is dropped. |
| InterviewPrep.RemoveAddedQuestion | client/src/components/interview-prep/InterviewPrep.tsx:114-133 | Removing a question just added with a fresh id restores the list. |
| CoverLetter.NewTitle | client/src/components/cover-letter/CoverLetter.tsx:67 | The title is the part of the selected job before the first `" - "`, followed by `" Application"`. |
| CoverLetter.NoSeparatorWithoutHyphen | client/src/components/cover-letter/CoverLetter.tsx:67-68 | A text without `-` contains no separator. |
| CoverLetter.NewLetterForJob | client/src/components/cover-letter/CoverLetter.tsx:67-68 | For a job `company - position`, the title is `company Application` and the letter names the position. |
| CoverLetter.NoSeparatorJob | client/src/components/cover-letter/CoverLetter.tsx:67-68 | A job without `" - "` gives its whole text as the title and the word `undefined` as the position. |
| CoverLetter.CoverLetterPage.Snapshot | client/src/components/cover-letter/CoverLetter.tsx:42-53 | The letters' current ids, titles and contents, in order. |
| CoverLetter.CoverLetterPage.DisplayedTitle | client/src/components/cover-letter/CoverLetter.tsx:137-138 | The active letter's title, or "New Cover Letter" when the index is out of range. |
| CoverLetter.CoverLetterPage.DisplayedContent | client/src/components/cover-letter/CoverLetter.tsx:175 | The active letter's content, or `""` when the index is out of range. |
| CoverLetter.Letter.constructor | client/src/components/cover-letter/CoverLetter.tsx:65-69 | A letter object holds exactly the id, title and content it was built with. |
| CoverLetter.CoverLetterPage.constructor | client/src/components/cover-letter/CoverLetter.tsx:42-55 | The two initial letters, ids 1 and 2, with the first active. |
| CoverLetter.CoverLetterPage.GenerateNewLetter | client/src/components/cover-letter/CoverLetter.tsx:57-72 | Exactly one new letter is appended, with id equal to the old count + 1 and the derived title and content. The active index becomes the old count, so the new letter is shown. |
| CoverLetter.CoverLetterPage.EditContent | client/src/components/cover-letter/CoverLetter.tsx:176-182 | An in-range edit changes only the active letter's content, in place. An out-of-range edit changes nothing. |
| CoverLetter.CoverLetterPage.SelectLetter | client/src/components/cover-letter/CoverLetter.tsx:109 | Selecting a letter changes only the active index. |
| CoverLetter.CoverLetterPage.SelectJob | client/src/components/cover-letter/CoverLetter.tsx:151 | Selecting a job changes only the selected job. |
| LlmConstants.ProvidersListed | client/src/lib/constants.ts:3-8 | The four providers are listed, each once. |
| LlmConstants.OnlyOllamaIsKeyless | client/src/lib/constants.ts:4-7 | Ollama is the only provider without an API key. |
| LlmConstants.OneDefaultModel | client/src/lib/constants.ts:10-33 | Every provider has a non-empty model list, and exactly its first entry is the default. |
| LlmConstants.StatusIconsDistinct | client/src/lib/constants.ts:43-49 | The icon table covers every status, with distinct icons. |
| LlmConstants.ClassMarkOf | client/src/lib/constants.ts:35-41 | Each status's class string has the colour letters `ClassMark` names at positions 3 and 5 (`blue`, `green`, `purple`, `red`, `gray`), which tell the five apart. |
| LlmConstants.StatusClassesDistinct | client/src/lib/constants.ts:35-41 | The class table covers every status, with distinct classes. |
| LlmSettings.FindDefault | client/src/context/LLMContext.tsx:45 | `find(m => m.isDefault)`: the first model marked default, or none exactly when no model is marked. |
| LlmSettings.DefaultModelId | client/src/context/LLMContext.tsx:45-46 | The model chosen on a provider change is always one of that provider's models. |
| LlmSettings.DefaultModelIsFirst | client/src/lib/constants.ts:10-33 | For every provider, the chosen model is its first, default model. |
| LlmSettings.WithProvider | client/src/context/LLMContext.tsx:43-51 | The provider is set, and the model is set to that provider's default model, or its first. The key and endpoint are kept. |
| LlmSettings.WithModel | client/src/context/LLMContext.tsx:59-63 | Only the model changes, without any check against the provider. |
| LlmSettings.WithApiKey | client/src/context/LLMContext.tsx:71-77 | Only the API key changes. |
| LlmSettings.WithEndpoint | client/src/context/LLMContext.tsx:85-91 | Only the Ollama endpoint changes. |
| LlmSettings.DefaultsAreListed | client/src/context/LLMContext.tsx:18-23 | The default settings name a model listed for their provider, namely that provider's default. |
| LlmSettings.SettersKeepModelListed | client/src/context/LLMContext.tsx:43-91 | A provider change always lands on a listed model, and key or endpoint changes keep a listed model listed. |
| LlmSettings.SetModelCanUnlist | client/src/context/LLMContext.tsx:59-63 | `setModel` can select a model that its provider does not list. |
| LlmSettings.LlmContextState.constructor | client/src/context/LLMContext.tsx:18-35 | The settings state starts at the defaults, with both dialogs closed. |
| LlmSettings.LlmContextState.SetProvider | client/src/context/LLMContext.tsx:43-51 | The settings become `WithProvider`, and the dialog flags are unchanged. |
| LlmSettings.LlmContextState.SetModel | client/src/context/LLMContext.tsx:59-63 | The settings become `WithModel`, and the dialog flags are unchanged. |
| LlmSettings.LlmContextState.SetApiKey | client/src/context/LLMContext.tsx:71-77 | Only the key changes, and the API dialog closes. |
| LlmSettings.LlmContextState.SetOllamaEndpoint | client/src/context/LLMContext.tsx:85-91 | Only the endpoint changes, and the Ollama dialog closes. |
| LlmSettings.LlmContextState.SetShowAPISettings | client/src/context/LLMContext.tsx:34 | Only the API dialog flag changes. |
| LlmSettings.LlmContextState.SetShowLLMSettings | client/src/context/LLMContext.tsx:35 | Only the Ollama dialog flag changes. |
| LlmSettings.LlmSettingsHook.constructor | client/src/hooks/useLLMSettings.ts:6-11 | The hook starts at the defaults: openai, gpt-4o, `""`, localhost:11434. |
| LlmSettings.LlmSettingsHook.SetProvider | client/src/hooks/useLLMSettings.ts:30-44 | The same default-model rule as the context. It returns exactly the new provider and model. |
| LlmSettings.LlmSettingsHook.SetModel | client/src/hooks/useLLMSettings.ts:46-53 | Only the model changes, and the argument is returned. |
| LlmSettings.LlmSettingsHook.SetApiKey | client/src/hooks/useLLMSettings.ts:55-62 | Only the key changes, and the argument is returned. |
| LlmSettings.LlmSettingsHook.SetOllamaEndpoint | client/src/hooks/useLLMSettings.ts:64-71 | Only the endpoint changes, and the argument is returned. |

## Left out

- Vendor SDK calls, the axios calls to Ollama, the client `fetch` calls and `server/api/anthropic.ts`: each call's outcome is a parameter. `anthropic.ts` is not part of this model; `Dispatch` only names it as an adapter.
- `JSON.parse`: foreign library semantics, passed in as a parser parameter.
- zod validation failures: the model starts from requests that pass their schema. A malformed body, or a role outside `user`/`assistant` such as the assistant widget's `ai`, is not modelled. Only the `.default()` substitutions are.
- `toLowerCase` and `trim` are modelled on ASCII letters and ASCII whitespace, without Unicode case mapping or Unicode spaces.
- `nanoid`: fresh ids are parameters. Their uniqueness is a precondition where a lemma needs it.
- `setTimeout` delays, toasts and stale closures: every update is modelled as applied immediately to the current state.
- localStorage loading and saving of the LLM settings, plus `console.log`: these are I/O.
- The hard-coded mock GET routes, `shared/schema.ts` and the presentational components have no logic to model.
- The assistant widget's `sendMessage` is dominated by `fetch` and a timer.
- The instruction texts of the prompts are a parameter `instructions`, not the literal prompt strings.
- The routes' `provider` is modelled as an optional string. A `null` or non-string provider in the JSON body is not distinguished from an unknown name.
- The routes' catch path is modelled with a flag for "sending the 400 threw". Thrown exceptions and un-awaited promises are not modelled as control flow.
- The response wrapper keys (`content`, `coverLetter`, `answer`) are not modelled; a reply carries the value.
- The HTTP status of the adapters' errors is always 500; a `Reply.ServerError` stands for it.
- ResumeEditor.UpdateBullet: requires an in-range index, because a JavaScript assignment past the end would extend the array with holes.
- ResumeEditor.RemoveAt: indices are natural numbers, so splice's negative indices, counted from the end, are not modelled.
- ResumeEditor.UpdateContactInfo: covers the four contact fields and `ResumeEditor.UpdateExperience` the four text fields of an experience. An arbitrary field name written by the form is not modelled.
- The resume's optional `id` and `education` fields are not modelled, because no core operation touches them.
- CoverLetter.CoverLetterPage.constructor: the first letter's long initial text is a constructor parameter.
- Capitalisation in toasts and badges is presentational and not modelled.
