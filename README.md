# AskMyPDF chat core in Dafny

AskMyPDF is a Streamlit application. A user uploads PDFs and asks questions about them. A
Google Gemini model answers from the parts of the PDFs that a vector search retrieves. This
project models the logic around that pipeline and proves properties of it:

- **The keyword interceptor** (`handle_special_keywords`), in `keywords.dfy`. It answers
  greetings, date and time questions, small talk and thanks with canned responses. Thirteen
  categories are tested in a fixed order, and the first category with a keyword inside the
  lower-cased question wins. A response is `random.choice` of the category's list. Here the
  choice is a `draw` parameter, and the date and time it prints come from a `Clock` parameter.
- **The Google API key** (`validate_api_key`, `get_api_key` and the sidebar of `run_chatbot`),
  in `api_key.dfy`.
- **One chat turn** (`user_input`), in `session.dfy`.
  - Its checks run in a fixed order: the interceptor, then the key, then the upload.
  - The retrieval chain and the model are one opaque `answerer`. It returns an answer or the
    message of the exception it raised.
  - The exception messages are classified by substring.
  - The conversation is kept in a `Session` object whose field the turn extends, as
    `st.session_state.conversation_history` is extended in place.
  - `get_pdf_text` is the loop over the PDFs and their pages.
- **The plain-text transcript**, in `transcript.dfy`. Both the chat page and the history
  browser offer it for download. Each record is six lines, the last one a rule of fifty
  dashes. The model proves that it can be parsed back when no field contains a line break.
- **The JSON history store and its browser** (`history.py`), in `history.dfy`. The file is
  modelled by the dictionary it holds, or `None` when it does not exist. Today's date is a
  parameter.
- **The persona prompt templates** (`get_persona_prompt`), in `persona.dfy`.

`text.dfy` holds the Python string operations the model needs: `in`, `lower` and `upper`
(ASCII case mapping), `strip` (with the white space of `str.isspace()`) and `join`. `wrappers.dfy` holds `Option`.

The verified properties include these:

- The interceptor takes the first matching category. Greetings win, so any question
  containing "hi" is greeted, including "What is this?". "great job" can never reach the
  gratitude category, because "great" is a compliment keyword tested earlier. "summarize
  page 3" gets the age answer, because "age" occurs inside "page".
- A key is valid exactly when it starts with `AIza` and has 39 characters.
- A turn appends at most one record, and only for a canned reply or an answer. An answer is
  recorded under "Google AI" with the PDF names joined by ", ", and the download offered is
  the transcript of the whole conversation.
- An error is shown as the authentication failure exactly when the upper-cased message
  contains `API_KEY` or `AUTHENTICATION`.
- `add_chat` adds one record at the end of today's list, creating the list when it is
  missing, and leaves every other date alone.
- Loading after a save gives back what was saved, and loading after a clear gives `{}`.
- The history page shows only the notice for an empty history. It offers a download exactly
  when the chosen date has records.
- Every persona prompt is the base template followed by the persona's own instruction, and
  the five prompts are pairwise different.
- `{context}` occurs exactly once in each prompt, before the single `{question}`, and no
  instruction adds a brace.

## Model

| member | source | states |
|---|---|---|
| Keywords.HandleSpecialKeywords | app.py:28-179 | The result is handled exactly when some category has a keyword inside the lower-cased question, and then the response is one of the responses of a matching category that no earlier category matches. Otherwise the result is `(False, None)`. |
| Keywords.Classify | app.py:110-179 | The if/elif chain: a chosen category has a keyword inside the lower-cased question (which categories are skipped is ClassifyFirstMatch). |
| Keywords.ClassifyFirstMatch | app.py:110-169 | Any category ranked before the chosen one has no keyword in the question. When no category is chosen, none matches. |
| Keywords.ClassifyNoneIff | app.py:110-179 | No category is chosen exactly when no keyword of any category occurs in the question. |
| Keywords.ResponsesOf | app.py:37-177 | Every category has at least one response, so `random.choice` always has something to pick. |
| Keywords.AnswerOf | app.py:110-177 | For a question of a given category, the answer is that category's response at the drawn index, filled in from the clock. |
| Keywords.EveryResponseDrawable | app.py:110-177 | Every response of the category is given for some draw. |
| Keywords.DateAnswerNamesDate | app.py:113-122 | Every date answer contains the formatted date and the weekday. |
| Keywords.TimeAnswerNamesTime | app.py:124-131 | Every time answer contains the current time. |
| Keywords.GreetingWins | app.py:110-111 | Any question whose lower-cased form contains "hi" is answered with a greeting. |
| Keywords.ThisIsAGreeting | app.py:110-111 | "What is this?" is answered with a greeting, because "hi" occurs inside "this". |
| Keywords.GreatJobNeverGratitude | app.py:99-169 | When the question contains "great job", the chosen category is at or before the compliments, so never the gratitude category. |
| Keywords.GreatJobIsACompliment | app.py:148-149 | "Great job!" gets one of the compliment responses. |
| Keywords.PageAsksForAge | app.py:152-153 | "summarize page 3" gets the age answer, because "age" occurs inside "page". |
| ApiKey.ValidateApiKey | app.py:195-200 | A key is accepted exactly when it starts with "AIza" and is 39 characters long. |
| ApiKey.WellFormedKeyNotBlank | app.py:197-198 | A key starting with "AIza" is never blank, so the blank test adds nothing to the format test. |
| ApiKey.BadKeysRejected | app.py:195-200 | Blank keys, keys of any other length, the empty key and "AIza" itself are refused. |
| ApiKey.GetApiKey | app.py:182-193 | The configured key when it is present and not blank, otherwise the session's key with `''` as the default. |
| ApiKey.BlankConfigPassedOver | app.py:187-193 | A configured key made only of white space, including U+001C and U+3000, is passed over for the session's key. |
| ApiKey.ConfigKey | app.py:332-340 | The configured key when it is present and valid, otherwise the empty string. |
| ApiKey.SelectApiKey | app.py:360-361 | The configured key when it is valid, otherwise the typed key. |
| ApiKey.SelectedKeyReadyIff | app.py:361-368 | The chosen key is valid exactly when the configured key or the typed key is. |
| ApiKey.GetApiKeyKeepsMalformedConfig | app.py:182-193 | A configured key that is not blank but is malformed is returned by `get_api_key` but replaced by the typed key in `run_chatbot`. |
| ApiKey.SidebarMessages | app.py:332-368 | Four rules hold. "API key is valid" is shown iff the configured key is valid. The warning is shown iff neither the configured key nor the stored key is valid. "API key is ready" is shown iff the chosen key is valid. The error text is shown otherwise. |
| ApiKey.FirstValidKeyShowsBothMessages | app.py:343-368 | On the run where a valid key is first typed, the "invalid" warning and the "ready" status both appear. |
| Transcript.BuildExport | app.py:300-303 | The loop builds the transcript of all records, block after block. |
| Transcript.ExportSnoc | app.py:302-303 | Adding a record appends its block to the transcript. |
| Transcript.ExportAppend | app.py:302-303 | The transcript of two record lists is their transcripts concatenated. |
| Transcript.ExportEmptyIff | history.py:182-191 | The transcript is empty exactly when there are no records. |
| Transcript.ExportRoundTrip | app.py:303 | When no field contains a line break, parsing the transcript back gives the records that were written. |
| ChatSession.GetPdfText | app.py:203-210 | The loop returns the texts of every page of every PDF in order, and a page without text adds nothing. |
| ChatSession.AllTextAppend | app.py:205-209 | The text of more PDFs is the earlier text followed by theirs. |
| ChatSession.TextlessPdfAddsNothing | app.py:207-209 | A PDF none of whose pages yields text adds nothing. |
| ChatSession.Names | app.py:287 | One name per PDF, in upload order. |
| ChatSession.ErrorMessage | app.py:309-313 | The authentication message is shown exactly when the message mentions API_KEY or AUTHENTICATION in upper case. Otherwise the full message is shown after the prefix. |
| ChatSession.AuthTestIgnoresCase | app.py:310 | Messages mentioning "api_key" or "Authentication" anywhere count as authentication failures. |
| ChatSession.OtherErrorsShown | app.py:312-313 | Any other message appears in full in what is shown. |
| ChatSession.Turn | app.py:243-313 | The conversation afterwards extends the one before by at most one record. |
| ChatSession.CannedReplyRecorded | app.py:245-257 | A recognised question is answered and recorded under "Assistant" with empty PDF names, whatever the key and the uploads are. |
| ChatSession.GreetingNeedsNoKey | app.py:245-257 | A question containing "hi" is greeted and recorded, even with no key and no PDF. |
| ChatSession.InvalidKeyRecordsNothing | app.py:259-262 | After the interceptor, an invalid key gives the key error and records nothing. |
| ChatSession.NoUploadRecordsNothing | app.py:265-267 | With a valid key and no upload, the turn warns and records nothing. |
| ChatSession.AnswerRecorded | app.py:285-303 | An answer appends one record under "Google AI" with the PDF names joined by ", ". The download is the previous transcript followed by that record's block. |
| ChatSession.AnswerNamesFirstPdf | app.py:287-291 | The recorded PDF names begin with the first file's name. |
| ChatSession.FailureRecordsNothing | app.py:309-313 | An exception from the pipeline shows the classified error and records nothing. |
| ChatSession.RecordsIffReplied | app.py:243-313 | A turn grows the conversation exactly when it shows a canned reply or an answer, and leaves it unchanged exactly when it shows an error or a warning. |
| ChatSession.ProcessNotice | app.py:375-387 | The "Process PDFs" button shows an error iff the key is invalid or processing failed. It warns iff the key is valid and nothing is uploaded. It reports success iff the key is valid, PDFs are uploaded and processing succeeded. |
| ChatSession.Session.constructor | app.py:319-323 | A new session starts with no conversation and an empty key. |
| ChatSession.Session.KeyPanel | app.py:332-368 | Shows the sidebar messages for the stored and typed keys, stores the typed key, returns the chosen key, and leaves the conversation alone. |
| ChatSession.Session.UserInput | app.py:243-313 | The new conversation and what is shown are those of `Turn` on the old conversation. The stored key is unchanged. |
| History.WithChat | history.py:140-154 | Today's date is added to the dates. Its records are the old ones followed by the new record. Every other date keeps its records. |
| History.AddChatKeepsDaysNonEmpty | history.py:140-154 | Adding a record never leaves a date with no records. |
| History.WithChatBuckets | history.py:144-145 | An existing date gains no new key. A new date starts with exactly the one record. |
| History.AddAllBuckets | history.py:140-154 | From an empty file, each date holds exactly the records added under it, in call order, and is present exactly when something was added to it. |
| History.Store.Load | history.py:130-134 | The file's dictionary, or `{}` when there is no file. |
| History.Store.Save | history.py:136-138 | After saving `h`, loading gives `h`. |
| History.Store.AddChat | history.py:140-154 | The dictionary loaded afterwards is `WithChat` of the one loaded before. |
| History.Store.GetAllHistory | history.py:156-157 | The stored dictionary, or `{}` when there is no file. |
| History.Store.ClearHistory | history.py:159-161 | The file is gone, and loading gives `{}`. |
| History.Store.ShowHistory | history.py:167-199 | The notice "No chat history found." is shown exactly when the history is empty. Otherwise it shows the picked date and its records, and offers `chat_<date>.txt` holding their transcript exactly when there is a record. |
| Persona.GetPersonaPrompt | output_behavioural.py:19-31 | Every prompt starts with the base template, and a persona outside the five gets the default template. |
| Persona.PromptIsBasePlusSuffix | output_behavioural.py:19-31 | Every prompt, including the one for an unknown persona, is the base template followed by the persona's instruction. |
| Persona.TemplateKeys | output_behavioural.py:19-29 | The templates are exactly those of the five personas. |
| Persona.UnknownPersonaGetsDefault | output_behavioural.py:31 | An unknown persona gets the default template. |
| Persona.PersonasDistinct | output_behavioural.py:20-28 | The five templates are pairwise different. |
| Persona.SuffixFacts | output_behavioural.py:20-28 | No instruction contains a brace, so none adds a placeholder. |
| Persona.PreambleBraceFree | output_behavioural.py:5-17 | The fixed text around the slots has no brace. |
| Persona.PromptSlots | output_behavioural.py:5-17 | `{context}` and `{question}` occur at fixed positions, context first, and every brace in the prompt opens one of them. |
| Persona.SlotsOccurOnce | output_behavioural.py:5-17 | Each slot occurs exactly once. |
| Persona.PromptKeepsInstructions | output_behavioural.py:7-8 | Every prompt contains the refusal sentence and the instruction not to guess. |

## Left out

- Retrieval and answering: the text splitter, the embeddings, the FAISS index, the similarity search and the Gemini chain are one `answerer` function, and any exception they raise is a `Raised` message. The concatenation of page texts (`get_pdf_text`) is modelled; what `PdfReader` extracts from each page is an input (`Pdf.pages`).
- Inputs: `random.choice` becomes a `draw` number, and `datetime.now()` becomes a `Clock` and a timestamp string.
- Rendering: Streamlit calls such as chat bubbles, expanders and titles are represented only by the value a turn or a page shows. Base64 and HTML encoding of download links are not modelled.
- Case mapping: only ASCII letters change case. Python's full Unicode case mapping is not modelled.
- The history file: `json.dump` and `json.load` are taken as a perfect round trip, so the file is its dictionary. File-system errors are not modelled.
- ChatSession.Session.UserInput: exceptions raised after the record has been appended are not modelled (from rendering or from building the download).
- History.Store.ShowHistory: Python keeps dates in insertion order and the select box starts at the first date. A Dafny map has no order, so when the pick is not a date, an unspecified date is shown.
- The per-record lines of the history and conversation views are not modelled, only the records they list.
- The asyncio loop setup, `home.py`, `config.py` beyond the one key, and the commented-out first version of `history.py` are not modelled.
- The `conversation_history` argument of `handle_special_keywords` is never read there, so it is dropped.
