# Chat-with-your-PDFs backend: a Dafny model of its own logic

The backend is a small FastAPI service. A client creates a session, uploads PDF
documents into it, and asks questions that a retrieval chain answers from the
uploaded text. Nearly everything is delegated to other libraries: PDF parsing,
text splitting, embeddings, the Pinecone vector index and the OpenAI chat model.
This project models the parts of `api/index.py` that the service computes itself.
Each part is a pure function over sequences:

- **History folding** (module `History`, plus `Chat.FoldRawFrom` for the raw dictionaries).
  The client sends its whole message list. The fold turns it into the
  `(question, answer)` turns the chain expects:
  - a `"user"` message opens a turn with answer `""`;
  - an `"assistant"` message overwrites the answer of the latest turn, if one exists;
  - any other role is ignored.

  The contract of the fold itself gives the turn count, the question order and
  the unchanged earlier turns. Folding a concatenation is folding its parts in turn
  (`FoldFromAppend`), so messages before the first question are dropped. The fold is
  also proved equal to an independent look-ahead description (`Pairing`). From that
  follow "last answer wins", the empty answer of an unanswered question, and a round
  trip with the client's alternating list.

  One consequence concerns the web client. It adds its upload notice to the list as
  an "assistant" message. A notice that arrives after an answered question therefore
  replaces that answer in the history the chain sees (`UploadNoticeReplacesAnswer`).
- **Upload filename check and chunk metadata** (module `Upload`, with the record
  format in module `Metadata`). A filename passes only with the exact, case-sensitive
  ending `.pdf`; otherwise the result is a 400. Each chunk gets a metadata record
  holding its position as `chunk_id`, and the response reports the chunk count.
  The endpoint does not handle the exceptions of PDF reading or of the index. Such
  an exception after the filename check reaches the client as the framework's
  generic 500.
- **Source previews and the chat response** (module `Chat`). Each retrieved document
  becomes `{first 200 characters, filename or "Unknown", doc_id or "Unknown"}`, in
  retrieval order. A missing key in the history, or a failing chain, becomes a 500
  whose detail carries the message.

External collaborators are parameters:
- For `Upload.Ingest`, the outcome of reading and splitting the PDF (the chunks, or
  the message of the exception) is an input. So are the generated document id and
  the session id. The index side (opening the index and adding the texts) is a
  function parameter that may report an exception.
- The retrieval chain is a function parameter of `Chat.Respond`. It takes the
  session id and the chain input and returns a result or an error message.

Python's `KeyError` for a missing dictionary key is modelled as a `Result` failure
that carries the key. The endpoint's catch-all handler turns it into the detail
`Error processing chat: 'role'` (or `'content'`). The reported key is the one
missing at the first entry where the loop reads an absent key. In the code, the
`"content"` key is read only where its value is used. So an `"assistant"` entry
without content is harmless before the first turn, and so is any entry whose role
is neither `"user"` nor `"assistant"`. The model keeps this behaviour.

Strings are `seq<char>`, where a Dafny `char` is a Unicode scalar value. So the
200-character preview is a prefix measured in code points, as Python's slice is.

## Model

| member | source | states |
|---|---|---|
| History.ParseRole | api/index.py:181-183 | a role string is "user" or "assistant" only by exact match; every string reads back as itself |
| History.ParseRoleName | api/index.py:181-183 | reading a role's wire name gives back the role |
| History.Step | api/index.py:180-184 | a user message appends one turn with answer ""; an assistant message with a turn present changes only the last answer and keeps all earlier turns and the last question; anything else changes nothing |
| History.FoldFrom | api/index.py:179-184 | the loop adds exactly one turn per user message, the questions are the user contents in input order, and no turn before the last one already present changes |
| History.FoldHistory | api/index.py:179-184 | the folded history has one turn per user message and its questions are the user messages' contents in order |
| History.FoldHistoryIsPairing | api/index.py:179-184 | the fold equals the look-ahead description: one turn per user message, answered by the last assistant message before the next user message, "" if none |
| History.FoldFromSettles | api/index.py:179-184 | folding from any history equals that history with its last answer settled by the leading block of messages, followed by the look-ahead turns |
| History.FoldFromAppend | api/index.py:180 | folding a concatenation equals folding the second part from the first part's result |
| History.LeadingMessagesDropped | api/index.py:183 | assistant (and other) messages before the first user message are dropped |
| History.OtherRolesIgnored | api/index.py:181-184 | removing messages whose role is neither "user" nor "assistant" does not change the history |
| History.FoldFromIgnoresOthers | api/index.py:181-184 | the same for a fold started from any history |
| History.DropOthers | api/index.py:181-184 | the filtered list has no other-role messages and the same number of user messages |
| History.UserOpensTurn | api/index.py:180-184 | a user message followed by no further user message adds one turn: its content, answered by the trailing block; earlier turns are unchanged |
| History.UnansweredKeepsEmpty | api/index.py:182 | a user message not followed by an assistant message keeps the answer "" |
| History.LastAnswerKept | api/index.py:183-184 | with several assistant messages after one user message, the last one is the answer |
| History.LastAssistantWins | api/index.py:183-184 | a block without user messages that ends in an assistant message answers with that message |
| History.NoAssistantKeepsAnswer | api/index.py:182 | a block with neither user nor assistant messages leaves the answer unchanged |
| History.NoUsersNoTurns | api/index.py:181-182 | messages without a user message produce no turns |
| History.CountUsersAppend | api/index.py:181-182 | the user count of a concatenation is the sum of the parts' counts |
| History.Flatten | frontend/src/App.js:79-101 | the client's list of alternating question and answer messages has two messages and one user message per turn |
| History.FoldFromFlatten | api/index.py:179-184 | folding an alternating list onto a history appends exactly its turns |
| History.FlattenRoundTrip | api/index.py:179-184 | notices followed by alternating question and answer messages fold back to exactly those turns |
| History.ClientHistoryAfterOneExchange | frontend/src/App.js:32-36 | greeting, upload notice, question and answer fold to the single turn (question, answer) |
| History.UploadNoticeReplacesAnswer | api/index.py:183-184 | an upload notice sent after an answered question becomes that question's answer |
| History.UserContents | api/index.py:182 | one question per user message |
| Chat.Parse | api/index.py:180-184 | a well-formed entry list reads as messages of the same length; each role is the exact, case-sensitive reading of the role string and each content is kept |
| Chat.FoldRawFrom | api/index.py:179-184 | on well-formed entries it is the fold; success implies every entry has a role and every user entry has content; a failure names "role" or "content", and "role" whenever every entry has content |
| Chat.FoldRawReportsFirstMissingKey | api/index.py:179-184 | the fold succeeds exactly when no entry lacks a key the loop reads there, and a failure names the key missing at the first such entry |
| Chat.FoldRaw | api/index.py:179-184 | on well-formed entries the result is the folded history; success implies every entry has a role |
| Chat.LeadingEntriesNotRead | api/index.py:181-183 | entries with a role other than "user" before the first user entry are dropped, with or without content |
| Chat.OtherEntrySkipped | api/index.py:181-183 | an entry whose role is neither "user" nor "assistant" is skipped at any point, with or without content |
| Chat.Truncate | api/index.py:196 | the result is a prefix of the text with length min(n, length) |
| Chat.GetOrUnknown | api/index.py:197-198 | a present key gives its value, an absent one gives "Unknown" |
| Chat.Preview | api/index.py:195-199 | the preview content is the first min(200, length) characters; filename and doc_id are the stored values or "Unknown" when missing |
| Chat.Previews | api/index.py:193-199 | one preview per retrieved document, in retrieval order |
| Chat.Sources | api/index.py:193-199 | an absent source document list yields no sources; otherwise source i is the preview of document i |
| Chat.PreviewsAppend | api/index.py:194-199 | previewing a concatenation previews each part in order |
| Chat.StoredChunkPreview | api/index.py:193-199 | a chunk stored with upload metadata previews with its uploaded filename and document id |
| Chat.Respond | api/index.py:186-207 | every failure is a 500; a success means the history folded and the chain answered, with that answer and the previews of its documents; when the history folds and the chain answers, the request succeeds |
| Chat.RespondWellFormed | api/index.py:186-207 | with a well-formed history the chain receives the folded history; its answer and previews are returned, and its failure becomes "Error processing chat: " plus the message |
| Chat.FoldRawMissingRole | api/index.py:180-181 | an entry without "role" whose predecessors all have content makes the fold report the key "role" |
| Chat.MissingRoleFails | api/index.py:180-181 | an entry without "role" whose predecessors all have content makes the request fail with 500 "Error processing chat: 'role'" |
| Http.ChatFailure | api/index.py:206-207 | the error is a 500 whose detail is the fixed prefix followed by the message |
| Http.KeyErrorText | api/index.py:207 | a missing-key message is the key wrapped in single quotes |
| Upload.RejectFilename | api/index.py:84-85 | the upload is refused with 400 "Only PDF files supported" exactly when the filename does not end in ".pdf" |
| Upload.PdfNamesAccepted | api/index.py:84 | every stem followed by ".pdf" is accepted, the bare ".pdf" included |
| Upload.AcceptedNamesArePdf | api/index.py:84 | every accepted filename is a stem followed by ".pdf" |
| Upload.UpperCaseRejected | api/index.py:84-85 | "report.PDF" is refused and "report.pdf" is accepted: the check is case-sensitive |
| Upload.Metadatas | api/index.py:111-119 | one record per chunk; record i has chunk_id i, and all share doc_id, filename and session_id |
| Upload.MetadatasSplit | api/index.py:111-119 | the records for a + b chunks are those for a followed by b records with positions shifted by a |
| Upload.Ingest | api/index.py:80-139 | a non-PDF filename gives the 400 error; a failed extraction or index call gives a 500; otherwise it succeeds, the stored texts are the chunks, record i is (doc_id, filename, i, session_id), and the reported chunk count is the number of chunks |
| Upload.ChunkIdsDistinct | api/index.py:115 | two chunks of one upload never share a metadata record |
| Metadata.ToMap | api/index.py:111-119 | the stored dictionary has exactly the keys doc_id, filename, chunk_id and session_id, holding the document id, filename, position and session id |
| Metadata.FromMap | api/index.py:111-119 | a decoded record agrees with the dictionary on all four keys; decoding fails only when a field is missing or ill-typed |
| Metadata.FromToMap | api/index.py:111-119 | every field written for a chunk reads back unchanged |

## Left out

- Web plumbing: FastAPI routing, CORS, the Mangum handler, and the root and health endpoints. None of it computes anything.
- Session creation: it returns a fresh UUID with a fixed message. UUIDs are inputs here.
- The temporary file and its deletion: this is filesystem I/O.
- PDF text extraction with pypdf, and the text splitter with chunk size 1000 and overlap 200. Their outcome is the `extracted` input of `Upload.Ingest`. The splitting algorithm belongs to LangChain and is not part of this model.
- Pinecone index creation, the upsert and the session-filtered top-4 query, OpenAI embeddings and the chat model. On the chat side they form the `chain` parameter of `Chat.Respond`. On the upload side, index creation and the upsert form the `store` parameter of `Upload.Ingest`, which receives the texts and metadata.
- Upload.Ingest: the body of the generic 500 is not modelled beyond its status and fixed text. The exception's own message is not part of it.
- Chat.Respond: failures of index or chain construction come before the history fold in the code. The model folds first and treats every chain-side failure as the chain call's failure. The only difference is which message a request reports when both the history and the index fail.
- Chat.RawMessage: a role or content that is not a string (a JSON number, say) is not modelled. Such a role compares unequal to both names and is ignored, which is the same as any other role.
- Upload.RejectFilename: a missing filename is not modelled. The filename is taken to be a string.
- The catch-all handler of the chat endpoint is modelled only for the failures named above: missing keys and chain failures.
- A keyword-overlap ranker, an in-memory session store, chat-ledger storage and document deletion do not occur in `api/index.py`, so they are not modelled.
- The `session_id` field of the chat request body is carried but unused, as in the code; retrieval uses the session id of the path.
