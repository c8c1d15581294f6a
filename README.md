# ai-usage-example in Dafny: the retrieval route and the support-chat prompt

This project models the server-side logic of the `ai-usage-example` Next.js demo. It covers two API routes.

`POST /api/rag-playground` is a small retrieval-augmented generation pipeline:

1. It embeds the ten sample documents once and caches the vectors in the module variable `cachedEmbeddings`.
2. It embeds the user's question.
3. It scores every document by cosine similarity.
4. It sorts the documents stably by descending score.
5. It keeps the first `topK` as display chunks, each with a 420-character snippet and a score rounded to four decimals.
6. It serialises the chunks into a grounding context and asks the model for an answer.

`POST /api/support-chat` keeps the last six history messages, maps their roles, and drops blank ones. It then builds a transcript prompt ending in `\nAI:` and returns the trimmed reply.

Both routes have a fixed ladder of status codes:

- 500 when the API key is missing;
- 400 when the question or message is blank;
- 500 when a provider call throws, and in the retrieval route also when the question embedding has no vector or a selected record has no document;
- 502 when the model's answer is blank;
- 200 otherwise.

Layout, one module per file:

| file | module | contents |
|---|---|---|
| `wrappers.dfy` | `Wrappers` | `Option` |
| `text.dfy` | `Text` | JavaScript `trim` (ECMAScript white space), `join`, `slice` with relative indices, integer rendering in template literals |
| `corpus.dfy` | `Corpus` | `DocType`, `Document`, `SampleDocuments`, the per-type tally |
| `vectors.dfy` | `Vectors` | the dot and sum-of-squares folds, `CosineSimilarity`, Cauchy–Schwarz |
| `provider.dfy` | `Provider` | the provider's outcomes and requests as data, the shared error texts, trimming of the model's text |
| `retrieval.dfy` | `Retrieval` | scoring, the stable insertion sort, `toFixed(4)` rounding, `selectTopK`, `buildContext`, the prompt |
| `rag_route.dfy` | `RagRoute` | the embedding cache, the `POST` handler as a function, and the class `RagPlayground` with its methods |
| `support_chat.dfy` | `SupportChat` | the conversation window, the prompt, and the `POST` handler as a function |

How the model is built:

- **The embedding cache is state.** The class `RagPlayground` holds `cachedEmbeddings` as an `Option` field. It also holds a ghost log of the provider requests. Its methods `GetDocumentEmbeddings`, `Post`, `ServeQuestion` and `AnswerQuestion` are proved equal to the pure functions `FetchEmbeddings`, `HandlePost`, `Serving` and `Answering`. The lemmas are stated about those functions.
- **The rest is pure.**
  - Provider outcomes are inputs: `EmbedResponse` and `GenResponse`, where a thrown call is `EmbedError` or `GenError`.
  - `Math.sqrt` is a parameter `sqrt`. Lemmas that need it to be exact require `IsSqrt(sqrt)`. The guards need only `sqrt(0) == 0`, which `Math.sqrt` meets.
  - The support route's `SYSTEM_PROMPT` is the parameter `systemPrompt`.
  - The handler functions take the corpus as a parameter `docs`. The class fixes it to `SampleDocuments`, as the route's import does.
- **Snippets.** `content.slice(0, 420)` gives a 420-character snippet exactly when the content has at least 420 characters (`SnippetIsPrefix`). The UI's `...` marker uses the same `>= 420` test.

## Model

| member | source | states |
|---|---|---|
| Text.Trim | app/api/rag-playground/route.ts:141 | the trimmed text is the input with a blank prefix and a blank suffix cut off; it neither starts nor ends with ECMAScript white space, and is empty exactly when the input is blank |
| Text.TrimUnique | app/api/rag-playground/route.ts:141 | cutting blank ends so that what is left starts and ends with a non-space, or is empty, gives exactly the trimmed text, so `Trim` is the one such cut |
| Text.TrimIdempotent | app/api/rag-playground/route.ts:141 | trimming a trimmed answer changes nothing |
| Text.Join | app/api/rag-playground/route.ts:46-53 | no parts join to the empty string, and a join begins with its first part |
| Text.JoinSnoc | app/api/rag-playground/route.ts:46-53 | joining one more part appends the separator and the part, or gives just the part when it is the first |
| Text.JoinLength | app/api/rag-playground/route.ts:46-53 | a join of n parts is as long as the parts plus n - 1 separators |
| Text.RelativeIndex | app/api/support-chat/route.ts:31 | `slice` counts a negative index from the end and clamps every index to [0, length] |
| Text.Slice | app/api/support-chat/route.ts:31 | the slice has max(0, end - start) elements for the clamped indices, and is a prefix of the input from the clamped start |
| Text.SliceLast | app/api/support-chat/route.ts:31 | `slice(-n)` is the suffix of length min(n, length) |
| Text.SlicePrefix | app/api/rag-playground/route.ts:73 | `slice(0, n)` for n >= 0 is the prefix of length min(n, length) |
| Text.NatToString | app/api/rag-playground/route.ts:50 | the ordinal in a block header is a non-empty run of decimal digits without a leading zero |
| Text.ParseNatToString | app/api/rag-playground/route.ts:50 | the rendered ordinal reads back as the same number |
| Corpus.TallyBounds | lib/rag-sample-docs.ts:4 | a type's tally is at most the number of documents, and 0 exactly when no document has that type |
| Corpus.CountType | lib/rag-sample-docs.ts:4 | the per-type document count is at most the corpus size and 0 exactly when the type is absent |
| Corpus.TallyCoversAll | lib/rag-sample-docs.ts:4 | the four type tallies add up to the number of documents, because every document has exactly one of the four types |
| Corpus.SampleSize | lib/rag-sample-docs.ts:9-90 | the corpus holds exactly ten documents |
| Corpus.SampleIdsDistinct | lib/rag-sample-docs.ts:11-83 | document ids are pairwise distinct |
| Corpus.SampleTypes | lib/rag-sample-docs.ts:13-85 | the document types, in corpus order |
| Corpus.SampleTally | lib/rag-sample-docs.ts:12-86 | the corpus holds two PDFs, two Markdown files, one FAQ and five policies |
| Vectors.DotPrefixSymmetric | lib/vector-utils.ts:4 | the dot fold pairs the same indices whichever vector comes first |
| Vectors.SumSquaresZero | lib/vector-utils.ts:5-6 | a sum of squares is non-negative, and 0 exactly for the zero or empty vector |
| Vectors.CauchySchwarzPrefix | lib/vector-utils.ts:4-6 | over every prefix, dot^2 <= sumsq(a) * sumsq(b) |
| Vectors.CosineSimilarity | lib/vector-utils.ts:1-11 | different lengths, empty vectors and a zero norm give 0; otherwise the similarity times the product of the norms is the dot product |
| Vectors.CosineSymmetric | lib/vector-utils.ts:1-11 | the similarity does not depend on the order of its arguments, even with an inexact square root |
| Vectors.CosineDegenerate | lib/vector-utils.ts:2-8 | given only `sqrt(0) == 0`, which `Math.sqrt` meets, different lengths, empty vectors and zero vectors all score 0 |
| Vectors.CosineInRange | lib/vector-utils.ts:4-10 | with an exact square root, the similarity lies in [-1, 1] |
| Vectors.CosineSelf | lib/vector-utils.ts:4-10 | with an exact square root, a non-zero vector scores exactly 1 against itself |
| Provider.AnswerText | app/api/rag-playground/route.ts:141-143 | the model's text after `?.trim()` is empty exactly when it is missing or blank; a present text loses only the white space at its two ends, so the result neither starts nor ends with white space |
| Retrieval.ScoreAll | app/api/rag-playground/route.ts:60-64 | one scored entry per record, in record order, with the record's document and its cosine similarity to the query |
| Retrieval.Insert | app/api/rag-playground/route.ts:65 | inserting into a non-increasing sequence keeps it non-increasing and adds exactly that element |
| Retrieval.SortByScore | app/api/rag-playground/route.ts:65 | the sort's output is non-increasing in score and a permutation of its input |
| Retrieval.InsertStable | app/api/rag-playground/route.ts:65 | an inserted element precedes the elements of equal score that follow it in the input |
| Retrieval.SortStable | app/api/rag-playground/route.ts:65 | for every score, the elements with that score keep their input (corpus) order |
| Retrieval.StableOrderUnique | app/api/rag-playground/route.ts:65 | two non-increasing sequences with the same per-score subsequences are equal |
| Retrieval.SortIsTheStableSort | app/api/rag-playground/route.ts:65 | any stable descending sort of the scored records is exactly `SortByScore`'s output |
| Retrieval.Round4 | app/api/rag-playground/route.ts:72 | the rounded score is a whole number of ten-thousandths with the sign of the raw score |
| Retrieval.Round4Monotone | app/api/rag-playground/route.ts:72 | `toFixed(4)` rounding never reverses the order of two scores |
| Retrieval.Round4Close | app/api/rag-playground/route.ts:72 | the rounded score is within 0.00005 of the raw score |
| Retrieval.Snippet | app/api/rag-playground/route.ts:73 | the snippet is a prefix of the content, at most 420 long |
| Retrieval.SnippetIsPrefix | app/api/rag-playground/route.ts:73 | the snippet is the content prefix of length min(420, length), and is 420 long exactly when the content is at least 420 long |
| Retrieval.SampleSnippetsWhole | lib/rag-sample-docs.ts:15-88 | every sample content is non-empty and shorter than 420 characters, so its snippet is the whole content |
| Retrieval.ToChunk | app/api/rag-playground/route.ts:67-74 | a chunk copies its document's id, title, source and type, has a score within 0.00005 of the raw score, and a snippet that begins the content and is at most 420 long |
| Retrieval.SelectTopK | app/api/rag-playground/route.ts:55-77 | selection succeeds when every record has a document and then returns min(k, records) chunks, scores non-increasing, snippets at most 420 long |
| Retrieval.TopIsSortedPart | app/api/rag-playground/route.ts:66 | the first k of a non-increasing ranking are non-increasing and there are min(k, n) of them |
| Retrieval.ChunksKeepOrder | app/api/rag-playground/route.ts:67-74 | mapping ranked records to chunks keeps the rounded scores non-increasing |
| Retrieval.TopComesFromRecords | app/api/rag-playground/route.ts:60-66 | every selected entry carries the document of one of the records |
| Retrieval.SelectTopKChunks | app/api/rag-playground/route.ts:67-74 | chunk i copies id, title, source and type of ranked record i's document, its snippet is the content prefix, and its score is the rounded raw score |
| Retrieval.SelectionDominates | app/api/rag-playground/route.ts:60-66 | the selected and the dropped records together are all scored records, and no dropped record outscores a selected one |
| Retrieval.PrefixDominates | app/api/rag-playground/route.ts:66 | cutting a non-increasing sequence gives two parts that make up the whole, with the first dominating the second |
| Retrieval.ContextBlock | app/api/rag-playground/route.ts:50 | a block starts with `#` and ends with the chunk's snippet |
| Retrieval.BuildContext | app/api/rag-playground/route.ts:46-53 | the context is empty exactly when no chunk was retrieved |
| Retrieval.BuildContextSnoc | app/api/rag-playground/route.ts:46-53 | the context grows block by block: a blank line, then `#<i+1> [title] (source)`, a newline and the snippet |
| Retrieval.RagPrompt | app/api/rag-playground/route.ts:126-131 | the prompt is the header, the context, the label with the untrimmed question, and the closing instruction, separated by blank lines |
| RagRoute.NormalizedTopK | app/api/rag-playground/route.ts:97-106 | `topK` defaults to 3 and is clamped to [1, corpus size] |
| RagRoute.SampleTopK | app/api/rag-playground/route.ts:106 | for the sample corpus the clamped k lies in [1, 10], is 3 by default and 10 for any request of 10 or more |
| RagRoute.CorpusContents | app/api/rag-playground/route.ts:35 | the batch input is every document's content in corpus order |
| RagRoute.PairRecords | app/api/rag-playground/route.ts:38-41 | one record per returned vector, record i pairing vector i with document i (undefined past the corpus) |
| RagRoute.FetchEmbeddings | app/api/rag-playground/route.ts:30-44 | at most one provider call, and none exactly when the cache is set; a set cache never changes, and a successful fetch returns what the cache holds |
| RagRoute.CachedIsReturned | app/api/rag-playground/route.ts:31 | a set cache, even an empty one, is returned unchanged without a provider call |
| RagRoute.FirstFetchFills | app/api/rag-playground/route.ts:33-43 | an empty cache costs exactly one batched request of the corpus contents, and on success holds and returns the paired records |
| RagRoute.FetchTwice | app/api/rag-playground/route.ts:30-44 | once filled, the cache answers every later fetch identically and without a call |
| RagRoute.FetchKeepsPairing | app/api/rag-playground/route.ts:38-43 | a fetch keeps the cached records paired with the corpus |
| RagRoute.SelectionNeverThrows | app/api/rag-playground/route.ts:38-41 | records paired with the corpus, no more of them than documents, never make the selection throw |
| RagRoute.HandlePost | app/api/rag-playground/route.ts:89-163 | the response is 400 exactly for a configured key and a missing or blank question; a set cache is never replaced; at most three provider calls |
| RagRoute.Serving | app/api/rag-playground/route.ts:106-162 | past validation the status is 200, 500 or 502, never 400; a set cache is kept; at most three provider calls |
| RagRoute.Answering | app/api/rag-playground/route.ts:112-155 | the first call embeds the question alone; a second call, when made, is the generation request; stopping after the first call means the generic 500 |
| RagRoute.Respond | app/api/rag-playground/route.ts:141-162 | the status is 200, 500 or 502, and a 200 carries a non-empty answer, the retrieved chunks and both model names |
| RagRoute.PostKeyMissing | app/api/rag-playground/route.ts:90-95 | a missing or empty key gives 500 with no provider call and the cache untouched |
| RagRoute.PostQuestionMissing | app/api/rag-playground/route.ts:97-104 | with a key, a missing or blank question gives 400 with no provider call and the cache untouched |
| RagRoute.PostStatuses | app/api/rag-playground/route.ts:89-163 | every response is 200, 400, 500 or 502, only 200 carries an answer, and every 500 is the missing key or the generic error |
| RagRoute.PostCallOrder | app/api/rag-playground/route.ts:108-139 | the calls come in order: the corpus batch only when nothing is cached, then the question embedding, then generation |
| RagRoute.RespondFailures | app/api/rag-playground/route.ts:141-162 | a thrown generation gives 500, and a missing or blank text gives 502 |
| RagRoute.RespondAnswer | app/api/rag-playground/route.ts:141-155 | otherwise the response is 200 with the trimmed text, the chunks and both model names |
| RagRoute.PostFailsEarly | app/api/rag-playground/route.ts:90-123 | if a stage before generation fails, no generation request is made, and the response is the 500 of a missing key, the 400 of a missing question, or otherwise (failed corpus batch, no question vector, selected record without a document) the generic 500 |
| RagRoute.PostGenerates | app/api/rag-playground/route.ts:123-139 | when every earlier stage succeeds, the last call is generation on the prompt built from the retrieved context and the untrimmed question, and the generation outcome decides the response |
| RagRoute.PostAnswer | app/api/rag-playground/route.ts:141-155 | 200 exactly when every stage succeeded and the text is not blank; then the answer is the trimmed text and `retrieved` is the top-k selection of min(k, records) chunks |
| RagRoute.PostEmptyAnswer | app/api/rag-playground/route.ts:141-148 | 502 exactly when every stage succeeded but the text is missing or blank |
| RagRoute.PostRetrievesClampedK | app/api/rag-playground/route.ts:106 | with all ten documents embedded, a 200 retrieves exactly the clamped k chunks: 3 by default, 10 for 10 or more |
| RagRoute.RagPlayground.constructor | app/api/rag-playground/route.ts:23-28 | the module starts with the sample corpus and an empty cache |
| RagRoute.RagPlayground.GetDocumentEmbeddings | app/api/rag-playground/route.ts:30-44 | the method returns, caches and requests what `FetchEmbeddings` says, and keeps the cache paired with the corpus |
| RagRoute.RagPlayground.Post | app/api/rag-playground/route.ts:89-163 | the method answers, updates the cache and makes the calls `HandlePost` specifies |
| RagRoute.RagPlayground.ServeQuestion | app/api/rag-playground/route.ts:106-123 | past validation the method follows `Serving` |
| RagRoute.RagPlayground.AnswerQuestion | app/api/rag-playground/route.ts:112-155 | after the corpus fetch the method follows `Answering` and leaves the cache alone |
| SupportChat.Entries | app/api/support-chat/route.ts:32-35 | entry i is history item i with `bot` read as the assistant and the content unchanged |
| SupportChat.KeepNonBlank | app/api/support-chat/route.ts:36 | the filter keeps at most its input, and only entries that are not blank |
| SupportChat.KeepNonBlankMembers | app/api/support-chat/route.ts:36 | an entry survives exactly when it is present and not blank |
| SupportChat.KeepNonBlankConcat | app/api/support-chat/route.ts:36 | the filter distributes over concatenation, so it keeps the order of what it keeps |
| SupportChat.KeepNonBlankAll | app/api/support-chat/route.ts:36 | a run with no blank entries passes unchanged |
| SupportChat.Conversation | app/api/support-chat/route.ts:30-36 | the conversation has at most 6 entries, none blank |
| SupportChat.ConversationWindow | app/api/support-chat/route.ts:31 | the window is the last six history items, or all of them when there are fewer |
| SupportChat.ConversationEntries | app/api/support-chat/route.ts:30-36 | the entries are exactly the non-blank items of the last six, with the assistant role exactly for `bot` |
| SupportChat.ConversationIgnoresOlder | app/api/support-chat/route.ts:31 | items before the last six never reach the prompt |
| SupportChat.ConversationFull | app/api/support-chat/route.ts:30-36 | six non-blank trailing items give exactly those six entries |
| SupportChat.FilterAfterWindow | app/api/support-chat/route.ts:31-36 | the filter runs after the cut: seven items with one blank among the last six give five entries although six items are not blank |
| SupportChat.Lines | app/api/support-chat/route.ts:40-45 | line i is entry i with the `AI: ` or `ユーザー: ` label |
| SupportChat.ConversationText | app/api/support-chat/route.ts:40-46 | the transcript is empty exactly when the conversation is, so the extra newline appears only after a non-empty transcript |
| SupportChat.JoinedIsTranscript | app/api/support-chat/route.ts:46-48 | the joined lines plus the newline are one newline-terminated line per entry |
| SupportChat.PromptIsTranscript | app/api/support-chat/route.ts:40-48 | the prompt is one labelled line per entry in order, then the untrimmed message on a `ユーザー: ` line, then `\nAI:` |
| SupportChat.PromptInput | app/api/support-chat/route.ts:48 | every prompt ends with the user's untrimmed message on a `ユーザー: ` line followed by `\nAI:` |
| SupportChat.ChatKeyMissing | app/api/support-chat/route.ts:13-18 | a missing or empty key gives 500 without a provider call |
| SupportChat.ChatMessageMissing | app/api/support-chat/route.ts:20-28 | with a key, a missing or blank message gives 400 without a provider call |
| SupportChat.HandleChat | app/api/support-chat/route.ts:12-76 | at most one provider call, made exactly for a configured key and a non-blank message; a reply is never empty |
| SupportChat.ChatSingleCall | app/api/support-chat/route.ts:50-57 | a valid request makes exactly one call: gpt-4o-mini, the system prompt, the built prompt, temperature 0.2, 400 tokens |
| SupportChat.ChatHistoryDefault | app/api/support-chat/route.ts:20 | an absent history is answered as an empty one |
| SupportChat.ChatStatuses | app/api/support-chat/route.ts:12-76 | every response is 200, 400, 500 or 502, only 200 carries a reply, every 500 is the missing key or the generic error, and a valid request gets the generic 500 exactly when generation threw |
| SupportChat.ChatReply | app/api/support-chat/route.ts:59-68 | a reply comes back exactly when the request is valid and the text is not blank, and it is the trimmed text |
| SupportChat.ChatEmptyReply | app/api/support-chat/route.ts:59-66 | 502 exactly when the request is valid but the text is missing or blank |

## Left out

- **Network calls.** The provider calls (`embeddings.create`, `responses.create`) are network I/O. Their outcomes are inputs. The model captures which calls are made and with what arguments, but not the calls themselves.
- **Process and framework plumbing.** `process.env`, `request.json()` and `NextResponse` become an `Option` key, request datatypes and response datatypes. So the model does not cover:
  - invalid JSON;
  - a non-string `question` or `message`;
  - a non-array `history`;
  - `null` values, which skip the `= []` and `= 3` defaults;
  - a non-integer `topK`;
  - a history item whose `content` is not a string: `item.content.trim()` runs before the `try` and throws, while `HistoryMessage` holds a string.

  In the code these throw or coerce outside the modelled paths.
- **Floating point.** Vectors and scores are real numbers. IEEE rounding, overflow, underflow, NaN and Infinity are not modelled, so neither is NaN breaking the sort comparator.
- **`Math.sqrt`.** It is the parameter `sqrt`. `CosineInRange` and `CosineSelf` assume it is exact, which IEEE `Math.sqrt` is not. `CosineDegenerate` needs only `sqrt(0) == 0`, which `Math.sqrt` meets.
- **`Number(score.toFixed(4))`.** This is modelled over the reals as round half away from zero to four decimals, as `toFixed` does for negative ties (`Round4`). The decimal string and its parse back into a double are not modelled.
- **Strings.** Strings are sequences of characters, while JavaScript strings are UTF-16 code units. They agree on the corpus and prompts, which use only Basic Multilingual Plane characters. `trim` uses the ECMAScript white-space and line-terminator set.
- **Concurrency.** The cache is single-threaded. Concurrent first requests that both fill `cachedEmbeddings` are not modelled.
- **Logging.** `console.error` is not modelled.
- **The system prompt.** `buildSupportSystemPrompt` lives in `lib/support-faq`, which is not part of this model. Its result is the parameter `systemPrompt`.
- **The instructions.** `buildInstructions` is modelled as its literal text (`Retrieval.Instructions`); no property is proved about it.
- **UI files.** The React pages and the chat widget (`app/page.tsx`, `app/rag/page.tsx`, `components/chatbot-demo.tsx`) are rendering and `fetch` plumbing. The type tally they display is proved as `Corpus.SampleTally`.
