/**
 * `POST /api/rag-playground`: the lazily filled cache of corpus embeddings and
 * the request handler.  The handler is specified as a pure function from the
 * request, the cache and the provider's outcomes to the response, the new cache
 * and the provider calls made; the class `RagPlayground` holds the cache as a
 * field and its methods are proved against those functions.
 *
 * The functions take the corpus as a parameter `docs`; the route module, and so
 * the class, fixes it to `SampleDocuments`.
 */
module RagRoute {
  import opened Wrappers
  import opened Text
  import opened Corpus
  import opened Vectors
  import opened Provider
  import opened Retrieval

  const EmbeddingModel: string := "text-embedding-3-small"
  const GenerationModel: string := "gpt-4o-mini"

  /** `topK` when the request leaves it out. */
  const DefaultTopK: int := 3

  const QuestionRequired: string := "question is required"
  const Unexpected: string := "Unexpected error while processing the RAG request"

  /** The JSON body; a field the client left out is `None`. */
  datatype RagRequest = RagRequest(question: Option<string>, topK: Option<int>)

  /** The JSON response: an error with its status, or the 200 answer. */
  datatype Response =
    | Failure(status: nat, error: string)
    | Answer(answer: string, retrieved: seq<RetrievedChunk>, model: string, embeddingModel: string)
  {
    function Status(): nat {
      match this
      case Failure(status, _) => status
      case Answer(_, _, _, _) => 200
    }
  }

  /** `Math.min(Math.max(topK, 1), size)` with `topK` defaulting to 3, for a corpus of `size` documents. */
  function NormalizedTopK(topK: Option<int>, size: nat): (k: int)
    ensures 1 <= size ==> 1 <= k <= size
    ensures topK.None? && DefaultTopK <= size ==> k == DefaultTopK
    ensures topK.Some? && 1 <= topK.value <= size ==> k == topK.value
    ensures topK.Some? && topK.value < 1 && 1 <= size ==> k == 1
    ensures topK.Some? && topK.value > size ==> k == size
  {
    Min(Max(topK.GetOr(DefaultTopK), 1), size)
  }

  /** For the sample corpus the clamp bound is 10: any `topK` from 10 up selects 10, and the default 3. */
  lemma SampleTopK(topK: Option<int>)
    ensures 1 <= NormalizedTopK(topK, |SampleDocuments|) <= 10
    ensures topK.None? ==> NormalizedTopK(topK, |SampleDocuments|) == 3
    ensures topK.Some? && topK.value >= 10 ==> NormalizedTopK(topK, |SampleDocuments|) == 10
  {
    SampleSize();
  }

  // ---------------------------------------------------------------------------
  // The embedding cache

  /** The batch input: every document's content, in corpus order. */
  function CorpusContents(docs: seq<Document>): (inputs: seq<string>)
    ensures |inputs| == |docs|
    ensures forall i :: 0 <= i < |inputs| ==> inputs[i] == docs[i].content
  {
    seq(|docs|, i requires 0 <= i < |docs| => docs[i].content)
  }

  /** The one request that embeds the corpus. */
  function CorpusEmbeddingRequest(docs: seq<Document>): ProviderRequest
  {
    EmbeddingRequest(EmbeddingModel, CorpusContents(docs))
  }

  /** The document `docs[index]` (undefined past the end of the corpus). */
  function DocumentAt(docs: seq<Document>, index: nat): Option<Document>
  {
    if index < |docs| then Some(docs[index]) else None
  }

  /** Record i pairs document i with vector i, for as many vectors as the provider returned. */
  predicate PairedWith(docs: seq<Document>, records: seq<EmbeddingRecord>) {
    forall i :: 0 <= i < |records| ==> records[i].doc == DocumentAt(docs, i)
  }

  /** The records built from the batch response: vector i with document i, one record per vector. */
  function PairRecords(docs: seq<Document>, vectors: seq<seq<real>>): (records: seq<EmbeddingRecord>)
    ensures |records| == |vectors|
    ensures PairedWith(docs, records)
    ensures forall i :: 0 <= i < |records| ==> records[i].embedding == vectors[i]
  {
    seq(|vectors|, i requires 0 <= i < |vectors| => EmbeddingRecord(DocumentAt(docs, i), vectors[i]))
  }

  /** What one `getDocumentEmbeddings` call returns (`None`: it threw), leaves in the cache, and asks the provider. */
  datatype CacheStep = CacheStep(result: Option<seq<EmbeddingRecord>>, cache: Option<seq<EmbeddingRecord>>, calls: seq<ProviderRequest>)

  /**
   * `getDocumentEmbeddings` on cache contents `cache`, where `batch` is what the
   * provider would answer to the corpus request.
   */
  function FetchEmbeddings(docs: seq<Document>, cache: Option<seq<EmbeddingRecord>>, batch: EmbedResponse): (step: CacheStep)
    ensures |step.calls| <= 1 && (step.calls == [] <==> cache.Some?)
    ensures cache.Some? ==> step.cache == cache
    ensures step.result.Some? ==> step.result == step.cache
  {
    if cache.Some? then CacheStep(cache, cache, [])
    else match batch
      case EmbedError => CacheStep(None, None, [CorpusEmbeddingRequest(docs)])
      case Embeddings(vectors) =>
        var records := PairRecords(docs, vectors);
        CacheStep(Some(records), Some(records), [CorpusEmbeddingRequest(docs)])
  }

  /**
   * A set cache, even an empty one, is returned as it is, stays as it is, and
   * costs no provider call.
   */
  lemma CachedIsReturned(docs: seq<Document>, cache: Option<seq<EmbeddingRecord>>, batch: EmbedResponse)
    requires cache.Some?
    ensures FetchEmbeddings(docs, cache, batch) == CacheStep(cache, cache, [])
  {
  }

  /**
   * On an empty cache exactly one batched request embeds the corpus contents
   * in order; on success the cache holds one record per returned vector, record
   * i pairing document i with vector i, and the call returns the cache.
   */
  lemma FirstFetchFills(docs: seq<Document>, batch: EmbedResponse)
    ensures var step := FetchEmbeddings(docs, None, batch);
            && step.calls == [EmbeddingRequest(EmbeddingModel, CorpusContents(docs))]
            && step.result == step.cache
            && (step.cache.Some? <==> batch.Embeddings?)
            && (batch.Embeddings? ==>
                  && |step.cache.value| == |batch.vectors|
                  && forall i :: 0 <= i < |batch.vectors| ==>
                       step.cache.value[i] == EmbeddingRecord(DocumentAt(docs, i), batch.vectors[i]))
  {
  }

  /** Filled once, the cache never changes again: a second fetch, whatever the provider would say, returns the same records without a call. */
  lemma FetchTwice(docs: seq<Document>, cache: Option<seq<EmbeddingRecord>>, batch: EmbedResponse, batch': EmbedResponse)
    requires FetchEmbeddings(docs, cache, batch).cache.Some?
    ensures var first := FetchEmbeddings(docs, cache, batch);
            var second := FetchEmbeddings(docs, first.cache, batch');
            && second.result == first.result
            && second.cache == first.cache
            && second.calls == []
  {
  }

  /** A fetch keeps records paired with the corpus, and a successful fetch returns what the cache holds. */
  lemma FetchKeepsPairing(docs: seq<Document>, cache: Option<seq<EmbeddingRecord>>, batch: EmbedResponse)
    requires cache.Some? ==> PairedWith(docs, cache.value)
    ensures var step := FetchEmbeddings(docs, cache, batch);
            && (step.cache.Some? ==> PairedWith(docs, step.cache.value))
            && (step.result.Some? ==> step.result == step.cache)
  {
  }

  /**
   * Records paired with the corpus, no more of them than documents, all carry
   * their document, so the selection never throws.
   */
  lemma SelectionNeverThrows(sqrt: real -> real, docs: seq<Document>, query: seq<real>, records: seq<EmbeddingRecord>, k: int)
    requires PairedWith(docs, records) && |records| <= |docs|
    ensures SelectTopK(sqrt, query, records, k).Some?
  {
  }

  // ---------------------------------------------------------------------------
  // The handler

  /** The response, the cache afterwards, and the provider calls made, in order. */
  datatype Outcome = Outcome(response: Response, cache: Option<seq<EmbeddingRecord>>, calls: seq<ProviderRequest>)

  /** The generation request for a prompt. */
  function GenerationCall(prompt: string): ProviderRequest
  {
    GenerationRequest(GenerationModel, Instructions(), prompt, Temperature, MaxOutputTokens)
  }

  /** The last stage: the generation outcome for the retrieved chunks becomes the response. */
  function Respond(retrieved: seq<RetrievedChunk>, gen: GenResponse): (r: Response)
    ensures r.Status() in {200, 500, 502}
    ensures r.Answer? ==> && r.answer != "" && r.retrieved == retrieved
                          && r.model == GenerationModel && r.embeddingModel == EmbeddingModel
  {
    match gen
    case GenError => Failure(500, Unexpected)
    case Generated(text) =>
      var answer := AnswerText(text);
      if answer == "" then Failure(502, EmptyResponse)
      else Answer(answer, retrieved, GenerationModel, EmbeddingModel)
  }

  /**
   * The stages after the corpus embeddings are known: embed the question, select,
   * build the prompt and generate.  The calls are the ones these stages make.
   */
  function Answering(sqrt: real -> real, question: string, k: int, records: seq<EmbeddingRecord>,
                     query: EmbedResponse, gen: GenResponse): (stages: (Response, seq<ProviderRequest>))
    ensures 1 <= |stages.1| <= 2 && stages.1[0] == EmbeddingRequest(EmbeddingModel, [question])
    ensures |stages.1| == 1 ==> stages.0 == Failure(500, Unexpected)
    ensures |stages.1| == 2 ==> stages.1[1].GenerationRequest?
    ensures stages.0.Status() in {200, 500, 502}
  {
    var queryCall := EmbeddingRequest(EmbeddingModel, [question]);
    if query.EmbedError? || query.vectors == [] then (Failure(500, Unexpected), [queryCall])
    else match SelectTopK(sqrt, query.vectors[0], records, k)
      case None => (Failure(500, Unexpected), [queryCall])
      case Some(retrieved) =>
        (Respond(retrieved, gen), [queryCall, GenerationCall(RagPrompt(BuildContext(retrieved), question))])
  }

  /**
   * The handler.  `batch`, `query` and `gen` are the provider's answers to the
   * corpus embedding, the question embedding and the generation request (each
   * only consulted if the handler gets that far); `sqrt` is `Math.sqrt`.
   */
  function HandlePost(sqrt: real -> real, docs: seq<Document>, apiKey: Option<string>, req: RagRequest,
                      cache: Option<seq<EmbeddingRecord>>, batch: EmbedResponse, query: EmbedResponse, gen: GenResponse): (o: Outcome)
    ensures o.response.Status() == 400 <==> KeyConfigured(apiKey) && MissingOrBlank(req.question)
    ensures cache.Some? ==> o.cache == cache
    ensures |o.calls| <= 3
  {
    if !KeyConfigured(apiKey) then Outcome(Failure(500, KeyMissing), cache, [])
    else if MissingOrBlank(req.question) then Outcome(Failure(400, QuestionRequired), cache, [])
    else Serving(sqrt, docs, req.question.value, req.topK, cache, batch, query, gen)
  }

  /** The handler past validation: fetch the corpus embeddings, then answer with the clamped `topK`. */
  function Serving(sqrt: real -> real, docs: seq<Document>, question: string, topK: Option<int>,
                   cache: Option<seq<EmbeddingRecord>>, batch: EmbedResponse, query: EmbedResponse, gen: GenResponse): (o: Outcome)
    ensures o.response.Status() in {200, 500, 502}
    ensures cache.Some? ==> o.cache == cache
    ensures |o.calls| <= 3
  {
    var step := FetchEmbeddings(docs, cache, batch);
    if step.result.None? then Outcome(Failure(500, Unexpected), step.cache, step.calls)
    else
      var (response, calls) := Answering(sqrt, question, NormalizedTopK(topK, |docs|), step.result.value, query, gen);
      Outcome(response, step.cache, step.calls + calls)
  }

  /**
   * The stages after the corpus embeddings: a failed question embedding or
   * selection is the generic 500 after the one embedding call; otherwise the
   * generation request follows, and its outcome decides the response.
   */
  lemma AnsweringStages(sqrt: real -> real, question: string, k: int, records: seq<EmbeddingRecord>,
                        query: EmbedResponse, gen: GenResponse)
    ensures var queryCall := EmbeddingRequest(EmbeddingModel, [question]);
            var stages := Answering(sqrt, question, k, records, query, gen);
            if query.EmbedError? || query.vectors == [] || SelectTopK(sqrt, query.vectors[0], records, k).None? then
              stages == (Failure(500, Unexpected), [queryCall])
            else
              var retrieved := SelectTopK(sqrt, query.vectors[0], records, k).value;
              stages == (Respond(retrieved, gen), [queryCall, GenerationCall(RagPrompt(BuildContext(retrieved), question))])
  {
  }

  /** Past validation and a successful corpus fetch, the handler is the answering stages after the fetch. */
  lemma HandlePostAfterFetch(sqrt: real -> real, docs: seq<Document>, apiKey: Option<string>, req: RagRequest,
                             cache: Option<seq<EmbeddingRecord>>, batch: EmbedResponse, query: EmbedResponse, gen: GenResponse)
    requires KeyConfigured(apiKey) && !MissingOrBlank(req.question)
    requires FetchEmbeddings(docs, cache, batch).result.Some?
    ensures var step := FetchEmbeddings(docs, cache, batch);
            var stages := Answering(sqrt, req.question.value, NormalizedTopK(req.topK, |docs|), step.result.value, query, gen);
            HandlePost(sqrt, docs, apiKey, req, cache, batch, query, gen) == Outcome(stages.0, step.cache, step.calls + stages.1)
  {
  }

  /** After a successful corpus fetch, serving is the answering stages, after the fetch's own call. */
  lemma ServingAfterFetch(sqrt: real -> real, docs: seq<Document>, question: string, topK: Option<int>,
                          cache: Option<seq<EmbeddingRecord>>, batch: EmbedResponse, query: EmbedResponse, gen: GenResponse)
    requires FetchEmbeddings(docs, cache, batch).result.Some?
    ensures var step := FetchEmbeddings(docs, cache, batch);
            var stages := Answering(sqrt, question, NormalizedTopK(topK, |docs|), step.result.value, query, gen);
            Serving(sqrt, docs, question, topK, cache, batch, query, gen) == Outcome(stages.0, step.cache, step.calls + stages.1)
  {
  }

  /** A missing key is answered with 500 before anything else: no provider call, cache untouched. */
  lemma PostKeyMissing(sqrt: real -> real, docs: seq<Document>, apiKey: Option<string>, req: RagRequest,
                       cache: Option<seq<EmbeddingRecord>>, batch: EmbedResponse, query: EmbedResponse, gen: GenResponse)
    requires !KeyConfigured(apiKey)
    ensures HandlePost(sqrt, docs, apiKey, req, cache, batch, query, gen) == Outcome(Failure(500, KeyMissing), cache, [])
  {
  }

  /** With a key, a missing or blank question is answered with 400, again before any provider call. */
  lemma PostQuestionMissing(sqrt: real -> real, docs: seq<Document>, apiKey: Option<string>, req: RagRequest,
                            cache: Option<seq<EmbeddingRecord>>, batch: EmbedResponse, query: EmbedResponse, gen: GenResponse)
    requires KeyConfigured(apiKey) && MissingOrBlank(req.question)
    ensures HandlePost(sqrt, docs, apiKey, req, cache, batch, query, gen) == Outcome(Failure(400, QuestionRequired), cache, [])
  {
  }

  /**
   * Every response is 200, 400, 500 or 502; only 200 carries an answer, and
   * every 500 is the missing key or the generic error of the provider stage.
   */
  lemma PostStatuses(sqrt: real -> real, docs: seq<Document>, apiKey: Option<string>, req: RagRequest,
                     cache: Option<seq<EmbeddingRecord>>, batch: EmbedResponse, query: EmbedResponse, gen: GenResponse)
    ensures var r := HandlePost(sqrt, docs, apiKey, req, cache, batch, query, gen).response;
            && r.Status() in {200, 400, 500, 502}
            && (r.Status() == 200 <==> r.Answer?)
            && (r.Failure? && r.status == 500 ==> r.error == KeyMissing || r.error == Unexpected)
  {
    if ReachesGeneration(sqrt, docs, apiKey, req, cache, batch, query) {
      var retrieved := Retrieved(sqrt, docs, apiKey, req, cache, batch, query);
      PostGenerates(sqrt, docs, apiKey, req, cache, batch, query, gen);
      RespondFailures(retrieved, gen);
      if gen.Generated? && !MissingOrBlank(gen.outputText) {
        RespondAnswer(retrieved, gen);
      }
    } else {
      PostFailsEarly(sqrt, docs, apiKey, req, cache, batch, query, gen);
    }
  }

  /**
   * Once the question is valid, the provider calls come in a fixed order: the
   * corpus batch (only when nothing is cached), the question as the only input
   * of an embedding request, and the generation request; each later call is
   * made only if the earlier ones succeeded.
   */
  lemma PostCallOrder(sqrt: real -> real, docs: seq<Document>, apiKey: Option<string>, req: RagRequest,
                      cache: Option<seq<EmbeddingRecord>>, batch: EmbedResponse, query: EmbedResponse, gen: GenResponse)
    requires KeyConfigured(apiKey) && !MissingOrBlank(req.question)
    ensures var o := HandlePost(sqrt, docs, apiKey, req, cache, batch, query, gen);
            var first := if cache.Some? then [] else [CorpusEmbeddingRequest(docs)];
            var queryCall := EmbeddingRequest(EmbeddingModel, [req.question.value]);
            && first <= o.calls
            && |o.calls| <= |first| + 2
            && (|o.calls| > |first| ==> o.calls[|first|] == queryCall)
            && (|o.calls| == |first| + 2 ==> o.calls[|first| + 1].GenerationRequest?)
            && o.cache == FetchEmbeddings(docs, cache, batch).cache
  {
    ServingCallOrder(sqrt, docs, req.question.value, req.topK, cache, batch, query, gen);
  }

  /** The call order of `PostCallOrder`, for the handler past validation. */
  lemma ServingCallOrder(sqrt: real -> real, docs: seq<Document>, question: string, topK: Option<int>,
                         cache: Option<seq<EmbeddingRecord>>, batch: EmbedResponse, query: EmbedResponse, gen: GenResponse)
    ensures var o := Serving(sqrt, docs, question, topK, cache, batch, query, gen);
            var first := if cache.Some? then [] else [CorpusEmbeddingRequest(docs)];
            && first <= o.calls
            && |o.calls| <= |first| + 2
            && (|o.calls| > |first| ==> o.calls[|first|] == EmbeddingRequest(EmbeddingModel, [question]))
            && (|o.calls| == |first| + 2 ==> o.calls[|first| + 1].GenerationRequest?)
            && o.cache == FetchEmbeddings(docs, cache, batch).cache
  {
    var step := FetchEmbeddings(docs, cache, batch);
    assert step.calls == if cache.Some? then [] else [CorpusEmbeddingRequest(docs)];
  }

  /** The generation outcome decides the last stage: 500 if it threw, 502 for a missing or blank text. */
  lemma RespondFailures(retrieved: seq<RetrievedChunk>, gen: GenResponse)
    ensures gen.GenError? ==> Respond(retrieved, gen) == Failure(500, Unexpected)
    ensures gen.Generated? && MissingOrBlank(gen.outputText) ==> Respond(retrieved, gen) == Failure(502, EmptyResponse)
  {
  }

  /** Otherwise the response is 200 with the trimmed text, which neither starts nor ends with white space. */
  lemma RespondAnswer(retrieved: seq<RetrievedChunk>, gen: GenResponse)
    requires gen.Generated? && !MissingOrBlank(gen.outputText)
    ensures Respond(retrieved, gen) == Answer(Trim(gen.outputText.value), retrieved, GenerationModel, EmbeddingModel)
    ensures var a := Trim(gen.outputText.value); a != [] && !IsWs(a[0]) && !IsWs(a[|a| - 1])
  {
    var answer := AnswerText(gen.outputText);
    assert answer == Trim(gen.outputText.value) && answer != "";
  }

  /** Every stage before generation succeeded: key, question, corpus embeddings, question embedding and selection. */
  predicate ReachesGeneration(sqrt: real -> real, docs: seq<Document>, apiKey: Option<string>, req: RagRequest,
                              cache: Option<seq<EmbeddingRecord>>, batch: EmbedResponse, query: EmbedResponse)
  {
    && KeyConfigured(apiKey) && !MissingOrBlank(req.question)
    && FetchEmbeddings(docs, cache, batch).result.Some?
    && query.Embeddings? && query.vectors != []
    && SelectTopK(sqrt, query.vectors[0], FetchEmbeddings(docs, cache, batch).result.value, NormalizedTopK(req.topK, |docs|)).Some?
  }

  /** The chunks selected once every stage before generation succeeded. */
  function Retrieved(sqrt: real -> real, docs: seq<Document>, apiKey: Option<string>, req: RagRequest,
                     cache: Option<seq<EmbeddingRecord>>, batch: EmbedResponse, query: EmbedResponse): seq<RetrievedChunk>
    requires ReachesGeneration(sqrt, docs, apiKey, req, cache, batch, query)
  {
    SelectTopK(sqrt, query.vectors[0], FetchEmbeddings(docs, cache, batch).result.value, NormalizedTopK(req.topK, |docs|)).value
  }

  /**
   * If any stage before generation fails, no generation request is made, and the
   * response is the 500 of a missing key, the 400 of a missing question, or else
   * (a failed corpus batch, a missing question vector, a selected record without
   * a document) the generic 500.
   */
  lemma PostFailsEarly(sqrt: real -> real, docs: seq<Document>, apiKey: Option<string>, req: RagRequest,
                       cache: Option<seq<EmbeddingRecord>>, batch: EmbedResponse, query: EmbedResponse, gen: GenResponse)
    requires !ReachesGeneration(sqrt, docs, apiKey, req, cache, batch, query)
    ensures var o := HandlePost(sqrt, docs, apiKey, req, cache, batch, query, gen);
            && (!KeyConfigured(apiKey) ==> o.response == Failure(500, KeyMissing))
            && (KeyConfigured(apiKey) && MissingOrBlank(req.question) ==> o.response == Failure(400, QuestionRequired))
            && (KeyConfigured(apiKey) && !MissingOrBlank(req.question) ==> o.response == Failure(500, Unexpected))
            && forall i :: 0 <= i < |o.calls| ==> o.calls[i].EmbeddingRequest?
  {
    if KeyConfigured(apiKey) && !MissingOrBlank(req.question) {
      var step := FetchEmbeddings(docs, cache, batch);
      if step.result.Some? {
        HandlePostAfterFetch(sqrt, docs, apiKey, req, cache, batch, query, gen);
        AnsweringStages(sqrt, req.question.value, NormalizedTopK(req.topK, |docs|), step.result.value, query, gen);
      }
    }
  }

  /**
   * If no stage before generation fails, the last call is the generation
   * request for the prompt with the retrieved context and the question as sent,
   * and the generation outcome decides the response.
   */
  lemma PostGenerates(sqrt: real -> real, docs: seq<Document>, apiKey: Option<string>, req: RagRequest,
                      cache: Option<seq<EmbeddingRecord>>, batch: EmbedResponse, query: EmbedResponse, gen: GenResponse)
    requires ReachesGeneration(sqrt, docs, apiKey, req, cache, batch, query)
    ensures var o := HandlePost(sqrt, docs, apiKey, req, cache, batch, query, gen);
            var retrieved := Retrieved(sqrt, docs, apiKey, req, cache, batch, query);
            && o.response == Respond(retrieved, gen)
            && o.calls != []
            && o.calls[|o.calls| - 1] == GenerationCall(RagPrompt(BuildContext(retrieved), req.question.value))
  {
    var step := FetchEmbeddings(docs, cache, batch);
    var k := NormalizedTopK(req.topK, |docs|);
    HandlePostAfterFetch(sqrt, docs, apiKey, req, cache, batch, query, gen);
    AnsweringStages(sqrt, req.question.value, k, step.result.value, query, gen);
    var retrieved := Retrieved(sqrt, docs, apiKey, req, cache, batch, query);
    var genCall := GenerationCall(RagPrompt(BuildContext(retrieved), req.question.value));
    var stages := Answering(sqrt, req.question.value, k, step.result.value, query, gen);
    assert stages.1 == [EmbeddingRequest(EmbeddingModel, [req.question.value]), genCall];
    var calls := step.calls + stages.1;
    assert calls[|calls| - 1] == genCall;
  }

  /**
   * The 200 response: exactly when every stage succeeded and the generated text
   * is not blank.  The answer is that text trimmed, and `retrieved` holds the
   * top-k selection for the clamped `topK`.
   */
  lemma PostAnswer(sqrt: real -> real, docs: seq<Document>, apiKey: Option<string>, req: RagRequest,
                   cache: Option<seq<EmbeddingRecord>>, batch: EmbedResponse, query: EmbedResponse, gen: GenResponse)
    ensures var r := HandlePost(sqrt, docs, apiKey, req, cache, batch, query, gen).response;
            r.Answer? <==>
              && ReachesGeneration(sqrt, docs, apiKey, req, cache, batch, query)
              && gen.Generated? && !MissingOrBlank(gen.outputText)
    ensures var r := HandlePost(sqrt, docs, apiKey, req, cache, batch, query, gen).response;
            r.Answer? ==>
              && r.answer == Trim(gen.outputText.value)
              && r.answer != [] && !IsWs(r.answer[0]) && !IsWs(r.answer[|r.answer| - 1])
              && r.retrieved == Retrieved(sqrt, docs, apiKey, req, cache, batch, query)
              && |r.retrieved| == Min(NormalizedTopK(req.topK, |docs|), |FetchEmbeddings(docs, cache, batch).result.value|)
              && r.model == GenerationModel && r.embeddingModel == EmbeddingModel
  {
    if ReachesGeneration(sqrt, docs, apiKey, req, cache, batch, query) {
      var retrieved := Retrieved(sqrt, docs, apiKey, req, cache, batch, query);
      PostGenerates(sqrt, docs, apiKey, req, cache, batch, query, gen);
      RespondFailures(retrieved, gen);
      if gen.Generated? && !MissingOrBlank(gen.outputText) {
        RespondAnswer(retrieved, gen);
      }
    } else {
      PostFailsEarly(sqrt, docs, apiKey, req, cache, batch, query, gen);
    }
  }

  /**
   * 502 exactly when every stage succeeded but the generated text is missing
   * or blank after trimming.
   */
  lemma PostEmptyAnswer(sqrt: real -> real, docs: seq<Document>, apiKey: Option<string>, req: RagRequest,
                        cache: Option<seq<EmbeddingRecord>>, batch: EmbedResponse, query: EmbedResponse, gen: GenResponse)
    ensures HandlePost(sqrt, docs, apiKey, req, cache, batch, query, gen).response.Status() == 502 <==>
              && ReachesGeneration(sqrt, docs, apiKey, req, cache, batch, query)
              && gen.Generated? && MissingOrBlank(gen.outputText)
  {
    if ReachesGeneration(sqrt, docs, apiKey, req, cache, batch, query) {
      var retrieved := Retrieved(sqrt, docs, apiKey, req, cache, batch, query);
      PostGenerates(sqrt, docs, apiKey, req, cache, batch, query, gen);
      RespondFailures(retrieved, gen);
      if gen.Generated? && !MissingOrBlank(gen.outputText) {
        RespondAnswer(retrieved, gen);
      }
    } else {
      PostFailsEarly(sqrt, docs, apiKey, req, cache, batch, query, gen);
    }
  }

  /**
   * With the sample corpus and all ten of its documents embedded, a successful
   * answer retrieves exactly the clamped `topK` chunks: 3 by default, 10 for any
   * request of 10 or more.
   */
  lemma PostRetrievesClampedK(sqrt: real -> real, apiKey: Option<string>, req: RagRequest,
                              cache: Option<seq<EmbeddingRecord>>, batch: EmbedResponse, query: EmbedResponse, gen: GenResponse)
    requires cache.Some? && |cache.value| == |SampleDocuments|
    requires HandlePost(sqrt, SampleDocuments, apiKey, req, cache, batch, query, gen).response.Answer?
    ensures var r := HandlePost(sqrt, SampleDocuments, apiKey, req, cache, batch, query, gen).response;
            && |r.retrieved| == NormalizedTopK(req.topK, |SampleDocuments|)
            && (req.topK.None? ==> |r.retrieved| == 3)
            && (req.topK.Some? && req.topK.value >= 10 ==> |r.retrieved| == 10)
  {
    PostAnswer(sqrt, SampleDocuments, apiKey, req, cache, batch, query, gen);
    SampleTopK(req.topK);
  }

  // ---------------------------------------------------------------------------
  // The module state

  /**
   * The route module: the corpus it imports, its `cachedEmbeddings` variable,
   * and a log of the provider calls it made.
   */
  class RagPlayground {
    const corpus: seq<Document>
    var cachedEmbeddings: Option<seq<EmbeddingRecord>>
    ghost var requests: seq<ProviderRequest>

    /** Cached records always pair vector i with document i. */
    ghost predicate Valid()
      reads this
    {
      cachedEmbeddings.Some? ==> PairedWith(corpus, cachedEmbeddings.value)
    }

    /** Module load: the sample corpus, and `cachedEmbeddings = null`. */
    constructor()
      ensures Valid()
      ensures corpus == SampleDocuments
      ensures cachedEmbeddings == None && requests == []
    {
      corpus := SampleDocuments;
      cachedEmbeddings := None;
      requests := [];
    }

    /** `getDocumentEmbeddings`; `None` means the provider call threw. */
    method GetDocumentEmbeddings(batch: EmbedResponse) returns (r: Option<seq<EmbeddingRecord>>)
      requires Valid()
      modifies this
      ensures Valid()
      ensures var step := FetchEmbeddings(corpus, old(cachedEmbeddings), batch);
              && r == step.result
              && cachedEmbeddings == step.cache
              && requests == old(requests) + step.calls
    {
      if cachedEmbeddings.Some? {
        return cachedEmbeddings;
      }
      requests := requests + [CorpusEmbeddingRequest(corpus)];
      match batch
      case EmbedError =>
        r := None;
      case Embeddings(vectors) =>
        cachedEmbeddings := Some(PairRecords(corpus, vectors));
        r := cachedEmbeddings;
    }

    /** `POST`: answers the request and updates the cache as `HandlePost` says. */
    method Post(sqrt: real -> real, apiKey: Option<string>, req: RagRequest,
                batch: EmbedResponse, query: EmbedResponse, gen: GenResponse) returns (resp: Response)
      requires Valid()
      modifies this
      ensures Valid()
      ensures var o := HandlePost(sqrt, corpus, apiKey, req, old(cachedEmbeddings), batch, query, gen);
              && resp == o.response
              && cachedEmbeddings == o.cache
              && requests == old(requests) + o.calls
    {
      if !KeyConfigured(apiKey) {
        return Failure(500, KeyMissing);
      }
      if MissingOrBlank(req.question) {
        return Failure(400, QuestionRequired);
      }
      resp := ServeQuestion(sqrt, req.question.value, req.topK, batch, query, gen);
    }

    /** `POST` past validation: fetch the corpus embeddings, then answer the question. */
    method ServeQuestion(sqrt: real -> real, question: string, topK: Option<int>,
                         batch: EmbedResponse, query: EmbedResponse, gen: GenResponse) returns (resp: Response)
      requires Valid()
      modifies this
      ensures Valid()
      ensures var o := Serving(sqrt, corpus, question, topK, old(cachedEmbeddings), batch, query, gen);
              && resp == o.response
              && cachedEmbeddings == o.cache
              && requests == old(requests) + o.calls
    {
      var k := NormalizedTopK(topK, |corpus|);
      ghost var step := FetchEmbeddings(corpus, cachedEmbeddings, batch);
      var docEmbeddings := GetDocumentEmbeddings(batch);
      if docEmbeddings.None? {
        return Failure(500, Unexpected);
      }
      ServingAfterFetch(sqrt, corpus, question, topK, old(cachedEmbeddings), batch, query, gen);
      ghost var stages := Answering(sqrt, question, k, docEmbeddings.value, query, gen);
      resp := AnswerQuestion(sqrt, question, k, docEmbeddings.value, query, gen);
      ConcatAssoc(old(requests), step.calls, stages.1);
    }

    /**
     * The rest of `POST` once the corpus embeddings are known: embed the
     * question, select the chunks, build the prompt and generate.
     */
    method AnswerQuestion(sqrt: real -> real, question: string, k: int, records: seq<EmbeddingRecord>,
                          query: EmbedResponse, gen: GenResponse) returns (resp: Response)
      modifies this
      ensures cachedEmbeddings == old(cachedEmbeddings)
      ensures var stages := Answering(sqrt, question, k, records, query, gen);
              && resp == stages.0
              && requests == old(requests) + stages.1
    {
      AnsweringStages(sqrt, question, k, records, query, gen);
      var queryCall := EmbeddingRequest(EmbeddingModel, [question]);
      requests := requests + [queryCall];
      if query.EmbedError? || query.vectors == [] {
        return Failure(500, Unexpected);
      }
      var selected := SelectTopK(sqrt, query.vectors[0], records, k);
      if selected.None? {
        return Failure(500, Unexpected);
      }
      var retrieved := selected.value;
      var generationCall := GenerationCall(RagPrompt(BuildContext(retrieved), question));
      requests := requests + [generationCall];
      resp := Respond(retrieved, gen);
      ConcatAssoc(old(requests), [queryCall], [generationCall]);
      assert [queryCall] + [generationCall] == [queryCall, generationCall];
    }
  }
}
