/**
 * The pure part of the retrieval route: score every cached record against the
 * query, rank them with a stable sort by descending score, keep the first k as
 * display-ready chunks, and serialise the chunks into the grounding context of
 * the generation prompt.
 */
module Retrieval {
  import opened Wrappers
  import opened Text
  import opened Corpus
  import opened Vectors

  /**
   * A cached corpus embedding.  `doc` is `None` where the provider returned more
   * vectors than there are documents (the route then pairs the vector with `undefined`).
   */
  datatype EmbeddingRecord = EmbeddingRecord(doc: Option<Document>, embedding: seq<real>)

  /** A record with its raw similarity to the query. */
  datatype Scored = Scored(doc: Option<Document>, score: real)

  /** What the route returns for one retrieved document. */
  datatype RetrievedChunk = RetrievedChunk(id: string, title: string, source: string, docType: DocType, score: real, snippet: string)

  /** The snippet keeps at most this many characters of the document content. */
  const SnippetLength: nat := 420

  /** Every record with its similarity to the query, in record (corpus) order. */
  function ScoreAll(sqrt: real -> real, query: seq<real>, records: seq<EmbeddingRecord>): (scored: seq<Scored>)
    ensures |scored| == |records|
    ensures forall i :: 0 <= i < |records| ==>
              scored[i].doc == records[i].doc && scored[i].score == CosineSimilarity(sqrt, query, records[i].embedding)
  {
    seq(|records|, i requires 0 <= i < |records| => Scored(records[i].doc, CosineSimilarity(sqrt, query, records[i].embedding)))
  }

  // ---------------------------------------------------------------------------
  // Stable sort by descending score

  predicate NonIncreasing(xs: seq<Scored>) {
    forall i, j :: 0 <= i < j < |xs| ==> xs[i].score >= xs[j].score
  }

  /** A head no lower than the next element extends a non-increasing sequence. */
  lemma ConsNonIncreasing(h: Scored, t: seq<Scored>)
    requires NonIncreasing(t)
    requires t == [] || h.score >= t[0].score
    ensures NonIncreasing([h] + t)
  {
  }

  /** Puts `x` before the first element whose score is not above its own. */
  function Insert(x: Scored, ys: seq<Scored>): (r: seq<Scored>)
    requires NonIncreasing(ys)
    ensures NonIncreasing(r)
    ensures multiset(r) == multiset(ys) + multiset{x}
    ensures r[0] == x || r[0] == ys[0]
  {
    if ys == [] || ys[0].score <= x.score then
      ConsNonIncreasing(x, ys);
      [x] + ys
    else
      var rest := Insert(x, ys[1..]);
      assert ys == [ys[0]] + ys[1..];
      ConsNonIncreasing(ys[0], rest);
      [ys[0]] + rest
  }

  /**
   * The comparator `(a, b) => b.score - a.score` under a stable sort: the result
   * is ordered by descending score and is a permutation of the input.
   */
  function SortByScore(xs: seq<Scored>): (r: seq<Scored>)
    ensures NonIncreasing(r)
    ensures multiset(r) == multiset(xs)
  {
    if xs == [] then []
    else
      assert xs == [xs[0]] + xs[1..];
      Insert(xs[0], SortByScore(xs[1..]))
  }

  /** `[x]` when `x` has score `s`, nothing otherwise. */
  function Keep(x: Scored, s: real): seq<Scored>
  {
    if x.score == s then [x] else []
  }

  /** The elements of `xs` whose score is `s`, in their order in `xs`. */
  function WithScore(xs: seq<Scored>, s: real): seq<Scored>
  {
    if xs == [] then [] else Keep(xs[0], s) + WithScore(xs[1..], s)
  }

  lemma WithScoreCons(x: Scored, xs: seq<Scored>, s: real)
    ensures WithScore([x] + xs, s) == Keep(x, s) + WithScore(xs, s)
  {
    assert ([x] + xs)[1..] == xs;
  }

  lemma {:induction false} WithScoreMembers(xs: seq<Scored>, s: real, y: Scored)
    requires y in WithScore(xs, s)
    ensures y in xs && y.score == s
  {
    if xs != [] {
      if xs[0].score == s && y == xs[0] {
      } else {
        assert y in WithScore(xs[1..], s);
        WithScoreMembers(xs[1..], s, y);
        assert xs == [xs[0]] + xs[1..];
      }
    }
  }

  /** Elements of different scores never both land in one score class, so they commute there. */
  lemma KeepSwap(h: Scored, x: Scored, s: real, rest: seq<Scored>)
    requires h.score != x.score
    ensures Keep(h, s) + (Keep(x, s) + rest) == Keep(x, s) + (Keep(h, s) + rest)
  {
    if h.score == s {
      assert Keep(x, s) == [];
    } else {
      assert Keep(h, s) == [];
    }
  }

  /** Inserting keeps the order among equal scores: `x` comes before the equal-scored elements of `ys`. */
  lemma {:induction false} InsertStable(x: Scored, ys: seq<Scored>, s: real)
    requires NonIncreasing(ys)
    ensures WithScore(Insert(x, ys), s) == WithScore([x] + ys, s)
  {
    if ys != [] && ys[0].score > x.score {
      var h, t := ys[0], ys[1..];
      assert ys == [h] + t;
      InsertStable(x, t, s);
      calc {
        WithScore(Insert(x, ys), s);
        { WithScoreCons(h, Insert(x, t), s); }
        Keep(h, s) + WithScore(Insert(x, t), s);
        Keep(h, s) + WithScore([x] + t, s);
        { WithScoreCons(x, t, s); }
        Keep(h, s) + (Keep(x, s) + WithScore(t, s));
        { KeepSwap(h, x, s, WithScore(t, s)); }
        Keep(x, s) + (Keep(h, s) + WithScore(t, s));
        { WithScoreCons(h, t, s); }
        Keep(x, s) + WithScore(ys, s);
        { WithScoreCons(x, ys, s); }
        WithScore([x] + ys, s);
      }
    }
  }

  /** Stability: for every score, the elements with that score keep their input order. */
  lemma {:induction false} SortStable(xs: seq<Scored>, s: real)
    ensures WithScore(SortByScore(xs), s) == WithScore(xs, s)
  {
    if xs != [] {
      var x, rest := xs[0], xs[1..];
      assert xs == [x] + rest;
      calc {
        WithScore(SortByScore(xs), s);
        WithScore(Insert(x, SortByScore(rest)), s);
        { InsertStable(x, SortByScore(rest), s); }
        WithScore([x] + SortByScore(rest), s);
        { WithScoreCons(x, SortByScore(rest), s); }
        Keep(x, s) + WithScore(SortByScore(rest), s);
        { SortStable(rest, s); }
        Keep(x, s) + WithScore(rest, s);
        { WithScoreCons(x, rest, s); }
        WithScore(xs, s);
      }
    }
  }

  /** The first element's score class is not empty, so a sequence with the same classes is not empty either. */
  lemma NonEmptyClass(ys: seq<Scored>, zs: seq<Scored>)
    requires ys != []
    requires forall s :: WithScore(ys, s) == WithScore(zs, s)
    ensures zs != []
  {
    assert ys == [ys[0]] + ys[1..];
    WithScoreCons(ys[0], ys[1..], ys[0].score);
    assert WithScore(zs, ys[0].score) != [];
  }

  /** Two non-increasing sequences that agree on the classes of both head scores start with the same element. */
  lemma SameHead(ys: seq<Scored>, zs: seq<Scored>)
    requires ys != [] && zs != []
    requires NonIncreasing(ys) && NonIncreasing(zs)
    requires WithScore(ys, ys[0].score) == WithScore(zs, ys[0].score)
    requires WithScore(ys, zs[0].score) == WithScore(zs, zs[0].score)
    ensures ys[0] == zs[0]
  {
    var m, m' := ys[0].score, zs[0].score;
    assert ys == [ys[0]] + ys[1..];
    assert zs == [zs[0]] + zs[1..];
    WithScoreCons(ys[0], ys[1..], m);
    WithScoreCons(zs[0], zs[1..], m');
    WithScoreMembers(zs, m, ys[0]);
    WithScoreMembers(ys, m', zs[0]);
    assert m == m';
    WithScoreCons(zs[0], zs[1..], m);
    assert WithScore(ys, m)[0] == ys[0];
  }

  /** Removing the same head leaves the same score class. */
  lemma SameTailClass(ys: seq<Scored>, zs: seq<Scored>, s: real)
    requires ys != [] && zs != [] && ys[0] == zs[0]
    requires WithScore(ys, s) == WithScore(zs, s)
    ensures WithScore(ys[1..], s) == WithScore(zs[1..], s)
  {
    assert ys == [ys[0]] + ys[1..];
    assert zs == [zs[0]] + zs[1..];
    WithScoreCons(ys[0], ys[1..], s);
    WithScoreCons(zs[0], zs[1..], s);
    var k := Keep(ys[0], s);
    assert WithScore(ys[1..], s) == WithScore(ys, s)[|k|..];
    assert WithScore(zs[1..], s) == WithScore(zs, s)[|k|..];
  }

  /**
   * A descending order that keeps every score class in the same order is
   * unique: any stable sort with this comparator (whatever its algorithm)
   * yields exactly the same sequence.
   */
  lemma {:induction false} StableOrderUnique(ys: seq<Scored>, zs: seq<Scored>)
    requires NonIncreasing(ys) && NonIncreasing(zs)
    requires forall s :: WithScore(ys, s) == WithScore(zs, s)
    ensures ys == zs
  {
    if ys != [] {
      NonEmptyClass(ys, zs);
    }
    if zs != [] {
      NonEmptyClass(zs, ys);
    }
    if ys != [] {
      SameHead(ys, zs);
      forall s
        ensures WithScore(ys[1..], s) == WithScore(zs[1..], s)
      {
        SameTailClass(ys, zs, s);
      }
      StableOrderUnique(ys[1..], zs[1..]);
      assert ys == [ys[0]] + ys[1..];
      assert zs == [zs[0]] + zs[1..];
    }
  }

  /** `SortByScore` is the stable descending sort: it is the one order with both properties. */
  lemma SortIsTheStableSort(xs: seq<Scored>, zs: seq<Scored>)
    requires NonIncreasing(zs)
    requires forall s :: WithScore(zs, s) == WithScore(xs, s)
    ensures zs == SortByScore(xs)
  {
    forall s
      ensures WithScore(SortByScore(xs), s) == WithScore(zs, s)
    {
      SortStable(xs, s);
    }
    StableOrderUnique(SortByScore(xs), zs);
  }

  // ---------------------------------------------------------------------------
  // Rounding of the reported score

  /** round(y * 10^4) / 10^4 for y >= 0, a tie going to the larger multiple. */
  function RoundHalfUp4(y: real): real
  {
    ((y * 10000.0 + 0.5).Floor as real) / 10000.0
  }

  /**
   * `Number(x.toFixed(4))` on the exact value: toFixed picks the multiple of
   * 1/10^4 nearest to |x| (the larger on a tie) and puts the sign back.
   */
  function Round4(x: real): (r: real)
    ensures (r * 10000.0).Floor as real == r * 10000.0
    ensures x >= 0.0 ==> r >= 0.0
    ensures x <= 0.0 ==> r <= 0.0
  {
    WholeTenThousandths((x * 10000.0 + 0.5).Floor);
    WholeTenThousandths(-(-x * 10000.0 + 0.5).Floor);
    if x < 0.0 then -RoundHalfUp4(-x) else RoundHalfUp4(x)
  }

  /** n / 10^4 is a whole number of ten-thousandths. */
  lemma WholeTenThousandths(n: int)
    ensures (n as real / 10000.0) * 10000.0 == n as real
    ensures -(n as real / 10000.0) == (-n) as real / 10000.0
  {
  }

  lemma RoundHalfUp4Monotone(x: real, y: real)
    requires 0.0 <= x <= y
    ensures 0.0 <= RoundHalfUp4(x) <= RoundHalfUp4(y)
  {
    assert (x * 10000.0 + 0.5).Floor <= (y * 10000.0 + 0.5).Floor;
  }

  /** Rounding never reverses the order of two scores. */
  lemma Round4Monotone(x: real, y: real)
    requires x <= y
    ensures Round4(x) <= Round4(y)
  {
    if 0.0 <= x {
      RoundHalfUp4Monotone(x, y);
    } else if y < 0.0 {
      RoundHalfUp4Monotone(-y, -x);
    } else {
      RoundHalfUp4Monotone(0.0, -x);
      RoundHalfUp4Monotone(0.0, y);
    }
  }

  /** The rounded score is within half a unit of the fourth decimal of the raw score. */
  lemma Round4Close(x: real)
    ensures -0.00005 <= Round4(x) - x <= 0.00005
  {
  }

  // ---------------------------------------------------------------------------
  // Top-k selection

  /** The stable descending ranking of all records against the query. */
  function Ranked(sqrt: real -> real, query: seq<real>, records: seq<EmbeddingRecord>): seq<Scored>
  {
    SortByScore(ScoreAll(sqrt, query, records))
  }

  /** `content.slice(0, 420)`: a prefix of the content, at most 420 long. */
  function Snippet(content: string): (r: string)
    ensures r <= content && |r| <= SnippetLength
  {
    SlicePrefix(content, SnippetLength);
    Slice(content, 0, SnippetLength)
  }

  /** The snippet is the content prefix of length min(420, |content|); it is 420 long exactly when the content is at least that long. */
  lemma SnippetIsPrefix(content: string)
    ensures Snippet(content) == content[..Min(SnippetLength, |content|)]
    ensures |Snippet(content)| == SnippetLength <==> |content| >= SnippetLength
  {
    SlicePrefix(content, SnippetLength);
  }

  /** Every sample document is shorter than 420 characters, so its snippet is its whole content. */
  lemma SampleSnippetsWhole()
    ensures forall i :: 0 <= i < |SampleDocuments| ==> 0 < |SampleDocuments[i].content| < SnippetLength
    ensures forall i :: 0 <= i < |SampleDocuments| ==> Snippet(SampleDocuments[i].content) == SampleDocuments[i].content
  {
    forall i | 0 <= i < |SampleDocuments|
      ensures Snippet(SampleDocuments[i].content) == SampleDocuments[i].content
    {
      SnippetIsPrefix(SampleDocuments[i].content);
    }
  }

  /**
   * The chunk the route builds from a ranked record with a document: its
   * document's fields, a score within 0.00005 of the raw one, and a snippet that
   * begins the content.
   */
  function ToChunk(s: Scored): (c: RetrievedChunk)
    requires s.doc.Some?
    ensures c.id == s.doc.value.id && c.title == s.doc.value.title
    ensures c.source == s.doc.value.source && c.docType == s.doc.value.docType
    ensures -0.00005 <= c.score - s.score <= 0.00005
    ensures c.snippet <= s.doc.value.content && |c.snippet| <= SnippetLength
  {
    Round4Close(s.score);
    var d := s.doc.value;
    RetrievedChunk(d.id, d.title, d.source, d.docType, Round4(s.score), Snippet(d.content))
  }

  predicate HasDocuments(xs: seq<Scored>) {
    forall i :: 0 <= i < |xs| ==> xs[i].doc.Some?
  }

  /**
   * `selectTopK`: the first `topK` records of the ranking, each turned into a
   * chunk; `None` when one of them has no document (reading `item.doc.id` throws).
   */
  function SelectTopK(sqrt: real -> real, query: seq<real>, records: seq<EmbeddingRecord>, topK: int): (r: Option<seq<RetrievedChunk>>)
    ensures (forall i :: 0 <= i < |records| ==> records[i].doc.Some?) ==> r.Some?
    ensures r.Some? && 0 <= topK ==> |r.value| == Min(topK, |records|)
    ensures r.Some? ==> forall i, j :: 0 <= i < j < |r.value| ==> r.value[i].score >= r.value[j].score
    ensures r.Some? ==> forall i :: 0 <= i < |r.value| ==> |r.value[i].snippet| <= SnippetLength
  {
    var ranked := Ranked(sqrt, query, records);
    RankedLength(sqrt, query, records);
    var top := Slice(ranked, 0, topK);
    if HasDocuments(top) then
      var chunks := seq(|top|, i requires 0 <= i < |top| => ToChunk(top[i]));
      TopIsSortedPart(ranked, topK);
      ChunksKeepOrder(top, chunks);
      Some(chunks)
    else
      assert !forall i :: 0 <= i < |records| ==> records[i].doc.Some? by {
        var i :| 0 <= i < |top| && top[i].doc.None?;
        TopComesFromRecords(sqrt, query, records, topK, i);
      }
      None
  }

  /** The ranking holds one entry per record. */
  lemma RankedLength(sqrt: real -> real, query: seq<real>, records: seq<EmbeddingRecord>)
    ensures |Ranked(sqrt, query, records)| == |records|
  {
    var scored := ScoreAll(sqrt, query, records);
    assert |multiset(SortByScore(scored))| == |multiset(scored)|;
  }

  lemma TopIsSortedPart(ranked: seq<Scored>, topK: int)
    requires NonIncreasing(ranked)
    ensures NonIncreasing(Slice(ranked, 0, topK))
    ensures 0 <= topK ==> |Slice(ranked, 0, topK)| == Min(topK, |ranked|)
  {
  }

  lemma ChunksKeepOrder(top: seq<Scored>, chunks: seq<RetrievedChunk>)
    requires NonIncreasing(top) && HasDocuments(top)
    requires |chunks| == |top| && forall i :: 0 <= i < |top| ==> chunks[i] == ToChunk(top[i])
    ensures forall i, j :: 0 <= i < j < |chunks| ==> chunks[i].score >= chunks[j].score
    ensures forall i :: 0 <= i < |chunks| ==> |chunks[i].snippet| <= SnippetLength
  {
    forall i, j | 0 <= i < j < |chunks|
      ensures chunks[i].score >= chunks[j].score
    {
      Round4Monotone(top[j].score, top[i].score);
    }
  }

  /** Each selected record is one of the scored records. */
  lemma TopComesFromRecords(sqrt: real -> real, query: seq<real>, records: seq<EmbeddingRecord>, topK: int, i: int)
    requires 0 <= i < |Slice(Ranked(sqrt, query, records), 0, topK)|
    ensures exists j :: 0 <= j < |records| && records[j].doc == Slice(Ranked(sqrt, query, records), 0, topK)[i].doc
  {
    var scored := ScoreAll(sqrt, query, records);
    var ranked := Ranked(sqrt, query, records);
    var x := Slice(ranked, 0, topK)[i];
    assert x in multiset(ranked);
    assert x in multiset(scored);
    var j :| 0 <= j < |scored| && scored[j] == x;
    assert records[j].doc == x.doc;
  }

  /**
   * The chunks of a successful selection, one by one: chunk i is ranked record
   * i with its document's id, title, source and type, its snippet, and its
   * rounded score.
   */
  lemma SelectTopKChunks(sqrt: real -> real, query: seq<real>, records: seq<EmbeddingRecord>, topK: int, i: int)
    requires SelectTopK(sqrt, query, records, topK).Some?
    requires 0 <= i < |SelectTopK(sqrt, query, records, topK).value|
    ensures var c := SelectTopK(sqrt, query, records, topK).value[i];
            var x := Ranked(sqrt, query, records)[i];
            && x.doc.Some?
            && c.id == x.doc.value.id && c.title == x.doc.value.title
            && c.source == x.doc.value.source && c.docType == x.doc.value.docType
            && c.snippet == x.doc.value.content[..Min(SnippetLength, |x.doc.value.content|)]
            && c.score == Round4(x.score)
  {
    SnippetIsPrefix(Ranked(sqrt, query, records)[i].doc.value.content);
  }

  /**
   * The selected records are the best ones: together with the records left out
   * they are all the scored records, and none of those left out scores higher
   * than one selected.
   */
  lemma SelectionDominates(sqrt: real -> real, query: seq<real>, records: seq<EmbeddingRecord>, k: nat)
    ensures var ranked := Ranked(sqrt, query, records);
            var n := Min(k, |ranked|);
            && multiset(ranked[..n]) + multiset(ranked[n..]) == multiset(ScoreAll(sqrt, query, records))
            && forall x, y :: x in ranked[..n] && y in ranked[n..] ==> x.score >= y.score
  {
    var ranked := Ranked(sqrt, query, records);
    PrefixDominates(ranked, Min(k, |ranked|));
  }

  /** Splitting a non-increasing sequence: the two parts make up the whole and the first dominates the second. */
  lemma PrefixDominates(r: seq<Scored>, n: nat)
    requires NonIncreasing(r) && n <= |r|
    ensures multiset(r[..n]) + multiset(r[n..]) == multiset(r)
    ensures forall x, y :: x in r[..n] && y in r[n..] ==> x.score >= y.score
  {
    assert r == r[..n] + r[n..];
    forall x, y | x in r[..n] && y in r[n..]
      ensures x.score >= y.score
    {
      var i :| 0 <= i < n && r[i] == x;
      var j :| n <= j < |r| && r[j] == y;
    }
  }

  // ---------------------------------------------------------------------------
  // Context and prompt

  /** One chunk of the context: `#<ordinal> [<title>] (<source>)`, a newline, then the snippet. */
  function ContextBlock(index: nat, c: RetrievedChunk): (b: string)
    ensures |b| > |c.snippet| && b[0] == '#'
    ensures b[|b| - |c.snippet|..] == c.snippet
  {
    "#" + NatToString(index + 1) + " [" + c.title + "] (" + c.source + ")\n" + c.snippet
  }

  function ContextBlocks(chunks: seq<RetrievedChunk>): seq<string>
  {
    seq(|chunks|, i requires 0 <= i < |chunks| => ContextBlock(i, chunks[i]))
  }

  /** `buildContext`: the blocks in input order, separated by a blank line; "" for no chunks. */
  function BuildContext(chunks: seq<RetrievedChunk>): (r: string)
    ensures r == "" <==> chunks == []
  {
    var blocks := ContextBlocks(chunks);
    assert chunks != [] ==> blocks[0] <= Join(blocks, "\n\n");
    Join(blocks, "\n\n")
  }

  /**
   * The context grows one block at a time: adding a chunk appends a blank line
   * and the chunk's block, numbered after the ones before it.
   */
  lemma BuildContextSnoc(chunks: seq<RetrievedChunk>, c: RetrievedChunk)
    ensures BuildContext(chunks + [c])
         == if chunks == [] then ContextBlock(0, c) else BuildContext(chunks) + "\n\n" + ContextBlock(|chunks|, c)
  {
    assert ContextBlocks(chunks + [c]) == ContextBlocks(chunks) + [ContextBlock(|chunks|, c)];
    JoinSnoc(ContextBlocks(chunks), ContextBlock(|chunks|, c), "\n\n");
  }

  const PromptHeader: string := "以下は社内ナレッジから検索した抜粋です。重要度順に並んでいます。"
  const QuestionLabel: string := "ユーザーの質問: "
  const PromptClosing: string := "上記コンテキストから引用しながら回答してください。足りない場合は不足を明記してください。"

  /** `buildInstructions`: the fixed system instructions, one per line. */
  function Instructions(): string
  {
    Join([
      "あなたは CloudWork Manager チーム内で動作する社内向けRAGのPoCです。",
      "出力は日本語で、3-5文の簡潔な段落にまとめてください。",
      "提示されたコンテキストの根拠のみに依拠して回答し、推測は避けてください。",
      "コンテキストに十分な根拠がある場合は追加コメントを入れずに回答してください。",
      "コンテキストだけでは回答を裏付けられないときに限り、『社内ドキュメントを拡充する必要があります』と補足してください。"
    ], "\n")
  }

  /**
   * The generation prompt: header, context, the question as the user sent it
   * (not trimmed), and the closing instruction, separated by blank lines.
   */
  function RagPrompt(context: string, question: string): (p: string)
    ensures p == PromptHeader + "\n\n" + context + "\n\n" + QuestionLabel + question + "\n\n" + PromptClosing
  {
    var sep, asked := "\n\n", QuestionLabel + question;
    var two, three := [PromptHeader, context], [PromptHeader, context, asked];
    var parts := [PromptHeader, context, asked, PromptClosing];
    assert [PromptHeader] + [context] == two;
    assert two + [asked] == three;
    assert three + [PromptClosing] == parts;
    JoinSnoc([PromptHeader], context, sep);
    JoinSnoc(two, asked, sep);
    JoinSnoc(three, PromptClosing, sep);
    var front := PromptHeader + sep + context + sep;
    assert Join(three, sep) == front + asked;
    ConcatAssoc(front, QuestionLabel, question);
    Join(parts, sep)
  }
}
