/** `ChatHandler` of the chat module: it indexes the transcript of the video
    being discussed, retrieves the chunks closest to a question and asks a
    language model to answer from them. The sentence embedder and the
    language model are parameters: the embedder is a fixed function from
    text to vector (or to an exception), and the completion call is passed
    to each question, since sampling makes it differ from call to call. */
module Chatbox {
  import opened Wrappers
  import opened Text
  import opened Similarity
  import opened Ranking
  import Transcript

  type Snippet = Transcript.Snippet

  /** `embedder.encode(text).tolist()`, or an exception. */
  type Embedder = string -> Result<Vector>

  /** One `(chunk_text, embedding)` pair of `vector_db`. */
  datatype Chunk = Chunk(text: string, embedding: Vector)

  /** One element of the `choices` list of a completion result; `text` is
      `None` when the element has no `text` key. */
  datatype Choice = Choice(text: Option<string>)

  /** A completion result that is a non-empty dictionary; `choices` is `None`
      when it has no `choices` key. A result that is `None` or empty is
      `Ok(None)` of the completion call's outcome. */
  datatype Response = Response(choices: Option<seq<Choice>>)

  /** `llm.create_completion(prompt=...)`: a result, a false-y result, or an
      exception. */
  type Completion = string -> Result<Option<Response>>

  /** What the transcript fetcher returns for a video id: a list of
      snippets, `None`, or an exception. */
  type Fetcher = string -> Result<Option<seq<Snippet>>>

  /** The replies `ask_question` gives instead of an answer are messages in
      parentheses. */
  function Sentinel(message: string): string
  {
    "(" + message + ")"
  }

  const NoTranscript: string := Sentinel("Sorry, no transcript found for this video.")
  const NoValidChunks: string := Sentinel("Transcript found but no valid text chunks for analysis.")
  const FetchError: string := Sentinel("Error fetching video transcript.")
  const NoRelevant: string := Sentinel("Could not find relevant information in the video transcript.")
  const StruggledMessage: string := "AI struggled to provide an answer based on the context."
  const Struggled: string := Sentinel(StruggledMessage)
  const NoResponseMessage: string := "No response from AI, unexpected output format."
  const NoResponse: string := Sentinel(NoResponseMessage)
  const InternalErrorMessage: string := "An internal error occurred while generating a response."
  const InternalError: string := Sentinel(InternalErrorMessage)

  /** `ask_question` calls `retrieve` with its default `top_n`. */
  const TopN: int := 3

  // ---------------------------------------------------------------------
  // _build_vector_db
  // ---------------------------------------------------------------------

  /** `snippet.get('text', '')`. */
  function TextOf(sn: Snippet): string
  {
    if sn.text.Some? then sn.text.value else ""
  }

  /** The stripped texts of the snippets whose stripped text is not empty,
      in snippet order. */
  function KeptTexts(snippets: seq<Snippet>): seq<string>
  {
    KeptPrefix(snippets, |snippets|)
  }

  /** `KeptTexts` of the first `n` snippets. */
  function KeptPrefix(snippets: seq<Snippet>, n: nat): seq<string>
    requires n <= |snippets|
  {
    Concat(Kept, snippets, n)
  }

  /** One snippet more contributes what `Kept` gives for it. */
  lemma KeptStep(snippets: seq<Snippet>, n: nat)
    requires n < |snippets|
    ensures KeptPrefix(snippets, n + 1) == KeptPrefix(snippets, n) + Kept(snippets[n])
  {
  }

  /** What one snippet contributes: its stripped text, unless that is empty. */
  function Kept(sn: Snippet): (r: seq<string>)
    ensures |r| <= 1
  {
    var t := Trim(TextOf(sn));
    if t == [] then [] else [t]
  }

  /** The results of `f` on the first `n` elements, one after the other. */
  function Concat<T>(f: T -> seq<string>, s: seq<T>, n: nat): seq<string>
    requires n <= |s|
  {
    if n == 0 then [] else Concat(f, s, n - 1) + f(s[n - 1])
  }

  /** A chunk text: non-empty and already stripped. */
  predicate Clean(t: string)
  {
    t != [] && Trim(t) == t
  }

  /** Every kept text is clean. */
  lemma {:induction false} KeptPrefixClean(snippets: seq<Snippet>, n: nat)
    requires n <= |snippets|
    ensures forall k | 0 <= k < |KeptPrefix(snippets, n)| :: Clean(KeptPrefix(snippets, n)[k])
  {
    if n > 0 {
      var before, last := KeptPrefix(snippets, n - 1), Kept(snippets[n - 1]);
      KeptPrefixClean(snippets, n - 1);
      TrimIdempotent(TextOf(snippets[n - 1]));
      assert KeptPrefix(snippets, n) == before + last;
      forall k | 0 <= k < |before + last| ensures Clean((before + last)[k]) {
        if k < |before| {
          assert (before + last)[k] == before[k];
        } else {
          assert (before + last)[k] == last[0];
        }
      }
    }
  }

  /** What comes of fewer elements is a prefix of what comes of more. */
  lemma {:induction false} ConcatGrows<T>(f: T -> seq<string>, s: seq<T>, n: nat, m: nat)
    requires n <= m <= |s|
    ensures Concat(f, s, n) <= Concat(f, s, m)
  {
    if n < m {
      ConcatGrows(f, s, n, m - 1);
    }
  }

  lemma {:induction false} ConcatLeft<T>(f: T -> seq<string>, a: seq<T>, b: seq<T>, n: nat)
    requires n <= |a|
    ensures Concat(f, a + b, n) == Concat(f, a, n)
  {
    if n > 0 {
      ConcatLeft(f, a, b, n - 1);
      assert (a + b)[n - 1] == a[n - 1];
    }
  }

  lemma {:induction false} ConcatAppend<T>(f: T -> seq<string>, a: seq<T>, b: seq<T>, m: nat)
    requires m <= |b|
    ensures Concat(f, a + b, |a| + m) == Concat(f, a, |a|) + Concat(f, b, m)
  {
    if m == 0 {
      ConcatLeft(f, a, b, |a|);
    } else {
      ConcatAppend(f, a, b, m - 1);
      assert (a + b)[|a| + m - 1] == b[m - 1];
    }
  }

  /** Filtering a concatenation is concatenating the filtered parts: together
      with `KeptSingle` this says the filter keeps exactly the snippets with a
      non-blank text, each stripped, and keeps them in order. */
  lemma KeptTextsAppend(a: seq<Snippet>, b: seq<Snippet>)
    ensures KeptTexts(a + b) == KeptTexts(a) + KeptTexts(b)
  {
    ConcatAppend(Kept, a, b, |b|);
  }

  /** One snippet is skipped exactly when it has no text or only whitespace,
      and kept stripped otherwise. */
  lemma KeptSingle(sn: Snippet)
    ensures KeptTexts([sn]) == [] <==> AllSpace(TextOf(sn))
    ensures !AllSpace(TextOf(sn)) ==> KeptTexts([sn]) == [Trim(TextOf(sn))]
    ensures sn.text.None? ==> KeptTexts([sn]) == []
  {
    KeptStep([sn], 0);
    TrimEmptyIffAllSpace(TextOf(sn));
  }

  /** A concatenation is empty exactly when every part is. */
  lemma {:induction false} ConcatEmpty<T>(f: T -> seq<string>, s: seq<T>, n: nat)
    requires n <= |s|
    ensures Concat(f, s, n) == [] <==> forall k | 0 <= k < n :: f(s[k]) == []
  {
    if n > 0 {
      ConcatEmpty(f, s, n - 1);
    }
  }

  /** Nothing is kept exactly when every snippet is blank. */
  lemma KeptNothing(snippets: seq<Snippet>, n: nat)
    requires n <= |snippets|
    ensures KeptPrefix(snippets, n) == [] <==> forall k | 0 <= k < n :: AllSpace(TextOf(snippets[k]))
  {
    ConcatEmpty(Kept, snippets, n);
    forall k | 0 <= k < n
      ensures Kept(snippets[k]) == [] <==> AllSpace(TextOf(snippets[k]))
    {
      TrimEmptyIffAllSpace(TextOf(snippets[k]));
    }
  }

  /** The embedding of each text in order, or `Raised` when the embedder
      raises on any of them. */
  function Embed(texts: seq<string>, encode: Embedder): (r: Result<seq<Chunk>>)
    ensures r.Raised? <==> exists k | 0 <= k < |texts| :: encode(texts[k]).Raised?
    ensures r.Ok? ==> |r.value| == |texts|
    ensures r.Ok? ==> forall k | 0 <= k < |texts| :: r.value[k] == Chunk(texts[k], encode(texts[k]).value)
  {
    if texts == [] then Ok([])
    else
      var init := Embed(texts[..|texts| - 1], encode);
      var last := texts[|texts| - 1];
      var e := encode(last);
      if init.Raised? || e.Raised? then
        Raised
      else
        Ok(init.value + [Chunk(last, e.value)])
  }

  /** The texts `_build_vector_db` keeps, with their embeddings. */
  function Index(snippets: seq<Snippet>, encode: Embedder): Result<seq<Chunk>>
  {
    Embed(KeptTexts(snippets), encode)
  }

  /** Embedding one text more appends its chunk. */
  lemma EmbedSnoc(texts: seq<string>, t: string, encode: Embedder)
    requires Embed(texts, encode).Ok? && encode(t).Ok?
    ensures Embed(texts + [t], encode) == Ok(Embed(texts, encode).value + [Chunk(t, encode(t).value)])
  {
    assert (texts + [t])[..|texts|] == texts;
  }

  /** When the embedder raises on the text of one kept snippet, building the
      whole index raises. */
  lemma IndexRaises(snippets: seq<Snippet>, i: nat, encode: Embedder)
    requires i < |snippets|
    requires Trim(TextOf(snippets[i])) != [] && encode(Trim(TextOf(snippets[i]))).Raised?
    ensures Index(snippets, encode).Raised?
  {
    var before, t := KeptPrefix(snippets, i), Trim(TextOf(snippets[i]));
    KeptStep(snippets, i);
    assert KeptPrefix(snippets, i + 1) == before + [t];
    ConcatGrows(Kept, snippets, i + 1, |snippets|);
    var texts := KeptTexts(snippets);
    assert texts[|before|] == t;
  }

  /** A built index holds stripped, non-empty texts with vectors of the
      embedder's dimension. */
  lemma IndexWellShaped(snippets: seq<Snippet>, encode: Embedder, dim: nat)
    requires EncodesTo(encode, dim)
    requires Index(snippets, encode).Ok?
    ensures var db := Index(snippets, encode).value;
      Shaped(db, dim) && forall k | 0 <= k < |db| :: Clean(db[k].text)
  {
    var texts := KeptTexts(snippets);
    var db := Index(snippets, encode).value;
    KeptPrefixClean(snippets, |snippets|);
    forall k | 0 <= k < |db| ensures |db[k].embedding| == dim && Clean(db[k].text) {
      assert db[k] == Chunk(texts[k], encode(texts[k]).value);
      assert encode(texts[k]).Ok?;
      assert Clean(texts[k]);
    }
  }

  // ---------------------------------------------------------------------
  // retrieve
  // ---------------------------------------------------------------------

  /** Every vector has dimension `dim`. */
  predicate Shaped(db: seq<Chunk>, dim: nat)
  {
    forall k | 0 <= k < |db| :: |db[k].embedding| == dim
  }

  /** The embedder always yields vectors of dimension `dim`. */
  ghost predicate EncodesTo(encode: Embedder, dim: nat)
  {
    forall s :: encode(s).Ok? ==> |encode(s).value| == dim
  }

  /** `scored_chunks` before sorting: each stored text with its similarity
      to the query, in `vector_db` order. */
  function ScoreAll(q: Vector, db: seq<Chunk>, root: real -> real): (r: seq<Scored>)
    requires IsRoot(root) && Shaped(db, |q|)
    ensures |r| == |db|
    ensures forall k | 0 <= k < |db| :: r[k] == Scored(db[k].text, CosineSimilarity(q, db[k].embedding, root))
  {
    if db == [] then []
    else
      var last := db[|db| - 1];
      ScoreAll(q, db[..|db| - 1], root) + [Scored(last.text, CosineSimilarity(q, last.embedding, root))]
  }

  /** `retrieve` after the query is embedded: sort by score, highest first,
      stably, then keep the first `topN`. */
  function Ranked(q: Vector, db: seq<Chunk>, root: real -> real, topN: int): seq<Scored>
    requires IsRoot(root) && Shaped(db, |q|)
  {
    Take(SortDesc(ScoreAll(q, db, root)), topN)
  }

  /** The ranked list has `min(topN, |db|)` elements, every one of them a
      stored text with its own score, and the scores never increase. */
  lemma RankedShape(q: Vector, db: seq<Chunk>, root: real -> real, topN: int)
    requires IsRoot(root) && Shaped(db, |q|)
    ensures 0 <= topN ==> |Ranked(q, db, root, topN)| == if topN < |db| then topN else |db|
    ensures NonIncreasing(Ranked(q, db, root, topN))
    ensures multiset(Ranked(q, db, root, topN)) <= multiset(ScoreAll(q, db, root))
  {
    var all := ScoreAll(q, db, root);
    SortDescSortedPermutation(all);
    TakeSorted(SortDesc(all), topN);
  }

  /** Every retrieved pair is one of the stored texts with its similarity. */
  lemma RankedFromDb(q: Vector, db: seq<Chunk>, root: real -> real, topN: int, k: nat)
    requires IsRoot(root) && Shaped(db, |q|)
    requires k < |Ranked(q, db, root, topN)|
    ensures exists j | 0 <= j < |db| ::
      Ranked(q, db, root, topN)[k] == Scored(db[j].text, CosineSimilarity(q, db[j].embedding, root))
  {
    var all := ScoreAll(q, db, root);
    var x := Ranked(q, db, root, topN)[k];
    RankedShape(q, db, root, topN);
    assert x in multiset(Ranked(q, db, root, topN));
    assert x in all;
    var j :| 0 <= j < |all| && all[j] == x;
  }

  /** Equal scores keep `vector_db` order: the pairs of any one score in the
      result are the first ones of that score in `vector_db`, in order. */
  lemma RankedStable(q: Vector, db: seq<Chunk>, root: real -> real, topN: int, v: real)
    requires IsRoot(root) && Shaped(db, |q|)
    ensures WithScore(Ranked(q, db, root, topN), v) <= WithScore(ScoreAll(q, db, root), v)
  {
    var sorted := SortDesc(ScoreAll(q, db, root));
    var r := Ranked(q, db, root, topN);
    SortDescStable(ScoreAll(q, db, root), v);
    assert sorted == r + sorted[|r|..];
    WithScoreAppend(r, sorted[|r|..], v);
  }

  /** The scores of the stored vectors against the zero query are all 0.0,
      so ranking then keeps `vector_db` order. */
  lemma ZeroQueryKeepsOrder(q: Vector, db: seq<Chunk>, root: real -> real)
    requires IsRoot(root) && Shaped(db, |q|) && IsZero(q)
    ensures forall k | 0 <= k < |db| :: ScoreAll(q, db, root)[k].score == 0.0
    ensures SortDesc(ScoreAll(q, db, root)) == ScoreAll(q, db, root)
  {
    var all := ScoreAll(q, db, root);
    assert forall k | 0 <= k < |all| :: all[k].score == 0.0;
    SortDescUniform(all, 0.0);
  }

  // ---------------------------------------------------------------------
  // Context, prompt and answer
  // ---------------------------------------------------------------------

  /** `context_parts`: one `- <text>` line per retrieved pair, in order. */
  function ContextLines(retrieved: seq<Scored>): (lines: seq<string>)
    ensures |lines| == |retrieved|
    ensures forall k | 0 <= k < |retrieved| :: lines[k] == "- " + retrieved[k].text + "\n"
  {
    if retrieved == [] then []
    else ContextLines(retrieved[..|retrieved| - 1]) + ["- " + retrieved[|retrieved| - 1].text + "\n"]
  }

  /** `''.join(context_parts)`. */
  function Context(retrieved: seq<Scored>): string
  {
    Join(ContextLines(retrieved))
  }

  /** The context of two consecutive runs of pairs is the context of the
      first followed by that of the second. */
  lemma ContextAppend(a: seq<Scored>, b: seq<Scored>)
    ensures Context(a + b) == Context(a) + Context(b)
  {
    assert ContextLines(a + b) == ContextLines(a) + ContextLines(b);
    JoinAppend(ContextLines(a), ContextLines(b));
  }

  /** The instruction text that opens every prompt. */
  const PreambleParts: seq<string> := [
    "You are a chatbot that answer questions about videos in which you have the transcript. Based on the provided context, answer the user's question concisely and directly.\n",
    "Use only the following pieces of context to answer the question. ",
    "Do not make up new information. If the answer cannot be found, state that you don't know.\n"
  ]

  function Preamble(): string
  {
    Join(PreambleParts)
  }

  /** The prompt: the instructions, the context, the question, and the cue
      for the answer. */
  function Prompt(query: string, context: string): string
  {
    Preamble() + "Context:\n" + context + "\nQuestion: " + query + "\nAnswer:"
  }

  /** The four parts of the prompt sit one after the other: the
      instructions first, then `Context:` and the context, then the question,
      then `Answer:` at the very end. */
  lemma PromptLayout(query: string, context: string)
    ensures var p, head := Prompt(query, context), Preamble() + "Context:\n";
      && p[..|head|] == head
      && p[|head|..|head| + |context|] == context
      && p[|head| + |context|..|head| + |context| + 11] == "\nQuestion: "
      && p[|head| + |context| + 11..|p| - 8] == query
      && p[|p| - 8..] == "\nAnswer:"
  {
    var head := Preamble() + "Context:\n";
    Framed(Prompt(query, context), head, context, "\nQuestion: ", query, "\nAnswer:");
  }

  /** Where the five parts of a concatenation lie. */
  lemma Framed(p: string, head: string, x: string, mid: string, y: string, tail: string)
    requires p == head + x + mid + y + tail
    ensures p[..|head|] == head
    ensures p[|head|..|head| + |x|] == x
    ensures p[|head| + |x|..|head| + |x| + |mid|] == mid
    ensures p[|head| + |x| + |mid|..|p| - |tail|] == y
    ensures p[|p| - |tail|..] == tail
  {
  }

  /** The completion result has a first choice with a `text` key. */
  predicate WellFormed(res: Option<Response>)
  {
    res.Some? && res.value.choices.Some? && |res.value.choices.value| > 0
    && res.value.choices.value[0].text.Some?
  }

  /** The generated text of a well-formed result. */
  function Generated(res: Option<Response>): string
    requires WellFormed(res)
  {
    res.value.choices.value[0].text.value
  }

  /** What `ask_question` makes of the completion call: no exception
      escapes, and the reply is never empty. */
  function Postprocess(outcome: Result<Option<Response>>): (r: string)
    ensures outcome.Raised? ==> r == InternalError
    ensures outcome.Ok? && !WellFormed(outcome.value) ==> r == NoResponse
    ensures outcome.Ok? && WellFormed(outcome.value) && AllSpace(Generated(outcome.value)) ==> r == Struggled
    ensures outcome.Ok? && WellFormed(outcome.value) && !AllSpace(Generated(outcome.value)) ==> r == Trim(Generated(outcome.value))
    ensures r != []
  {
    if outcome.Raised? then
      InternalError
    else if WellFormed(outcome.value) then
      var g := Trim(Generated(outcome.value));
      TrimEmptyIffAllSpace(Generated(outcome.value));
      if g == [] then Struggled else g
    else
      NoResponse
  }

  /** The reply carries no surrounding whitespace, whichever way the call
      went: the model's text is stripped and the sentinels have none. */
  lemma ReplyTrimmed(outcome: Result<Option<Response>>)
    ensures Trim(Postprocess(outcome)) == Postprocess(outcome)
  {
    if outcome.Raised? {
      SentinelTrimmed(InternalErrorMessage);
    } else if !WellFormed(outcome.value) {
      SentinelTrimmed(NoResponseMessage);
    } else if AllSpace(Generated(outcome.value)) {
      SentinelTrimmed(StruggledMessage);
    } else {
      TrimIdempotent(Generated(outcome.value));
    }
  }

  /** A message in parentheses has no whitespace to strip. */
  lemma SentinelTrimmed(message: string)
    ensures Trim(Sentinel(message)) == Sentinel(message)
  {
    var s := Sentinel(message);
    assert s[0] == '(' && s[|s| - 1] == ')';
    assert TrimStart(s) == s;
  }

  /** The answer `ask_question` gives once `vector_db` holds `db`: an
      exception when embedding the query raises (`retrieve` runs outside any
      `try`), the no-information sentinel when nothing is retrieved, and
      otherwise the post-processed completion of the prompt. */
  function Answer(query: string, db: seq<Chunk>, encode: Embedder, root: real -> real,
                  dim: nat, complete: Completion): (r: Result<string>)
    requires IsRoot(root) && EncodesTo(encode, dim) && Shaped(db, dim)
    ensures db != [] ==> (r.Raised? <==> encode(query).Raised?)
    ensures db == [] ==> r == Ok(NoRelevant)
  {
    if db == [] then Ok(NoRelevant)
    else
      var q := encode(query);
      if q.Raised? then Raised
      else
        var retrieved := Ranked(q.value, db, root, TopN);
        if retrieved == [] then Ok(NoRelevant)
        else Ok(Postprocess(complete(Prompt(query, Context(retrieved)))))
  }

  /** With a non-empty index and a query the embedder accepts, the model is
      always consulted on the top three chunks: the no-information sentinel
      is never produced by the branch that tests for it. */
  lemma AnswerConsultsModel(query: string, db: seq<Chunk>, encode: Embedder, root: real -> real,
                            dim: nat, complete: Completion)
    requires IsRoot(root) && EncodesTo(encode, dim) && Shaped(db, dim)
    requires db != [] && encode(query).Ok?
    ensures var retrieved := Ranked(encode(query).value, db, root, TopN);
      |retrieved| == (if |db| < TopN then |db| else TopN)
      && Answer(query, db, encode, root, dim, complete)
         == Ok(Postprocess(complete(Prompt(query, Context(retrieved)))))
  {
    RankedShape(encode(query).value, db, root, TopN);
  }

  // ---------------------------------------------------------------------
  // The handler
  // ---------------------------------------------------------------------

  /** A rebuild is due when the video changed or nothing is indexed. */
  predicate NeedsRebuild(currentVideoId: Option<string>, vectorDb: seq<Chunk>, videoId: string)
  {
    currentVideoId != Some(videoId) || vectorDb == []
  }

  /** `if not transcript_data`: `None` and the empty list are false-y. */
  predicate Falsy(data: Option<seq<Snippet>>)
  {
    data.None? || data.value == []
  }

  /** What `ask_question` changes: `current_video_id` and `vector_db`. */
  datatype Session = Session(videoId: Option<string>, db: seq<Chunk>)

  /** Stored texts are clean, stored vectors have the embedder's dimension,
      and an index exists only for a video. */
  predicate SessionValid(s: Session, dim: nat)
  {
    && Shaped(s.db, dim)
    && (forall k | 0 <= k < |s.db| :: Clean(s.db[k].text))
    && (s.db != [] ==> s.videoId.Some?)
  }

  /** The rebuild branch of `ask_question`, given what the fetcher returned:
      the reply to give instead of an answer, if any, and the new state.
      `vector_db` is assigned before it is tested, so an index with no
      chunks replaces the old one while the video id stays. */
  function Rebuild(s: Session, videoId: string, data: Result<Option<seq<Snippet>>>, encode: Embedder)
    : (Option<string>, Session)
  {
    if data.Raised? then (Some(FetchError), s)
    else if Falsy(data.value) then (Some(NoTranscript), s)
    else
      var index := Index(data.value.value, encode);
      if index.Raised? then (Some(FetchError), s)
      else if index.value == [] then (Some(NoValidChunks), Session(s.videoId, []))
      else (None, Session(Some(videoId), index.value))
  }

  /** A rebuild goes through exactly when a non-empty transcript arrives and
      indexing it succeeds with at least one chunk; the index then belongs to
      the requested video, and the next question about it reuses the index. */
  lemma RebuildSucceeds(s: Session, videoId: string, data: Result<Option<seq<Snippet>>>, encode: Embedder)
    ensures var (failure, s') := Rebuild(s, videoId, data, encode);
      && (failure.None? <==>
            data.Ok? && !Falsy(data.value) && Index(data.value.value, encode).Ok?
            && Index(data.value.value, encode).value != [])
      && (failure.None? ==>
            s' == Session(Some(videoId), Index(data.value.value, encode).value)
            && !NeedsRebuild(s'.videoId, s'.db, videoId))
  {
  }

  /** The three replies a failed rebuild can give are different strings. */
  lemma SentinelsDistinct()
    ensures NoTranscript != NoValidChunks
    ensures NoTranscript != FetchError
    ensures NoValidChunks != FetchError
  {
    assert |NoTranscript| == 44 && |NoValidChunks| == 57 && |FetchError| == 34;
  }

  /** A failed rebuild never changes the video id, and it either keeps the
      old index or, when the transcript held no text, empties it. Each reply
      has one cause: an exception from the fetcher or the embedder gives
      the fetch-error reply and changes nothing; a false-y transcript gives
      the no-transcript reply and changes nothing; a transcript whose every
      snippet is blank gives the no-valid-chunks reply and empties the
      index. */
  lemma RebuildFailure(s: Session, videoId: string, data: Result<Option<seq<Snippet>>>, encode: Embedder)
    ensures var (failure, s') := Rebuild(s, videoId, data, encode);
      failure.Some? ==>
        && s'.videoId == s.videoId
        && (s'.db == s.db || s'.db == [])
        && (failure.value == FetchError || failure.value == NoTranscript || failure.value == NoValidChunks)
    ensures var (failure, s') := Rebuild(s, videoId, data, encode);
      && (failure == Some(FetchError) <==>
            data.Raised? || (!Falsy(data.value) && Index(data.value.value, encode).Raised?))
      && (failure == Some(FetchError) ==> s' == s)
    ensures var (failure, s') := Rebuild(s, videoId, data, encode);
      && (failure == Some(NoTranscript) <==> data.Ok? && Falsy(data.value))
      && (failure == Some(NoTranscript) ==> s' == s)
    ensures var (failure, s') := Rebuild(s, videoId, data, encode);
      && (failure == Some(NoValidChunks) <==>
            data.Ok? && !Falsy(data.value)
            && forall k | 0 <= k < |data.value.value| :: AllSpace(TextOf(data.value.value[k])))
      && (failure == Some(NoValidChunks) ==> s' == Session(s.videoId, []))
  {
    SentinelsDistinct();
    if data.Ok? && !Falsy(data.value) {
      var snippets := data.value.value;
      KeptNothing(snippets, |snippets|);
    }
  }

  /** Rebuilding keeps the state valid. */
  lemma RebuildValid(s: Session, videoId: string, data: Result<Option<seq<Snippet>>>, encode: Embedder, dim: nat)
    requires EncodesTo(encode, dim) && SessionValid(s, dim)
    ensures SessionValid(Rebuild(s, videoId, data, encode).1, dim)
  {
    if data.Ok? && !Falsy(data.value) && Index(data.value.value, encode).Ok? {
      IndexWellShaped(data.value.value, encode, dim);
    }
  }

  class ChatHandler {
    var currentVideoId: Option<string>
    var vectorDb: seq<Chunk>
    const encode: Embedder
    /** `np.linalg.norm`'s square root. */
    const root: real -> real
    /** The embedder's output dimension. */
    const dim: nat

    function State(): Session
      reads this
    {
      Session(currentVideoId, vectorDb)
    }

    ghost predicate Valid()
      reads this
    {
      IsRoot(root) && EncodesTo(encode, dim) && SessionValid(State(), dim)
    }

    /** `__init__`, with the loaded embedder as a parameter. */
    constructor(encode: Embedder, root: real -> real, dim: nat)
      requires IsRoot(root) && EncodesTo(encode, dim)
      ensures Valid()
      ensures this.encode == encode && this.root == root && this.dim == dim
      ensures State() == Session(None, [])
    {
      this.encode := encode;
      this.root := root;
      this.dim := dim;
      currentVideoId := None;
      vectorDb := [];
    }

    /** `_build_vector_db(transcript_data)`. */
    method BuildVectorDb(snippets: seq<Snippet>) returns (r: Result<seq<Chunk>>)
      ensures r == Index(snippets, encode)
    {
      var db: seq<Chunk> := [];
      for i := 0 to |snippets|
        invariant Embed(KeptPrefix(snippets, i), encode) == Ok(db)
      {
        var text := Trim(TextOf(snippets[i]));
        KeptStep(snippets, i);
        if text != [] {
          var e := encode(text);
          if e.Raised? {
            IndexRaises(snippets, i, encode);
            return Raised;
          }
          assert Kept(snippets[i]) == [text];
          EmbedSnoc(KeptPrefix(snippets, i), text, encode);
          db := db + [Chunk(text, e.value)];
        } else {
          assert Kept(snippets[i]) == [];
          assert KeptPrefix(snippets, i + 1) == KeptPrefix(snippets, i);
        }
      }
      return Ok(db);
    }

    /** `retrieve(query, top_n)`. With nothing indexed it returns `[]`
        whatever the embedder would do with the query. */
    method Retrieve(query: string, topN: int) returns (r: Result<seq<Scored>>)
      requires Valid()
      ensures vectorDb == [] ==> r == Ok([])
      ensures vectorDb != [] && encode(query).Raised? ==> r == Raised
      ensures vectorDb != [] && encode(query).Ok? ==> r == Ok(Ranked(encode(query).value, vectorDb, root, topN))
    {
      if vectorDb == [] {
        return Ok([]);
      }
      var q := encode(query);
      if q.Raised? {
        return Raised;
      }
      var scored: seq<Scored> := [];
      for i := 0 to |vectorDb|
        invariant scored == ScoreAll(q.value, vectorDb[..i], root)
      {
        assert vectorDb[..i + 1][..i] == vectorDb[..i];
        scored := scored + [Scored(vectorDb[i].text, CosineSimilarity(q.value, vectorDb[i].embedding, root))];
      }
      assert vectorDb[..|vectorDb|] == vectorDb;
      scored := SortDesc(scored);
      return Ok(Take(scored, topN));
    }

    /** The context assembly loop of `ask_question`. */
    method BuildContext(retrieved: seq<Scored>) returns (context: string)
      ensures context == Context(retrieved)
    {
      var parts: seq<string> := [];
      for i := 0 to |retrieved|
        invariant parts == ContextLines(retrieved[..i])
      {
        assert retrieved[..i + 1][..i] == retrieved[..i];
        parts := parts + ["- " + retrieved[i].text + "\n"];
      }
      assert retrieved[..|retrieved|] == retrieved;
      context := Join(parts);
    }

    /** The part of `ask_question` after the index is ready: retrieve the
        top three chunks, build the prompt, call the model and post-process
        its reply. */
    method Respond(query: string, complete: Completion) returns (reply: Result<string>)
      requires Valid()
      ensures reply == Answer(query, vectorDb, encode, root, dim, complete)
    {
      var retrieved := Retrieve(query, TopN);
      if retrieved.Raised? {
        return Raised;
      }
      if retrieved.value == [] {
        return Ok(NoRelevant);
      }
      var context := BuildContext(retrieved.value);
      var prompt := Prompt(query, context);
      return Ok(Postprocess(complete(prompt)));
    }

    /** The rebuild branch of `ask_question`: fetch the transcript and index
        it. */
    method Reindex(videoId: string, fetch: Fetcher) returns (failure: Option<string>)
      requires Valid()
      modifies this
      ensures Valid()
      ensures (failure, State()) == Rebuild(old(State()), videoId, fetch(videoId), encode)
    {
      RebuildValid(State(), videoId, fetch(videoId), encode, dim);
      var data := fetch(videoId);
      if data.Raised? {
        return Some(FetchError);
      }
      if Falsy(data.value) {
        return Some(NoTranscript);
      }
      var built := BuildVectorDb(data.value.value);
      if built.Raised? {
        return Some(FetchError);
      }
      vectorDb := built.value;
      if vectorDb == [] {
        return Some(NoValidChunks);
      }
      currentVideoId := Some(videoId);
      return None;
    }

    /** `ask_question(user_query, video_id, transcript_fetcher_func)`.
        `fetched` records whether the fetcher was called. */
    method AskQuestion(query: string, videoId: string, fetch: Fetcher, complete: Completion)
      returns (reply: Result<string>, ghost fetched: bool)
      requires Valid()
      modifies this
      ensures Valid()
      ensures fetched <==> NeedsRebuild(old(currentVideoId), old(vectorDb), videoId)
      // Reuse: the index stays and answers.
      ensures !fetched ==> State() == old(State()) && reply == Answer(query, vectorDb, encode, root, dim, complete)
      // Rebuild: the state is the rebuilt one, and a failed rebuild replies
      // with its sentinel instead of consulting the index.
      ensures fetched ==>
        var (failure, s') := Rebuild(old(State()), videoId, fetch(videoId), encode);
        State() == s'
        && reply == (if failure.Some? then Ok(failure.value) else Answer(query, vectorDb, encode, root, dim, complete))
    {
      var rebuild := NeedsRebuild(currentVideoId, vectorDb, videoId);
      fetched := rebuild;
      if rebuild {
        var failure := Reindex(videoId, fetch);
        if failure.Some? {
          return Ok(failure.value), fetched;
        }
      }
      reply := Respond(query, complete);
    }
  }
}
