# Multimodal-Video-Analysis: transcript chat, timestamps and video ids

This project models the core of the Multimodal-Video-Analysis tool in Dafny and proves properties of the model:

- **Retrieval-augmented chat about a YouTube video** (`ChatHandler` in `chatbox.py`).
  - The handler indexes the transcript of the current video. Each snippet's text is stripped, empty texts are dropped, and the rest are embedded.
  - It ranks the indexed chunks by cosine similarity to the question and keeps the top three.
  - It builds a prompt from them and turns the language model's completion into a reply. When no answer can be given, the reply is a parenthesised sentinel.
- **The transcript page** (`format_timestamp` and `generate_html_transcript` in `get_youtube_transcript.py`).
  - Each snippet becomes a clickable `[MM:SS]` or `[HH:MM:SS]` line.
- **Video-id extraction** (`extract_video_id` in `main.py`).
  - It is a leftmost search for `v=` or `youtu.be/` followed by eleven id characters.

The modules are:

- `Wrappers`: `Option`, and `Result`, whose `Raised` case stands for a Python exception that escapes.
- `Text`: `str.strip()` over the full `str.isspace()` character set, and `''.join`.
- `Similarity`: the dot product, the norm and `cosine_similarity`.
- `Ranking`: `list.sort(key=..., reverse=True)` as a stable descending insertion sort, and the slice `[:n]`.
- `Transcript`: `format_timestamp` and `generate_html_transcript`.
- `VideoId`: `extract_video_id`.
- `Chatbox`: the `ChatHandler` class.
  - Its two mutable fields are `current_video_id` and `vector_db`.
  - Each of its methods is proved against a specification function. The properties are stated as lemmas about that function.

The sentence embedder, the language model and the transcript fetcher are parameters of type function:

- the embedder maps a text to a vector or to an exception;
- the completion call maps a prompt to a response, to a false-y result or to an exception;
- the fetcher maps a video id to a snippet list, to `None` or to an exception.

The square root inside `np.linalg.norm` is also a parameter, `root`. The model assumes only that it is zero exactly at zero and positive elsewhere.

Four behaviours of the code worth knowing:

- **Query embedding is unguarded.** `ask_question` calls `retrieve` outside any `try` (`chatbox.py:86`). An exception from embedding the query therefore escapes to the caller, and `Answer` returns `Raised` in that case.
- **A fetcher exception gets its own reply.** When the fetcher raises, the reply is "(Error fetching video transcript.)". Only a false-y result gives "(Sorry, no transcript found for this video.)".
- **A transcript without usable text empties the index.** `vector_db` is assigned before it is tested (`chatbox.py:75-77`). A transcript with no usable text therefore empties the index, while `current_video_id` keeps the old video.
- **One sentinel is unreachable.** "(Could not find relevant information in the video transcript.)" is tested at `chatbox.py:88-89`, but `ask_question` never reaches it. `AnswerConsultsModel` proves that once the index is non-empty and the query embeds, three chunks (or all of them, if fewer) are always retrieved.

## Model

| member | source | states |
|---|---|---|
| Text.TrimIsInnerSlice | chatbox.py:28 | `strip()` returns the slice of its input between a whitespace-only prefix and a whitespace-only suffix, and the result neither starts nor ends with whitespace |
| Text.TrimEmptyIffAllSpace | chatbox.py:28-29 | a stripped text is empty exactly when the snippet text is all whitespace, so the `if chunk_text` filter drops exactly those snippets |
| Text.TrimIdempotent | chatbox.py:120 | stripping twice is stripping once |
| Text.JoinAppend | chatbox.py:93 | `''.join` of two concatenated lists is the concatenation of the two joins |
| Similarity.NormSqZero | chatbox.py:40-41 | the squared norm is non-negative and is zero exactly for the all-zero vector |
| Similarity.NormZeroIffZeroVector | chatbox.py:40-42 | `np.linalg.norm(v) == 0` exactly when every component of `v` is zero |
| Similarity.CosineSimilarity | chatbox.py:36-44 | a zero vector on either side gives `0.0` and no division; otherwise the result times the product of the norms is the dot product |
| Similarity.DotSymmetric | chatbox.py:39 | the dot product is symmetric |
| Similarity.CosineSymmetric | chatbox.py:36-44 | cosine similarity is symmetric in its two arguments |
| Ranking.Take | chatbox.py:57 | `s[:n]` is a prefix of `s` whose length is `min(n, len(s))` for `n >= 0`, and follows Python's negative-bound rule otherwise |
| Ranking.InsertSorted | chatbox.py:56 | inserting into a descending list keeps it descending |
| Ranking.InsertPermutation | chatbox.py:56 | inserting adds exactly the new element to the multiset |
| Ranking.InsertWithScore | chatbox.py:56 | an insertion puts the new element after every existing element with the same score |
| Ranking.SortDescSortedPermutation | chatbox.py:56 | `sort(key=score, reverse=True)` yields a non-increasing permutation of its input |
| Ranking.SortDescStable | chatbox.py:56 | the sort is stable: the elements with any one score keep their original relative order |
| Ranking.SortDescUniform | chatbox.py:56 | a list whose scores are all equal is left unchanged by the sort |
| Ranking.TakeSorted | chatbox.py:56-57 | the top-n slice of a sorted list is sorted and a sub-multiset of the list |
| Chatbox.Kept | chatbox.py:28-29 | each snippet contributes at most one chunk text |
| Chatbox.KeptSingle | chatbox.py:28-29 | a snippet contributes nothing exactly when its text (or the `''` default for a missing key) is all whitespace, and otherwise contributes its stripped text |
| Chatbox.KeptNothing | chatbox.py:27-29 | the kept texts are empty exactly when every snippet's text is all whitespace |
| Chatbox.KeptTextsAppend | chatbox.py:27-31 | the texts kept from two concatenated transcripts are the kept texts of each, in order |
| Chatbox.KeptPrefixClean | chatbox.py:28-29 | every kept text is non-empty and already stripped |
| Chatbox.Embed | chatbox.py:30-31 | embedding raises exactly when the embedder raises on some text; otherwise each text is paired in order with its embedding |
| Chatbox.IndexRaises | chatbox.py:27-31 | an embedder failure on any non-blank snippet makes the whole index build raise |
| Chatbox.IndexWellShaped | chatbox.py:26-34 | every chunk of a built index has a clean text and a vector of the embedder's dimension |
| Chatbox.ChatHandler.BuildVectorDb | chatbox.py:23-34 | the loop returns exactly the index of the snippets: their stripped non-empty texts, in order, each paired with its embedding, or an exception |
| Chatbox.ScoreAll | chatbox.py:53-55 | each chunk is scored in order by the cosine similarity of the query with its embedding |
| Chatbox.RankedShape | chatbox.py:56-57 | the retrieved list has `min(top_n, len(vector_db))` entries, is non-increasing in score and is drawn from the scored chunks |
| Chatbox.RankedFromDb | chatbox.py:53-57 | every retrieved entry is some indexed chunk's text with that chunk's similarity |
| Chatbox.RankedStable | chatbox.py:56-57 | among chunks with equal similarity, retrieval keeps index order |
| Chatbox.ZeroQueryKeepsOrder | chatbox.py:42-56 | an all-zero query embedding scores every chunk `0.0`, so the ranking is the index order |
| Chatbox.ChatHandler.Retrieve | chatbox.py:46-57 | an empty index gives `[]`; a query embedding that raises escapes; otherwise the result is the top-n ranked chunks |
| Chatbox.ContextLines | chatbox.py:91-92 | one context line `- <chunk text>\n` per retrieved chunk, in retrieval order |
| Chatbox.ContextAppend | chatbox.py:91-93 | the context of two concatenated retrievals is the concatenation of their contexts |
| Chatbox.ChatHandler.BuildContext | chatbox.py:87-93 | the loop and join produce exactly the context of the retrieved chunks |
| Chatbox.PromptLayout | chatbox.py:98-105 | the prompt is the fixed instructions and `Context:\n`, then the context, then `\nQuestion: `, then the query, then `\nAnswer:`; each part can be read back at its position |
| Chatbox.Postprocess | chatbox.py:108-130 | an exception gives the internal-error sentinel; a malformed result gives the no-response sentinel; a blank generation gives the struggled sentinel; otherwise the reply is the stripped generation; the reply is never empty |
| Chatbox.ReplyTrimmed | chatbox.py:119-130 | every post-processed reply is already stripped |
| Chatbox.SentinelTrimmed | chatbox.py:123 | a parenthesised sentinel is unchanged by stripping |
| Chatbox.Answer | chatbox.py:85-130 | with a non-empty index the answer raises exactly when embedding the query raises; with an empty index it is the no-information sentinel |
| Chatbox.AnswerConsultsModel | chatbox.py:86-89 | with a non-empty index and an embeddable query, three chunks (or all, if fewer) are retrieved and the reply is the post-processed completion of their prompt |
| Chatbox.RebuildSucceeds | chatbox.py:68-78 | a rebuild succeeds exactly when the fetch returns a non-empty transcript whose index builds and is non-empty; the index then belongs to the requested video and the next question reuses it |
| Chatbox.RebuildFailure | chatbox.py:70-81 | a failed rebuild keeps the video id, and each reply has exactly one cause. An exception from the fetcher or the embedder gives the fetch-error sentinel and changes nothing. A false-y transcript gives the no-transcript sentinel and changes nothing. A transcript whose every snippet is blank gives the no-valid-chunks sentinel and empties the index |
| Chatbox.SentinelsDistinct | chatbox.py:73-81 | the no-transcript, no-valid-chunks and fetch-error replies are three different strings |
| Chatbox.RebuildValid | chatbox.py:70-81 | a rebuild keeps the handler invariant: clean texts, vectors of the embedder's dimension, and an index only for a known video |
| Chatbox.ChatHandler.constructor | chatbox.py:9-21 | a new handler has no video id and an empty index |
| Chatbox.ChatHandler.Reindex | chatbox.py:70-81 | the fetch, build and test sequence produces exactly the reply and the new `current_video_id`/`vector_db` of the rebuild specification, and keeps the invariant |
| Chatbox.ChatHandler.Respond | chatbox.py:85-130 | retrieval, context, prompt, completion and post-processing produce exactly `Answer` for the current index |
| Chatbox.ChatHandler.AskQuestion | chatbox.py:59-130 | the transcript is fetched exactly when the video changed or the index is empty; without a fetch, nothing changes and the reply is the answer; with a fetch, the state is the rebuild's, and the reply is the rebuild's sentinel, or else the answer from the new index |
| Transcript.TruncToInt | get_youtube_transcript.py:70 | `int(seconds)` truncates toward zero |
| Transcript.ClockFields | get_youtube_transcript.py:71-73 | hours, minutes and seconds recompose the whole seconds; minutes and seconds are below 60; the hour field is positive exactly from 3600 seconds on |
| Transcript.ClockLength | get_youtube_transcript.py:74-77 | the `MM:SS` form (five characters) is used exactly below one hour, and the `HH:MM:SS` form (at least eight) from one hour on |
| Transcript.Pad2RoundTrip | get_youtube_transcript.py:75 | a `:02d` field reads back as its number |
| Transcript.ClockRoundTrip | get_youtube_transcript.py:69-77 | every non-negative number of seconds is recovered from its formatted timestamp |
| Transcript.ClockCharacters | get_youtube_transcript.py:74-77 | a timestamp consists of digits and colons only |
| Transcript.DecimalRoundTrip | get_youtube_transcript.py:127 | the `seekTo` argument, the decimal form of `int(start)`, reads back as that number |
| Transcript.GenerateHtmlTranscript | get_youtube_transcript.py:80-166 | the page is the fixed header, one line per snippet in order, and the footer with the video id; it raises exactly when some snippet lacks `text` or `start` |
| Transcript.AppendLines | get_youtube_transcript.py:123-127 | the loop appends exactly the lines of all snippets, or raises at a snippet missing a key |
| Transcript.LineText | get_youtube_transcript.py:126-127 | each line opens with the transcript-line link markup and ends with the snippet's text, unescaped, and the closing `</div>` and newline |
| Transcript.LineSeekArgument | get_youtube_transcript.py:124-127 | for a non-negative start, the `seekTo` argument reads back as the start's whole seconds |
| Transcript.LineLabel | get_youtube_transcript.py:124-127 | for a non-negative start, the bracketed label reads back as the same whole seconds that `seekTo` receives |
| VideoId.MatchAt | main.py:11 | the attempt at one position succeeds exactly when the pattern matches there, and it returns that match's group |
| VideoId.SearchFrom | main.py:11 | the search from a position finds nothing exactly when no match starts at or after it; otherwise it returns the group of the leftmost match |
| VideoId.ExtractVideoId | main.py:10-12 | `None` exactly when the pattern matches nowhere; otherwise an eleven-character id from `[a-zA-Z0-9_-]`, the group of the leftmost match |
| VideoId.NoMatchPastEnd | main.py:11 | a match needs at least thirteen characters from its start |
| VideoId.AppendIgnored | main.py:10-12 | once a URL yields an id, appending anything to it (query parameters, say) yields the same id |
| VideoId.ShortLinkExample | main.py:10-12 | `youtu.be/dQw4w9WgXcQ?t=42` yields `dQw4w9WgXcQ` |
| VideoId.ShortIdExample | main.py:10-12 | `watch?v=short` yields `None`, since fewer than eleven id characters follow `v=` |

## Left out

- Model loading in `ChatHandler.__init__` (`chatbox.py:10-18`) is left out: it loads a SentenceTransformer and a Llama model from disk. The embedder and the completion call are parameters instead.
- Sampling is left out: the token limit, temperature, top-p and top-k, and the stop sequences (`chatbox.py:109-116`). The completion call is an arbitrary function of the prompt.
- All `print` logging is left out: it has no effect on the results.
- Floating-point rounding is not modelled: similarities are exact reals. `np.linalg.norm`'s square root is the parameter `root`, constrained only to be zero exactly at zero and positive elsewhere.
- Similarity.CosineSimilarity: the function computes the quotient `a·b / (|a| * |b|)`, but its contract does not state it as a quotient. Because the square root is abstract, the contract states it through `r * (|a| * |b|) == a·b`.
- Embeddings of different lengths are assumed away: `np.dot` would raise on them. The model assumes the embedder always returns vectors of one dimension `dim` (`EncodesTo`).
- Snippets that are not dictionaries, and `text` or `start` values that are not strings and numbers, are left out.
  - A snippet is a record whose `text` and `start` keys may be missing.
  - A missing `text` is the `''` default in `_build_vector_db` and a `KeyError` in `generate_html_transcript`.
- `str(chunk_text)` and `str(user_query)` are the identity here, since texts are strings.
- Chatbox.ChatHandler.BuildVectorDb: an exception from the embedder during the build is returned as `Raised`, and nothing is assigned. This matches the source, where the exception is raised before `self.vector_db` is assigned; the caller then replies with the fetch-error sentinel.
- Transcript.LineSeekArgument: the read-back is stated only for non-negative start times.
- Transcript.LineLabel: as for LineSeekArgument. A negative start formats by Python's floor division, and that formatting is modelled, but no read-back is proved for it.
- The header and footer of the transcript page are fixed strings. They are modelled as constants without properties beyond their position in the page.
- `get_transcript` and `update_transcript_html` are not part of this model. Nor are the rest of `get_youtube_transcript.py` and `main.py`'s GUI (`process_url` and the Tk widgets), which are I/O around the core.
- `RAG_chat.py` and the Gemini summary integration are not part of this model.
