# Verification of the food ordering system

The system is a C++ order service with a MySQL backend and a Python AI service beside it. This project models
the parts of both that carry state, arithmetic or a protocol, and proves what they promise. Code that changes
things step by step is modelled as methods and classes, and each method is proved against a specification
function; the lemmas are about those functions, over every input, run or interleaving.

| file | component |
|---|---|
| `Sha256.dfy`, `Sha256Example.dfy` | SHA-256 as in FIPS 180-4 (4.1.2, 4.2.2, 5.1.1, 5.2.1, 5.3.3, 6.2.2), the hand-written implementation, and the published digest of "abc" |
| `Chat.dfy`, `ChatEngine.dfy`, `Stream.dfy` | history translation, the bounded tool loop, stream reassembly |
| `Cache.dfy`, `CacheThreads.dfy` | the TTL + LRU cache, sequentially and as interleaved threads |
| `Retrieval.dfy`, `HybridSearch.dfy`, `Recommender.dfy` | nDCG, reciprocal rank fusion, the search pipeline, recommendation |
| `Orders.dfy`, `Transaction.dfy` | the order life cycle over an in-memory repository, the transactional insert |
| `SessionStore.dfy`, `Metrics.dfy` | chat sessions with idle expiry, the call and cache aggregator |
| `Parser.dfy`, `Template.dfy` | resolving a drafted order against the menu, filling templates and building the data set |
| `Sorting.dfy`, `Wrappers.dfy` | the stable sort and sequence facts, optional values, the shared dish record, reciprocals, substring search |

Conventions. Floats are `real`. The clock is a number supplied from outside, non-decreasing where a property
says so. Embeddings, model replies, random draws and shuffles are arbitrary inputs. `lower`, `strip`, `round`,
`json.loads` and `log2` are function parameters; `log2` is only assumed positive and strictly increasing above 1.
Integer widths are explicit in SHA-256 (32-bit words, a 64-bit length counter) and unbounded elsewhere. A cache key
stands for its arguments. Expiry, capacity and iteration limits are arbitrary parameters.

## What the proofs found

- A chat history is answerable for the provider exactly unless, in some run, the model shown one of its requests made a
  call with a truthy non-object input, or one whose tool returned a non-object or something `json.dumps` refuses. The run
  then dies with the assistant turn already in the history, and its calls are never answered (`DriveAbortsIff`,
  `HistoryPairedIff`; `ListArgumentsBreakHistory` is such a run, `WellBehavedStaysPaired` the promise kept).
- A larger cache holds at least the keys of a smaller one but may miss where the smaller one hits, since an entry that
  stays keeps its old expiry: it hits exactly when the last call that computed the key there is within the time to live
  (`LargerCacheContains`, `LargerCacheMayMissMore`, `LargerCacheHitsIff`).
- A function that raises after its entry has expired removes the key: the key order is always the recency order exactly
  when no call does that (`AlwaysRecentIff`, `ExpiredRaiseLosesKey`).
- "Falls back to the fused ranking when the reranker is unavailable" fails when none of the candidates is in the
  corpus; `FallbackIff` gives the condition, and `FallbackWithKeywords` the case in which it always holds.
- nDCG exceeds 1 when ids repeat; with unit gains it is at most 1 exactly when the top ids are distinct
  (`RepeatedIdsExceedOne`, `BoundedIffDistinct`).
- The comment in `data.py` that a repeated slot reuses its value does not describe the code, which draws again for
  every hole: two holes of a slot always agree exactly when all values of the slot are equal (`RepeatedSlotAgreesIff`,
  `RepeatedSlotMayDiffer`).
- What is found of a session depends only on what was done to that session. Where evictions and the creation of other
  sessions fall makes no difference exactly unless a touch from outside has revived the session after its time to live,
  no save, deletion or late lookup by the owner has settled it since, and it is still live (`FoundIff`,
  `EvictionsShowIff`, `LateTouchShowsEviction`). A chat turn ends in a save, so it settles its session (`SaveSettles`).
- In a parsed order a missing restaurant name silently becomes the first restaurant of the menu, and a missing dish
  name the first candidate dish (`NameKnownIff`, `NoNameIsFirstRestaurant`, `NoDishIsFirstCandidate`).

## Model

| member | source | states |
|---|---|---|
| Fips180Properties.FirstPrimes | src/auth/HashUtil.cpp:7-25 | the table the constants are derived from holds the first 64 primes in order |
| Fips180Properties.RoundConstants | src/auth/HashUtil.cpp:8-25 | each of the 64 constants is the first 32 fractional bits of the cube root of the corresponding prime |
| Fips180Properties.InitialHash | src/auth/HashUtil.cpp:38-39 | the eight initial words are the first 32 fractional bits of the square roots of the first eight primes |
| Fips180Properties.PaddedLength | src/auth/HashUtil.cpp:41-52 | the padded length is the least multiple of 64 that fits the message, the marker and eight length bytes |
| Fips180Properties.PaddedField | src/auth/HashUtil.cpp:43-52 | the last eight bytes read back as the bit length modulo 2^64 |
| Fips180Properties.UnpadByLengthExact | src/auth/HashUtil.cpp:43-52 | reading the length field back recovers the message exactly when it is shorter than 2^61 bytes |
| Fips180Properties.UnpadByMarkerInverse | src/auth/HashUtil.cpp:42-52 | reading the marker back recovers every message, however long |
| Fips180Properties.PadInjective | src/auth/HashUtil.cpp:42-52 | different messages are padded differently |
| Fips180Properties.ChoiceMeaning | src/auth/HashUtil.cpp:28 | the choice takes the second word's bits where the first has ones and the third's elsewhere |
| Fips180Properties.MajorityMeaning | src/auth/HashUtil.cpp:29 | the majority keeps the bits in which two words agree and takes the third's where they differ |
| Fips180Properties.RoundInvertible | src/auth/HashUtil.cpp:75-78 | one round has an inverse on the eight working variables |
| Fips180Properties.RoundsInjective | src/auth/HashUtil.cpp:73-79 | the rounds of a block never merge two different chaining values |
| Fips180Properties.AddWordsCancels | src/auth/HashUtil.cpp:81-82 | adding a block's result to the chaining value loses neither |
| PublishedExample.DigestOfAbc | src/auth/HashUtil.cpp:35-83 | the digest of "abc" is the published one, word by word, along all 64 schedule words and rounds |
| PublishedExample.TextOfAbc | src/auth/HashUtil.cpp:85-91 | and its text is the published one |
| Fips180Properties.DigestText | src/auth/HashUtil.cpp:85-91 | the text is 64 lowercase hexadecimal digits and decodes to the eight words |
| HashUtil.RotrIsRotation | src/auth/HashUtil.cpp:27 | for the rotation amounts in use the two shifts are a rotation |
| HashUtil.HelpersAreStandard | src/auth/HashUtil.cpp:30-33 | the four sigma helpers are the standard's functions |
| HashUtil.PadMessage | src/auth/HashUtil.cpp:41-52 | the growing buffer ends as the standard's padding, and its loop terminates |
| HashUtil.ShiftedWordIsBigEndian | src/auth/HashUtil.cpp:60-63 | the shifted and combined bytes are the big-endian word |
| HashUtil.FillSchedule | src/auth/HashUtil.cpp:57-68 | the array holds the message schedule of the block at the offset |
| HashUtil.RunRounds | src/auth/HashUtil.cpp:70-79 | the loop over the working variables performs the standard's 64 rounds, with the choice and majority characterised above |
| HashUtil.Sha256 | src/auth/HashUtil.cpp:35-92 | for every input the result is the standard's digest in hexadecimal and decodes to it; for "abc" that is the published digest |
| Sorting.SortBySorts | ai_service/src/fos_ai/obs/metrics.py:197 | sorting gives an ordered permutation |
| Sorting.SortByIsStable | ai_service/src/fos_ai/services/hybrid_search.py:121 | sorting keeps the order of elements with equal keys |
| Sorting.PrefixMeaning | ai_service/eval/metrics/retrieval.py:12 | `s[:k]` is at most k elements from the front, or all but the last -k |
| Retrieval.NdcgAtK | ai_service/eval/metrics/retrieval.py:28-61 | the two accumulating loops and the early exits compute nDCG, the ratio of two sums of gain over log2(position + 2) |
| Retrieval.RankedDcg | ai_service/eval/metrics/retrieval.py:44-50 | skipping non-positive gains gives the DCG of the clipped gains, the sum of gain over log2(position + 2) |
| Retrieval.PositiveValues | ai_service/eval/metrics/retrieval.py:53 | the positive gains of the judgements are collected |
| Retrieval.IdealDcg | ai_service/eval/metrics/retrieval.py:56-58 | the second loop computes the DCG of the sorted gains, the sum of gain over log2(position + 2) |
| Retrieval.HitAtK | ai_service/eval/metrics/retrieval.py:9-13 | 1 exactly when a relevant id is among the top k |
| Retrieval.ReciprocalRank | ai_service/eval/metrics/retrieval.py:16-25 | the scan returns the inverse rank of the first relevant id, or 0 |
| Retrieval.HitIffReciprocalRank | ai_service/eval/metrics/retrieval.py:9-25 | there is a hit at k exactly when the reciprocal rank is at least 1/k |
| RetrievalProperties.DcgIsDiscountedSum | ai_service/eval/metrics/retrieval.py:46-50 | DCG is the sum over positions, counted from zero, of the number that times log2(position + 2) is the gain |
| RetrievalProperties.NdcgIsRatioOfSums | ai_service/eval/metrics/retrieval.py:44-61 | with positive mass nDCG is that sum for the ranking over that for the ideal order, which is positive |
| RetrievalProperties.OneRelevantId | ai_service/eval/metrics/retrieval.py:41-61 | with one relevant id at position p, nDCG is log2(2) / log2(p + 2) within the cut and 0 below it |
| RetrievalProperties.GainMeaning | ai_service/eval/metrics/retrieval.py:47 | a judged id has its gain, any other none |
| RetrievalProperties.Surplus | ai_service/eval/metrics/retrieval.py:46-58 | rearrangement: a gain list whose every prefix sum is dominated has no larger DCG, under any positive increasing discount |
| RetrievalProperties.LargestSum | ai_service/eval/metrics/retrieval.py:53-57 | no choice of at most n gains sums to more than the n largest |
| RetrievalProperties.TopIsDominated | ai_service/eval/metrics/retrieval.py:44-57 | with distinct ids the ranked gains are dominated by the ideal ones, prefix by prefix |
| RetrievalProperties.NdcgInUnitInterval | ai_service/eval/metrics/retrieval.py:41-61 | with distinct top ids nDCG lies in [0, 1], for every k and negative gains included |
| RetrievalProperties.NdcgIsOneIffIdeal | ai_service/eval/metrics/retrieval.py:41-61 | with positive mass nDCG is 1 exactly when the top k carry the k largest positive gains in descending order |
| RetrievalProperties.RepeatedIdsExceedOne | ai_service/eval/metrics/retrieval.py:46-61 | whenever the top ids repeat there are judgements under which nDCG exceeds 1 |
| RetrievalProperties.BoundedIffDistinct | ai_service/eval/metrics/retrieval.py:41-61 | nDCG is at most 1 under all judgements exactly when the top ids are distinct |
| ChatTypes.ChatSession.Append | ai_service/src/fos_ai/schemas_chat.py:86-88 | a message is added at the end of the history |
| ChatTypes.JoinedPartsSplit | ai_service/src/fos_ai/services/llm_client.py:481-513 | splitting a joined text at its line ends gives its parts back |
| ChatTypes.PartsAppend | ai_service/src/fos_ai/services/llm_client.py:475-511 | the calls and texts of a content are those of its parts, in order |
| ChatTypes.PartsOfOne | ai_service/src/fos_ai/services/llm_client.py:475-511 | a block is one call, one text, or neither |
| Translation.MessagesToOpenAi | ai_service/src/fos_ai/services/llm_client.py:448-522 | the loop over the history is the message-wise translation behind an optional system message |
| Translation.AppendTranslated | ai_service/src/fos_ai/services/llm_client.py:461-520 | one message appends exactly its translation |
| Translation.AppendUser | ai_service/src/fos_ai/services/llm_client.py:473-496 | a user turn appends its tool results in order, then its joined text if it has any |
| Translation.AppendAssistant | ai_service/src/fos_ai/services/llm_client.py:498-520 | an assistant turn appends one message with text and calls, or nothing |
| Translation.AssistantTurnMeaning | ai_service/src/fos_ai/services/llm_client.py:498-520 | an assistant turn becomes one message with its joined text and, call by call, the id, the name and the arguments' text, or nothing |
| Translation.UserTurnMeaning | ai_service/src/fos_ai/services/llm_client.py:473-496 | one block more in a user turn is one more tool message before the text, with its id and joined parts, or a longer text, or nothing |
| Translation.PairedMeaning | ai_service/src/fos_ai/services/llm_client.py:480-518 | the recursive pairing demand is the positional one: every message is followed by exactly its answers, and none comes elsewhere |
| Translation.PairedConcat | ai_service/src/fos_ai/services/llm_client.py:461-522 | after a paired prefix, the whole is paired exactly when the rest is |
| Translation.TranslateConcat | ai_service/src/fos_ai/services/llm_client.py:461-522 | translating a longer history extends the translation of the shorter one |
| Engine.ChatEngine.Run | ai_service/src/fos_ai/services/chat_engine.py:64-129 | the mutated session and the result are those of the reference tool loop, in all four ways a run can end; what it records, tells and returns is stated by `RunReports` and `DriveEnds` |
| Engine.ChatEngine.ExecuteAll | ai_service/src/fos_ai/services/chat_engine.py:101-121 | the calls of a turn are executed in order up to the first that cannot be recorded or reported, and recorded and answered as `PhaseTells` states |
| ChatProtocol.PhaseAnswers | ai_service/src/fos_ai/services/chat_engine.py:102-121 | a completed tool phase translates to one tool message per call, in order, with the call's id |
| ChatProtocol.PhaseTells | ai_service/src/fos_ai/services/chat_engine.py:102-121 | the calls before the first bad one are recorded with their input and their output, or `{}` and the exception's text, and the model is told the output's text, or the exception's as an error; the first bad one determines the failure |
| ChatProtocol.RoundIsPaired | ai_service/src/fos_ai/services/chat_engine.py:89-123 | an assistant turn with calls and the turn of its results translate to a call message and exactly its answers |
| ChatProtocol.DriveKeepsPairing | ai_service/src/fos_ai/services/chat_engine.py:79-129 | from a paired history the model only ever sees paired ones, and the run leaves a paired one exactly unless it aborts |
| ChatProtocol.DriveExtends | ai_service/src/fos_ai/services/chat_engine.py:70-123 | a run only appends to the history |
| ChatProtocol.DriveEnds | ai_service/src/fos_ai/services/chat_engine.py:79-129 | the messages, text, stop reason and count a run ends with follow from what the model answered to its last request |
| ChatProtocol.RunKeepsDangling | ai_service/src/fos_ai/services/chat_engine.py:71-123 | a call left unanswered is never answered by a later run |
| ChatProtocol.HistoryPairedIff | ai_service/src/fos_ai/services/chat_engine.py:70-129 | after any sequence of runs the translated history answers every call in order exactly unless in some run the model made a call whose input or result cannot be recorded or serialised |
| ChatProtocol.DriveAbortsIff | ai_service/src/fos_ai/services/chat_engine.py:79-123 | from any iteration on, a run aborts exactly when the model answers one of its requests with such a call |
| ChatProtocol.RunAbortsIff | ai_service/src/fos_ai/services/chat_engine.py:64-129 | the same of a whole run |
| ChatProtocol.ListArgumentsBreakHistory | ai_service/src/fos_ai/services/chat_engine.py:104-113 | arguments that parse to a list kill the run and leave the history unanswered |
| ChatProtocol.RequestsPaired | ai_service/src/fos_ai/services/chat_engine.py:79-85 | everything the model is shown is paired as long as no earlier run met such a call |
| ChatProtocol.PhaseFailsIff | ai_service/src/fos_ai/services/chat_engine.py:102-115 | a tool phase fails exactly when some call's input or output cannot be recorded or serialised |
| ChatProtocol.WellBehavedNeverAborts | ai_service/src/fos_ai/services/chat_engine.py:133-140 | tools called with objects that return objects or raise never abort a run, whatever the model does |
| ChatProtocol.WellBehavedStaysPaired | ai_service/src/fos_ai/services/chat_engine.py:70-140 | such models and tools keep the history paired over any sequence of runs, capped and failed ones included |
| ChatProtocol.DriveReports | ai_service/src/fos_ai/services/chat_engine.py:79-129 | from any iteration on, call number j of the history was executed as number j, record j holds its input and what came of it, and answer j tells the model that |
| ChatProtocol.RunReports | ai_service/src/fos_ai/services/chat_engine.py:91-129 | a finished run reports its number of model calls within the cap, the input and the outcome of each of its tool calls in order, as the model was told them, and the final text |
| Streaming.ReceiveWhole | ai_service/src/fos_ai/services/llm_client.py:322-341 | the loop over a whole message builds its text block, one block per call with id, name and parsed arguments, `{}` where they do not parse, and the renamed finish reason |
| Streaming.ReceiveStream | ai_service/src/fos_ai/services/llm_client.py:363-418 | whatever the chunks, the result carries exactly the message they spell, as on the other path, and the emitted deltas concatenate to its text |
| Streaming.BatchCarries | ai_service/src/fos_ai/services/llm_client.py:326-341 | the content is the text, if any, as the first block, then block i with call i's id, name and arguments as read (`{}` when absent or unparsable); the four known finish reasons are renamed, others kept |
| Streaming.CarriesOnlyOne | ai_service/src/fos_ai/services/llm_client.py:326-341 | and no other result carries the message |
| Streaming.AbsorbDeltas | ai_service/src/fos_ai/services/llm_client.py:381-391 | the fragment table keeps, per index, the last id and name and the concatenated arguments |
| Streaming.Finish | ai_service/src/fos_ai/services/llm_client.py:396-418 | text and fragments become the content of the spelled message |
| Streaming.FragBlocks | ai_service/src/fos_ai/services/llm_client.py:399-410 | each table entry becomes one tool call with the id, name and arguments its fragments spell, unparsable arguments counting as empty |
| Streaming.SortKeys | ai_service/src/fos_ai/services/llm_client.py:399 | the indices in ascending order, none lost |
| Streaming.IndicesAscending | ai_service/src/fos_ai/services/llm_client.py:381-399 | the indices of the content are exactly those that occur in some delta |
| Streaming.AssembledIff | ai_service/src/fos_ai/services/llm_client.py:363-418 | a stream spells a message exactly when it is a fragmentation of it under ascending indices |
| Streaming.StreamEqualsWhole | ai_service/src/fos_ai/services/llm_client.py:322-418 | every fragmentation, in any interleaving of the calls, gives what the non-streaming path gives |
| Streaming.InterleavingIrrelevant | ai_service/src/fos_ai/services/llm_client.py:381-391 | fragments of different calls commute |
| Streaming.OneCallPerIndex | ai_service/src/fos_ai/services/llm_client.py:383-410 | calls that share an index are merged: there is one call per distinct index |
| Cache.Cached.Call | ai_service/src/fos_ai/obs/cache.py:76-107 | one call's effect on store, counters and result, for hit, expired hit, miss and raising function |
| Cache.Cached.Trim | ai_service/src/fos_ai/obs/cache.py:103-104 | the eviction loop leaves the last maxsize entries, or fails on an empty dictionary |
| Cache.Cached.Clear | ai_service/src/fos_ai/obs/cache.py:109-113 | entries and counters are reset |
| CacheProperties.RecencyMeaning | ai_service/src/fos_ai/obs/cache.py:84-107 | the reference order is what it says: the used keys, once each, by last use |
| CacheProperties.StepKeys | ai_service/src/fos_ai/obs/cache.py:84-107 | a call keeps "the last maxsize distinct keys by last use" exactly unless the function raises on an expired key |
| CacheProperties.AlwaysRecentIff | ai_service/src/fos_ai/obs/cache.py:84-107 | over a run, after every call the key order is the last maxsize distinct keys of the calls that returned, by last use, exactly when no call loses its key |
| CacheProperties.ExpiredRaiseLosesKey | ai_service/src/fos_ai/obs/cache.py:95-98 | a call that loses its key |
| CacheProperties.StoreIsMostRecent | ai_service/src/fos_ai/obs/cache.py:84-107 | after any run whose calls return, the key order is the last maxsize distinct keys by last use, whatever expired |
| CacheProperties.LastMissMeaning | ai_service/src/fos_ai/obs/cache.py:98-101 | the last miss is a call for the key that missed and returned, and none comes later |
| CacheProperties.EntriesAreFromLastMiss | ai_service/src/fos_ai/obs/cache.py:98-101 | while no call loses its key, every entry holds the value of its key's last missing call and expires the time to live after it |
| CacheProperties.HitIff | ai_service/src/fos_ai/obs/cache.py:86-93 | over any run in which no call loses its key, raising calls included, a call hits exactly when its key is among the last maxsize completed ones and the last call that computed it is within the time to live, and returns that call's value |
| CacheProperties.LargerCacheContains | ai_service/src/fos_ai/obs/cache.py:101-104 | on the same calls a larger cache holds at least the keys of a smaller one |
| CacheProperties.LargerCacheMayMissMore | ai_service/src/fos_ai/obs/cache.py:89-99 | three calls after which the smaller cache hits and the larger one misses |
| CacheProperties.LargerCacheHitsIff | ai_service/src/fos_ai/obs/cache.py:86-104 | where the smaller cache holds the key the larger one does too, and hits exactly when its own entry has not expired |
| CacheProperties.NegativeLimit | ai_service/src/fos_ai/obs/cache.py:103-104 | with a negative limit nothing is stored and no call returns |
| CacheProperties.CountersAddUp | ai_service/src/fos_ai/obs/cache.py:91-105 | hits and misses together count every call |
| CacheThreads.AlwaysInv | ai_service/src/fos_ai/obs/cache.py:84-107 | every interleaving of any number of threads keeps mutual exclusion, the limit, soundness of entries and the counters |
| CacheThreads.KeepsExclusive | ai_service/src/fos_ai/obs/cache.py:85-105 | a step never lets two threads into the critical sections |
| CacheThreads.KeepsCounters | ai_service/src/fos_ai/obs/cache.py:91-106 | a step keeps the books between the cache's counters and the metrics |
| CacheThreads.SizeWithinLimit | ai_service/src/fos_ai/obs/cache.py:100-105 | whenever the lock is free the size is within the limit, and it never exceeds it by more than one |
| CacheThreads.ReturnedValues | ai_service/src/fos_ai/obs/cache.py:84-107 | a returned value was produced by the function for the call's own key, and a hit's entry expires after the clock value the call read |
| CacheThreads.QuietCountersEqual | ai_service/src/fos_ai/obs/cache.py:91-106 | the metrics trail the cache's misses by exactly the calls between insert and record, and agree when none is there |
| CacheThreads.SoloHit | ai_service/src/fos_ai/obs/cache.py:84-93 | alone, the steps of a hit do what the sequential call does |
| CacheThreads.SoloMiss | ai_service/src/fos_ai/obs/cache.py:84-107 | alone, the steps of a miss do what the sequential call does |
| RankFusion.RrfFuse | ai_service/src/fos_ai/services/hybrid_search.py:106-122 | the totals loop and the sort compute the fused list |
| RankFusion.FusedMeaning | ai_service/src/fos_ai/services/hybrid_search.py:106-122 | every occurring id once, with the sum of its reciprocal ranks, highest first |
| RankFusion.WorthAt | ai_service/src/fos_ai/services/hybrid_search.py:117-120 | the id of rank r, counted from 1, is worth 1 / (k + r) |
| RankFusion.DominatorComesFirst | ai_service/src/fos_ai/services/hybrid_search.py:116-122 | an id above another in every ranking that has the other scores strictly more and comes first |
| RankFusion.PermutationKeepsFusion | ai_service/src/fos_ai/services/hybrid_search.py:116-122 | permuting the rankings changes no id and no total |
| RankFusion.FusionConservesMass | ai_service/src/fos_ai/services/hybrid_search.py:116-122 | the scores add up to the sum of 1/(k + rank) over all positions |
| RankFusion.SingleRankingKeepsOrder | ai_service/src/fos_ai/services/hybrid_search.py:240 | fusing one ranking keeps its order, so the shortcut changes no order |
| HybridSearch.ToResults | ai_service/src/fos_ai/services/hybrid_search.py:125-149 | the corpus-known entries in order, cut at the limit |
| HybridSearch.HybridSearch | ai_service/src/fos_ai/services/hybrid_search.py:190-254 | the two-stage pipeline with its clamps, its shortcuts and the fallback |
| HybridSearchProperties.Bm25IsTopN | ai_service/src/fos_ai/services/hybrid_search.py:83-91 | the keyword ranking is the best n documents, best first |
| HybridSearchProperties.PlainSearch | ai_service/src/fos_ai/services/hybrid_search.py:190-254 | without reranking: exactly the first corpus-known fused ids up to the clamped limit, none twice, at most 20 |
| HybridSearchProperties.ResultsShow | ai_service/src/fos_ai/services/hybrid_search.py:125-149 | every result is the last corpus item with its entry's id, and carries the entry's rounded score |
| HybridSearchProperties.ClampMeaning | ai_service/src/fos_ai/services/hybrid_search.py:212 | a limit is brought into 1 to 20 |
| HybridSearchProperties.SearchDegrades | ai_service/src/fos_ai/services/hybrid_search.py:219-254 | without a usable vector store the search is a keyword search, and for a query without tokens a dense one |
| HybridSearchProperties.RerankedSearch | ai_service/src/fos_ai/services/hybrid_search.py:152-252 | a reranker is shown the corpus-known ids among the first candidates, asked for as many as wanted, and its answer is the result |
| HybridSearchProperties.ResultsInCorpus | ai_service/src/fos_ai/services/hybrid_search.py:131-149 | every result is a corpus item of the ranked list |
| HybridSearchProperties.RerankedFromPool | ai_service/src/fos_ai/services/hybrid_search.py:165-180 | with a reranker that answers, every result comes from the candidate pool |
| HybridSearchProperties.FallbackIff | ai_service/src/fos_ai/services/hybrid_search.py:176-187 | with up to 50 candidates an unavailable reranker changes nothing exactly when some candidate is in the corpus or no ranked id is |
| HybridSearchProperties.FallbackCanFail | ai_service/src/fos_ai/services/hybrid_search.py:176-177 | a query without tokens whose best dense hit is unknown loses its results |
| HybridSearchProperties.FirstFusedFromKeywords | ai_service/src/fos_ai/services/hybrid_search.py:116-122 | the first fused id is always one of the keyword ranking, which wins ties |
| HybridSearchProperties.FallbackWithKeywords | ai_service/src/fos_ai/services/hybrid_search.py:152-254 | for a query with tokens an unavailable reranker with up to 50 candidates changes nothing |
| OrderModel.FakeOrderRepo.CreateOrder | tests/fakes/FakeOrderRepo.h:27-39 | a stored order gets the next id and the default status and time, or nothing happens |
| OrderModel.FakeOrderRepo.FindOrderById | tests/fakes/FakeOrderRepo.h:41-49 | the first order with the id |
| OrderModel.FakeOrderRepo.ListOrdersByCustomer | tests/fakes/FakeOrderRepo.h:51-61 | the customer's orders in order |
| OrderModel.FakeOrderRepo.UpdateOrderStatus | tests/fakes/FakeOrderRepo.h:69-80 | only the first match changes, and only its status |
| OrderModel.FakeOrderRepo.UpdateOrderRating | tests/fakes/FakeOrderRepo.h:82-93 | only the first match changes, and only its rating |
| OrderService.Service.CreateOrder | src/service/OrderService.cpp:30-140 | the repository and the answer after a creation, for every error in the code's order |
| OrderService.Service.PriceLines | src/service/OrderService.cpp:78-113 | the lines and the running total are the menu's names and prices, or some item is not on it |
| OrderService.Service.IndexMenu | src/service/OrderService.cpp:78-83 | the index keeps the first entry of each id and skips null entries |
| OrderService.Service.GetOrder | src/service/OrderService.cpp:142-173 | the order, hidden from others |
| OrderService.Service.ListOrders | src/service/OrderService.cpp:175-191 | all orders for an administrator, the caller's own otherwise |
| OrderService.Service.UpdateStatus | src/service/OrderService.cpp:193-239 | the repository and the answer after a status update, accepted exactly as `UpdateAcceptedIff` states |
| OrderService.Service.RateOrder | src/service/OrderService.cpp:241-300 | the repository and the answer after a rating |
| OrderProperties.StepEvolves | src/service/OrderService.cpp:30-300 | a call makes at most one legal transition or one rating on one order, or adds one order |
| OrderProperties.AlwaysNumbered | tests/fakes/FakeOrderRepo.h:33-38 | over every run the orders are numbered consecutively from 1 |
| OrderProperties.TransitionIff | src/service/OrderStatusMachine.h:21-34 | the transitions are the steps from one of the five stages to the next, and the cancellations of a pending or confirmed order |
| OrderProperties.PathIff | src/service/OrderStatusMachine.h:21-34 | a trail is a path in the transition graph exactly when it is a beginning of the five stages, Pending then Cancelled, or Pending, Confirmed, Cancelled |
| OrderProperties.StatusHistory | src/service/OrderService.cpp:193-239 | over every run each order's statuses are a beginning of Pending, Confirmed, Preparing, Delivering, Delivered, or Pending, Cancelled, or Pending, Confirmed, Cancelled, ending at its status |
| OrderProperties.UpdateAcceptedIff | src/service/OrderService.cpp:193-222 | an update is accepted exactly from an administrator, for an existing order, when it is the next stage or cancels a pending or confirmed order |
| OrderProperties.StatusStep | src/service/OrderService.cpp:219-235 | a status changes exactly when an update is accepted, and then to the new status with nothing else changed |
| OrderProperties.RatingStep | src/service/OrderService.cpp:260-291 | a rating changes exactly when the guards pass, and then to the rating given |
| OrderProperties.RateAcceptedIff | src/service/OrderService.cpp:241-281 | a rating is accepted exactly from the owner or an administrator, on a delivered order without one, within [1, 5] |
| OrderProperties.RatedOnce | src/service/OrderService.cpp:241-300 | over every run a rating is written at most once, within [1, 5], on an order that is and stays Delivered |
| OrderProperties.RecordsAreFrozen | src/service/OrderService.cpp:85-113 | from any point on, owner, restaurant, lines, total and time never change, and Delivered and Cancelled are final |
| OrderProperties.OrderOrigin | src/service/OrderService.cpp:85-115 | every order was made by one creation call of the run that was checked |
| OrderProperties.CheckedOrder | src/service/OrderService.cpp:94-113 | an accepted order has one line per item at the menu's price, and its total is the sum of price times quantity |
| OrderProperties.TotalIsSum | src/service/OrderService.cpp:94-109 | the running total is the sum of the lines' price times quantity |
| OrderProperties.LinesMatch | src/service/OrderService.cpp:94-113 | lines exist exactly when every item is on the menu, and match the items one by one |
| OrderProperties.AcceptedIff | src/service/OrderService.cpp:30-113 | a request is accepted exactly when all validations hold |
| OrderProperties.ListedIffReadable | src/service/OrderService.cpp:142-191 | a caller is listed exactly what he can read: every order for an administrator, his own for anybody else |
| OrderProperties.NothingLeaks | src/service/OrderService.cpp:142-300 | what a customer is told when reading, rating or updating depends on his own orders only: a foreign order is like a missing one |
| OrderProperties.CreationShowsOnlyTheId | src/service/OrderService.cpp:30-140 | a creation is checked and stored alike whatever the others' orders are, except for the id |
| OrderProperties.OthersAreInvisible | src/service/OrderService.cpp:30-300 | a call by another customer changes nothing of what a customer is later told in those ways |
| OrderProperties.SameCallKeepsTwins | src/service/OrderService.cpp:30-300 | the same call, by anyone, keeps two repositories that a customer cannot tell apart indistinguishable |
| OrderProperties.OthersNeverShow | src/service/OrderService.cpp:30-300 | over whole runs, whatever else other customers do, as long as they create orders at the same points, a customer cannot tell the difference |
| OrderProperties.ChangeIsReadBack | src/service/OrderService.cpp:226-235 | a successful change is what the caller reads back |
| OrderTransaction.Database.Start | src/db/Database.cpp:1052-1055 | a transaction starts from the committed tables, unless the statement fails |
| OrderTransaction.Database.Rollback | src/db/Database.cpp:1062 | the open tables are dropped, unless the statement fails |
| OrderTransaction.Database.Commit | src/db/Database.cpp:1161-1165 | the open tables become the committed ones, unless the statement fails |
| OrderTransaction.Database.InsertItems | src/db/Database.cpp:1113-1159 | all lines are inserted in order exactly when every prepare, bind and execute succeeds |
| OrderTransaction.Database.CreateOrder | src/db/Database.cpp:1045-1169 | for any pattern of failures: an id and exactly the header and lines, or no id and unchanged tables; no transaction stays open unless a rollback fails |
| OrderTransaction.Database.CreateOrders | src/db/Database.cpp:995-1169 | over any number of calls, until a rollback fails: every order reported as stored reads back, field by field, as its one header and its lines in order, and no other id has either |
| OrderTransaction.InsertedLines | src/db/Database.cpp:1023-1041 | an insert adds to one order's header and lines and to no other's |
| OrderTransaction.ReadBack | src/db/Database.cpp:995-1043 | among attempts with increasing ids, as the calls make them, a stored order has one header with its customer, restaurant, status, total and delivery, and exactly its lines with dish, name, price and quantity, in order |
| OrderTransaction.UnusedId | src/db/Database.cpp:1050-1051 | an id under which no attempt was stored has neither header nor lines |
| Recommender.TopK | ai_service/src/fos_ai/services/recommender.py:79-80 | k positions, best first, none left out better than one chosen |
| Recommender.Mask | ai_service/src/fos_ai/services/recommender.py:73-76 | the scores of items already had become minus infinity |
| Recommender.Collect | ai_service/src/fos_ai/services/recommender.py:82-97 | the items before the first masked one are shown in order, with their rounded similarity |
| Recommender.LeadingCount | ai_service/src/fos_ai/services/recommender.py:78-85 | the break comes after exactly min(limit, unseen items) |
| Recommender.LeadingPicksAreBest | ai_service/src/fos_ai/services/recommender.py:73-85 | masking, top-k and break together select the best unseen items, in non-increasing order |
| Recommender.ContentBased | ai_service/src/fos_ai/services/recommender.py:46-99 | the best unseen items by similarity to what was had, or the fallback |
| Recommender.PopularityFallback | ai_service/src/fos_ai/services/recommender.py:102-126 | the first items of the corpus, as many as the limit allows, with score 0 |
| Recommender.Recommend | ai_service/src/fos_ai/services/recommender.py:19-43 | the dispatch with the clamped limit |
| Recommender.RecommendedAreNew | ai_service/src/fos_ai/services/recommender.py:73-97 | nothing recommended was had before, and nothing twice |
| Recommender.NothingLeftToRecommend | ai_service/src/fos_ai/services/recommender.py:82-99 | nothing comes back exactly when everything was had |
| TemplateFilling.ReplaceRemovesBrace | ai_service/training/fos_ai_training/intent/data.py:206-207 | each replacement removes one opening brace, which is why the loop ends |
| Strings.ContainsIff | ai_service/training/fos_ai_training/intent/data.py:206 | a text contains another exactly when it occurs at some position |
| Strings.FindIsFirst | ai_service/training/fos_ai_training/intent/data.py:207 | the replacement is made at the first occurrence |
| TemplateFilling.FillTemplate | ai_service/training/fos_ai_training/intent/data.py:199-208 | the nested loops terminate and compute the filled text |
| TemplateProperties.FindIsFirstHole | ai_service/training/fos_ai_training/intent/data.py:205-206 | the first occurrence of a slot's token is its first hole |
| TemplateProperties.ReplaceIsFillHole | ai_service/training/fos_ai_training/intent/data.py:207 | replacing the first occurrence fills the first hole |
| TemplateProperties.SlotLoop | ai_service/training/fos_ai_training/intent/data.py:206-207 | one slot's loop fills its holes from left to right with consecutive draws |
| TemplateProperties.FillsEveryHole | ai_service/training/fos_ai_training/intent/data.py:199-208 | the filled text is the template with every hole replaced by its own draw |
| TemplateProperties.NoPlaceholderLeft | ai_service/training/fos_ai_training/intent/data.py:199-208 | no placeholder and no brace is left |
| TemplateProperties.RepeatedSlot | ai_service/training/fos_ai_training/intent/data.py:202-207 | two holes of one slot are filled by different draws |
| TemplateProperties.RepeatedSlotAgreesIff | ai_service/training/fos_ai_training/intent/data.py:202-207 | two holes of one slot get the same value under all draws exactly when all values of the slot are equal |
| TemplateProperties.RepeatedSlotMayDiffer | ai_service/training/fos_ai_training/intent/data.py:202-207 | a template whose repeated slot gets two different values |
| IntentData.GenerateDataset | ai_service/training/fos_ai_training/intent/data.py:211-234 | the records of all labels, shuffled, or an error |
| IntentData.LabelRecords | ai_service/training/fos_ai_training/intent/data.py:226-231 | n records for one label, or an error on an empty text |
| IntentData.DatasetIsBalanced | ai_service/training/fos_ai_training/intent/data.py:222-234 | whatever the shuffle, exactly n records per label and none for another |
| IntentData.SplitDataset | ai_service/training/fos_ai_training/intent/data.py:263-281 | the two parts are the records as a multiset, with the stated sizes, or the fraction is out of range |
| IntentData.CutMeaning | ai_service/training/fos_ai_training/intent/data.py:278-280 | there are validation records whenever there are records, and training records exactly from two on; their number is that of whole records in the fraction, at least one |
| SessionStore.Store.EvictExpired | ai_service/src/fos_ai/services/session_store.py:109-118 | exactly the expired sessions go, and are counted |
| SessionStore.Store.Create | ai_service/src/fos_ai/services/session_store.py:47-62 | evicts, then adds the new session or reports the store full |
| SessionStore.Store.Get | ai_service/src/fos_ai/services/session_store.py:64-77 | only the owner gets a session idle for at most the TTL; it is touched; an expired one is removed |
| SessionStore.Store.GetOrCreate | ai_service/src/fos_ai/services/session_store.py:79-85 | the caller's session if it can be found, else a new one |
| SessionStore.Store.Save | ai_service/src/fos_ai/services/session_store.py:87-91 | the session is touched and stored under its id, stored before or not |
| SessionStore.Store.Delete | ai_service/src/fos_ai/services/session_store.py:93-95 | the id is gone, and whether it was there is reported |
| SessionProperties.SizeBound | ai_service/src/fos_ai/services/session_store.py:47-95 | over every run the size is at most the maximum plus the saves that put a session back |
| SessionProperties.CreateWithinMax | ai_service/src/fos_ai/services/session_store.py:50-57 | a creation that succeeds leaves at most the maximum |
| SessionProperties.StrangerLearnsNothing | ai_service/src/fos_ai/services/session_store.py:67-72 | a lookup by another user changes nothing and finds nothing |
| SessionProperties.StoredIsFate | ai_service/src/fos_ai/services/session_store.py:47-118 | over every run, with saves, touches and deletions, what is stored of a session follows from what was done to it and when it was looked at; other sessions and the capacity play no part |
| SessionProperties.FoundIff | ai_service/src/fos_ai/services/session_store.py:64-118 | over every run a lookup succeeds exactly when the session was last used, by lookup, save or touch, under the caller's name and within the TTL |
| SessionProperties.EvictionsDoNotShow | ai_service/src/fos_ai/services/session_store.py:47-118 | in time order, evictions and creations make no difference to what is found when the session is not exposed by a late touch, or has lapsed |
| SessionProperties.EvictionsShowIff | ai_service/src/fos_ai/services/session_store.py:47-118 | over all ways of putting evictions and creations into a run, they make no difference exactly under that condition |
| SessionProperties.SaveSettles | ai_service/src/fos_ai/services/session_store.py:87-91 | right after a save, no placement of evictions makes a difference, however late the touches before it |
| SessionProperties.LateTouchShowsEviction | ai_service/src/fos_ai/services/session_store.py:109-118 | a touch after the TTL revives a session that no eviction has reached |
| Grouping.GroupsConserve | ai_service/src/fos_ai/obs/metrics.py:126-134 | what is added up per group adds up to the whole |
| Metrics.Metrics.RecordLlmCall | ai_service/src/fos_ai/obs/metrics.py:61-88 | after any sequence of calls the buffer is the last max_records of them |
| Metrics.Metrics.RecordCache | ai_service/src/fos_ai/obs/metrics.py:92-98 | the counters of every namespace are the hits and misses recorded under it |
| Metrics.Metrics.Summary | ai_service/src/fos_ai/obs/metrics.py:102-178 | every figure of the report in terms of the calls in the window and all lookups |
| Metrics.ByProvider | ai_service/src/fos_ai/obs/metrics.py:126-134 | one bucket per provider in order of first appearance, with its calls, cost and latency |
| Metrics.ProviderRows | ai_service/src/fos_ai/obs/metrics.py:136-143 | the rounded figures of each provider; no bucket is empty |
| Metrics.Metrics.CacheRows | ai_service/src/fos_ai/obs/metrics.py:145-160 | the rows per namespace, and totals that are the overall hits and misses |
| Metrics.ProvidersConserve | ai_service/src/fos_ai/obs/metrics.py:116-134 | any figure added up per provider, costs and latencies among them, sums to the overall figure, before rounding |
| Metrics.CallsConserve | ai_service/src/fos_ai/obs/metrics.py:116-134 | the calls per provider sum to the number of calls in the window |
| Metrics.RatesMean | ai_service/src/fos_ai/obs/metrics.py:124-190 | rates times the whole are the part and means times the number the total; of nothing, they and the percentile are 0 |
| Metrics.PercentileIsNearestRank | ai_service/src/fos_ai/obs/metrics.py:193-199 | for 0 < p <= 100 the percentile is the least element with at least p percent of the values at or below it |
| Metrics.PercentileIsClamped | ai_service/src/fos_ai/obs/metrics.py:198-199 | outside that range it is the smallest or the largest value |
| DraftParser.ResolveFood | ai_service/src/fos_ai/services/parser.py:107-134 | the three scans over the restaurant's dishes find the tiered first match |
| DraftParser.LocateRestaurant | ai_service/src/fos_ai/services/parser.py:182-205 | exact, then substring, then hint, with an issue when the name is unknown |
| DraftParser.ResolveItems | ai_service/src/fos_ai/services/parser.py:207-231 | lines, issues and total of the items up to the first invalid quantity |
| DraftParser.ParseOrder | ai_service/src/fos_ai/services/parser.py:165-248 | the draft or the error, in the code's order of checks |
| DraftProperties.LinesAreTheResolvable | ai_service/src/fos_ai/services/parser.py:209-223 | the lines are the resolvable items, all of them, in order, with the dish's id, name and price and the quantity asked for, one unless stated |
| DraftProperties.DraftConserves | ai_service/src/fos_ai/services/parser.py:207-248 | lines plus food issues equal the requested items, quantities are positive, the total is the lines' cost, and the confidence counts the issues |
| DraftProperties.ConfidenceMeaning | ai_service/src/fos_ai/services/parser.py:234 | the confidence is 1 without issues, loses 0.15 with each of the first six, is 0 from the seventh on, and stays in [0, 1] |
| DraftProperties.DraftedIff | ai_service/src/fos_ai/services/parser.py:165-229 | a draft comes back exactly when some item resolves and every one that does has a valid quantity |
| DraftProperties.ResolveIsFirstOfBestTier | ai_service/src/fos_ai/services/parser.py:107-134 | the dish is the first candidate of the best matching tier, and none is found exactly when none matches |
| DraftProperties.LocateIsFirstOfBestTier | ai_service/src/fos_ai/services/parser.py:182-205 | the restaurant is that of the first dish of the best tier, a full name beating a part of one; otherwise the hint decides |
| DraftProperties.SettledIffOnMenu | ai_service/src/fos_ai/services/parser.py:182-205 | the settled restaurant is on the menu exactly when its name was recognised or the hint is on the menu |
| DraftProperties.FoodIsFromRestaurant | ai_service/src/fos_ai/services/parser.py:114-132 | a dish found for a restaurant on the menu is one of its dishes |
| DraftProperties.DraftIsOneRestaurant | ai_service/src/fos_ai/services/parser.py:182-242 | every line is then a dish of the restaurant the draft names, and of the draft's own id if names tell restaurants apart |
| DraftProperties.NameKnownIff | ai_service/src/fos_ai/services/parser.py:182-197 | a restaurant name is recognised exactly when, up to case, it is that of some restaurant on the menu or part of it |
| DraftProperties.EmptyNameIsKnown | ai_service/src/fos_ai/services/parser.py:190-196 | an empty name is recognised exactly when there is a menu |
| DraftProperties.NoNameIsFirstRestaurant | ai_service/src/fos_ai/services/parser.py:190-196 | a missing restaurant name becomes the first restaurant, without an issue |
| DraftProperties.NoDishIsFirstCandidate | ai_service/src/fos_ai/services/parser.py:129-132 | a missing dish name becomes the first candidate |
| DraftProperties.NoDishResolvesIff | ai_service/src/fos_ai/services/parser.py:129-134 | an item without a dish name is resolved exactly when there is a menu |

## Left out

- Rounding error of floating point, NaN, and DECIMAL columns: arithmetic is over `real`, so in particular the percentile's
  rank is the exact ceiling.
- Texts of error messages and log output; error codes and issue kinds are modelled.
- The SHA-256 text is modelled as eight zero-padded hexadecimal words; stream state beyond the width and fill is not.
- `hashPassword` and salt generation, and every cryptographic claim beyond the functional one.
- Concurrency other than the cache's: one chat run per session, one order call and one session or metrics operation at a
  time; each session operation reads the clock once, `get_or_create` twice.
- The Anthropic client, the translation of tool definitions, and messages whose content is a plain string.
- ChatTypes.ChatSession.Append: the activity time it refreshes is modelled in the session store, as a touch from outside.
- Tool inputs and outputs are JSON known by their text and by whether they are objects; how a tool computes is an input.
- The stream's events are returned as a list of deltas and a final result instead of being yielded one by one.
- The cache's bypass for arguments without a key, and `cache_info`.
- CacheThreads.SizeWithinLimit: the interleaved model has no `cache_clear` and a non-negative limit.
- BM25 scores, embeddings and the vector store are inputs, and the index cache keyed on object identity is not modelled.
- HybridSearchProperties.PlainSearch: corpus ids and dense ids are taken to be distinct, as the stores make them.
- Which of several equal similarities comes first is left open, as in the library's top-k.
- Call counters and knobs of the in-memory repository that only tests read.
- OrderTransaction.Database.CreateOrder: it starts with no transaction open; what an open one means after a failed ROLLBACK,
  and statements that fail with an effect, are not part of this model.
- OrderTransaction.Database.CreateOrders: the sequence of calls is on one connection that stays as connected as it was.
- The `SELECT` of the SQL repository omits the rating column, so the order life cycle is proved over the in-memory one.
- IntentData.GenerateDataset: the random generator is an arbitrary source of draws, picks and shuffles, not a seeded one.
- TemplateProperties.NoPlaceholderLeft: slot names and values are brace-free, as in the slot table.
- DraftParser.ParseOrder: restaurant and food names in the tool call are strings, as its schema demands; quantities may be anything.
- Field coercions of `record_llm_call`, and the model name and cache fields of a record, which the report does not use.
- HTTP controllers, routers, SSE framing, CLI, configuration, MySQL schema, training, intent classifiers, rerankers.
