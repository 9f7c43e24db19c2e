# Verification of the retrieval-benchmark engine

This project models the offline retrieval benchmark and its tooling in Dafny and proves what its parts promise each
other. Check it with `dafny verify dfyconfig.toml` (Dafny 4.11).

- **Synthetic corpus** (`Spread`, `Apportionment`, `RoundRobin`, `Rng`, `CorpusWorld`, `CorpusSpec`, `CorpusTheorems`,
  `CorpusContents`, `CorpusBuilder`). The builder is a class whose fields every emit method updates, proved against a
  function of the random stream. The main result is the supersession layer: every correction memo finds the delivery
  note and the dock memo it needs, because apportionment is monotone in weight, the round-robin visits kinds in a fixed
  order, and equal ordinals cite the same delivery.
- **Lexical baseline** (`Bm25`, `Bm25Laws`, `Ranking`, `IterativeSearch`, `LexicalSearch`). The index agrees with the
  corpus, scores rise with rarity and with occurrences and fall with length, the ranking is the only list of the k best
  documents, the multi-round search is complete after every round, and neither depends on the order in which the
  documents were indexed.
- **Questions** (`QuestionWorld`, `QuestionSpec`, `QuestionTiers`, `QuestionTheorems`, `QuestionBuilder`,
  `ChainExactness`, `TierExactness`, `Distractors`, `UsedKeys`, `SupersessionLinks`, `GeneratedChains`). Which chains
  can be drawn and which draws become questions is stated exactly, and over a whole run nothing is used twice.
  `SupersessionLinks` and `GeneratedChains` go from the corpus builder to the questions: on the files of a generated
  corpus the corrections have the links the questions need, and the generator runs to its end.
- **The linter** (`GroundTruthLint`, `LintExactness`, `LintTheorems`, `TierTheorems`, `GroundedTiers`). Every check is
  reported exactly as often as its condition has occasions. The theorems that join generator and linter say which checks
  can never fire on what the generator writes: four on every well-formed corpus (names trimmed, index entries naming
  documents of the corpus), and all but the two about the wording of a question when documents also name what they speak
  of.
- **Concurrency and recovery** (`MapBounded`, `CoveragePool`, `IngestLedger`, `IngestRecovery`). Each stretch between
  two `await`s is one atomic step of one worker; results hold for every interleaving and every crash point, whatever
  the server and its dataset list answer unless a lemma says otherwise.
- **Merging** (`LcovMerge`, `LcovMeaning`, `CoverageTotals`, `CommentScan`). What a report says of a file is read off
  its sections; reading is a join, so the printed totals do not depend on scheduling.
- **Event stream** (`SseReader`, `SseAnswer`, `SseStopping`). The buffered reader gives one answer however the text is
  cut into chunks, the tokens joined in order, and the exact condition says when it is the answer its documentation
  promises.
- **Grading** (`RetrievalVerdict`, `GradingTheorems`, `ChunkResolution`, `Hypergeometric`, `AveragePrecision`,
  `QuestionSplit`, with `Fractions`). Hits against ranks, chunk attribution, the random baseline as a count of subsets,
  average precision, and the text-disjoint split.

`Sequences`, `Text` and `Sorting` hold shared facts. Random generators are arbitrary streams of words, so results hold
for every seed. Servers, child processes and file-system outcomes are arbitrary answers or steps. Quotas, scores and
averages are exact rationals or reals. `Math.log` is any function that is positive above 1, and increasing there where a
lemma says so. A picker on an empty list, and reading a field of a parsed `null`, are modelled as the exceptions they
raise.

## Where the code and its comments disagree

The model follows the code; each point below is a lemma or a pair of lemmas.

- The ingest loop counts a batch as written even when all three attempts failed, against the comment at
  `benchmark/cognee-retrieval-runner.ts:457-458` (`WrittenMeansAcceptedExactly`, `NothingAcceptedEverythingWritten`).
- The result file is meant to make a crash cost minutes. An ingest that stopped with something stored can be completed
  exactly when the file records a document (`ResumableExactly`); otherwise every start is refused while the dataset is
  listed (`OrphanedStaysStuck`). Two things lead there: a crash between the first accepted call and the first flush
  (`CrashBeforeFirstFlush`), and a start without the resume flag, which is refused and yet rewrites the file with an
  empty ledger (`RefusedStartOrphans`, `OrphanedByExactly`).
- The refusal is meant to prevent a second copy of the corpus. A dataset list that fails comes back empty
  (`src/lib/cognee-http.ts:390-403`), and then a start without the resume flag sends stored and recorded batches again
  (`FailedListResends`); exactly the starts that are not protected do (`ResendsExactlyUnprotected`), and none is with
  truthful lists (`StoredIsNeverResent`).
- Resuming under another batch size miscounts unless the recorded batches hold equally many documents under both cuts,
  or all documents are recorded and the dataset is listed (`ResumeUnderOtherBatchSize`, `OtherBatchSizeMiscounts`,
  `CompleteUnderOtherBatchSize`).
- Chunk attribution is said never to over-report; a truncated or re-split chunk can be credited to the wrong document,
  exactly when another document's text occurs inside the one it was cut from (`PiecesAreSafeExactly`,
  `TruncationExample`, `ResplitExample`).
- The mention index misses texts for names with surrounding white space (`IndexIsSoundExactlyWhenTrimmed`,
  `UntrimmedNameExample`).
- The random expectation printed beside a recall figure averages only the questions whose evidence fits the cut-off
  (`PrintedExpectationIsConditional`).
- The event reader is documented to read until a done or error event (`benchmark/sse-client.ts:46`) and does not stop
  there (`LateTokenIsAdded`); the result is the promised one exactly when the later events are harmless
  (`StopsInEffectExactly`, and for the answer alone `AnswerIsPromisedExactly`).
- The event reader ignores streams with CR LF line ends (`CrlfStreamIsIgnored`).
- The baseline says it grades by the rule of the report (`benchmark/cognee-bm25-baseline.ts:274`); the two differ when
  there is neither evidence nor anything in the window (`GradersAgreeExactly`).
- The corpus header speaks of 32 corrections and a comment of at most 900 relation-bearing documents; the number of
  corrections is the quota of the kind, at most 35 (`EveryCorrectionIsPaired`, `UnitsFavourTheEarlier`), and the
  optional layer adds 68 documents (`BearingSize`), so that the ceiling holds exactly without it or for a request of at
  most 900 documents (`BearingFitsExactly`).

## Model

| member | source | states |
|---|---|---|
| `Spread.RowIsModulus` | benchmark/cognee-corpus.ts:759-764 | the double remainder is the mathematical modulus, for any table size, ordinal and stride, negative ones included |
| `Spread.FirstBlockIsIdentity` | benchmark/cognee-corpus.ts:759-764 | the first block reads the table in order whatever the stride, so small ordinals index the same row in every table |
| `Spread.HitsWhenDue` | benchmark/cognee-corpus.ts:759-764 | an ordinal cites a row exactly when it stands at that row's offset in its block |
| `Spread.BlockIsPermutation` | benchmark/cognee-corpus.ts:759-764 | every aligned block of n ordinals cites every row at one offset and at no other: a permutation of the table, with no coprimality needed |
| `Spread.UsesExact` | benchmark/cognee-corpus.ts:759-764 | the exact number of times a row has been cited by the ordinals below m |
| `Spread.CoverageIsEven` | benchmark/cognee-corpus.ts:759-764 | after m consecutive ordinals every row has been cited floor(m/n) or ceil(m/n) times |
| `Apportionment.LeftoverBound` | benchmark/cognee-corpus.ts:849-852 | the documents left by the whole parts are fewer than the kinds with a fractional share, so the remainder loop never runs out of kinds |
| `Apportionment.QuotasSumToBudget` | benchmark/cognee-corpus.ts:829-854 | the quotas sum exactly to the budget, for every budget |
| `Apportionment.QuotaIsFloorOrCeiling` | benchmark/cognee-corpus.ts:835-852 | each quota is the floor or the ceiling of the exact share |
| `Apportionment.HeavierNeverGetsLess` | benchmark/cognee-corpus.ts:844-852 | a strictly heavier kind never gets less than a lighter one |
| `Apportionment.RankedOrders` | benchmark/cognee-corpus.ts:844-848 | the remainder order (fraction, weight, name) is total and lists every kind once |
| `Apportionment.QuotasServeLargestRemainders` | benchmark/cognee-corpus.ts:844-852 | main result: whenever one kind gets its whole part plus one and another only its whole part, the first has the larger remainder, or an equal one and more weight, or equal weight and the smaller name |
| `Apportionment.QuotasAreUnique` | benchmark/cognee-corpus.ts:829-854 | no other list serves the largest remainders and spends the budget |
| `Apportionment.BuildQuotas` | benchmark/cognee-corpus.ts:829-854 | the two loops compute the specified quotas |
| `RoundRobin.CountAt` | benchmark/cognee-corpus.ts:875-888 | how many units of a kind the walk has placed at any moment |
| `RoundRobin.Visit` | benchmark/cognee-corpus.ts:876-887 | each planned entry was placed by one visit of one round, and what precedes it is the plan at that visit |
| `RoundRobin.StopIsPlan` | benchmark/cognee-corpus.ts:876-889 | stopping at the budget or out of units yields the same list as cutting the full plan |
| `RoundRobin.FullLength` | benchmark/cognee-corpus.ts:868-890 | the plan without a budget has one entry per unit |
| `RoundRobin.PlanCounts` | benchmark/cognee-corpus.ts:868-890 | a plan that is not cut holds every unit of every kind |
| `RoundRobin.EarlierKindLeads` | benchmark/cognee-corpus.ts:876-887 | whenever a unit is placed, every kind listed earlier with at least as many units is already one ahead |
| `RoundRobin.BuildPlan` | benchmark/cognee-corpus.ts:868-890 | the round-robin loops compute the specified plan |
| `CorpusSpec.FindFromIsFirst` | benchmark/cognee-corpus.ts:1241-1247 | the search returns the earliest document, and in it the earliest relation, with that subject and predicate, or none when there is none |
| `CorpusTheorems.OrdinalsIncrease` | benchmark/cognee-corpus.ts:892-944 | of two documents of one kind, the later one has the larger ordinal |
| `CorpusTheorems.FindsSameOrdinal` | benchmark/cognee-corpus.ts:1222-1224 | for a delivery of the first block, a search for each of the three paired predicates finds the document with that very ordinal |
| `CorpusTheorems.PairSucceeds` | benchmark/cognee-corpus.ts:1222-1237 | once the delivery note and the dock memo of that ordinal exist, pairing retracts the note's on-time relation and records project and vendor from the two documents |
| `CorpusTheorems.EmitCorrectionCoherent` | benchmark/cognee-corpus.ts:1201-1238 | a correction memo emitted with its two documents in place is paired and keeps the pairing invariant |
| `CorpusTheorems.EmitOneCoherent` | benchmark/cognee-corpus.ts:892-944 | no other kind disturbs the pairing invariant |
| `CorpusTheorems.UnitsFavourTheEarlier` | benchmark/cognee-corpus.ts:868-874 | delivery notes and dock memos get at least as many units as corrections, and corrections at most 35, for every hot budget |
| `CorpusTheorems.CorrectionIsReady` | benchmark/cognee-corpus.ts:868-890 | when the plan reaches a correction, one more delivery note and one more dock memo were planned before it |
| `CorpusTheorems.EveryCorrectionIsPaired` | benchmark/cognee-corpus.ts:807-819 | with corrections on, for every budget and every stream of draws, the corrections are as many as the memos, which is the quota of the kind, and every one fits |
| `CorpusTheorems.PlanNeverOvershoots` | benchmark/cognee-corpus.ts:868-890 | the planned units realize at most the budget, audit units counting two documents and suppressed corrections none |
| `CorpusTheorems.SlackFills` | benchmark/cognee-corpus.ts:814-818 | the slack loop ends exactly on the budget |
| `CorpusTheorems.HotSize` | benchmark/cognee-corpus.ts:807-819 | the hot world has exactly the clamped budget, with or without corrections |
| `CorpusTheorems.BearingSize` | benchmark/cognee-corpus.ts:789-797 | the relation-bearing half has the clamped hot budget plus the optional layer: with the layer on it reaches 968 documents, not the 900 the comment promises |
| `CorpusTheorems.BearingFitsExactly` | benchmark/cognee-corpus.ts:789-797 | it keeps that promise exactly without the layer or for a request of at most 900 documents |
| `CorpusTheorems.CorpusSize` | benchmark/cognee-corpus.ts:783-800 | with fillers on, the corpus has exactly the requested number of documents, or the size of the optional layer when that is larger |
| `CorpusTheorems.SmallerCorpusIsPrefix` | benchmark/cognee-corpus.ts:783-800 | for the same draws and sizes of at least 900 (968 with the optional layer), a smaller corpus is an exact prefix of a larger one: no document is renumbered |
| `CorpusTheorems.RetractedExactly` | benchmark/cognee-corpus.ts:1225-1237 | a relation is retracted exactly when one correction record names it |
| `CorpusTheorems.CorpusSupersession` | benchmark/cognee-corpus.ts:783-800 | main result: in every generated corpus the corrections are exactly the planned memos, name pairwise distinct deliveries, point from an earlier on-time note to a later memo, and account for every retracted relation |
| `CorpusTheorems.CorrectionsStayLinked` | benchmark/cognee-corpus.ts:1225-1237 | in every generated corpus each correction's project is still assigned by the note it overturns and its vendor still named by another document, neither retracted |
| `CorpusTheorems.NoCorrections` | benchmark/cognee-corpus.ts:892-944 | with corrections off the list is empty |
| `CorpusContents.HotIsDetermined` | benchmark/cognee-corpus.ts:892-948 | main result: in the hot world every document has the next ordinal of its kind and the draws of its kind from the next words of the stream, with no word skipped or used twice, and those determine what it says, up to retraction |
| `CorpusContents.GeneratedIsTyped` | benchmark/cognee-corpus.ts:1044-1326 | main result: every relation of every generated corpus joins entities of the two tables its predicate is about, both rows within their tables |
| `CorpusContents.LayerIsPairs` | benchmark/cognee-corpus.ts:1287-1326 | the optional layer never runs round its tables: each pair joins a serial and an invoice that no other pair has, in both directions |
| `CorpusContents.FillersAreNumbered` | benchmark/cognee-corpus.ts:795-800 | the fillers are numbered from 0 and draw the next words, three each |
| `CorpusBuilder.Builder.constructor` | benchmark/cognee-corpus.ts:709-720 | an empty builder over a stream of draws |
| `CorpusBuilder.Builder.DrawBetween` | benchmark/cognee-corpus.ts:946-948 | one draw in the inclusive range |
| `CorpusBuilder.Builder.CountOf` | benchmark/cognee-corpus.ts:892-944 | the next ordinal is the number of documents of the kind |
| `CorpusBuilder.Builder.FindRelation` | benchmark/cognee-corpus.ts:1241-1247 | the nested search returns the first assertion |
| `CorpusBuilder.Builder.WriteOne` | benchmark/cognee-corpus.ts:1074-1134 | one document of a kind, with its relations at the next ordinal |
| `CorpusBuilder.Builder.WriteAuditUnit` | benchmark/cognee-corpus.ts:927-930 | an audit unit writes a narrative and an attribution note, recounting in between |
| `CorpusBuilder.Builder.WriteCorrection` | benchmark/cognee-corpus.ts:1201-1238 | the memo is written before it is paired |
| `CorpusBuilder.Builder.PairWith` | benchmark/cognee-corpus.ts:1222-1237 | the pairing as specified, including the early return that leaves a memo unpaired |
| `CorpusBuilder.Builder.WriteKind` | benchmark/cognee-corpus.ts:892-944 | the dispatch over kinds, corrections suppressed when they are off |
| `CorpusBuilder.Builder.WritePlan` | benchmark/cognee-corpus.ts:809-810 | the planned kinds in order |
| `CorpusBuilder.Builder.WriteSlack` | benchmark/cognee-corpus.ts:814-818 | the slack loop over the single-document kinds |
| `CorpusBuilder.Builder.WriteHot` | benchmark/cognee-corpus.ts:807-819 | the clamped budget, the plan, the slack |
| `CorpusBuilder.Builder.WriteUncertaintyLayer` | benchmark/cognee-corpus.ts:1287-1326 | the optional layer of document pairs |
| `CorpusBuilder.Builder.WriteFillers` | benchmark/cognee-corpus.ts:1335-1341 | filler up to the requested size |
| `CorpusBuilder.Builder.Run` | benchmark/cognee-corpus.ts:783-800 | the whole run computes the specified corpus, so every theorem above is about it |
| `Bm25.CountTokens` | benchmark/cognee-bm25-baseline.ts:145-146 | term frequencies count occurrences |
| `Bm25.RaiseAll` | benchmark/cognee-bm25-baseline.ts:152-152 | document frequency rises by one per term of the document, however often it occurs |
| `Bm25.AddDocument` | benchmark/cognee-bm25-baseline.ts:143-153 | one document keeps the index in agreement with the corpus read so far |
| `Bm25.BuildIndex` | benchmark/cognee-bm25-baseline.ts:137-156 | the index agrees with the corpus: frequencies, lengths, document frequencies counting documents, number and mean length |
| `Bm25.Accumulate` | benchmark/cognee-bm25-baseline.ts:178-185 | the accumulation loop is the sum over the distinct query terms |
| `Bm25.Score` | benchmark/cognee-bm25-baseline.ts:168-187 | the score of a document for a query, 0 for an unknown one |
| `Bm25.IdfIsPositive` | benchmark/cognee-bm25-baseline.ts:164-183 | because document frequency never exceeds the number of documents, every idf is positive |
| `Bm25.PositiveExactlyWhenSharing` | benchmark/cognee-bm25-baseline.ts:168-187 | a document scores above 0 exactly when it shares a token with the query, and never below 0 |
| `Bm25.ScoreSaturates` | benchmark/cognee-bm25-baseline.ts:159-187 | the score of a sharing document stays strictly below (k1+1) times the summed idf |
| `Bm25.CeilingIsScaledIdf` | benchmark/cognee-bm25-baseline.ts:159-187 | that ceiling is (k1+1) times the sum of the idfs |
| `Bm25.ScoreIgnoresOrder` | benchmark/cognee-bm25-baseline.ts:137-187 | two indices built from the same documents in different orders give every document the same score for every query: frequencies, lengths, document frequencies and mean length do not depend on the order |
| `Bm25Laws.ScoreIsDocumented` | benchmark/cognee-bm25-baseline.ts:159-187 | one term earns a document its rarity times its saturated count, both written from the corpus, and nothing when it does not occur |
| `Bm25Laws.ScoresAdd` | benchmark/cognee-bm25-baseline.ts:176-187 | a further term adds its own contribution, unless the query has it already |
| `Bm25Laws.OnceAtMeanLengthEarnsRarity` | benchmark/cognee-bm25-baseline.ts:159-187 | a term that occurs once in a document of mean length earns exactly its rarity, whatever the parameters |
| `Bm25Laws.RarerEarnsMore` | benchmark/cognee-bm25-baseline.ts:182-182 | main result: at equal counts and lengths a term found in fewer documents earns strictly more, for any logarithm that increases above 1 |
| `Bm25Laws.MoreOccurrencesScoreHigher` | benchmark/cognee-bm25-baseline.ts:183-186 | of two documents of one length, the one with at least as many occurrences of every query term and more of some scores strictly higher, for k1 > 0 |
| `Bm25Laws.LongerScoresLower` | benchmark/cognee-bm25-baseline.ts:183-186 | with the same counts, a longer document that shares a term scores strictly lower, for k1 > 0 and b > 0 |
| `Bm25Laws.LengthDoesNotMatter` | benchmark/cognee-bm25-baseline.ts:183-186 | for b = 0 the length does not matter |
| `Bm25Laws.UnknownScoresNothing` | benchmark/cognee-bm25-baseline.ts:168-170 | a document the index does not know scores 0 |
| `Ranking.BetterIsTotal` | benchmark/cognee-bm25-baseline.ts:204-204 | score descending with id ascending is a strict total order |
| `Ranking.RankTopK` | benchmark/cognee-bm25-baseline.ts:197-206 | scoring, filtering, sorting and cutting compute the specified ranking |
| `Ranking.TopKIsTopK` | benchmark/cognee-bm25-baseline.ts:197-206 | the ranking holds the k best positive documents, best first, each once, and all of them when fewer than k score |
| `Ranking.TopKIsUnique` | benchmark/cognee-bm25-baseline.ts:189-206 | only one list meets that description |
| `Ranking.TopKIsPrefix` | benchmark/cognee-bm25-baseline.ts:205-205 | the ranking for k is a prefix of the ranking for any larger k |
| `Ranking.RankingIgnoresOrder` | benchmark/cognee-bm25-baseline.ts:189-206 | rankings of the same documents under scores that agree on them are equal, whatever the order of insertion |
| `IterativeSearch.AbsorbLaws` | benchmark/cognee-bm25-baseline.ts:256-263 | taking over a follow-up ranking keeps documents distinct and within budget, extends the ranking, and leaves nothing out unless the budget is full |
| `IterativeSearch.RoundCompletes` | benchmark/cognee-bm25-baseline.ts:253-263 | the pigeonhole argument: asking for the missing plus the known either fills the budget or brings in every document that scores |
| `IterativeSearch.RoundKeeps` | benchmark/cognee-bm25-baseline.ts:241-265 | one follow-up round keeps the invariant and only extends the ranking |
| `IterativeSearch.SearchIsComplete` | benchmark/cognee-bm25-baseline.ts:226-271 | the result is distinct, within budget, starts with the first-round ranking, and after every executed round is full or holds every document scoring for that round's query |
| `IterativeSearch.CandidatesExactly` | benchmark/cognee-bm25-baseline.ts:245-253 | the follow-up identifiers are, once each, exactly those in the text of a document just added that hold a token the question lacks, those of earlier documents first |
| `IterativeSearch.RoundRunsExactly` | benchmark/cognee-bm25-baseline.ts:243-257 | while the budget is not full a round is executed exactly when there is such an identifier, and asks for all of them in one query |
| `IterativeSearch.FirstRoundExactly` | benchmark/cognee-bm25-baseline.ts:234-236 | the first round takes the whole budget when it is the only one and at most four documents otherwise |
| `IterativeSearch.RoundsRunOut` | benchmark/cognee-bm25-baseline.ts:243-267 | at most the given number of rounds is executed, and fewer only when the budget is full or nothing new is mentioned |
| `IterativeSearch.CollectCandidates` | benchmark/cognee-bm25-baseline.ts:243-250 | the nested loops collect the new identifiers once each, in order of discovery |
| `IterativeSearch.TakeOver` | benchmark/cognee-bm25-baseline.ts:255-263 | the seen set stays equal to the elements of the ranking |
| `IterativeSearch.FollowUpRound` | benchmark/cognee-bm25-baseline.ts:241-265 | one pass of the round loop |
| `IterativeSearch.IterativeTopK` | benchmark/cognee-bm25-baseline.ts:226-271 | the whole search computes the specified ranking |
| `LexicalSearch.IndexOrderIsIrrelevant` | benchmark/cognee-bm25-baseline.ts:189-206 | indexing the documents in another order gives the same ranking by score, for every query and k |
| `LexicalSearch.PositiveMeansSharing` | benchmark/cognee-bm25-baseline.ts:168-206 | a document of the corpus passes the ranking's filter exactly when it shares a token with the query |
| `LexicalSearch.SearchFindsAllSharing` | benchmark/cognee-bm25-baseline.ts:226-271 | over an index of the corpus: distinct documents within budget, the first-round ranking in front, and for every executed follow-up query a full budget or every document that shares a token with it |
| `LexicalSearch.SearchIgnoresOrder` | benchmark/cognee-bm25-baseline.ts:226-271 | the whole multi-round search, its queries included, does not depend on the order in which the documents were indexed |
| `MapBounded.RunKeeps` | benchmark/cognee-retrieval-runner.ts:632-651 | every interleaving, whichever calls throw, keeps the invariant of cursor, slots and workers |
| `MapBounded.ClaimsInOrderAndBounded` | benchmark/cognee-retrieval-runner.ts:634-638 | indices are claimed 0, 1, 2, ... each once, and calls in flight never exceed max(1, min(limit, n)) |
| `MapBounded.StoppedMeansComplete` | benchmark/cognee-retrieval-runner.ts:638-650 | when all workers have stopped, slot i holds what the call on item i ended in, for every i |
| `MapBounded.RunsEnd` | benchmark/cognee-retrieval-runner.ts:635-649 | until then some step is possible, and the number of steps is bounded |
| `ChunkResolution.IndexTexts` | benchmark/cognee-retrieval-runner.ts:243-252 | the text index lists every non-empty text once with all its document ids |
| `ChunkResolution.CheckCorpusTexts` | benchmark/cognee-retrieval-runner.ts:261-289 | the gate lets a corpus through exactly when no text is empty and no text begins another one |
| `ChunkResolution.GateIsExact` | benchmark/cognee-retrieval-runner.ts:254-289 | the three scans find nothing exactly on such a corpus |
| `ChunkResolution.ResolveChunk` | benchmark/cognee-retrieval-runner.ts:228-240 | exact text first, then unique containment, otherwise nothing |
| `ChunkResolution.ResolutionIsSound` | benchmark/cognee-retrieval-runner.ts:228-240 | a chunk is only attributed to documents whose whole text it contains |
| `ChunkResolution.ResolvesExactly` | benchmark/cognee-retrieval-runner.ts:228-240 | a chunk is credited to all documents, in corpus order, with the text it equals or else the only text it contains, and to nothing when there is no such text; it is exact exactly when it equals one |
| `ChunkResolution.WholeDocumentResolves` | benchmark/cognee-retrieval-runner.ts:212-219 | a document returned whole resolves to itself alone |
| `ChunkResolution.AtMostOneDocument` | benchmark/cognee-retrieval-runner.ts:228-240 | behind the gate every chunk resolves to at most one document |
| `ChunkResolution.LiveRankIsAtLeastHops` | benchmark/cognee-benchmark-report.ts:635-645 | so no live ranking completes h distinct evidence documents before rank h |
| `ChunkResolution.PiecesAreSafeExactly` | benchmark/cognee-retrieval-runner.ts:221-227 | behind the gate, no contiguous piece of a document shorter than its text is attributed to anything, so truncating or re-splitting can only lose a hit, if and only if no other document's text occurs inside it; the comment claims it always |
| `ChunkResolution.TruncationIsSafeExactly` | benchmark/cognee-retrieval-runner.ts:221-227 | the finer condition for cuts from the end alone: no proper beginning of a document is credited exactly when the first document text ending inside it is not alone there |
| `ChunkResolution.SeparateTextsAreSafe` | benchmark/cognee-retrieval-runner.ts:221-227 | a document with no other text inside it is safe from truncation in particular |
| `ChunkResolution.TruncationExample` | benchmark/cognee-retrieval-runner.ts:221-240 | a corpus behind the gate whose second document, cut short, is credited to the first |
| `ChunkResolution.ResplitExample` | benchmark/cognee-retrieval-runner.ts:221-240 | a corpus behind the gate whose third document is safe from truncation, yet its tail is credited to the first |
| `IngestLedger.ChunkTexts` | benchmark/cognee-retrieval-runner.ts:291-295 | the batches concatenate to the documents, none is empty, and only the last one is short |
| `IngestLedger.RawIngest.Ingest` | benchmark/cognee-retrieval-runner.ts:374-481 | the batch loop from any ledger: begin after the recorded batches, or not at all when the new cut has no more of them; up to three attempts, then the batch is recorded whether or not it was accepted |
| `IngestLedger.RecordRestTotals` | benchmark/cognee-retrieval-runner.ts:446-449 | a finished loop has recorded every remaining batch and added exactly its documents |
| `IngestLedger.FailedExactly` | benchmark/cognee-retrieval-runner.ts:444-462 | the error list gains, in order and once each, exactly the batches none of whose three answers was accepted |
| `IngestLedger.StartsExactly` | benchmark/cognee-retrieval-runner.ts:345-377 | a start is refused exactly when the dataset exists and the run does not resume with something recorded; it sends the rest otherwise |
| `IngestLedger.RawIngest.Start` | benchmark/cognee-retrieval-runner.ts:348-481 | the guard on an existing dataset: refused without the resume flag or with nothing recorded, skipped when everything is recorded, and otherwise the loop |
| `IngestLedger.LoopUnderOtherBatchSize` | benchmark/cognee-retrieval-runner.ts:374-481 | the batch loop, resumed under another batch size, counts every document exactly once if and only if the recorded batches hold the same number of documents under both cuts |
| `IngestLedger.ResumeUnderOtherBatchSize` | benchmark/cognee-retrieval-runner.ts:348-378 | resuming under another batch size, larger or smaller, counts every document exactly once if and only if all documents were recorded and the dataset is listed, when nothing is sent, or the recorded batches hold the same number of documents under both cuts |
| `IngestLedger.CompleteUnderOtherBatchSize` | benchmark/cognee-retrieval-runner.ts:348-378 | ten documents recorded by fives, resumed with a cut by two: skipped when the dataset is listed, sixteen counted when it is not |
| `IngestLedger.OtherBatchSizeMiscounts` | benchmark/cognee-retrieval-runner.ts:374-378 | ten documents cut by five, one batch recorded, resumed with a cut by two: thirteen are counted |
| `IngestLedger.RetriesFindAcceptance` | benchmark/cognee-retrieval-runner.ts:407-443 | the answer that ends the retries is an acceptance exactly when one of the up to three answers is |
| `IngestLedger.WrittenMeansAcceptedExactly` | benchmark/cognee-retrieval-runner.ts:444-462 | going on from any ledger, documentsWritten is the number of accepted documents exactly when it was so before and every batch still to be sent is accepted within three attempts, although a comment says a failed batch is never counted as written |
| `IngestLedger.NothingAcceptedEverythingWritten` | benchmark/cognee-retrieval-runner.ts:444-462 | a server that accepts nothing still yields a run that reports every document as written |
| `IngestRecovery.LedgerIsAPrefix` | benchmark/cognee-retrieval-runner.ts:814-871 | over any crashes, resumes and fresh starts the file records a contiguous prefix of the batches with documentsWritten their sum, and a finished loop has written the corpus size |
| `IngestRecovery.UninterruptedIsIngested` | benchmark/cognee-retrieval-runner.ts:348-481 | a start that is not refused, followed without a crash by the attempts on every remaining batch, leaves on disk what the ledger's ingest computes: the small steps refine the loop |
| `IngestRecovery.FlushedIsNeverResent` | benchmark/cognee-retrieval-runner.ts:348-378 | under resumes, a batch whose record was flushed is never sent again |
| `IngestRecovery.ProtectedIsNeverResent` | benchmark/cognee-retrieval-runner.ts:348-378 | over any crashes and starts with and without the resume flag, a batch the server holds and the file recorded is never sent again as long as every start is protected: the dataset is listed, or the file it goes on from has documents, or there is no such batch |
| `IngestRecovery.ResendsExactlyUnprotected` | benchmark/cognee-retrieval-runner.ts:348-378 | after such a run one more start can lead to a stored and recorded batch being sent again if and only if it is not protected |
| `IngestRecovery.StoredIsNeverResent` | benchmark/cognee-retrieval-runner.ts:348-364 | in particular never, if the list names the dataset whenever the server holds something of it |
| `IngestRecovery.FailedListResends` | src/lib/cognee-http.ts:390-403 | a list call that fails answers with no names: a start without the resume flag then sends a stored and recorded batch a second time |
| `IngestRecovery.ResumeRefusedExactly` | benchmark/cognee-retrieval-runner.ts:348-364 | with the server holding something, a start with the resume flag is refused exactly when the dataset is listed and no document is recorded |
| `IngestRecovery.OrphanedStaysStuck` | benchmark/cognee-retrieval-runner.ts:348-363 | while the dataset is listed, every start from a state whose stored batches no record accounts for is refused, and nothing is ever sent |
| `IngestRecovery.FailedListUnsticks` | src/lib/cognee-http.ts:390-403 | a failed list call lets that state send, from the first batch on |
| `IngestRecovery.ResumableExactly` | benchmark/cognee-retrieval-runner.ts:348-378 | main result: after any run that left the program stopped and something stored, the ingest can be completed with the dataset listed if and only if the file records at least one document |
| `IngestRecovery.OrphanedByExactly` | benchmark/cognee-retrieval-runner.ts:814-871 | one step makes the state unrecoverable exactly when the program ends with something stored and nothing recorded, or a refused start rewrites the file with an empty ledger |
| `IngestRecovery.RefusedStartOrphans` | benchmark/cognee-retrieval-runner.ts:858-871 | a start without the resume flag on a listed dataset is refused, and wipes what the file recorded |
| `IngestRecovery.CrashBeforeFirstFlush` | benchmark/cognee-retrieval-runner.ts:407-473 | the other way is one accepted call and one crash away |
| `CoveragePool.RunKeeps` | scripts/coverage.ts:174-239 | every schedule keeps the invariants of the queue, the mutex and the shared report |
| `CoveragePool.EveryReportIsOwn` | scripts/coverage.ts:180-233 | sections run one at a time in arrival order even after one rejects, and every collected report was written by the child of the job that claimed it |
| `CoveragePool.EveryFileRunsOnce` | scripts/coverage.ts:191-239 | a finished pool has taken the files in order, entered and ended one section for each, and begun each file's child exactly once, or not at all when its section was refused before that |
| `CoveragePool.NeverBlocked` | scripts/coverage.ts:180-239 | while a worker has not stopped, something can move |
| `CoveragePool.CollectionIsScheduleFree` | scripts/coverage.ts:225-232 | a finished faultless run hands over the same texts for every worker count and schedule |
| `CoveragePool.RunLeaves` | scripts/coverage.ts:191-239 | whatever fails, in every schedule the collected texts are those of the sections that could claim and read their own report, in order, and the failed files are those whose tests exited with another code than 0 |
| `CoveragePool.WorkersFailExactly` | scripts/coverage.ts:191-239 | when all workers have stopped, one of them failed exactly when a section threw |
| `LcovMerge.ParseLcov` | scripts/coverage.ts:45-72 | the line loop computes the specified map |
| `LcovMeaning.FileKnownExactly` | scripts/coverage.ts:45-72 | reading one report: a file is in the map exactly when the report names it |
| `LcovMeaning.LineKnownExactly` | scripts/coverage.ts:45-72 | a line of a file is known exactly when some hit record for it stands after the name of the file and before the next name |
| `LcovMeaning.FigureIsLargest` | scripts/coverage.ts:45-72 | main result: each figure of a file, the count of a line or one of the two function counts, is the largest number those sections say, or 0 |
| `LcovMerge.ParseIsJoin` | scripts/coverage.ts:45-72 | reading a report into a map joins the map with what the report says on its own |
| `LcovMerge.JoinCommutes` | scripts/coverage.ts:61-70 | the join is commutative |
| `LcovMerge.JoinAssociates` | scripts/coverage.ts:61-70 | the join is associative |
| `LcovMerge.JoinIdempotent` | scripts/coverage.ts:61-70 | the join is idempotent |
| `LcovMerge.Merge` | scripts/coverage.ts:242-243 | the merge loop folds the reports in order |
| `LcovMerge.MergeDependsOnSet` | scripts/coverage.ts:242-243 | the merged map depends only on which reports there are, not on order or repetition |
| `LcovMerge.CoveredExactly` | scripts/coverage.ts:61-62 | a line ends up covered exactly when some report covers it |
| `LcovMeaning.MergedFileKnownExactly` | scripts/coverage.ts:242-243 | a file is in the merge exactly when some report names it |
| `LcovMeaning.MergedLineKnownExactly` | scripts/coverage.ts:242-243 | a line is known in the merge exactly when some report has a hit record for it in a section of its file |
| `LcovMeaning.MergedFigureIsLargest` | scripts/coverage.ts:242-243 | in the merge each figure is the largest number any report says |
| `LcovMeaning.CoveredByRecords` | scripts/coverage.ts:242-243 | over the records: a line is covered exactly when some report has a positive hit record for it in a section of its file |
| `LcovMerge.HitsNeverFall` | scripts/coverage.ts:324-325 | a file's hit count never falls when a report is added |
| `CoverageTotals.Total` | scripts/coverage.ts:317-339 | the running totals count the measured content of the map, in whatever order it is walked |
| `CoverageTotals.HeldExactly` | scripts/coverage.ts:317-339 | what is counted: every known line of a measured file, its covered lines, and its functions, found and hit |
| `CoverageTotals.NumberIsScheduleFree` | scripts/coverage.ts:239-339 | two finished faultless runs with the same child reports print the same totals, whatever the concurrency and interleaving |
| `CommentScan.ScanLine` | scripts/coverage.ts:285-296 | the index loop over one line computes the specified depth |
| `CommentScan.LineScanIsTextScan` | scripts/coverage.ts:278-297 | the depth carried line by line is the depth of one scan over the whole text |
| `SseReader.SplitConcat` | benchmark/sse-client.ts:120-123 | cutting a text at blank lines can be done in two parts, the rest of the first carried over |
| `SseReader.RestHasNoBreak` | benchmark/sse-client.ts:119-123 | after a read no complete block is left in the buffer |
| `SseReader.FeedConcat` | benchmark/sse-client.ts:114-138 | feeding two chunks is feeding their concatenation |
| `SseReader.ChunkingIsIrrelevant` | benchmark/sse-client.ts:114-144 | the result depends only on the concatenation of the chunks |
| `SseReader.MarkLastLaws` | benchmark/sse-client.ts:84-90 | a tool end changes the status of exactly the last run of that tool |
| `SseReader.LongerStreamsGrow` | benchmark/sse-client.ts:62-112 | more text never shortens the answer, drops a tool run, clears an error or undoes an exception |
| `SseReader.DecodedAreWellFormed` | benchmark/sse-client.ts:125-136 | only well-formed frames ever come out of the line rules |
| `SseReader.RoundTrip` | benchmark/sse-client.ts:120-138 | encoded frames decode to themselves exactly when every one has a trimmed one-line event name and one-line data without leading white space |
| `SseReader.EncodedEventsAreHandled` | benchmark/sse-client.ts:114-138 | encoded events are handled in order, in whatever chunks they arrive and whatever unfinished block follows; nothing stops the loop at a done or error event |
| `SseStopping.StopsInEffectExactly` | benchmark/sse-client.ts:44-48 | main result: for every stream, the reader gives the result of the events up to the first done or error event, which its comment promises, if and only if an exception ended the read by then or the later events are harmless: none throws, lengthens the answer or starts a tool run, and the last citations, error and status of each tool they write are those already there |
| `SseStopping.AnswerIsPromisedExactly` | benchmark/sse-client.ts:72-101 | of a read without exception, the answer is the promised one exactly when no later event is a non-empty token or an answer longer than it |
| `SseStopping.RunsAfter` | benchmark/sse-client.ts:77-91 | what later events do to the tool runs: a start lengthens the list, and without one the last run of each tool has the last status written for it |
| `SseStopping.LastWrites` | benchmark/sse-client.ts:92-108 | the citations and the error are the last ones written |
| `SseStopping.ThrowsExactly` | benchmark/sse-client.ts:62-110 | the read goes on without exception exactly when no event reads a field of null |
| `SseStopping.LateTokenIsAdded` | benchmark/sse-client.ts:44-48 | a token after the done event: the promised answer is empty, the answer read is not |
| `SseReader.CrlfStreamIsIgnored` | benchmark/sse-client.ts:120-121 | a stream whose lines end in CR LF, which section 9.2.5 of the HTML Standard allows, yields an empty result |
| `SseReader.ReadBlock` | benchmark/sse-client.ts:125-133 | the line loop of one block |
| `SseReader.Drain` | benchmark/sse-client.ts:119-137 | the framing loop of one read |
| `SseReader.ConsumeSse` | benchmark/sse-client.ts:113-144 | the read loop computes the specified result, an exception ending it |
| `SseAnswer.TokensAreJoined` | benchmark/sse-client.ts:74-74 | main result: encoded token events, in whatever chunks they arrive, are read as the concatenation of their contents in order and nothing else |
| `SseAnswer.ReadAnswerIsPutTogether` | benchmark/sse-client.ts:72-101 | in general the answer is what the last answer event longer than the answer before it brought, or the empty text, followed by the contents of the later tokens in order |
| `SseAnswer.StartAppends` | benchmark/sse-client.ts:77-83 | a tool start appends one run of that tool with the status running; no other event adds a run or renames one |
| `SseAnswer.ReadRunsAreStarted` | benchmark/sse-client.ts:77-91 | the tool runs are those of the tools started, in order, and nothing else |
| `QuestionWorld.MentionedIn` | benchmark/cognee-question-gen.ts:201-214 | the entities of one document: its declared ones and every name found in its text |
| `QuestionWorld.IndexMentions` | benchmark/cognee-question-gen.ts:201-219 | the mention index lists, per entity, the documents that mention it in corpus order |
| `QuestionWorld.CollectEdges` | benchmark/cognee-question-gen.ts:223-233 | all edges with their documents, a repeated index entry replacing the earlier one in place |
| `QuestionWorld.IndexPredicates` | benchmark/cognee-question-gen.ts:223-230 | the predicate index lists, per predicate, the edges of every index entry in order, those of a repeated id included, before any replacement |
| `QuestionWorld.IndexStarts` | benchmark/cognee-question-gen.ts:252-258 | the start index lists, per entity, the positive edges that start at it |
| `QuestionWorld.LoadWorld` | benchmark/cognee-question-gen.ts:192-304 | all indices agree with the corpus |
| `QuestionWorld.EdgesComeFromEntries` | benchmark/cognee-question-gen.ts:223-233 | every edge was asserted by a document of the index |
| `QuestionWorld.IndexIsSoundExactlyWhenTrimmed` | benchmark/cognee-question-gen.ts:206-214 | the index catches every text containing the answer exactly when the stripped name carries no surrounding white space |
| `QuestionWorld.MentionsInOrder` | benchmark/cognee-question-gen.ts:201-219 | the mention index lists the documents that mention an entity, in corpus order |
| `QuestionWorld.StartersExactly` | benchmark/cognee-question-gen.ts:250-272 | the edges a chain may start from are exactly those that go on once, or twice, always in new documents |
| `QuestionWorld.UntrimmedNameExample` | benchmark/cognee-question-gen.ts:206-214 | a name with a trailing blank whose answer appears in a text the index does not list |
| `QuestionTheorems.MinimalIsLocal` | benchmark/cognee-question-gen.ts:331-354 | what passes the minimality check has pairwise distinct documents, and none before the last mentions the answer |
| `QuestionTheorems.WrittenIsFaithful` | benchmark/cognee-question-gen.ts:505-521 | the written question cites the chain's documents, predicates, labels and canonical answer |
| `QuestionTheorems.ChoiceIsChain` | benchmark/cognee-question-gen.ts:482-558 | every chain drawn is connected, positive, unretracted, in distinct documents, and ends at an entity it never visits before |
| `ChainExactness.DrawableExactly` | benchmark/cognee-question-gen.ts:482-558 | main result: with at most 2^32 positive edges, as many as a draw tells apart, the chains that some random stream draws are exactly the chains of the tier: none is out of reach and nothing else is drawn |
| `ChainExactness.DeadEndDraws` | benchmark/cognee-question-gen.ts:482-558 | on a loaded world the exit for a first edge that nothing follows never runs; an abandoned chain took two draws, or three when it was hard and a third edge could be picked |
| `QuestionTheorems.AttemptIsSound` | benchmark/cognee-question-gen.ts:482-593 | whatever an attempt accepts is such a chain, local and faithfully written |
| `ChainExactness.AttemptExactly` | benchmark/cognee-question-gen.ts:482-593 | a drawn chain becomes a question exactly when its last entity resolves, no earlier document mentions it, its answer is long and rare enough and its key is new; otherwise no key is used up |
| `ChainExactness.ResolvableExactly` | benchmark/cognee-question-gen.ts:366-372 | an entity can be an answer exactly when it has a name of its own of at least five characters and is not a day |
| `QuestionTheorems.FillIsSound` | benchmark/cognee-question-gen.ts:764-777 | every question of a tier is sound and no key is used twice, for every random stream and history |
| `QuestionTheorems.RoutesNeverRepeat` | benchmark/cognee-question-gen.ts:499-503 | no two questions of a tier ask along the same entities |
| `QuestionTheorems.CrashesExactlyWithoutChains` | benchmark/cognee-question-gen.ts:116-118 | building raises an exception exactly when no positive edge can start a chain of that length |
| `GeneratedChains.GeneratedHasChains` | benchmark/cognee-corpus.ts:783-800 | the files of a generated corpus of at least 21 documents beside the optional layer have chains of both lengths |
| `GeneratedChains.GeneratorNeverFails` | benchmark/cognee-question-gen.ts:749-777 | main result: on the files of such a corpus, with or without corrections and fillers, the question generator raises no exception, for every demand, random stream and history |
| `UsedKeys.NothingIsUsedTwice` | benchmark/cognee-question-gen.ts:749-777 | main result: over a whole run all questions of all tiers have different keys, and no document is the evidence of two easy questions or the evidence of one and the key of a negative one |
| `TierExactness.EasyEdgesExactly` | benchmark/cognee-question-gen.ts:397-401 | easy questions are drawn from every asserted edge of four predicates, one predicate after the other |
| `TierExactness.EasyExactly` | benchmark/cognee-question-gen.ts:403-438 | an easy attempt rests on the first document that mentions the subject and declares the object; without one, or with it or the key used before, nothing happens; otherwise both are used up, and there is a question exactly when the object can be an answer |
| `TierExactness.NegativeExactly` | benchmark/cognee-question-gen.ts:682-706 | a negative attempt makes a question exactly when the note is unused and its subject has a long enough name, and uses up the note and nothing else |
| `TierExactness.CandidatesTakeTurns` | benchmark/cognee-question-gen.ts:606-619 | vendor and project take turns with the number of used keys, and one that cannot be an answer gives way to the other |
| `TierExactness.SupersedeOutcome` | benchmark/cognee-question-gen.ts:598-678 | on any corpus a drawn correction does nothing when it cannot be asked about; otherwise its key is used up, and there is a question, which says what the correction and the link say, exactly when the linking document is there |
| `Distractors.MediumDistracts` | benchmark/cognee-question-gen.ts:504-517 | a medium question is given one distractor, the same relation of the middle entity with another object, exactly when there is one |
| `Distractors.HardDistracts` | benchmark/cognee-question-gen.ts:572-586 | a hard question is given up to two: each leaves a middle entity for another object than the chain does, exactly when there is such an edge |
| `Distractors.EasyDistracts` | benchmark/cognee-question-gen.ts:418-431 | an easy question's distractor says the same of the same subject, with another object, exactly when there is one |
| `Distractors.SupersessionDistracts` | benchmark/cognee-question-gen.ts:648-653 | a supersession question leads away to the overturned document first, and to the same kind of link of another delivery, exactly when there is one |
| `Distractors.WordingTellsNothing` | benchmark/cognee-question-gen.ts:510-579 | the wording of a multi-hop question names its starting entity and depends on nothing else but the relations asked for |
| `QuestionBuilder.Generator.NextEdge` | benchmark/cognee-question-gen.ts:113-118 | one draw below the length picks one edge |
| `QuestionBuilder.Generator.CheckMinimal` | benchmark/cognee-question-gen.ts:331-354 | the two loops of the minimality check |
| `QuestionBuilder.Generator.constructor` | benchmark/cognee-question-gen.ts:749-750 | no draw made and no key used |
| `QuestionBuilder.Generator.Accept` | benchmark/cognee-question-gen.ts:496-504 | the last checks and the remembered key |
| `QuestionBuilder.Generator.DrawMedium` | benchmark/cognee-question-gen.ts:484-489 | the two picks of a medium attempt and the ways it is abandoned |
| `QuestionBuilder.Generator.DrawHard` | benchmark/cognee-question-gen.ts:547-555 | the three picks of a hard attempt and the ways it is abandoned |
| `QuestionBuilder.Generator.BuildChain` | benchmark/cognee-question-gen.ts:482-593 | attempts until a chain is accepted, at most the given number |
| `QuestionBuilder.Generator.TryEasy` | benchmark/cognee-question-gen.ts:403-438 | one easy attempt; document and key count as used even when the answer is then refused |
| `QuestionBuilder.Generator.BuildEasy` | benchmark/cognee-question-gen.ts:396-439 | easy attempts until one is accepted |
| `QuestionBuilder.Generator.ChooseCandidate` | benchmark/cognee-question-gen.ts:611-619 | the rotation over vendor and project, beginning at a place set by the number of used keys |
| `QuestionBuilder.Generator.SupersedeWith` | benchmark/cognee-question-gen.ts:599-678 | what follows a drawn correction; the key counts as used even when the linking document is missing |
| `QuestionBuilder.Generator.BuildSupersession` | benchmark/cognee-question-gen.ts:597-679 | the supersession loop, skipped when there are no corrections |
| `QuestionBuilder.Generator.BuildNegative` | benchmark/cognee-question-gen.ts:683-707 | the negative-evidence loop, skipped when there are no such edges |
| `QuestionBuilder.Generator.BuildDisambiguation` | benchmark/cognee-question-gen.ts:709-723 | the fallback to a retagged medium question |
| `QuestionBuilder.Generator.BuildComplexOne` | benchmark/cognee-question-gen.ts:595-724 | the three mechanisms in turn |
| `QuestionBuilder.Generator.FillTier` | benchmark/cognee-question-gen.ts:764-777 | the main loop of a tier, at most fifty tries per wanted question |
| `QuestionBuilder.Generator.Run` | benchmark/cognee-question-gen.ts:764-777 | the tiers in turn over one random source and one set of used keys |
| `QuestionBuilder.Generator.Generate` | benchmark/cognee-question-gen.ts:749-777 | the main program under the limits of its builders |
| `GroundTruthLint.LintQuestion` | benchmark/cognee-gt-lint.ts:98-216 | the seven checks of one question, in order |
| `GroundTruthLint.LintGroundTruth` | benchmark/cognee-gt-lint.ts:87-225 | the report over all questions, the tier counts, and the verdict |
| `GroundTruthLint.NoMissingDocument` | benchmark/cognee-gt-lint.ts:134-144 | a missing document is reported exactly for a hop whose document is not in the corpus |
| `LintExactness.ReportedExactly` | benchmark/cognee-gt-lint.ts:98-216 | main result: each of the eight checks is reported exactly as often as its condition, written over the question, the rules and the texts, has occasions |
| `LintExactness.ReportedWhenever` | benchmark/cognee-gt-lint.ts:98-216 | so a check is reported if and only if it has an occasion |
| `LintExactness.PrematureExactly` | benchmark/cognee-gt-lint.ts:191-206 | a premature answer is reported exactly on a medium or hard question with the answer in the text of some evidence document but the last |
| `LintExactness.ReportHolds` | benchmark/cognee-gt-lint.ts:87-225 | the report on a list names exactly the checks that have an occasion in some question, under its number and tier |
| `LintExactness.EvidenceIsJoined` | benchmark/cognee-gt-lint.ts:177-180 | the evidence is the texts of the evidence documents in order, joined by blanks |
| `LintExactness.NormaliseExactly` | benchmark/cognee-gt-lint.ts:147-152 | a name is looked for without a leading PT and without a leading word for its kind, trimmed and in lower case |
| `GroundTruthLint.AllowListIsPositive` | benchmark/cognee-gt-lint.ts:122-122 | no allow-listed predicate counts as negative |
| `LintTheorems.NoNegativeRelation` | benchmark/cognee-gt-lint.ts:119-131 | the negative-relation check never fires on an accepted medium or hard question |
| `LintTheorems.ChainIsGrounded` | benchmark/cognee-gt-lint.ts:134-144 | on a well-formed corpus the documents of a chain exist, which is what the missing-document check asks |
| `LintTheorems.NoPrematureAnswer` | benchmark/cognee-gt-lint.ts:191-206 | nor does the premature-answer check, on a well-formed corpus |
| `LintTheorems.SettlesPasses` | benchmark/cognee-gt-lint.ts:98-216 | under the stated condition on a question none of the four settled checks is reported |
| `LintTheorems.SoundSettles` | benchmark/cognee-gt-lint.ts:98-216 | an accepted medium or hard question meets that condition |
| `LintTheorems.ReportPasses` | benchmark/cognee-gt-lint.ts:87-225 | if every question is reported for allowed checks only, so is the list |
| `LintTheorems.HopIsGrounded` | benchmark/cognee-gt-lint.ts:134-168 | on a corpus whose documents name both ends of their relations, no hop of a chain is reported: its document exists and holds the normalised form of both |
| `LintTheorems.AnswerIsInEvidence` | benchmark/cognee-gt-lint.ts:170-180 | there the joined evidence holds the answer |
| `LintTheorems.GroundedPasses` | benchmark/cognee-gt-lint.ts:98-216 | there an accepted medium or hard question can only be reported for its wording |
| `LintTheorems.AnchoredPasses` | benchmark/cognee-gt-lint.ts:98-216 | a question that settles the four checks and is anchored in its documents can only be reported for its wording |
| `LintTheorems.GroundedTiersPassLint` | benchmark/cognee-question-gen.ts:764-777 | and so can a whole medium or hard tier, for every random stream and history |
| `TierTheorems.EasySettles` | benchmark/cognee-question-gen.ts:403-438 | an accepted easy question meets it too |
| `TierTheorems.SupersedeSettles` | benchmark/cognee-question-gen.ts:599-678 | so does a supersession question: both its documents were looked up and neither of its predicates is negative |
| `TierTheorems.NegativeSettles` | benchmark/cognee-question-gen.ts:683-706 | so does a negative-evidence question, which the chain check exempts |
| `TierTheorems.ComplexSettles` | benchmark/cognee-question-gen.ts:595-724 | so does whatever the complex tier returns |
| `TierTheorems.GeneratedQuestionsPassLint` | benchmark/cognee-question-gen.ts:789-797 | main result: for every well-formed corpus, random stream, history and demand on the four tiers, the report on the whole output names no negative relation, missing document, premature answer or short answer |
| `TierTheorems.FillTiersAre` | benchmark/cognee-question-gen.ts:764-777 | whatever holds of every question each mechanism makes holds of every question of the whole run |
| `GroundedTiers.EasyIsAnchored` | benchmark/cognee-question-gen.ts:403-438 | on a corpus whose documents name what they declare, an easy question's document holds both ends of its hop and the answer |
| `GroundedTiers.SupersedeIsAnchored` | benchmark/cognee-question-gen.ts:599-678 | so do the memo and the linking document of a supersession question, when correcting memos name their delivery |
| `GroundedTiers.NegativeIsAnchored` | benchmark/cognee-question-gen.ts:683-706 | so does the note of a negative-evidence question, when notes of absence name both ends |
| `GroundedTiers.GroundedRunPassesLint` | benchmark/cognee-question-gen.ts:789-797 | main result: on such a corpus, for every random stream, history and demand on the four tiers, the report on the whole output names nothing but the wording of questions |
| `SupersessionLinks.RelationIsEdge` | benchmark/cognee-question-gen.ts:223-233 | every relation the corpus builder holds is an edge of the question generator's world, once the files render it under distinct document ids |
| `SupersessionLinks.GeneratedIsLinked` | benchmark/cognee-corpus.ts:1225-1237 | every correction in the files of a generated corpus has its memo, and a positive linking edge for its vendor and its project |
| `SupersessionLinks.SupersedeExactly` | benchmark/cognee-question-gen.ts:599-641 | main result: on the files of any generated corpus a drawn correction makes a question exactly when a candidate resolves, its answer is long and rare enough and its key is new, and otherwise uses nothing up: the exits for a missing memo and a missing link never run |
| `SupersessionLinks.SupersessionWastesNothing` | benchmark/cognee-question-gen.ts:597-641 | so however often it is tried there, a supersession question that is not made leaves every key unused |
| `RetrievalVerdict.HitIsRank` | benchmark/cognee-benchmark-report.ts:220-250 | for every cut-off, the evidence is hit exactly when its rank lies between 1 and the cut-off |
| `RetrievalVerdict.CoverageMonotone` | benchmark/cognee-benchmark-report.ts:220-233 | coverage is monotone in the cut-off |
| `RetrievalVerdict.GradesCount` | benchmark/cognee-benchmark-report.ts:220-240 | hit, coverage and precision as counts: all evidence seen, the share of it seen, the share of chunks that carry some |
| `RetrievalVerdict.FinalHopIsFirst` | benchmark/cognee-benchmark-report.ts:242-243 | in every ranking the final-hop rank is that of the first chunk that carries the last evidence document, and 0 exactly when none does |
| `RetrievalVerdict.RankIsAtLeastHops` | benchmark/cognee-benchmark-report.ts:635-645 | with one document per chunk, h distinct evidence documents are never complete before rank h, in any ordering |
| `RetrievalVerdict.OracleIsOptimal` | benchmark/cognee-benchmark-report.ts:495-511 | the reversed oracle attains rank h and final-hop rank 1 |
| `GradingTheorems.EvidenceIsDistinct` | benchmark/cognee-question-gen.ts:331-354 | the evidence of an accepted medium or hard question is two or three distinct documents |
| `GradingTheorems.OracleIsOptimalOnTier` | benchmark/cognee-benchmark-report.ts:495-511 | so on every question of such a tier the oracle attains final-hop rank 1 and the number of hops, 2 or 3, which no ranking of one-document chunks beats |
| `RetrievalVerdict.GradersAgreeExactly` | benchmark/cognee-bm25-baseline.ts:274-281 | the baseline and the report agree on a hit except when there is neither evidence nor anything in the window |
| `RetrievalVerdict.GradeAt` | benchmark/cognee-benchmark-report.ts:220-240 | hit, coverage and precision at one cut-off |
| `RetrievalVerdict.FindAllEvidenceRank` | benchmark/cognee-benchmark-report.ts:245-253 | the least rank at which all evidence has been seen |
| `RetrievalVerdict.FindFinalHop` | benchmark/cognee-benchmark-report.ts:242-243 | the rank of the first chunk carrying the last hop |
| `RetrievalVerdict.RetrievalVerdict` | benchmark/cognee-benchmark-report.ts:211-257 | the whole verdict for all cut-offs |
| `Hypergeometric.Absorption` | benchmark/cognee-benchmark-report.ts:551-557 | k C(n, k) = n C(n-1, k-1), the identity behind the loop |
| `Hypergeometric.ProductIsQuotient` | benchmark/cognee-benchmark-report.ts:556-557 | the loop product times C(n, k) is C(n-h, k-h) |
| `Hypergeometric.CountSubsets` | benchmark/cognee-benchmark-report.ts:551-557 | an n-set has C(n, k) subsets of size k |
| `Hypergeometric.CountSupersets` | benchmark/cognee-benchmark-report.ts:551-557 | C(n-h, k-h) of them contain a fixed set of h |
| `Hypergeometric.ProductIsFraction` | benchmark/cognee-benchmark-report.ts:542-558 | the loop product is the fraction of k-subsets of the documents that hold the whole evidence set |
| `Hypergeometric.PrintedExpectationIsConditional` | benchmark/cognee-benchmark-report.ts:554-561 | the printed average leaves out evidence sets larger than k, so it is at least the expectation over all questions and equal exactly when none is larger |
| `Hypergeometric.Ratio` | benchmark/cognee-benchmark-report.ts:556-557 | the loop computes the product |
| `AveragePrecision.ContextAveragePrecision` | benchmark/context-precision.ts:4-13 | the loop computes the average, or NaN for verdicts other than 0 and 1 |
| `AveragePrecision.AverageIsNormalised` | benchmark/context-precision.ts:4-13 | the average lies in [0, 1], is 1 exactly when something is relevant and all of it comes first, and 0 exactly when nothing is |
| `AveragePrecision.SwapRaisesAverage` | benchmark/context-precision.ts:7-11 | swapping an adjacent (0, 1) to (1, 0) strictly raises it, whatever stands before and after |
| `QuestionSplit.SplitQuestions` | benchmark/arm-types.ts:113-132 | grouping by text and alternating the groups computes the two sides |
| `QuestionSplit.SplitConserves` | benchmark/arm-types.ts:113-132 | every row lands on one side, as often as it occurs |
| `QuestionSplit.SideTexts` | benchmark/arm-types.ts:124-130 | each side holds exactly every other text in order of first occurrence |
| `QuestionSplit.SplitIsDisjointAndBalanced` | benchmark/arm-types.ts:99-100 | no text is on both sides, and dev has as many texts as held-out or one more |
| `QuestionSplit.DedupeTexts` | benchmark/arm-harness.ts:108-117 | deduplication keeps the texts and their order, one row each |
| `QuestionSplit.SplitCommutesWithDedupe` | benchmark/arm-harness.ts:108-117 | deduplicating then splitting is splitting then deduplicating each side |
| `QuestionSplit.DedupeByText` | benchmark/arm-harness.ts:108-117 | the seen-set loop keeps the first row of every text |
| `QuestionSplit.NoConflictsExactly` | benchmark/arm-types.ts:151-156 | no row is counted as conflicting exactly when rows of one text always have the same joined evidence |
| `QuestionSplit.DuplicateStats` | benchmark/arm-types.ts:135-169 | the statistics, with straddlingTexts always 0 |

## Left out

- Apportionment.BuildQuotas: works with exact shares; the rounding of `(weight / total) * budget` in doubles, which can
  turn equal remainders into unequal ones, is not modelled.
- Bm25.Score: works with exact reals; rounding of the logarithm and the sums is not modelled, and parameters are limited
  to k1 >= 0 and 0 <= b <= 1, outside which the denominator can vanish.
- Bm25.Accumulate: the same limits.
- IngestRecovery.LedgerIsAPrefix: a flush replaces the file at once; a write torn by a crash is not modelled.
- CoveragePool.CollectionIsScheduleFree: assumes no file-system failure inside a section; `RunLeaves` says what is
  collected with failures, which then depends on the schedule.
- CoverageTotals.Total: the tally filtered by reachability, kept by the same loop, is not modelled.
- LcovMerge.ParseLcov: line prefixes, digits and the normalisation of paths are taken as already parsed records.
- QuestionWorld.LoadWorld: the table of frequent tokens is an arbitrary predicate.
- GroundTruthLint.LintQuestion: the raw-identifier pattern is a parameter, and case folding is that of ASCII.
- QuestionTheorems.FillIsSound: the frequent-token test and the day number read from a stale text are arbitrary
  functions, so the half-percent threshold is not modelled.
- SseReader.ConsumeSse: chunks are decoded strings and the JSON parser is a parameter that yields string fields; a tool,
  status, code or message that is not a string is not modelled.
- The 32-bit generators themselves: any stream of words stands for them.
- Prose templates and `spellNumber`: documents keep kind, ordinal, drawn numbers and relations, and the files that
  `SupersessionLinks` reads carry them with arbitrary texts and entity names.
- The regular expressions of the tokeniser, the identifier extractor and the coverage parser: token lists, identifier
  lists and parsed records are inputs.
- The library sort: insertion sort stands in for it, which is the same list because the order is strict and total.
- Number labels in question ids, answer aliases and token lists of a question: copies of fields that are modelled.
- The skip-ingest path, the post-ingest probe, server restarts and timing fields: they do not change the ledger.
- The abort after repeated rate limits: it is caught inside the bounded map and proves nothing about stopping.
- The reachability filter beyond its comment scan: the scanner does not know string literals.
- Tier-interleaved limits, quantiles, latency statistics, report layout, LLM judges, SQL and live runners, and everything
  outside the benchmark and the coverage script.
