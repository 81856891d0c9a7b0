# Knowledge assistant retrieval core, modelled in Dafny

The knowledge assistant is a browser application. Users upload documents and then ask
questions about them, mostly in Chinese. Behind the pages sits a retrieval and answering stack.

- A BM25 inverted index (`bm25SearchEngine.js`) tokenizes documents with field weights,
  keeps postings and document frequencies consistent as documents come and go, and ranks
  documents for a query.
- A query analyser (`queryAnalyzer.js`) classifies a query by rule tables. It optionally
  merges in an analysis that a language model returned as JSON, after validating that JSON
  against allow-lists, and caches the merged result.
- The coordinating RAG service (`ragDocumentService.js`) puts a time-limited result cache, a
  fast path for well-known questions, and semantic and lexical search with score merging
  and re-ranking in front of both.
- Around these sit answer synthesis and embedding helpers, several alternative local search
  engines and document processors, storage fallback, and small state machines:
  rate limiters, a one-time-code store and a bounded debug log.

Each source file is one Dafny module, in a file of the same name:

| file | module |
|---|---|
| `common.dfy` | `Common`: optional values, thrown errors, filters, parsed JSON, and the cache keys (both as written and corrected) |
| `text.dfy` | `Text`: the JavaScript string operations the services use |
| `seqs.dfy` | `Seqs`: sorting, cutting, filtering and de-duplicating sequences |
| `bm25.dfy` | `Bm25`: `bm25SearchEngine.js` |
| `query_analyzer.dfy` | `QueryAnalyzer`: `queryAnalyzer.js` |
| `enhanced_query.dfy` | `EnhancedQuery`: `enhancedQueryProcessor.js` |
| `document_specific.dfy` | `DocumentSpecific`: `documentSpecificSearch.js` |
| `embedding.dfy` | `Embedding`: `embeddingService.js` |
| `rag.dfy` | `Rag`: `ragDocumentService.js` |
| `response.dfy` | `ResponseGenerator`: `intelligentResponseGenerator.js` |
| `direct_answer.dfy` | `DirectAnswer`: `directAnswerService.js` |
| `debug_log.dfy` | `DebugLog`: `debugService.js` |
| `mock_sms.dfy` | `MockSms`: `mockSmsService.js` |
| `security.dfy` | `Security`: `security.js` |
| `llm.dfy` | `Llm`: `llmService.js` |
| `openai.dfy` | `OpenAi`: `openaiService.js` |
| `simple_document.dfy` | `SimpleDocument`: `simpleDocumentService.js` |
| `local_document.dfy` | `LocalDocument`: `localDocumentService.js` |
| `storage_adapter.dfy` | `StorageAdapter`: `storageAdapter.js` |
| `enhanced_document.dfy` | `EnhancedDocument`: `enhancedDocumentService.js` |
| `local_intelligent_search.dfy` | `LocalIntelligentSearch`: `localIntelligentSearch.js`, document processing |
| `local_search_results.dfy` | `LocalSearchResults`: `localIntelligentSearch.js`, search, ranking, storage and the service |
| `intelligent_structure.dfy` | `IntelligentStructure`: `intelligentDocumentProcessor.js`, the structure pass |
| `intelligent_knowledge.dfy` | `IntelligentKnowledge`: `intelligentDocumentProcessor.js`, knowledge points, question and answer pairs, chunks |
| `intelligent_processor.dfy` | `IntelligentProcessor`: `intelligentDocumentProcessor.js`, reading files, the search and the service |

Code that updates state in place is a `class` with `modifies` clauses. Pure string and
ranking logic is modelled as functions and lemmas.

The clock (`Date.now()`), random numbers, the language model, the embedding model, the
network and browser storage are parameters of the operations that use them. JavaScript
`Math.log` is the parameter `ln`. Scores are `real`s.

## Model

| member | source | states |
|---|---|---|
| Common.OverrideFilters | src/services/queryAnalyzer.js:294 | `{...rule.filters, ...llm.filters}`: each key present in the model's filters wins, every other key keeps the rule value |
| Common.CacheKey | src/services/queryAnalyzer.js:368-371 | the key as written, `btoa(text).substring(0, 32)`: defined exactly when every character is at most U+00FF |
| Common.CacheKeyCollides | src/services/queryAnalyzer.js:368-371 | as written, two Latin-1 texts that share their first 24 characters get the same key |
| Common.CacheKeyRejectsCjk | src/services/queryAnalyzer.js:368-371 | as written, any text containing a character above U+00FF (every Chinese character) has no key: btoa throws |
| Common.ExactKeyInjective | src/services/queryAnalyzer.js:368-371 | the corrected key: equal keys come only from equal lists of parts |
| Common.ExactKeyDecodes | src/services/queryAnalyzer.js:368-371 | the corrected key is decoded back into exactly the parts it was built from |
| Bm25.Tokenize | src/services/bm25SearchEngine.js:64-76 | every token is at least 2 characters, lower case, made only of Chinese characters, ASCII letters and digits, not a stop word and not all digits |
| Bm25.TokenizeRoundTrip | src/services/bm25SearchEngine.js:64-76 | tokenizing the space-joined tokens of a text gives the same tokens back |
| Bm25.RetokenizeTokens | src/services/bm25SearchEngine.js:64-76 | any list of tokens joined with spaces tokenizes to itself |
| Bm25.Preprocess | src/services/bm25SearchEngine.js:43-61 | the document length is 3·title + 1·content + 2·tags + 1.5·filename token counts |
| Bm25.TermFrequencies | src/services/bm25SearchEngine.js:80-98 | the loop over the four fields yields exactly the document's terms, each with its weighted total and per-field counts |
| Bm25.CountTokensSpec | src/services/bm25SearchEngine.js:85-97 | counting one field adds the field's weight times the number of occurrences and raises that field's count by it |
| Bm25.Bm25SearchEngine.constructor | src/services/bm25SearchEngine.js:3-26 | a new engine is empty and consistent |
| Bm25.Bm25SearchEngine.AddDocument | src/services/bm25SearchEngine.js:29-40 | stores the processed document, adds one posting per distinct term, adds 1 to each term's df and recomputes the stats; a fresh id keeps the index consistent |
| Bm25.Bm25SearchEngine.UpdateInvertedIndex | src/services/bm25SearchEngine.js:79-117 | one posting per distinct term with the weighted tf, the field counts and the length, and df raised by exactly 1 per distinct term |
| Bm25.Bm25SearchEngine.AddPostings | src/services/bm25SearchEngine.js:100-111 | the postings loop adds exactly the document's postings and leaves other terms alone |
| Bm25.Bm25SearchEngine.CountDocument | src/services/bm25SearchEngine.js:113-116 | the df loop adds 1 for every term of the document |
| Bm25.AddKeepsIndex | src/services/bm25SearchEngine.js:79-117 | adding a fresh id keeps df(t) = number of postings of t, postings only for stored documents, and every term of every document indexed |
| Bm25.ReAddMiscounts | src/services/bm25SearchEngine.js:115 | re-adding a stored id without removing it first leaves df one above the number of postings for a shared term |
| Bm25.Bm25SearchEngine.UpdateStats | src/services/bm25SearchEngine.js:120-128 | totalDocs is the number of documents and avgDocLength their mean length; an empty corpus keeps the old average |
| Bm25.Bm25SearchEngine.RemoveDocument | src/services/bm25SearchEngine.js:253-287 | an absent id changes nothing; otherwise the document and all its postings go, a term left without postings leaves both maps, other terms' df is reset to their posting counts, the stats are recomputed and consistency is kept |
| Bm25.Bm25SearchEngine.RemovePostings | src/services/bm25SearchEngine.js:265-278 | the loop over the document's terms removes its postings and drops or recounts each term |
| Bm25.RemoveKeepsIndex | src/services/bm25SearchEngine.js:253-287 | removal keeps df(t) = number of postings of t and leaves no posting for the removed id |
| Bm25.Bm25SearchEngine.UpdateDocument | src/services/bm25SearchEngine.js:290-293 | remove then add: the id ends up with the new processed document and consistency is kept |
| Bm25.Bm25SearchEngine.Clear | src/services/bm25SearchEngine.js:379-385 | every map is emptied and the stats return to their initial values |
| Bm25.NoFiltersPassAll | src/services/bm25SearchEngine.js:194-230 | a search without filters lets every document through |
| Bm25.TimeWindowsNest | src/services/bm25SearchEngine.js:196-211 | 'recent' and 'week' accept the same documents, 'week' implies 'month', and 'all' or an empty range accepts everything |
| Bm25.NormalizedTf | src/services/bm25SearchEngine.js:158-162 | the saturated term frequency lies strictly between 0 and k1 + 1 |
| Bm25.Bm25SearchEngine.ScoreQuery | src/services/bm25SearchEngine.js:139-177 | the score loop produces exactly the BM25 score map `ScoreMap`: one entry for each document that passes the filters and contains a query term |
| Bm25.Bm25SearchEngine.AddTermScores | src/services/bm25SearchEngine.js:147-175 | one query term adds its boosted BM25 contribution to every eligible document and changes nothing else |
| Bm25.ScoreMapDocuments | src/services/bm25SearchEngine.js:146-177 | only stored documents receive a score |
| Bm25.RawScoreOutside | src/services/bm25SearchEngine.js:146-177 | a document that no query term selects has raw score 0 |
| Bm25.SelectTopSpec | src/services/bm25SearchEngine.js:179-188 | the selected entries have score at least minScore, are distinct and sorted by score, number at most topK, and any qualifying document left out is outranked by topK selected ones |
| Bm25.Bm25SearchEngine.Search | src/services/bm25SearchEngine.js:131-191 | a query without tokens gives []; otherwise the hits are ranked as above, and each reported score is min(raw / number of query terms, 1) with the stored document and its matched terms |
| Bm25.Bm25SearchEngine.GetMatchedTerms | src/services/bm25SearchEngine.js:233-250 | the matched terms of a document are computed as specified |
| Bm25.MatchedTermsSound | src/services/bm25SearchEngine.js:233-250 | each matched term is a query term the document contains, reported with its weighted frequency |
| Bm25.Bm25SearchEngine.GetSuggestions | src/services/bm25SearchEngine.js:296-315 | [] when the query has no token; otherwise indexed terms that start with the last token and differ from it, distinct, by decreasing df, at most limit, and any term left out is outranked by limit suggestions |
| Bm25.Bm25SearchEngine.CollectSuggestions | src/services/bm25SearchEngine.js:303-309 | the scan collects every matching term exactly once with its df |
| Bm25.Bm25SearchEngine.GetPopularTerms | src/services/bm25SearchEngine.js:318-323 | the terms with the highest df, each with its df, distinct, sorted, at most limit |
| Bm25.PopularRanked | src/services/bm25SearchEngine.js:318-323 | sorting the (term, df) pairs and cutting at limit ranks the terms |
| Bm25.Bm25SearchEngine.ExportIndex | src/services/bm25SearchEngine.js:345-358 | the snapshot lists every entry of each map, and of each posting map, exactly once, plus the stats |
| Bm25.Bm25SearchEngine.ImportIndex | src/services/bm25SearchEngine.js:361-376 | the maps are rebuilt from the snapshot; importing an export of the current state changes nothing |
| Bm25.RestoreExport | src/services/bm25SearchEngine.js:345-376 | importing an export gives back the same index |
| QueryAnalyzer.ExtractEntitiesWithRules | src/services/queryAnalyzer.js:132-170 | the category, proper-noun and Chinese-keyword matches are collected, keyed and ranked exactly as `RuleEntities` defines them |
| QueryAnalyzer.RuleEntitiesSpec | src/services/queryAnalyzer.js:132-170 | at most 8 entities, no two equal ignoring case, ordered by confidence, each occurring in the lower-cased query, and any entity left out ranks no higher than the 8 kept |
| QueryAnalyzer.ByKeyKeys | src/services/queryAnalyzer.js:161-164 | keying by the lower-cased text keeps every key once |
| QueryAnalyzer.DetectIntentOrder | src/services/queryAnalyzer.js:173-188 | problem solving, how-to, concept explanation and information seeking are tested in that order, the first match wins, and information seeking is the default |
| QueryAnalyzer.DetermineSearchType | src/services/queryAnalyzer.js:191-204 | keyword iff an exact-match marker occurs; otherwise semantic iff the intent is concept explanation, the query is longer than 20 or a similarity word occurs; otherwise hybrid |
| QueryAnalyzer.TimeRangeOf | src/services/queryAnalyzer.js:207-222 | recent before week before month, else all |
| QueryAnalyzer.PriorityOf | src/services/queryAnalyzer.js:230-235 | high words win over low words, else medium |
| QueryAnalyzer.DocTypesOf | src/services/queryAnalyzer.js:224-229 | the document types are distinct lower-case listed types that occur in the query |
| QueryAnalyzer.AssessComplexity | src/services/queryAnalyzer.js:241-254 | complex iff longer than 50, more than 10 words, a logical connective or more than one question mark; simple iff not complex, at most 20 long and at most 5 words |
| QueryAnalyzer.ShortQueriesAreSimple | src/services/queryAnalyzer.js:241-254 | a short single-word query without connectives or repeated question marks is simple |
| QueryAnalyzer.GenerateSuggestedQueries | src/services/queryAnalyzer.js:257-277 | at most 3 suggestions, built from the first two entities, with the FAQ suggestions for problem queries |
| QueryAnalyzer.RuleAnalysis | src/services/queryAnalyzer.js:113-129 | the rule analysis carries the rule entities, the detected intent, confidence 0.7 and source 'rule-based' |
| QueryAnalyzer.ConceptQueriesAreSemantic | src/services/queryAnalyzer.js:113-129 | a concept question without exact-match markers is searched semantically |
| QueryAnalyzer.ValidateAnalysisResult | src/services/queryAnalyzer.js:314-347 | throws iff the value is null or intent, entities or searchType is missing or falsy; otherwise the result has an allowed intent and search type and a confidence in [0,1] |
| QueryAnalyzer.ValidationKeeps | src/services/queryAnalyzer.js:314-347 | an allowed intent or search type is kept and any other becomes information seeking or hybrid; non-array entities become []; a missing or zero confidence becomes 0.5 and one in (0,1] is kept |
| QueryAnalyzer.Clamp01 | src/services/queryAnalyzer.js:341 | clamping to [0,1] keeps values already inside and maps NaN to NaN |
| QueryAnalyzer.ExtractStructuredInfo | src/services/queryAnalyzer.js:350-365 | the text fallback is hybrid with confidence 0.6, the detected intent and the rule entities |
| QueryAnalyzer.PerformLlmAnalysis | src/services/queryAnalyzer.js:50-69 | a response that does not parse or does not validate gives the text fallback; the result is always valid |
| QueryAnalyzer.MergeEntities | src/services/queryAnalyzer.js:307-311 | throws iff a model entity is not a string |
| QueryAnalyzer.MergeEntitiesSound | src/services/queryAnalyzer.js:307-311 | at most 10 entities, all distinct, each a lower-cased model or rule entity |
| QueryAnalyzer.MergeEntitiesComplete | src/services/queryAnalyzer.js:307-311 | when at most 10 distinct entities exist, every one of them is kept |
| QueryAnalyzer.MergeEntitiesLlmFirst | src/services/queryAnalyzer.js:307-311 | the model's entities come first, in their own order |
| QueryAnalyzer.MergeAnalysis | src/services/queryAnalyzer.js:280-304 | no model analysis or confidence below 0.5 gives the rule analysis tagged 'rule-based'; otherwise a hybrid analysis whose confidence is the larger of the two, whose filters are the rule filters overridden key by key, with at most 5 suggestions and 10 entities |
| QueryAnalyzer.MergeSound | src/services/queryAnalyzer.js:280-304 | a merged analysis has an allowed intent and search type and a confidence in [0.7, 1] |
| QueryAnalyzer.FreshAnalysisSound | src/services/queryAnalyzer.js:22-47 | a failed model call falls back to the rule analysis, which is not cached; only merged results are marked for caching |
| QueryAnalyzer.CacheKeyAsWritten | src/services/queryAnalyzer.js:368-371 | the key as written exists exactly when the query and the context are Latin-1 |
| QueryAnalyzer.ChineseQueryHasNoKey | src/services/queryAnalyzer.js:368-371 | as written, a query holding a Chinese character makes key generation throw; `analyzeQuery` computes the key before its try block (line 24), so it rejects |
| QueryAnalyzer.ContextIgnoredAsWritten | src/services/queryAnalyzer.js:368-371 | as written, once the query has 24 characters two different contexts share one cache entry |
| QueryAnalyzer.AnalysisKeyInjective | src/services/queryAnalyzer.js:368-371 | the corrected key differs for different (query, context) pairs |
| QueryAnalyzer.Analyzer.constructor | src/services/queryAnalyzer.js:5-19 | the cache starts empty |
| QueryAnalyzer.Analyzer.AnalyzeQuery | src/services/queryAnalyzer.js:22-47 | a cached analysis is returned and the cache is unchanged; otherwise a fresh analysis is returned and cached only when the merge succeeded; every analysis handed out is sound |
| QueryAnalyzer.Analyzer.ClearCache | src/services/queryAnalyzer.js:374-376 | the cache is emptied |
| EnhancedQuery.FirstQuestionType | src/services/enhancedQueryProcessor.js:67-74 | the type returned is 'general' or the type of a pattern that matches the start of the query |
| EnhancedQuery.FirstQuestionTypeIsFirst | src/services/enhancedQueryProcessor.js:67-74 | patterns are tried in table order: the type returned is that of the first pattern matching the start of the query, and 'general' exactly when none matches |
| EnhancedQuery.DetermineSearchStrategy | src/services/enhancedQueryProcessor.js:120-132 | each focused strategy comes from exactly one question type (howTo, what, where); why-questions and general ones are searched 'hybrid' |
| EnhancedQuery.ExpandSynonymsSpec | src/services/enhancedQueryProcessor.js:77-92 | the expansion has no duplicates, begins with the query's distinct words, and holds exactly those words plus the key and synonyms of every entry that some word matches through its key or a synonym |
| EnhancedQuery.AddWordSynonyms | src/services/enhancedQueryProcessor.js:83-88 | one word against the table adds, entry by entry, the synonyms and then the key of each matching entry to the set |
| EnhancedQuery.ExpandSynonyms | src/services/enhancedQueryProcessor.js:77-92 | the nested loops compute the expansion specified above |
| EnhancedQuery.WeightOf | src/services/enhancedQueryProcessor.js:100-109 | a word weighs 3, 2 or 1 by the first tier that has a keyword it contains, and 0 when none does |
| EnhancedQuery.ExtractFocusKeywords | src/services/enhancedQueryProcessor.js:95-117 | the loop and the sort compute the focus keywords specified below |
| EnhancedQuery.FocusKeywordsSpec | src/services/enhancedQueryProcessor.js:95-117 | the focus keywords are sorted by weight, descending; each is a query word with its tier weight in 1..3; every query word of positive weight is among them |
| EnhancedQuery.EnhanceQuery | src/services/enhancedQueryProcessor.js:42-64 | the enhanced query keeps the original, carries the synonym expansion, and its strategy is the one its question type determines |
| EnhancedQuery.GenerateOptimizedQueries | src/services/enhancedQueryProcessor.js:135-178 | the original query comes first with weight 1.0; an expanded query (the first five expanded terms, weight 0.8) exists iff there are expanded terms; a focused query (the three heaviest keywords, weight 0.9) exists iff there are focus keywords; the domain query (weight 1.2) exists iff the query contains 人设 or 创建 |
| EnhancedQuery.ExtractContextSpec | src/services/enhancedQueryProcessor.js:234-238 | the context of an occurrence contains it and is at most 200 characters longer than it |
| EnhancedQuery.OccurrencesSound | src/services/enhancedQueryProcessor.js:222-229 | every position found is a case-folded occurrence of the term at or after the start |
| EnhancedQuery.OccurrencesOrdered | src/services/enhancedQueryProcessor.js:222-229 | positions increase and are at least the term's length apart: the occurrences found do not overlap |
| EnhancedQuery.OccurrencesComplete | src/services/enhancedQueryProcessor.js:222-229 | every occurrence is found or overlaps one found |
| EnhancedQuery.OccurrencesCount | src/services/enhancedQueryProcessor.js:222-229 | as many positions are found as the global regular expression of the term counts |
| EnhancedQuery.MatchesAtSpec | src/services/enhancedQueryProcessor.js:223-228 | one match record per position, carrying the term, the position, the type and the context at that position |
| EnhancedQuery.FindTermMatches | src/services/enhancedQueryProcessor.js:218-229 | the `indexOf` loop yields the match records of exactly the positions specified above, in order |
| EnhancedQuery.FindMatches | src/services/enhancedQueryProcessor.js:211-231 | the matches of each term in turn; every term must be non-empty, since an empty term never advances the loop |
| EnhancedQuery.CalculateRelevance | src/services/enhancedQueryProcessor.js:270-281 | the sum over the terms of the occurrence count in the lower-cased line times a tenth of the term's length |
| EnhancedQuery.WindowsSpec | src/services/enhancedQueryProcessor.js:245-264 | every window is the [i-2, i+3) window of a line holding a term, with line number i+1 and that line's relevance, in line order |
| EnhancedQuery.WindowsComplete | src/services/enhancedQueryProcessor.js:245-264 | every line holding a term gets its window |
| EnhancedQuery.ExtractRelevantSections | src/services/enhancedQueryProcessor.js:241-267 | the loop computes the five most relevant windows of the text's lines |
| EnhancedQuery.TopWindowsSpec | src/services/enhancedQueryProcessor.js:241-267 | at most five windows of distinct keyword lines, by decreasing relevance; a keyword line left out means five windows were kept, each at least as relevant as the one left out |
| DocumentSpecific.SectionScoreSpec | src/services/documentSpecificSearch.js:118-163 | the section score lies in [0, 10], is positive exactly when some term hit the section, and is the cap or the boosted total weight of the hits (3 per title hit, 2 per related keyword pair, 0.5 per content occurrence) |
| DocumentSpecific.TitleHitsSpec | src/services/documentSpecificSearch.js:125-131 | a title hit weighs 3 and is recorded exactly for each expanded term the lower-cased title contains |
| DocumentSpecific.KeywordHitsSpec | src/services/documentSpecificSearch.js:134-142 | a keyword hit weighs 2 and is recorded exactly for each (keyword, term) pair where one contains the other |
| DocumentSpecific.HowToBoost | src/services/documentSpecificSearch.js:155-160 | a how-to question on a feature description scores one and a half times what another question type scores, capped at 10 |
| DocumentSpecific.CalculateSectionRelevance | src/services/documentSpecificSearch.js:118-163 | the three scoring loops yield exactly the specified hits and score |
| DocumentSpecific.CandidatesSpec | src/services/documentSpecificSearch.js:167-189 | each candidate is a trimmed sentence of at least 10 characters containing at least one term, counted by the terms it contains, and every such sentence is a candidate |
| DocumentSpecific.GreedySpec | src/services/documentSpecificSearch.js:194-201 | the greedy selection takes a prefix of the ordered sentences whose summed lengths fit the budget, the next sentence would not fit, and it is empty exactly when nothing fits |
| DocumentSpecific.RelevantContentSpec | src/services/documentSpecificSearch.js:166-204 | the sentences by decreasing term count, taken greedily, each followed by '。'; when none is taken, the first maxLength characters and '...' |
| DocumentSpecific.ExtractRelevantContent | src/services/documentSpecificSearch.js:166-204 | the split, scan, sort and greedy loops compute the relevant content specified above |
| DocumentSpecific.PersonaSearchSpec | src/services/documentSpecificSearch.js:73-115 | the search reports exactly the sections scoring above zero, sorted by decreasing score, with totalResults equal to their number |
| DocumentSpecific.SearchPersonaCreation | src/services/documentSpecificSearch.js:73-115 | the section loop computes that search |
| DocumentSpecific.GenerateSpecificAnswer | src/services/documentSpecificSearch.js:207-237 | the six-step persona answer exactly when the query contains both 怎么 and 人设, the generic sentence otherwise |
| Embedding.SimpleTokenizeSpec | src/services/embeddingService.js:101-108 | exactly maxLength ids: [CLS] 101, the lower-cased codes of the first maxLength - 2 characters, [SEP] 102, then 0 padding; stripping the markers reads the kept codes back |
| Embedding.TokenId | src/services/embeddingService.js:85-88 | a word's id is never 0: an id of 0 is falsy and falls through to [UNK] or 100 |
| Embedding.AdvancedTokenize | src/services/embeddingService.js:74-98 | the word loop, its break at maxLength - 2 words and the padding loop compute the vocabulary tokens |
| Embedding.AdvancedTokensSpec | src/services/embeddingService.js:74-98 | exactly maxLength ids: [CLS], the non-zero ids of the first maxLength - 2 words, [SEP], then padding |
| Embedding.TokenizeWith | src/services/embeddingService.js:65-71 | the vocabulary tokenizer once a tokenizer is loaded, the character one otherwise; both start with [CLS] and have length maxLength |
| Embedding.Int32 | src/services/embeddingService.js:189-191 | ToInt32 lands in [-2^31, 2^31) |
| Embedding.SimpleHash | src/services/embeddingService.js:186-194 | the 32-bit loop equals the exact polynomial hash 31·h + c taken modulo 2^32 as a signed integer, then its absolute value, at most 2^31 |
| Embedding.SeedsInRange | src/services/embeddingService.js:175-180 | every seed after the first lies in [0, 233280), so every component lies in [-1, 1) |
| Embedding.HashComponents | src/services/embeddingService.js:171-183 | 384 components (one per dimension), the i-th being the (i+1)-th seed from the text's hash scaled into [-1, 1) |
| Embedding.CosineSimilarity | src/services/embeddingService.js:197-213 | throws exactly when the lengths differ |
| Embedding.CosineSymmetric | src/services/embeddingService.js:197-213 | the similarity of a and b is that of b and a |
| Embedding.CosineSelf | src/services/embeddingService.js:197-213 | a non-zero vector has similarity 1 with itself, given a true square root |
| Embedding.CosineLoop | src/services/embeddingService.js:197-213 | the accumulating loop computes the dot product and both squared norms of the definition |
| Embedding.EmbeddingService.constructor | src/services/embeddingService.js:7-13 | no session, no tokenizer, not loaded |
| Embedding.EmbeddingService.Init | src/services/embeddingService.js:16-62 | a no-op once loaded; otherwise ends loaded, with a session exactly when the model could be created and the tokenizer's vocabulary when it could be fetched |
| Embedding.EmbeddingService.Embed | src/services/embeddingService.js:111-145 | without a session, or when inference throws, the hash vector of the text; otherwise the encoder's vector for the text's tokens |
| Embedding.EmbedBatch | src/services/embeddingService.js:216-233 | one embedding per text, in the texts' order |
| Embedding.ScoreAll | src/services/embeddingService.js:236-250 | throws exactly when some document's embedding differs in length from the query's; otherwise one scored copy of every document, in order |
| Embedding.SemanticSearchSpec | src/services/embeddingService.js:236-256 | min(topK, number of documents) documents, sorted by decreasing similarity, each an input document scored by its similarity to the query |
| Embedding.KMeansShapeSpec | src/services/embeddingService.js:272-344 | fewer documents than k gives one cluster holding them all; otherwise at most k non-empty clusters that together hold every document exactly once |
| Rag.BestOfSpec | src/services/ragDocumentService.js:276-290 | the best-chunk loop throws exactly when a chunk lacks an embedding of the query's dimension; otherwise its score is at least 0 and every chunk's similarity, a positive score belongs to the first chunk reaching it, and score 0 comes with the empty chunk |
| Rag.BestChunk | src/services/ragDocumentService.js:276-290 | the chunk loop computes that best chunk |
| Rag.SemanticCandidatesSpec | src/services/ragDocumentService.js:268-306 | when nothing throws, the hits are exactly the documents with embedding data whose best chunk scores above 0.3 |
| Rag.PerformSemanticSearch | src/services/ragDocumentService.js:261-318 | the document loop computes the semantic search: [] without entities or after any failure, else the candidates by decreasing score, at most maxResults |
| Rag.SemanticSearchSpec | src/services/ragDocumentService.js:261-318 | at most maxResults semantic hits scoring above 0.3, sorted by decreasing score, each from a qualifying document |
| Rag.SemanticSearchComplete | src/services/ragDocumentService.js:310-312 | a qualifying document left out is outranked by maxResults hits |
| Rag.EnsuredDocsSpec | src/services/ragDocumentService.js:360-384 | already indexed documents keep their entry, every listed document ends up indexed, and nothing else is added |
| Rag.RagService.EnsureUserDocumentsInBM25 | src/services/ragDocumentService.js:360-384 | indexes exactly the listed documents whose id the engine lacks, with their joined chunks as content, and keeps the engine consistent |
| Rag.SnippetSpec | src/services/ragDocumentService.js:500-504 | a text of at most 200 characters is returned whole; a longer one is cut to 200 characters followed by '...' |
| Rag.KeywordSearchAsWrittenLosesHits | src/services/ragDocumentService.js:500-504 | as written, any keyword hit makes the snippet throw, so the keyword search returns [] even when the engine found documents |
| Rag.RagService.PerformKeywordSearch | src/services/ragDocumentService.js:321-357 | indexes the user's documents first, then returns the snippets of the engine's ranking of the joined entities over the updated index (minimum score 0.1, at most maxResults): distinct ids, best first, scores in (0, 1], and no qualifying document left out while there is room |
| Rag.KeywordRankedKeeps | src/services/ragDocumentService.js:327-351 | with the snippets cut from the document's text, a document the engine scores at least 0.1 is among the keyword hits unless maxResults hits fill the list, so a match yields at least one hit |
| Rag.Lookup | src/services/ragDocumentService.js:413 | a found entry carries the id asked for, and nothing is found exactly when no entry has that id |
| Rag.PutLookup | src/services/ragDocumentService.js:413 | after setting an entry, its id finds it and every other id finds what it found before |
| Rag.MergeSearchResults | src/services/ragDocumentService.js:412-447 | the two loops fill the id-keyed map and the result is its values sorted by final score, at most maxResults |
| Rag.MergedLookupSpec | src/services/ragDocumentService.js:412-447 | with no id repeated within a list, an id found only semantically has final score 0.6 s, only by keyword 0.4 k, by both max(0.6 s, 0.6 s + 0.4 k) with both sources and the keyword snippet exactly when k > s; no other id appears |
| Rag.MergeSearchResultsSpec | src/services/ragDocumentService.js:412-447 | with input scores in [0, 1], at most maxResults entries with distinct ids, sorted by final score, every final score in [0, 1] |
| Rag.AdjustedScore | src/services/ragDocumentService.js:450-478 | the base score (final score when non-zero, else score) times 1.2 for a problem_solving hit uploaded less than 7 days ago, 1.1 for a how_to hit over 300 characters, unchanged for any other intent |
| Rag.ReRankSpec | src/services/ragDocumentService.js:450-482 | reranking keeps every result with its adjusted score (a permutation) and sorts them by it |
| Rag.AnyPatternMatches | src/services/ragDocumentService.js:190-200 | true exactly when some pattern's parts occur in order within one line of the query |
| Rag.CombinedHitsSpec | src/services/ragDocumentService.js:203-225 | at most 10 hits: the curated sections in order, then the user's hits tagged user_document; empty only when both are |
| Rag.PerformSpecificSearch | src/services/ragDocumentService.js:203-225 | the curated section search of the query, combined with the user's basic results |
| Rag.SpecificPath | src/services/ragDocumentService.js:81-109 | the fast path is taken exactly for a specific query with at least one hit; it returns the curated sections followed by the user's hits (at most 10), the canned answer for the query, confidence 0.95 and type document_specific |
| Rag.SearchKeySeparatesUsers | src/services/ragDocumentService.js:506-508 | the corrected key differs for different users |
| Rag.SearchKeyAsWrittenFails | src/services/ragDocumentService.js:506-508 | as written, a query with a character above U+00FF has no key (btoa throws), and a Latin-1 query of 24 characters gets the same key for every user |
| Rag.RagService.constructor | src/services/ragDocumentService.js:10-18 | not initialised, empty cache, zero metrics |
| Rag.RagService.UpdateMetrics | src/services/ragDocumentService.js:525-535 | one more query, the average moved halfway to the new time, the hit rate moved halfway to 1 on a hit; the rate stays in [0, 1] |
| Rag.RagService.PerformHybridSearch | src/services/ragDocumentService.js:228-258 | 'semantic' and 'keyword' run one search with maxResults; anything else runs both with ceil(maxResults / 2) each and merges by id, best final score first; the keyword part is the engine's ranking over the updated index; never more than maxResults; the keyword index is untouched by a 'semantic' search and otherwise gains the user's documents (`SearchedDocs`) |
| Rag.RagService.FullPath | src/services/ragDocumentService.js:113-153 | the analysis's type and confidence; the hybrid results reranked, the generator's answer to all of them, the first five returned (sorted by adjusted score) and the hybrid count as the total; the keyword index changes only as the hybrid search changes it (`SearchedDocs`) |
| Rag.RagService.Answer | src/services/ragDocumentService.js:81-186 | the fast path when it finds hits, the basic-search fallback (the query, the basic results, their count as the total, confidence 0.5, uncached) when the analysis fails, the full path otherwise; fast and full results are cached when caching is on; the keyword index changes only on the full path (`AnsweredDocs`) |
| Rag.RagService.IntelligentSearch | src/services/ragDocumentService.js:57-187 | rejects exactly when storage fails to initialise; a cached result younger than five minutes is returned unchanged, with the cache and keyword index untouched; a rejection touches neither; otherwise as Answer states |
| ResponseGenerator.ContextItems | src/services/intelligentResponseGenerator.js:66-72 | one item per result up to min(results, maxSources), each the numbered source label (title, else source, else 未知文档) over the content |
| ResponseGenerator.FittedSpec | src/services/intelligentResponseGenerator.js:74-85 | the kept items are the longest prefix whose total length fits 4000, plus at most one cut item; together at most 4003 characters |
| ResponseGenerator.PrepareContext | src/services/intelligentResponseGenerator.js:62-87 | the kept items joined with the horizontal-rule separator |
| ResponseGenerator.RemoveFirstPrefix | src/services/intelligentResponseGenerator.js:161-166 | only the first listed opening the text starts with is cut off |
| ResponseGenerator.StripFirstSpec | src/services/intelligentResponseGenerator.js:161-166 | the text is the cut opening (one of the list, or none) followed by the result; without a match nothing is cut |
| ResponseGenerator.PostProcessResponse | src/services/intelligentResponseGenerator.js:149-173 | trimmed, first filler opening removed, closed with 。 unless it ends with 。 . ！ or ? |
| ResponseGenerator.PostProcessSpec | src/services/intelligentResponseGenerator.js:149-173 | the result always ends properly; it is the trimmed answer less one filler opening, plus at most the added 。 |
| ResponseGenerator.PostProcessClean | src/services/intelligentResponseGenerator.js:149-173 | an answer already trimmed, ending properly and opening with no filler comes back unchanged |
| ResponseGenerator.ReferenceLine | src/services/intelligentResponseGenerator.js:181-188 | the line starts with its 1-based number and ends with the closing parenthesis |
| ResponseGenerator.AddReferences | src/services/intelligentResponseGenerator.js:176-192 | no sources leave the answer unchanged; otherwise the answer and the header come first |
| ResponseGenerator.AddReferencesLines | src/services/intelligentResponseGenerator.js:180-191 | the text after the header is exactly the numbered lines, one per source, in order |
| ResponseGenerator.GenerateNoResultsResponse | src/services/intelligentResponseGenerator.js:229-242 | starts with the apology and ends with the advice; the numbered suggestion block appears exactly when there are suggestions |
| ResponseGenerator.GenerateFallbackResponse | src/services/intelligentResponseGenerator.js:195-226 | no results give the no-results answer; otherwise the intent's opening naming the top title, the whole content when it has at most 300 characters, else its first 300 and the pointer to the full document |
| ResponseGenerator.FallbackBound | src/services/intelligentResponseGenerator.js:218-223 | a template answer is at most its opening, 300 characters and the pointer long |
| ResponseGenerator.PickSentences | src/services/intelligentResponseGenerator.js:287-293 | the summary is the picked sentences, each trimmed and closed with 。 |
| ResponseGenerator.SummaryFromPieces | src/services/intelligentResponseGenerator.js:287-293 | scanning with an accumulator writes exactly the pieces of the picked sentences after it |
| ResponseGenerator.PickedSpec | src/services/intelligentResponseGenerator.js:287-293 | every picked sentence is a candidate that mentions the topic, and the summary fits maxLength but for the last closing 。 |
| ResponseGenerator.GenerateSimpleSummary | src/services/intelligentResponseGenerator.js:283-296 | the picked sentences' summary, or the fixed pointer text when no sentence is picked |
| ResponseGenerator.SummarySentencesLong | src/services/intelligentResponseGenerator.js:284-285 | every candidate sentence is longer than ten characters once trimmed |
| ResponseGenerator.ResponseKeySeparates | src/services/intelligentResponseGenerator.js:299-302 | the corrected key is equal only for equal queries and equal top-three ids |
| ResponseGenerator.ResponseKeyAsWrittenFails | src/services/intelligentResponseGenerator.js:299-302 | as written, a query with a character above U+00FF has no key (btoa throws) |
| ResponseGenerator.FinalAnswerSpec | src/services/intelligentResponseGenerator.js:43-46 | the post-processed answer, followed by the references only when they are asked for |
| ResponseGenerator.ResponseGeneratorService.constructor | src/services/intelligentResponseGenerator.js:5-10 | the cache starts empty |
| ResponseGenerator.ResponseGeneratorService.GenerateResponse | src/services/intelligentResponseGenerator.js:13-58 | a cached answer younger than ten minutes is served unchanged; a model failure gives the template answer and caches nothing; otherwise the final answer is returned and cached under the request key at now |
| ResponseGenerator.ResponseGeneratorService.GenerateSummary | src/services/intelligentResponseGenerator.js:245-280 | the fixed text without documents, the trimmed model summary, or the sentence picker when the model fails |
| ResponseGenerator.ResponseGeneratorService.ClearCache | src/services/intelligentResponseGenerator.js:305-308 | the cache is empty |
| ResponseGenerator.ResponseGeneratorService.Stats | src/services/intelligentResponseGenerator.js:311-318 | the cache size, an empty template cache and the two length limits |
| DirectAnswer.HasDirectAnswer | src/services/directAnswerService.js:149-151 | true exactly when some pattern of the table matches the query |
| DirectAnswer.FirstAnswering | src/services/directAnswerService.js:155-158 | the first pattern, in table order, that matches and whose entry exists; none when no pattern qualifies |
| DirectAnswer.ResponseOf | src/services/directAnswerService.js:159-183 | the entry's answer, confidence and source, with exactly one hit whose content is the first 300 characters plus '...' and whose score is the confidence |
| DirectAnswer.NewKnowledge | src/services/directAnswerService.js:191-198 | the defaults: confidence 0.9 for a missing or zero confidence, source user_added, keywords [] |
| DirectAnswer.DirectAnswerService.constructor | src/services/directAnswerService.js:3-146 | the three built-in entries with their confidences, sources and keywords, listed in that order |
| DirectAnswer.DirectAnswerService.GetDirectAnswer | src/services/directAnswerService.js:154-188 | none exactly when no pattern both matches and has an entry; otherwise the response of the first such pattern |
| DirectAnswer.DirectAnswerService.GetAvailableQuestions | src/services/directAnswerService.js:201-203 | every key of the knowledge base exactly once |
| DirectAnswer.DirectAnswerService.AddKnowledge | src/services/directAnswerService.js:191-198 | the entry is inserted or overwritten with its defaults, a new key is listed last, and every pattern keeps its entry |
| DirectAnswer.AnswerIffMatch | src/services/directAnswerService.js:149-188 | while every pattern's entry exists, there is a direct answer exactly when some pattern matches |
| DebugLog.Appended | src/services/debugService.js:15-20 | the new entry is the newest, the earlier entries are the previous log's newest ones, and at most 100 remain |
| DebugLog.LogKeepsNewest | src/services/debugService.js:15-20 | on a full log, the oldest entry is dropped and the new one appended |
| DebugLog.DebugService.constructor | src/services/debugService.js:5-121 | no stored log; the document slot and storage's writability as given |
| DebugLog.DebugService.Log | src/services/debugService.js:6-26 | an unreadable log or refused write changes nothing; otherwise the entry is appended and the log cut to 100; never more than 100 entries |
| DebugLog.DebugService.GetLogs | src/services/debugService.js:28-36 | the stored entries, [] when the slot is missing or unreadable |
| DebugLog.DebugService.ClearLogs | src/services/debugService.js:38-45 | the log slot is removed, so the log reads as [] |
| DebugLog.DebugService.GetDocumentCount | src/services/debugService.js:78-85 | the stored document count, 0 when missing or unreadable |
| DebugLog.DebugService.TestLocalStorage | src/services/debugService.js:66-76 | true exactly when storage accepts the write; the probe key is gone afterwards |
| MockSms.CodeNumber | src/services/mockSmsService.js:11-13 | the drawn number lies in [100000, 999999] |
| MockSms.GenerateCode | src/services/mockSmsService.js:11-13 | a code of exactly six digits |
| MockSms.Verdict | src/services/mockSmsService.js:109-141 | valid exactly when a record exists, has not expired and holds the given code |
| MockSms.Unexpired | src/services/mockSmsService.js:149-156 | exactly the records that have not expired, unchanged |
| MockSms.MockSmsService.constructor | src/services/mockSmsService.js:5-8 | no codes and no history |
| MockSms.MockSmsService.SendSms | src/services/mockSmsService.js:16-48 | the phone's code is replaced by a fresh one expiring in 300000 ms, and the send is appended to the phone's history |
| MockSms.MockSmsService.VerifyCode | src/services/mockSmsService.js:109-141 | the verdict for the stored record; an expired or accepted record is deleted and any other outcome keeps it; an accepted phone has no code left |
| MockSms.MockSmsService.GetSendHistory | src/services/mockSmsService.js:144-146 | the phone's sends, [] for an unknown phone |
| MockSms.MockSmsService.Cleanup | src/services/mockSmsService.js:149-156 | deletes exactly the expired records and keeps all others |
| MockSms.SingleUse | src/services/mockSmsService.js:134-140 | once a code is accepted and deleted, the same code is refused |
| Security.FailureRecorded | src/utils/security.js:27-41 | a failure raises the identifier's count by one and restarts its window at now; no other record changes |
| Security.LoginRemaining | src/utils/security.js:43-51 | positive exactly when the identifier is blocked (five failures, the last less than fifteen minutes ago), and then the time left in the window |
| Security.FailuresAccumulate | src/utils/security.js:27-41 | after k consecutive failures the count has grown by k and the window runs from the last one |
| Security.FiveFailuresBlock | src/utils/security.js:11-51 | five consecutive failures block the identifier for fifteen minutes after the last |
| Security.LoginAttemptLimiter.constructor | src/utils/security.js:5-9 | no records |
| Security.LoginAttemptLimiter.CanAttempt | src/utils/security.js:11-25 | refused exactly when blocked; a record whose window has passed is deleted and any other state is kept |
| Security.LoginAttemptLimiter.RecordAttempt | src/utils/security.js:27-41 | a success deletes the record; a failure is recorded as above |
| Security.LoginAttemptLimiter.GetRemainingTime | src/utils/security.js:43-55 | positive exactly when the identifier's `login_` record is blocked |
| Security.RegistrationOpen | src/utils/security.js:65-70 | open with no registration (or a stored 0), otherwise exactly when more than a minute has passed |
| Security.RegistrationRemaining | src/utils/security.js:76-82 | positive exactly when less than a minute has passed since a recorded registration |
| Security.RegistrationBoundary | src/utils/security.js:65-82 | the two queries agree except at exactly one minute, where nothing is left to wait and yet registering is refused |
| Security.RegistrationLimiter.constructor | src/utils/security.js:60-63 | no registrations |
| Security.RegistrationLimiter.CanRegister | src/utils/security.js:65-70 | as `RegistrationOpen` for the address's last registration |
| Security.RegistrationLimiter.RecordRegistration | src/utils/security.js:72-74 | the address registered now, and refused up to a minute later |
| Security.RegistrationLimiter.GetRemainingTime | src/utils/security.js:76-82 | 0 for an unknown address; positive only while registering is refused |
| Security.SmsAllowed | src/utils/security.js:93-105 | allowed exactly when the day's count is under five and at least a minute has passed since the last send |
| Security.SmsRecorded | src/utils/security.js:107-116 | the (phone, day) count grows by one and the last send is now; nothing else changes |
| Security.SmsRemaining | src/utils/security.js:118-127 | 0 without a record; positive exactly while the cooldown runs |
| Security.DailyRemaining | src/utils/security.js:129-135 | positive exactly while the day's count is under five; with the count it reaches at least five |
| Security.SmsAllowedIff | src/utils/security.js:93-135 | a send is allowed exactly when sends remain today and no cooldown remains |
| Security.GuardedSendsWithinLimit | src/utils/security.js:93-116 | sends made only when allowed never take any day's count past five |
| Security.CooldownAfterSend | src/utils/security.js:93-116 | after a send the same phone is refused for the next minute |
| Security.SmsLimiter.constructor | src/utils/security.js:87-91 | no records |
| Security.SmsLimiter.CanSendSms | src/utils/security.js:93-105 | as `SmsAllowed` for the phone and day |
| Security.SmsLimiter.RecordSms | src/utils/security.js:107-116 | the records become `SmsRecorded` for the phone and day |
| Security.SmsLimiter.GetRemainingTime | src/utils/security.js:118-127 | 0 without a record; positive only while sending is refused |
| Security.SmsLimiter.GetDailyRemaining | src/utils/security.js:129-135 | positive exactly while the count is under five; 0 means every send today is refused |
| Security.EscapeChar | src/utils/security.js:153-162 | each of < > " ' / becomes its entity, other characters stay, and no entity holds an escaped character |
| Security.SanitizeIsEscape | src/utils/security.js:153-162 | the chain of five global replacements equals escaping each character on its own |
| Security.SanitizeSafe | src/utils/security.js:153-162 | the output holds none of < > " ' /, escaping twice equals escaping once, and clean text is unchanged |
| Security.SanitizeNotInjective | src/utils/security.js:153-162 | `&` is not escaped, so "<" and "&lt;" escape to the same text |
| Security.SanitizeInput | src/utils/security.js:153-162 | strings are escaped as above; any other value is returned unchanged |
| Security.ValidEmailMatches | src/utils/security.js:140-143 | the scan accepts exactly what `^[^\s@]+@[^\s@]+\.[^\s@]+$` matches |
| Security.CheckPasswordStrength | src/utils/security.js:176-205 | the score counts the passed checks (at most 6); strong at 5, medium at 3; score plus suggestions is 6 |
| Security.ScoreIsSum | src/utils/security.js:186 | the score is the sum of the six checks |
| Security.ValidPasswordNotWeak | src/utils/security.js:145-148 | a password `validators.password` accepts scores at least 3 and is never weak |
| Security.NoLetterIsWeak | src/utils/security.js:176-205 | without a letter both case checks fail, so the score is at most 3 and never strong |
| Llm.DetectBestProvider | src/services/llmService.js:39-47 | Qwen exactly when its key is set; OpenAI exactly when only the OpenAI key is set; the local model otherwise |
| Llm.DefaultModel | src/services/llmService.js:244-253 | each provider's default model, which is always in the provider's model table |
| Llm.EstimateCost | src/services/llmService.js:298-308 | the token count is the character count divided by four, rounded up; the cost prices it with the named model, or the default for an unknown one |
| Llm.LocalIsFree | src/services/llmService.js:24-30 | the local model's estimate costs nothing |
| Llm.Admit | src/services/llmService.js:262-284 | refused exactly when the provider's current window already holds 20 requests, and then nothing changes; otherwise the window's count grows by one and older windows are dropped |
| Llm.AdmitKeepsLimit | src/services/llmService.js:262-284 | no window ever counts more than 20 requests |
| Llm.AtMostTwentyPerWindow | src/services/llmService.js:262-275 | however many requests arrive in one window, at most 20 (less those already counted) are admitted |
| Llm.PruneKeepsRecent | src/services/llmService.js:276-281 | with the corrected cleanup, only the current window and the five before it remain |
| Llm.CleanupAsWrittenKeepsAll | src/services/llmService.js:276-281 | as written, `key - 5` is NaN and the cleanup deletes nothing |
| Text.RunsCover | src/services/llmService.js:208 | the runs of letters and Chinese characters, joined, are exactly those characters of the prompt in order |
| Llm.ExtractEntities | src/services/llmService.js:206-220 | at most five entities, each a run of two or more letters or Chinese characters of the prompt, none a stop word |
| Llm.After | src/services/llmService.js:224-225 | what follows the first occurrence of the marker, and None exactly when the marker is absent |
| Llm.GenerateSimpleAnswer | src/services/llmService.js:223-231 | without the context marker, the fixed reply; otherwise the first two sentences longer than ten characters, joined by `。`; always ends with `。` |
| Llm.ExtractSimpleSnippet | src/services/llmService.js:234-241 | without the text marker, the fixed reply; otherwise the text itself up to 200 characters, or its first 200 and `...` |
| Llm.FirstRule | src/services/llmService.js:196-200 | the first rule whose pattern the prompt matches, and none matched before it |
| Llm.CallLocalModel | src/services/llmService.js:175-203 | the response of the first matching rule, the apology when no rule matches |
| Llm.ChatKeySeparates | src/services/llmService.js:255-259 | the corrected cache key separates every (prompt, model, temperature) |
| Llm.ChatKeyAsWrittenFails | src/services/llmService.js:255-259 | as written, a prompt holding a Chinese character has no key: btoa throws before the try block |
| Llm.LlmService.constructor | src/services/llmService.js:5-36 | the provider is the detected one; cache and limiter are empty |
| Llm.LlmService.GetDefaultModel | src/services/llmService.js:244-253 | a model in the current provider's table |
| Llm.LlmService.CheckRateLimit | src/services/llmService.js:262-284 | the verdict and the new limiter are `Admit` for the provider's current window; at most 20 per window is kept |
| Llm.LlmService.ChatCompletion | src/services/llmService.js:50-107 | a fresh cached reply is returned untouched; otherwise a refused request fails with the rate-limit error and changes no cache; an admitted one gets the provider's reply, the local model's when the provider fails, and caches only a provider's own reply |
| Llm.LlmService.GetModelInfo | src/services/llmService.js:287-295 | the provider, its model names and its default, which is among them |
| Common.OrElse | src/services/openaiService.js:49 | `a \|\| b` on text: the value when it is present and non-empty, the default otherwise |
| OpenAi.NewDoc | src/services/openaiService.js:49-60 | the stored document takes the clock as id, the input's title and content, and the defaults `anonymous_user`, `manual`, `general` and [] for a missing or empty owner, source, category and tag list |
| OpenAi.FindIndex | src/services/openaiService.js:85 | the first document with the id, or the length when there is none |
| OpenAi.MatchPoints | src/services/openaiService.js:192-196 | at most three points per query word, and positive exactly when some word occurs in the title or the content |
| OpenAi.ScoreDoc | src/services/openaiService.js:188-203 | the score lies between 0 and 3 and is positive exactly when some query word occurs in the lower-cased title or content |
| OpenAi.ExtractRelevantContent | src/services/openaiService.js:219-230 | the first three sentences mentioning a query word, joined and closed by `。`; else the first 200 characters, with `...` exactly when the content is longer |
| OpenAi.ExcerptSentencesMention | src/services/openaiService.js:220-226 | every sentence of the excerpt is a sentence of the content that mentions a query word |
| OpenAi.RankBySpec | src/services/openaiService.js:205-208 | the ranking keeps at most `topK` positively scored input documents, best first, and any positively scored document left out is outranked by all `topK` kept |
| OpenAi.RankedSpec | src/services/openaiService.js:185-208 | the same for the query's lower-cased words: sorted, drawn from the documents with their own scores, and complete up to `topK` |
| OpenAi.FindRelevantDocuments | src/services/openaiService.js:185-216 | at most `topK` hits, every score positive, in descending order of score |
| OpenAi.FallbackAsWrittenLosesAnonymous | src/services/openaiService.js:233-236 | as written, a caller without a user id gets no fallback documents although `getDocuments` lists all of that caller's documents |
| OpenAi.FilterAll | src/services/openaiService.js:78 | filtering by a test every document passes keeps the list unchanged |
| OpenAi.FilterNone | src/services/openaiService.js:235 | filtering by a test no document passes leaves nothing |
| OpenAi.OpenAiService.constructor | src/services/openaiService.js:7-34 | the key from the environment, else from storage, else none; the stored documents, or [] when missing or unreadable |
| OpenAi.OpenAiService.SetApiKey | src/services/openaiService.js:15-18 | the key is used and stored; the service has a key exactly when it is non-empty |
| OpenAi.OpenAiService.AddDocument | src/services/openaiService.js:46-73 | the new document, with its defaults, is appended and nothing else changes |
| OpenAi.OpenAiService.GetDocuments | src/services/openaiService.js:76-81 | exactly the stored documents owned by the user, `anonymous_user` when none is named |
| OpenAi.OpenAiService.DeleteDocument | src/services/openaiService.js:84-92 | succeeds exactly when some document has the id, and then removes the first such document and only it |
| OpenAi.OpenAiService.SimpleFallbackSearch | src/services/openaiService.js:233-243 | the keyword ranking of the user's documents, with `topK` defaulting to 5, tagged `simple_fallback` |
| OpenAi.Respond | src/services/openaiService.js:95-182 | without a key, or when the API call fails, the fallback ranking with the fixed prefix and the error message, tagged `fallback`; with a key, a user without documents gets the fixed notice and nothing else; otherwise the model's answer (a fixed one when empty) with the keyword ranking, tagged `openai_powered` |
| OpenAi.OpenAiService.SearchDocuments | src/services/openaiService.js:95-182 | the outcome `Respond` chooses over the user's documents (as `getDocuments` lists them) and their keyword ranking: at most `topK` results (5 by default), best first, each with a positive score, and the total is their number |
| SimpleDocument.FromData | src/services/simpleDocumentService.js:10-20 | the stored document takes the clock as id, the title also as file name, and the defaults `general` and `manual` for a missing or empty category and source |
| SimpleDocument.FromFile | src/services/simpleDocumentService.js:43-53 | an uploaded file's document: the file name as title when none is given, the file's text as content, its size, and category `general` by default |
| SimpleDocument.Score | src/services/simpleDocumentService.js:103-137 | at least 0.8 for a title hit plus 0.6 for a content hit, exactly that unless a persona guide is asked about, and then at least 0.9 |
| SimpleDocument.KeptIff | src/services/simpleDocumentService.js:103-166 | a document becomes a hit exactly when its lower-cased title or content holds the lower-cased query, or it is a persona guide and the query asks how to create a persona |
| SimpleDocument.FirstStep | src/services/simpleDocumentService.js:143-147 | the first line that passes the step test, none before it passing |
| SimpleDocument.StepLines | src/services/simpleDocumentService.js:140-158 | at most three lines; some exactly when a step line exists, and the first is that step line trimmed |
| SimpleDocument.CollectFollowers | src/services/simpleDocumentService.js:151-155 | the trimmed non-blank lines of the two after the step line |
| SimpleDocument.FindStepLines | src/services/simpleDocumentService.js:140-158 | the loop that stops at the first step line computes `StepLines` |
| SimpleDocument.EvaluateDoc | src/services/simpleDocumentService.js:103-164 | the loop body computes the document's score and shown content as `Score` and `MatchedContent` define them |
| SimpleDocument.Collected | src/services/simpleDocumentService.js:166-175 | at most one hit per document, each scoring above 0.1 |
| SimpleDocument.CollectedMembers | src/services/simpleDocumentService.js:102-176 | the hits are exactly the evaluations of the documents that score above 0.1 |
| SimpleDocument.Answer | src/services/simpleDocumentService.js:182-192 | the not-found notice without hits; otherwise the best hit's content, introduced by its document's title when the query holds 怎么 or 如何 |
| SimpleDocument.OutcomeSpec | src/services/simpleDocumentService.js:179-199 | at most five hits, best first, all drawn from the hits; no results exactly when there are no hits; the confidence is the best score (0 without hits) and `totalFound` counts all hits |
| SimpleDocument.SearchSpec | src/services/simpleDocumentService.js:87-199 | a user without documents gets the upload notice and confidence 0; otherwise the ranked hits, and the confidence is at least every scoring document's score |
| SimpleDocument.PersonaGuideFound | src/services/simpleDocumentService.js:134-137 | when a persona guide is among the user's documents, a "how to create a persona" query has results and confidence at least 0.9 |
| SimpleDocument.SimpleDocumentService.constructor | src/services/simpleDocumentService.js:3-5 | the service reads and writes the given storage entry |
| SimpleDocument.SimpleDocumentService.GetStoredDocuments | src/services/simpleDocumentService.js:210-218 | the stored list, and [] when storage is missing or unparsable |
| SimpleDocument.SimpleDocumentService.AddDocumentFromData | src/services/simpleDocumentService.js:8-33 | exactly one new document is appended after all the stored ones |
| SimpleDocument.SimpleDocumentService.AddDocument | src/services/simpleDocumentService.js:36-67 | exactly one new document, built from the file, is appended after all the stored ones |
| SimpleDocument.SimpleDocumentService.GetUserDocuments | src/services/simpleDocumentService.js:75-78 | exactly the stored documents whose owner equals the given one |
| SimpleDocument.SimpleDocumentService.DeleteDocument | src/services/simpleDocumentService.js:203-207 | removes the documents matching both id and owner, and keeps every other document in order |
| SimpleDocument.SimpleDocumentService.ClearAllDocuments | src/services/simpleDocumentService.js:221-223 | the storage entry is removed, so no document is listed |
| SimpleDocument.CollectHits | src/services/simpleDocumentService.js:102-176 | the loop over the user's documents keeps each one's evaluation scoring above 0.1, in order, as `Collected` |
| SimpleDocument.SimpleDocumentService.Search | src/services/simpleDocumentService.js:87-200 | the scoring loop, sort and answer compute `SearchResult` over the user's documents |
| LocalDocument.NewRecord | src/services/localDocumentService.js:47-58 | the record keeps the random id, the owner, the file's name and size; the file name stands in for a missing or empty title, `general` for the category and [] for the tags |
| LocalDocument.SearchableText | src/services/localDocumentService.js:60-74 | the file's text when it is text, JSON or Markdown and can be read; otherwise the title, file name and tags joined by spaces |
| LocalDocument.Terms | src/services/localDocumentService.js:144 | the pieces of the lower-cased query between spaces, none of them empty |
| LocalDocument.TermPoints | src/services/localDocumentService.js:182-193 | never negative, and at least 0.1 for a term the content holds |
| LocalDocument.RawScorePositive | src/services/localDocumentService.js:158-196 | a record that passed the filter because it holds a term scores above zero, so it is never dropped |
| LocalDocument.ScoreItem | src/services/localDocumentService.js:178-194 | the loop over the terms sums their points as `RawScore` defines |
| LocalDocument.BestFromSpec | src/services/localDocumentService.js:224-238 | from any point of the window loop on, the start it ends with is 0 or a window start, holds at least as many terms as every window and more than every earlier one |
| LocalDocument.BestWindow | src/services/localDocumentService.js:224-238 | the chosen start holds the most terms of all windows (multiples of 50 below the length minus `maxLength`) and is the first to do so |
| LocalDocument.FindBestPosition | src/services/localDocumentService.js:224-238 | the window loop computes the start `BestFrom` defines |
| LocalDocument.LastSpace | src/services/localDocumentService.js:251 | the position of the last space, or -1 when there is none |
| LocalDocument.CutWindow | src/services/localDocumentService.js:240-255 | never longer than `maxLength` plus the three dots |
| LocalDocument.Snippet | src/services/localDocumentService.js:220-258 | a fixed notice for empty content; otherwise a non-empty text of at most `maxLength` + 3 characters |
| LocalDocument.SnippetWindow | src/services/localDocumentService.js:220-240 | the snippet starts at the first window holding the most terms |
| LocalDocument.CutSnippet | src/services/localDocumentService.js:240-255 | the trimming steps compute `CutWindow` |
| LocalDocument.ExtractSnippet | src/services/localDocumentService.js:220-258 | the method computes `Snippet` |
| LocalDocument.FindDoc | src/services/localDocumentService.js:175 | a document exactly when one has the id, and then one with that id |
| LocalDocument.HitIfPositiveSpec | src/services/localDocumentService.js:196-211 | a hit carries its document's id and a score capped into (0, 1]; a record holding a term always hits |
| LocalDocument.HitsOfSound | src/services/localDocumentService.js:173-213 | every hit's score lies in (0, 1] and its id is one of the user's documents' and of a searched record |
| LocalDocument.HitsOfComplete | src/services/localDocumentService.js:173-213 | no searched record that has a document and hits is dropped |
| LocalDocument.RankHitsSpec | src/services/localDocumentService.js:173-216 | exactly min(10, records) hits, best first, each scored in (0, 1] for one of the documents |
| LocalDocument.SearchResult | src/services/localDocumentService.js:140-216 | nothing for a blank query |
| LocalDocument.SearchSpec | src/services/localDocumentService.js:140-216 | a blank query finds nothing; otherwise every stored record of the user's documents holding a term is among the hits, ten at most, best first, each scored in (0, 1] |
| LocalDocument.ScoreHit | src/services/localDocumentService.js:176-212 | one pass of the search loop computes `HitIfPositive` |
| LocalDocument.CollectHits | src/services/localDocumentService.js:173-213 | the search loop computes `HitsOf` |
| LocalDocument.AllOfferedFrom | src/services/localDocumentService.js:268-280 | every offer comes from one of the documents |
| LocalDocument.OfferedSound | src/services/localDocumentService.js:269-279 | a document offers only its own title and tags, and only those holding the lower-cased query |
| LocalDocument.Suggestions | src/services/localDocumentService.js:261-283 | [] for a blank query, and never more than `limit` |
| LocalDocument.TakeDedupeKeeps | src/services/localDocumentService.js:265-282 | the first `limit` entries of an insertion-ordered set are distinct and share what every added value has |
| LocalDocument.SuggestionsSpec | src/services/localDocumentService.js:261-283 | distinct suggestions, each a title or tag of the user's documents that holds the query case-insensitively |
| LocalDocument.CollectOffers | src/services/localDocumentService.js:265-280 | the loop adding each document's offers to the set computes the de-duplicated offers in first-seen order |
| Seqs.TallyAddSpec | src/services/localDocumentService.js:292-294 | counting one more value adds one to the total, and one to that value's count only |
| Seqs.TallySpec | src/services/localDocumentService.js:289-294 | the counts add up to the number of values, and each value's count is its number of occurrences |
| LocalDocument.StatsOf | src/services/localDocumentService.js:286-301 | the document count equals the sum of the category counts, each category's count is its number of documents, and the recent uploads are the first five of the list |
| LocalDocument.LocalDocumentService.constructor | src/services/localDocumentService.js:5-10 | the service starts from the two given stores |
| LocalDocument.LocalDocumentService.SaveDocument | src/services/localDocumentService.js:44-97 | the new record is appended to the documents store and its searchable text, lower-cased and as it was, to the content store; nothing else changes |
| LocalDocument.LocalDocumentService.GetUserDocuments | src/services/localDocumentService.js:100-117 | exactly the user's records, newest first |
| LocalDocument.LocalDocumentService.DeleteDocument | src/services/localDocumentService.js:120-137 | the record with the id and its text are removed from both stores, everything else is kept in order |
| LocalDocument.LocalDocumentService.SearchDocuments | src/services/localDocumentService.js:140-216 | the method computes `SearchResult` over the user's records and the content store |
| LocalDocument.LocalDocumentService.GetSearchSuggestions | src/services/localDocumentService.js:261-283 | the method computes `Suggestions` over the user's records |
| LocalDocument.LocalDocumentService.GetStats | src/services/localDocumentService.js:286-301 | the count equals the sum of the category counts; at most five recent uploads, all the user's |
| StorageAdapter.InitAdapter | src/services/storageAdapter.js:13-24 | a name other than the three back ends' is refused with the unsupported-type error naming it |
| StorageAdapter.InitAdapterSpec | src/services/storageAdapter.js:13-24 | each back end is found by its own name, and exactly the three names are accepted |
| StorageAdapter.Available | src/services/storageAdapter.js:400-419 | the browser database always comes first; WebDAV is available exactly when its address is set, Cloudflare exactly when the API address is set and its health check succeeded |
| StorageAdapter.PrimaryChoice | src/services/storageAdapter.js:378-391 | Cloudflare exactly when its API is set and healthy, else WebDAV exactly when its address is set, else the browser database |
| StorageAdapter.FirstSuccessSpec | src/services/storageAdapter.js:428-436 | the fallbacks succeed exactly when one does, with the first such outcome; otherwise the all-failed error naming the operation |
| StorageAdapter.WithFallbackSpec | src/services/storageAdapter.js:422-438 | a successful primary's outcome is returned; otherwise the first successful fallback's; the all-failed error exactly when every back end failed |
| StorageAdapter.Outcomes | src/services/storageAdapter.js:428-434 | each fallback's outcome, in order |
| StorageAdapter.StorageManager.constructor | src/services/storageAdapter.js:371-375 | no primary back end and no fallbacks |
| StorageAdapter.StorageManager.Init | src/services/storageAdapter.js:378-397 | the chosen primary is set, and a primary other than the browser database adds the browser database to the fallbacks |
| StorageAdapter.StorageManager.ExecuteWithFallback | src/services/storageAdapter.js:422-438 | the loop over the fallbacks computes `WithFallback` of the back ends' outcomes |
| StorageAdapter.TermScore | src/services/storageAdapter.js:316-330 | never negative, and positive exactly when the term lies in the title, the content, a tag or the file name |
| StorageAdapter.RawRelevancePositive | src/services/storageAdapter.js:312-333 | the sum over the terms is positive exactly when some term hits |
| StorageAdapter.RelevanceSpec | src/services/storageAdapter.js:312-333 | the score lies in [0, 1], is 0 for a query without terms, and is positive exactly when some term hits |
| StorageAdapter.CalculateRelevanceScore | src/services/storageAdapter.js:312-333 | the loop over the terms computes `Relevance` |
| StorageAdapter.FirstOccurrenceSpec | src/services/storageAdapter.js:340-348 | none exactly when no term occurs; otherwise the position of the first term, in query order, that occurs |
| StorageAdapter.StartAtSpec | src/services/storageAdapter.js:340-348 | the window starts at 0 when no term occurs, otherwise at most 50 characters before the first occurring term's position and not after it |
| StorageAdapter.FindStart | src/services/storageAdapter.js:341-348 | the loop that stops at the first occurring term computes `StartAt` |
| StorageAdapter.AdapterSnippet | src/services/storageAdapter.js:336-366 | a non-empty text of at most `maxLength` + 3 characters |
| StorageAdapter.ExtractSnippet | src/services/storageAdapter.js:336-366 | the method computes `AdapterSnippet` |
| StorageAdapter.HitForSpec | src/services/storageAdapter.js:262-286 | a document is a hit exactly when its text was read and it scores above 0, and then with its id and a score in (0, 1] |
| StorageAdapter.HitsMembers | src/services/storageAdapter.js:262-287 | exactly the documents' hits are collected |
| StorageAdapter.SearchSpec | src/services/storageAdapter.js:258-290 | at most ten results, best first, each scored in (0, 1] for a listed document whose text was read; a scoring document is missing only when ten results are there |
| StorageAdapter.SearchDocuments | src/services/storageAdapter.js:258-290 | the loop that skips unreadable documents computes `SearchResult` |
| EnhancedDocument.ExtractionOf | src/services/enhancedDocumentService.js:98-118 | a file is described by its metadata exactly when its type is not text and its lower-cased name ends in none of .md, .txt, .json and .csv |
| EnhancedDocument.ExtractContent | src/services/enhancedDocumentService.js:98-118 | text, Markdown and CSV files give what reading them gives; JSON gives the re-printed text when it parses and the text as read when it does not; any other file gives its name, size and type |
| EnhancedDocument.Sentences | src/services/enhancedDocumentService.js:123 | splitting on a sentence end followed by white space never gives an empty list |
| EnhancedDocument.LastWords | src/services/enhancedDocumentService.js:132 | `slice(-overlap)` keeps a tail of the words, at most `overlap` of them, and all of them when `overlap` is 0 |
| EnhancedDocument.ChunkStep | src/services/enhancedDocumentService.js:126-137 | a sentence either joins the current chunk or closes it, and only a non-empty current chunk is closed, trimmed |
| EnhancedDocument.CarryIsTail | src/services/enhancedDocumentService.js:131-132 | the words carried into the next chunk are a tail of the chunk just closed |
| EnhancedDocument.CarryWhole | src/services/enhancedDocumentService.js:131-132 | a chunk without spaces is carried whole |
| EnhancedDocument.ChunkStepSpec | src/services/enhancedDocumentService.js:126-137 | closing a chunk pushes the trimmed current text and starts the next chunk with the carried tail; otherwise the sentence ends the current chunk; closed chunks are never changed |
| EnhancedDocument.ChunksSpec | src/services/enhancedDocumentService.js:121-143 | the result is never empty: either the text itself or a list of trimmed chunks |
| EnhancedDocument.SplitIntoChunks | src/services/enhancedDocumentService.js:121-143 | the chunking loop computes the chunks of the text |
| EnhancedDocument.BestChunkSpec | src/services/enhancedDocumentService.js:237-248 | the best similarity is at least 0 and at least every chunk's; when above 0 it is the first chunk reaching it |
| EnhancedDocument.FindBestChunk | src/services/enhancedDocumentService.js:237-248 | the loop over a document's chunks finds the best chunk |
| EnhancedDocument.SemanticHits | src/services/enhancedDocumentService.js:227-267 | at most one hit per document |
| EnhancedDocument.SemanticHitsSound | src/services/enhancedDocumentService.js:227-267 | every semantic hit belongs to a document with stored chunks, scores above 0.3, and scores at least every chunk's similarity |
| EnhancedDocument.SemanticSearch | src/services/enhancedDocumentService.js:227-267 | the loop over the documents gives the semantic hits |
| EnhancedDocument.IdIndex | src/services/enhancedDocumentService.js:274 | the entry found has the id; none found means no entry has it |
| EnhancedDocument.Absorb | src/services/enhancedDocumentService.js:276-291 | a duplicate raises the score to the larger of the old score and 0.7 of its own, never lowers it, replaces the content and raw score exactly when its raw score exceeds the kept one, and changes nothing else |
| EnhancedDocument.MergeOne | src/services/enhancedDocumentService.js:273-296 | a result with a new id is appended with its own score as raw score; a result with a known id is absorbed into that entry and adds none |
| EnhancedDocument.MergeSpec | src/services/enhancedDocumentService.js:270-300 | one entry per id; every result's id has an entry with at least its raw score and at least its score (0.7 of it for a later duplicate); every entry's content and raw score come from a result with its id |
| EnhancedDocument.MergeSearchResults | src/services/enhancedDocumentService.js:270-300 | the merging loop computes the merge of the results |
| EnhancedDocument.FromKeyword | src/services/enhancedDocumentService.js:208-212 | one hit per keyword result, in order, keeping every field including the upload time, marked as keyword results |
| EnhancedDocument.RankedSpec | src/services/enhancedDocumentService.js:218-223 | at most `maxResults` entries, best first, one per id, each scoring at least `minScore` and taken from the merged entries |
| EnhancedDocument.RankedComplete | src/services/enhancedDocumentService.js:218-223 | an entry scoring enough that is left out is outranked by all `maxResults` kept |
| EnhancedDocument.SearchSpec | src/services/enhancedDocumentService.js:184-224 | at most `maxResults` (10) results, best first, one per id, each scoring at least `minScore` (0.1) and for an id one of the searches found |
| EnhancedDocument.SearchNothing | src/services/enhancedDocumentService.js:196-214 | when both searches failed or are switched off there are no results |
| EnhancedDocument.SearchDocuments | src/services/enhancedDocumentService.js:184-224 | the combined search gathers, merges and ranks as specified |
| EnhancedDocument.Progress | src/services/enhancedDocumentService.js:355 | the processing progress lies in [0, 1], is 0 without documents, and is 1 exactly when every document is processed |
| EnhancedDocument.RecentSpec | src/services/enhancedDocumentService.js:346-348 | at most five recent uploads, newest first, all the user's; a document left out is no newer than any kept |
| EnhancedDocument.DocumentStatsSpec | src/services/enhancedDocumentService.js:330-358 | the category counts add up to the number of documents and count each category's documents |
| EnhancedDocument.ExportedDoc | src/services/enhancedDocumentService.js:368-371 | an exported document is an object without the owner's id |
| EnhancedDocument.ExportSpec | src/services/enhancedDocumentService.js:361-382 | JSON lists every document in order without its owner; CSV is the documents' table; any other format is refused with the unsupported-format error naming it |
| EnhancedDocument.EscapeRoundTrip | src/services/enhancedDocumentService.js:395 | doubling the quotes in a field can be undone: reading the quoted inside back gives the text (section 2, rule 7 of RFC 4180) |
| EnhancedDocument.CsvSpec | src/services/enhancedDocumentService.js:385-402 | no documents give the empty text; otherwise the text starts with the eight fixed headers |
| EnhancedDocument.ConvertToCsv | src/services/enhancedDocumentService.js:385-402 | the row loop computes the CSV text |
| LocalIntelligentSearch.LowerAll | src/services/localIntelligentSearch.js:131-134 | each Latin word is lower-cased, one result per word, in order |
| LocalIntelligentSearch.ExtractKeywordsSpec | src/services/localIntelligentSearch.js:119-137 | the keywords are listed once each and are exactly the CJK runs of two to six characters and the lower-cased Latin runs of three letters or more |
| LocalIntelligentSearch.KeywordShape | src/services/localIntelligentSearch.js:119-137 | every keyword is two to six CJK characters, or three or more letters with no upper-case one |
| LocalIntelligentSearch.HeadingLevel | src/services/localIntelligentSearch.js:78 | the level is the number of leading '#' marks: all of them are '#', and the next character, if any, is not |
| LocalIntelligentSearch.HeadingTitle | src/services/localIntelligentSearch.js:79 | the title is a proper suffix of the heading line |
| LocalIntelligentSearch.TrimAll | src/services/localIntelligentSearch.js:69 | every line is trimmed, one result per line |
| LocalIntelligentSearch.HeadingLines | src/services/localIntelligentSearch.js:68-92 | the heading lines are listed in increasing order, and every heading line among the first n is listed |
| LocalIntelligentSearch.StepFollowsHeadings | src/services/localIntelligentSearch.js:68-105 | one more line keeps one section per heading line, each with its heading's position, title and level |
| LocalIntelligentSearch.SectionsAreHeadings | src/services/localIntelligentSearch.js:58-110 | the scan makes exactly one section per heading line, in order, each with its heading's position, title and level |
| LocalIntelligentSearch.PreambleIgnored | src/services/localIntelligentSearch.js:94-104 | lines before the first heading add no section and no keyword |
| LocalIntelligentSearch.SectionKeysAppend | src/services/localIntelligentSearch.js:90-103 | the keywords of one more section follow those of the sections before it |
| LocalIntelligentSearch.LineKeyed | src/services/localIntelligentSearch.js:95-103 | a line joining the open section adds its keywords to the section's set, which still holds its title's and lines' keywords and no others |
| LocalIntelligentSearch.OpenKeyed | src/services/localIntelligentSearch.js:73-91 | a heading opens a section keyed by its title's keywords, which also join the document's set |
| LocalIntelligentSearch.LastReplacedKeyed | src/services/localIntelligentSearch.js:95-103 | replacing the open section by a section keyed as well keeps every section keyed |
| LocalIntelligentSearch.AddLineKeyed | src/services/localIntelligentSearch.js:95-103 | adding a line to the open section keeps every section keyed and the document's set the union of the sections' |
| LocalIntelligentSearch.ScanLinesKeyed | src/services/localIntelligentSearch.js:58-110 | after any number of lines, every section's set holds the keywords of its title and lines and no others, and the document's set is their union |
| LocalIntelligentSearch.StepText | src/services/localIntelligentSearch.js:216-225 | the text after a step number is absent exactly when only line terminators follow |
| LocalIntelligentSearch.StepOf | src/services/localIntelligentSearch.js:214-232 | a line naming click, input, select or fill gives a step |
| LocalIntelligentSearch.StepsOf | src/services/localIntelligentSearch.js:210-236 | the lines give at most one step each |
| LocalIntelligentSearch.Numbered | src/services/localIntelligentSearch.js:200 | the i-th numbered step is its number, a dot and a space, then the step |
| LocalIntelligentSearch.OneLineOneStep | src/services/localIntelligentSearch.js:210-236 | a text without a line break gives at most one step |
| LocalIntelligentSearch.FirstNotIn | src/services/localIntelligentSearch.js:186-188 | the first word not excluded, every word before it excluded; none when all are excluded |
| LocalIntelligentSearch.MainTopicSpec | src/services/localIntelligentSearch.js:183-189 | the main topic is a CJK run of the title of two or more characters, and not one of the generic words |
| LocalIntelligentSearch.QuestionsSpec | src/services/localIntelligentSearch.js:159-181 | there are no questions exactly when the title neither creates nor names a feature and no procedure with a main topic is described; every question names the title or its main topic |
| LocalIntelligentSearch.GenerateAnswer | src/services/localIntelligentSearch.js:192-207 | a how-question over a text with steps is answered starting with the title and "的具体步骤："; any other answer ends with '。' |
| LocalIntelligentSearch.KeyIndex | src/services/localIntelligentSearch.js:149 | the position of a key among the map's entries, or -1 exactly when no entry has that key |
| LocalIntelligentSearch.Put | src/services/localIntelligentSearch.js:149 | `Map.set` keeps keys distinct, holds the new entry, keeps every entry with another key and every key present before |
| LocalIntelligentSearch.Entries | src/services/localIntelligentSearch.js:148-154 | one entry per question, in order |
| LocalIntelligentSearch.PutAllSpec | src/services/localIntelligentSearch.js:148-154 | setting several entries keeps keys distinct and present, adds every entry's key, and holds nothing but old and new entries |
| LocalIntelligentSearch.FromPrefix | src/services/localIntelligentSearch.js:141-155 | an entry made from an earlier section is made from the sections |
| LocalIntelligentSearch.MappingOfSpec | src/services/localIntelligentSearch.js:140-156 | section by section, the map keeps keys distinct, holds only entries made from the sections' questions, and every question asked is a key |
| LocalIntelligentSearch.QAMappingSpec | src/services/localIntelligentSearch.js:140-156 | the question map has one entry per key; each entry is a section's lower-cased question with its generated answer, the section's title and confidence 0.8; every question asked is a key |
| LocalIntelligentSearch.ScanLine | src/services/localIntelligentSearch.js:69-104 | one pass of the loop body gives the scan's next state |
| LocalIntelligentSearch.ScanDocument | src/services/localIntelligentSearch.js:68-105 | the loop over all lines ends in the scan of every line |
| LocalIntelligentSearch.ProcessLines | src/services/localIntelligentSearch.js:58-116 | `processDocument` gives the processed document: the sections, the last one pushed, and the question map |
| LocalIntelligentSearch.ScanContentFrom | src/services/localIntelligentSearch.js:95-96 | every line of a section is a line of the document |
| LocalIntelligentSearch.DocLinesOneLine | src/services/localIntelligentSearch.js:59-69 | no line of a document holds a line break |
| LocalIntelligentSearch.ProcessedSections | src/services/localIntelligentSearch.js:58-116 | one section per heading line, in order, with its heading's position, title and level; no section and no keyword without a heading |
| LocalIntelligentSearch.ProcessedKeywords | src/services/localIntelligentSearch.js:58-116 | the document's keywords are listed once each and are the union of the sections' sets; each section's set holds exactly its title's and lines' keywords, once each |
| LocalIntelligentSearch.SectionOneStep | src/services/localIntelligentSearch.js:210-236 | a section whose lines hold no line break gives at most one step |
| LocalIntelligentSearch.ScanOneStep | src/services/localIntelligentSearch.js:198 | scanned sections give at most one step each |
| LocalIntelligentSearch.AnswerStepsAtMostOne | src/services/localIntelligentSearch.js:198-200 | every section of a processed document gives at most one step, so a how-answer lists at most one |
| LocalSearchResults.Fraction | src/services/localIntelligentSearch.js:307-369 | a count over a total is between 0 and 1, is 1 exactly for all and positive exactly for some |
| LocalSearchResults.FractionAbove | src/services/localIntelligentSearch.js:307-310 | a weighted fraction exceeds a threshold exactly when the count times the weight exceeds the threshold times the total |
| LocalSearchResults.Gather | src/services/localIntelligentSearch.js:256-268 | gathering gives at most one hit per item |
| LocalSearchResults.GatherMembers | src/services/localIntelligentSearch.js:289-378 | a hit is gathered exactly when some item gives it |
| LocalSearchResults.CollectSpec | src/services/localIntelligentSearch.js:256-347 | collecting succeeds exactly when every item does, and then holds exactly the items' hits |
| LocalSearchResults.CollectNone | src/services/localIntelligentSearch.js:329-347 | items that each give no hit collect to none |
| LocalSearchResults.CollectStep | src/services/localIntelligentSearch.js:256-268 | one more item either throws or appends its hits |
| LocalSearchResults.CollectErrExtends | src/services/localIntelligentSearch.js:256-268 | once a prefix throws, the whole throws the same error |
| LocalSearchResults.Matcher | src/services/localIntelligentSearch.js:304-306 | a query word is matched exactly when it contains or is contained in some question word |
| LocalSearchResults.MatchedWords | src/services/localIntelligentSearch.js:304-306 | no more query words match than there are |
| LocalSearchResults.QAScore | src/services/localIntelligentSearch.js:290-308 | the score is in [0, 1], is 1 exactly for an exact match, and at least 0.9 exactly when one contains the other |
| LocalSearchResults.WordScore | src/services/localIntelligentSearch.js:307 | the word score is in [0, 0.8] |
| LocalSearchResults.QAWordThreshold | src/services/localIntelligentSearch.js:302-310 | without containment the score is the word score, and it passes 0.3 exactly when more than three eighths of the query words match |
| LocalSearchResults.QAOf | src/services/localIntelligentSearch.js:310-318 | an entry gives a hit exactly when its score passes 0.3 |
| LocalSearchResults.QAHitsSpec | src/services/localIntelligentSearch.js:285-322 | a question hit comes exactly from an entry scoring above 0.3; it is a question hit with a score in (0.3, 1] |
| LocalSearchResults.SearchQA | src/services/localIntelligentSearch.js:285-322 | `searchQA`'s loop gives the question hits of the lower-cased query |
| LocalSearchResults.Has | src/services/localIntelligentSearch.js:333 | `has` answers exactly for a `Set` and throws on anything else |
| LocalSearchResults.MatchedSpec | src/services/localIntelligentSearch.js:332-336 | the count is at most the number of query keywords, equals it exactly when all are in the set, and is positive exactly when one is |
| LocalSearchResults.CountMatches | src/services/localIntelligentSearch.js:330-336 | the inner loop counts the query keywords in the set, and throws on a plain object once it has a keyword to look up |
| LocalSearchResults.KeywordHitSpec | src/services/localIntelligentSearch.js:329-347 | a section throws exactly when there are query keywords and its set is a plain object; it gives a hit exactly when it shares a keyword, scored in (0, 0.7], and 0.7 exactly when it holds every keyword |
| LocalSearchResults.KeywordOf | src/services/localIntelligentSearch.js:329-347 | each section gives its keyword hit |
| LocalSearchResults.KeywordHitsSpec | src/services/localIntelligentSearch.js:325-350 | the keyword search succeeds exactly when the query has no keyword or every section's set is a `Set`; no keyword gives no hit; every hit scores in (0, 0.7] |
| LocalSearchResults.SearchByKeywords | src/services/localIntelligentSearch.js:325-350 | `searchByKeywords` gives the keyword hits of the query's keywords |
| LocalSearchResults.MatchSections | src/services/localIntelligentSearch.js:329-347 | the loop over sections gives the keyword hits, or the error of the first section that throws |
| LocalSearchResults.Mentions | src/services/localIntelligentSearch.js:364-366 | a sentence is relevant exactly when its lower-cased text contains the query |
| LocalSearchResults.SentenceHitSpec | src/services/localIntelligentSearch.js:363-376 | a hit exactly when some sentence is relevant: a passage hit of that section and document, scored in (0, 0.6], and 0.6 exactly when every sentence is relevant |
| LocalSearchResults.ContentHitSpec | src/services/localIntelligentSearch.js:357-378 | a passage hit exactly when the section's text and one of its long sentences mention the query; it scores in (0, 0.6] |
| LocalSearchResults.SearchSection | src/services/localIntelligentSearch.js:358-377 | one section gives its passage hit |
| LocalSearchResults.ScoreSentences | src/services/localIntelligentSearch.js:364-376 | the relevant sentences give the passage hit |
| LocalSearchResults.ContentOf | src/services/localIntelligentSearch.js:357-378 | each section gives its passage hit |
| LocalSearchResults.SearchContent | src/services/localIntelligentSearch.js:353-381 | `searchContent`'s loop gives the passage hits of the lower-cased query |
| LocalSearchResults.DocHitsOf | src/services/localIntelligentSearch.js:256-268 | each document gives its hits |
| LocalSearchResults.DocHitScores | src/services/localIntelligentSearch.js:256-268 | every hit of a document scores in (0, 1] |
| LocalSearchResults.RankedSpec | src/services/localIntelligentSearch.js:384-401 | ranked hits come from the hits, by decreasing score, no two with one key, and every hit is represented by a ranked one of the same key and no lower score |
| LocalSearchResults.QaKeyBySection | src/services/localIntelligentSearch.js:393 | two question hits share a key exactly when they share a section |
| LocalSearchResults.RankedOneQuestionPerSection | src/services/localIntelligentSearch.js:384-401 | no two ranked question hits come from one section |
| LocalSearchResults.RankResults | src/services/localIntelligentSearch.js:384-401 | the loop with a `seen` set keeps the first hit of each key of the sorted hits |
| LocalSearchResults.IntelligentAnswer | src/services/localIntelligentSearch.js:404-416 | no hit gives the fixed reply; a best question hit gives its answer; any other starts with its document's title and section and ends with its content |
| LocalSearchResults.SearchFailsExactly | src/services/localIntelligentSearch.js:239-282 | `search` throws exactly when the query has a keyword and some section's set is a plain object |
| LocalSearchResults.OutcomeSpec | src/services/localIntelligentSearch.js:276-281 | at most five results, by decreasing score, no two with one key; confidence in [0, 1] and no lower than any result; the number found is the number ranked |
| LocalSearchResults.RankedOutcomeSpec | src/services/localIntelligentSearch.js:384-401 | ranking hits scored in (0, 1] gives sorted hits with distinct keys, scored in (0, 1] |
| LocalSearchResults.AllHitScores | src/services/localIntelligentSearch.js:254-268 | every hit gathered from the documents scores in (0, 1] |
| LocalSearchResults.SearchSpec | src/services/localIntelligentSearch.js:239-282 | no documents gives an empty result asking for an upload; otherwise the outcome ranks every document's hits, all scored in (0, 1] |
| LocalSearchResults.LoadDocLosesKeywords | src/services/localIntelligentSearch.js:419-454 | as written, a saved and reloaded document keeps its sections, but each section's keyword `Set` comes back as a plain object |
| LocalSearchResults.ReloadedSearchFails | src/services/localIntelligentSearch.js:419-454 | as written, a search that succeeds over documents as added throws over the same documents reloaded, for any query with a keyword |
| LocalSearchResults.StringsOfStrs | src/services/localIntelligentSearch.js:428-450 | the strings of a JSON array of strings are those strings |
| LocalSearchResults.LoadedIntact | src/services/localIntelligentSearch.js:438-454 | a document loaded with its sets rebuilt has distinct keywords in each set |
| LocalSearchResults.RoundTripFixed | src/services/localIntelligentSearch.js:419-454 | with sets written as arrays, loading a saved intact document gives it back |
| LocalSearchResults.IntactSearchOk | src/services/localIntelligentSearch.js:239-282 | over intact documents `search` never throws |
| LocalSearchResults.ExtractContent | src/services/localIntelligentSearch.js:50-55 | a file is read exactly when its type starts with text/ or its name ends in .md or .txt; any other is refused with the unsupported-type error |
| LocalSearchResults.ProcessedIntact | src/services/localIntelligentSearch.js:17-29 | a processed upload is intact |
| LocalSearchResults.SearchService.constructor | src/services/localIntelligentSearch.js:3-6 | no user is loaded; storage is as given |
| LocalSearchResults.SearchService.LoadAll | src/services/localIntelligentSearch.js:444-451 | every loaded document is intact |
| LocalSearchResults.SearchService.SaveToLocalStorage | src/services/localIntelligentSearch.js:419-435 | the document's saved form is appended to the user's stored list; nothing else changes |
| LocalSearchResults.SearchService.AddDocument | src/services/localIntelligentSearch.js:9-47 | an unreadable file is refused and nothing changes; a readable one is processed, appended to the user's documents (an unloaded user starts from none) and saved |
| LocalSearchResults.SearchService.LoadUserDocuments | src/services/localIntelligentSearch.js:438-454 | a loaded user is left alone; otherwise the stored list is loaded; storage is unchanged |
| LocalSearchResults.SearchService.GetUserDocuments | src/services/localIntelligentSearch.js:457-460 | the user's documents, loaded first |
| LocalSearchResults.SearchService.DeleteDocument | src/services/localIntelligentSearch.js:463-479 | exactly the user's documents with that id are dropped, the rest kept in order and stored; a user not loaded has the stored list emptied |
| LocalSearchResults.SearchService.Search | src/services/localIntelligentSearch.js:239-282 | the user's documents are loaded and searched as `SearchDocs` says, and the search never throws |
| LocalSearchResults.AppendIntact | src/services/localIntelligentSearch.js:32-35 | appending an intact document keeps every held document intact |
| LocalSearchResults.SearchDocument | src/services/localIntelligentSearch.js:257-267 | one document gives its question, keyword and passage hits, or the keyword search's error |
| LocalSearchResults.SearchDocuments | src/services/localIntelligentSearch.js:254-268 | the loop over documents gives every document's hits in turn, or the first error |
| LocalSearchResults.NotId | src/services/localIntelligentSearch.js:465 | keeps exactly the documents with another id |
| IntelligentStructure.Classify | src/services/intelligentDocumentProcessor.js:86-144 | a trimmed line is blank exactly when empty, a heading exactly when it starts with '#', a fence exactly when it is no heading and starts with three backticks, and otherwise a body line that records whether it holds '|', whether it is a list line and which kind |
| IntelligentStructure.Classified | src/services/intelligentDocumentProcessor.js:71-86 | one classified line per line of the text, at the same position |
| IntelligentStructure.ScanLine | src/services/intelligentDocumentProcessor.js:86-149 | the body of the loop for one line is the step function `Step` |
| IntelligentStructure.ScanAll | src/services/intelligentDocumentProcessor.js:85-150 | the loop leaves the state `ScanLines` gives after every line |
| IntelligentStructure.AnalyzeStructure | src/services/intelligentDocumentProcessor.js:70-153 | `analyzeDocumentStructure` as written: the structure the scan of every trimmed line leaves, with no table recorded at the end |
| IntelligentStructure.AnalyzeStructureFixed | src/services/intelligentDocumentProcessor.js:70-153 | the same with a table still open at the end of the text recorded too |
| IntelligentStructure.Heads | src/services/intelligentDocumentProcessor.js:91-107 | the heading positions among the first n lines, increasing, and every heading among them |
| IntelligentStructure.CodeMode | src/services/intelligentDocumentProcessor.js:110-116 | code mode after n lines is the parity of the fences among them |
| IntelligentStructure.StepKeepsHeads | src/services/intelligentDocumentProcessor.js:110-149 | a line that is no heading changes no section's level, title or start line |
| IntelligentStructure.SectionsAreHeadings | src/services/intelligentDocumentProcessor.js:91-107 | one section per heading, in order, each with its heading's line, title and level |
| IntelligentStructure.TitleIsFirst | src/services/intelligentDocumentProcessor.js:95-97 | the title is that of the first level-1 heading with a non-empty title, or empty when there is none |
| IntelligentStructure.CloseTableRows | src/services/intelligentDocumentProcessor.js:126-134 | closing a table adds exactly its lines to the recorded rows |
| IntelligentStructure.StepTables | src/services/intelligentDocumentProcessor.js:119-134 | a line adds itself to the rows (recorded or open) exactly when it holds '|' outside code; a table is open exactly when it has lines |
| IntelligentStructure.TablesHoldTableLines | src/services/intelligentDocumentProcessor.js:119-134 | the recorded tables and the open one hold every line with '|' outside code once, in order |
| IntelligentStructure.BlankTail | src/services/intelligentDocumentProcessor.js:88 | blank lines change nothing |
| IntelligentStructure.AddContentAppends | src/services/intelligentDocumentProcessor.js:147-149 | a line added to the open section is appended to the sections' lines |
| IntelligentStructure.OpenSectionContent | src/services/intelligentDocumentProcessor.js:99-105 | a new section adds no line |
| IntelligentStructure.StepContent | src/services/intelligentDocumentProcessor.js:86-149 | a line joins the sections' lines exactly when it is a body line without '|', outside code, after a heading |
| IntelligentStructure.ContentIsBody | src/services/intelligentDocumentProcessor.js:147-149 | the sections' lines are exactly the body lines without '|' outside code from the first heading on, in order |
| IntelligentStructure.StepLists | src/services/intelligentDocumentProcessor.js:137-144 | a line becomes a list item exactly when it is a list line that is not read into a table |
| IntelligentStructure.ListsAreListLines | src/services/intelligentDocumentProcessor.js:137-144 | the list items are the list lines with their kinds, in order, including those inside code |
| IntelligentStructure.StructureSpec | src/services/intelligentDocumentProcessor.js:70-153 | sections, their lines, list items and title of the whole document, as the four lemmas above state |
| IntelligentStructure.TablesAsWritten | src/services/intelligentDocumentProcessor.js:119-134 | as written, the recorded tables followed by the table left open are the table lines |
| IntelligentStructure.TrailingTableLost | src/services/intelligentDocumentProcessor.js:119-152 | as written, when the last non-blank line is a table line, fewer rows are recorded than there are table lines |
| IntelligentStructure.TrailingTableOpen | src/services/intelligentDocumentProcessor.js:119-152 | a table line followed only by blank lines leaves its table open when the loop ends |
| IntelligentStructure.TablesFixed | src/services/intelligentDocumentProcessor.js:119-134 | corrected, the tables hold every table line exactly once, in order |
| IntelligentStructure.FixedKeepsTheRest | src/services/intelligentDocumentProcessor.js:70-153 | the correction keeps title, sections and lists and only extends the tables |
| IntelligentKnowledge.Extract | src/services/intelligentDocumentProcessor.js:201-215 | at most one point per match |
| IntelligentKnowledge.ExtractSpec | src/services/intelligentDocumentProcessor.js:201-215 | a point is extracted exactly when it is made from a match the filter keeps |
| IntelligentKnowledge.ExtractMembers | src/services/intelligentDocumentProcessor.js:201-215 | the same, by membership of the match |
| IntelligentKnowledge.ExtractStep | src/services/intelligentDocumentProcessor.js:296-313 | reading one more item appends its point, if kept, to those already extracted |
| IntelligentKnowledge.ExtractFrom | src/services/intelligentDocumentProcessor.js:296-313 | extraction from position k on gives exactly the kept items from k on |
| IntelligentKnowledge.ExtractShape | src/services/intelligentDocumentProcessor.js:300-305 | every extracted point is a table row of the given section when every made point is |
| IntelligentKnowledge.DefinitionsSpec | src/services/intelligentDocumentProcessor.js:192-218 | the definitions are exactly the trimmed matches of the four patterns whose term is shorter than 20 and definition longer than 5, each under the section's title |
| IntelligentKnowledge.StepsOf | src/services/intelligentDocumentProcessor.js:233-239 | one step per match, with its number and its trimmed text |
| IntelligentKnowledge.ProceduresSpec | src/services/intelligentDocumentProcessor.js:221-253 | one procedure per step pattern matching twice or more, titled `<section>的操作步骤`, holding every match as a step |
| IntelligentKnowledge.FeaturesSpec | src/services/intelligentDocumentProcessor.js:256-283 | the features are exactly the trimmed matches of the four patterns shorter than 50, each under the section's title |
| IntelligentKnowledge.Cells | src/services/intelligentDocumentProcessor.js:293 | a row's cells are never empty |
| IntelligentKnowledge.TrimmedCells | src/services/intelligentDocumentProcessor.js:297 | trimming and dropping empty pieces gives no more cells than pieces, none empty |
| IntelligentKnowledge.RowData | src/services/intelligentDocumentProcessor.js:307-309 | the row's keys are exactly the first n headers |
| IntelligentKnowledge.RowDataLast | src/services/intelligentDocumentProcessor.js:307-309 | a header's value is the cell under its last occurrence among the first n columns |
| IntelligentKnowledge.CellRows | src/services/intelligentDocumentProcessor.js:293-297 | one cell list per row |
| IntelligentKnowledge.CellRowsAt | src/services/intelligentDocumentProcessor.js:293-297 | the cell list at position i is that row's cells |
| IntelligentKnowledge.TableKnowledgeSpec | src/services/intelligentDocumentProcessor.js:286-316 | nothing for fewer than two rows with '\|'; otherwise exactly one point per row from the third on with two cells or more, mapping the first row's headers to its cells, all table rows of the table's section |
| IntelligentKnowledge.FillRow | src/services/intelligentDocumentProcessor.js:307-309 | the loop fills the row's data as `RowData` for min(headers, cells) columns |
| IntelligentKnowledge.RowKnowledge | src/services/intelligentDocumentProcessor.js:297-312 | a row gives its point exactly when it has two cells or more |
| IntelligentKnowledge.ExtractRows | src/services/intelligentDocumentProcessor.js:296-313 | the rows from the third on give, in order, one point per row with two cells or more |
| IntelligentKnowledge.ExtractTableKnowledge | src/services/intelligentDocumentProcessor.js:286-316 | the loop over the data rows gives the table's points as `TableKnowledge`, whose meaning `TableKnowledgeSpec` states |
| IntelligentKnowledge.OrderedMarkerKept | src/services/intelligentDocumentProcessor.js:319-327 | as written, an ordered list line loses only its first digit, so what is left starts with a digit or a dot |
| IntelligentKnowledge.OrderedItemAsWritten | src/services/intelligentDocumentProcessor.js:322 | as written, the item `1. 打开设置` becomes `. 打开设置` |
| IntelligentKnowledge.StripMarkerSpec | src/services/intelligentDocumentProcessor.js:319-327 | corrected, an ordered line loses its number, dot and blanks, a bullet line loses its bullet and blanks as written, and the text left starts with no blank |
| IntelligentKnowledge.ListsPoints | src/services/intelligentDocumentProcessor.js:183-186 | one point per list item |
| IntelligentKnowledge.ListsPointsSpec | src/services/intelligentDocumentProcessor.js:183-186 | the point at position i is item i's text without its marker, with its section and kind |
| IntelligentKnowledge.SectionsPointsSpec | src/services/intelligentDocumentProcessor.js:160-174 | the sections give only definitions, procedures and features, each naming one of the sections |
| IntelligentKnowledge.TablesPointsSpec | src/services/intelligentDocumentProcessor.js:177-180 | the tables give only table rows |
| IntelligentKnowledge.SectionsPointsStep | src/services/intelligentDocumentProcessor.js:160-174 | reading one more section appends its points |
| IntelligentKnowledge.TablesPointsStep | src/services/intelligentDocumentProcessor.js:177-180 | reading one more table appends its points |
| IntelligentKnowledge.ListsPointsStep | src/services/intelligentDocumentProcessor.js:183-186 | reading one more list item appends its point |
| IntelligentKnowledge.CollectSectionPoints | src/services/intelligentDocumentProcessor.js:160-174 | the first loop gives every section's definitions, procedures and features, section after section |
| IntelligentKnowledge.CollectTablePoints | src/services/intelligentDocumentProcessor.js:177-180 | the second loop gives every table's points, table after table |
| IntelligentKnowledge.CollectListPoints | src/services/intelligentDocumentProcessor.js:183-186 | the third loop gives one point per list item |
| IntelligentKnowledge.ExtractKnowledgePoints | src/services/intelligentDocumentProcessor.js:156-189 | the sections' points, then the tables', then the list items' |
| IntelligentKnowledge.StepTexts | src/services/intelligentDocumentProcessor.js:347-349 | each step's text, in order |
| IntelligentKnowledge.QAPairsSpec | src/services/intelligentDocumentProcessor.js:330-367 | exactly one pair per definition, procedure or feature point, in order, and none for table rows and list items |
| IntelligentKnowledge.PairKeepsPoint | src/services/intelligentDocumentProcessor.js:339-360 | a pair keeps its point's confidence (0.7, 0.8 or 0.9) and names its point's section |
| IntelligentKnowledge.ProcedureQuestion | src/services/intelligentDocumentProcessor.js:346 | a procedure's question is `如何<section>？` when the section's title does not itself hold 的操作步骤 |
| IntelligentKnowledge.GenerateQAPairs | src/services/intelligentDocumentProcessor.js:330-367 | the loop gives the pairs `QAPairsSpec` describes |
| IntelligentKnowledge.SplitIntoChunks | src/services/intelligentDocumentProcessor.js:389-408 | the loop over the sentences gives the chunks `ChunksSpec` describes |
| IntelligentKnowledge.ChunkScanBounded | src/services/intelligentDocumentProcessor.js:394-401 | while scanning, the chunks are trimmed, fewer than the sentences read, and no longer than the size or the longest sentence plus one |
| IntelligentKnowledge.ChunksSpec | src/services/intelligentDocumentProcessor.js:389-408 | every chunk is trimmed, there are no more chunks than sentences, and none is longer than the chunk size or the longest sentence plus one |
| IntelligentProcessor.ExtractContent | src/services/intelligentDocumentProcessor.js:56-67 | a file is read exactly when its type starts with `text/` or its lower-cased name ends in `.md`, `.txt` or `.json`; otherwise the error names its type |
| IntelligentProcessor.LowerSuffix | src/services/intelligentDocumentProcessor.js:58 | lower-casing a name lower-cases its suffix |
| IntelligentProcessor.ExtensionCaseIgnored | src/services/intelligentDocumentProcessor.js:58-63 | a name ending in `.MD`, `.Txt`, `.JSON` or any other casing of the three extensions is read, whatever the type |
| IntelligentProcessor.ProcessDocSpec | src/services/intelligentDocumentProcessor.js:9-53 | processing fails exactly when reading fails; otherwise the document keeps the id, text and name, takes the title given or else the name, and holds its structure, points, pairs and chunks of 300 |
| IntelligentProcessor.AddDoc | src/services/intelligentDocumentProcessor.js:416-422 | the document is appended to its user's list, a new user starting from none, and no other user's list changes |
| IntelligentProcessor.PairScore | src/services/intelligentDocumentProcessor.js:464-478 | a pair scores between 0 and 0.9, and 0.9 exactly when question and query hold one another |
| IntelligentProcessor.PairThreshold | src/services/intelligentDocumentProcessor.js:468-480 | a pair is kept exactly when question and query hold one another or more than three sevenths of the query's words match |
| IntelligentProcessor.PairOf | src/services/intelligentDocumentProcessor.js:480-488 | a pair gives its hit exactly when it scores above 0.3 |
| IntelligentProcessor.PairHitsSpec | src/services/intelligentDocumentProcessor.js:459-492 | the hits are exactly the pairs scoring above 0.3, each with its question, answer, score and source, all scoring at most 0.9 |
| IntelligentProcessor.SearchQAPairs | src/services/intelligentDocumentProcessor.js:459-492 | the loop gives the hits `PairHitsSpec` describes for the lower-cased query |
| IntelligentProcessor.LongWords | src/services/intelligentDocumentProcessor.js:572-573 | every word kept is longer than one character |
| IntelligentProcessor.HasCommonWordsSpec | src/services/intelligentDocumentProcessor.js:571-580 | two texts share a word exactly when a long word of one and a long word of the other hold one another |
| IntelligentProcessor.HasCommonWordsSymmetric | src/services/intelligentDocumentProcessor.js:571-580 | sharing a word does not depend on the order of the texts |
| IntelligentProcessor.PointHitSpec | src/services/intelligentDocumentProcessor.js:499-541 | table rows and list items never hit; a definition hits exactly when term and query hold one another (0.8), a procedure when the query asks how and shares a word with its title (0.9), a feature when it shares a word with the query (0.6); a hit names its point's section |
| IntelligentProcessor.PointOf | src/services/intelligentDocumentProcessor.js:499-541 | a point gives the hit `PointHit` gives |
| IntelligentProcessor.PointHitsSpec | src/services/intelligentDocumentProcessor.js:495-545 | the hits are exactly those of the points that give one, scoring 0.6, 0.8 or 0.9, each naming a point's section |
| IntelligentProcessor.SearchKnowledgePoints | src/services/intelligentDocumentProcessor.js:495-545 | the loop gives the hits `PointHitsSpec` describes for the lower-cased query |
| IntelligentProcessor.ContentScore | src/services/intelligentDocumentProcessor.js:583-595 | the content score is between 0 and 1 |
| IntelligentProcessor.ContentScoreAbove | src/services/intelligentDocumentProcessor.js:583-595 | the score exceeds 0.2 exactly when the query's long words occur three times or more, and is 1 exactly when they occur ten times or more |
| IntelligentProcessor.CalculateContentScore | src/services/intelligentDocumentProcessor.js:583-595 | the loop gives a tenth per occurrence, capped at 1, as `ContentScore` |
| IntelligentProcessor.ChunkOf | src/services/intelligentDocumentProcessor.js:552-565 | a chunk gives the hit `ChunkHit` gives |
| IntelligentProcessor.ContentHitsSpec | src/services/intelligentDocumentProcessor.js:548-568 | the hits are exactly the chunks holding the query whose query words occur three times or more, each under the document's title, scoring above 0.2 and at most 1 |
| IntelligentProcessor.SearchContent | src/services/intelligentDocumentProcessor.js:548-568 | the loop gives the hits `ContentHitsSpec` describes for the lower-cased query |
| IntelligentProcessor.AllHitsMembers | src/services/intelligentDocumentProcessor.js:435-447 | a hit of all documents is exactly a hit of one of them |
| IntelligentProcessor.DocHitScores | src/services/intelligentDocumentProcessor.js:435-447 | every hit of a document scores above 0.2 and at most 1 |
| IntelligentProcessor.SearchSpec | src/services/intelligentDocumentProcessor.js:425-456 | a user without documents is told to upload one; otherwise at most ten hits by decreasing score, all found counted, and every hit left out is outranked by ten hits returned |
| IntelligentProcessor.SearchHitsSound | src/services/intelligentDocumentProcessor.js:425-456 | every hit returned is a hit of one of the user's documents, scoring above 0.2 and at most 1 |
| IntelligentProcessor.IntelligentDocumentProcessor.constructor | src/services/intelligentDocumentProcessor.js:3-6 | no processed document and no user |
| IntelligentProcessor.IntelligentDocumentProcessor.UpdateUserKnowledge | src/services/intelligentDocumentProcessor.js:416-422 | the user's documents become `AddDoc` of the old ones; the documents by id are unchanged |
| IntelligentProcessor.IntelligentDocumentProcessor.ProcessDocument | src/services/intelligentDocumentProcessor.js:9-53 | the result is `ProcessDoc`; a file that cannot be read changes nothing; a processed one is stored under its id and appended to its user's documents |
| IntelligentProcessor.IntelligentDocumentProcessor.Process | src/services/intelligentDocumentProcessor.js:12-40 | the file is read and processed as `ProcessDoc` |
| IntelligentProcessor.IntelligentDocumentProcessor.BuildDoc | src/services/intelligentDocumentProcessor.js:16-40 | the structure, points, pairs and chunks are computed as `NewDoc` |
| IntelligentProcessor.IntelligentDocumentProcessor.SearchDocument | src/services/intelligentDocumentProcessor.js:436-446 | one document's pair hits, then its point hits, then its chunk hits |
| IntelligentProcessor.IntelligentDocumentProcessor.IntelligentSearch | src/services/intelligentDocumentProcessor.js:425-456 | the answer is `Search` over the user's documents, as `SearchSpec` describes |
| IntelligentProcessor.IntelligentDocumentProcessor.GetUserDocuments | src/services/intelligentDocumentProcessor.js:598-600 | the user's documents, none for a user not seen |

## Left out

- Lower-casing is ASCII only. JavaScript `toLowerCase` also folds non-ASCII letters, but the vocabularies are Chinese and ASCII.
- JavaScript strings are UTF-16 code units and a Dafny `char` is a scalar value. The two agree for the Chinese text the services handle.
- `Math.log` in BM25's idf is the parameter `ln`, and the floating-point numerics around it are not modelled. The properties proved are ordering, thresholds and structure.
- The iteration order of JavaScript `Map`s is not modelled where it only breaks ties between equal scores in a stable sort. Ranked outputs are specified by sortedness, distinctness and top-k completeness instead.
- Dates are milliseconds since the epoch, passed in as `now`. Parsing date strings is not modelled: a stored upload time is a number or absent.
- `getIndexStats`, `calculateIndexSize` and `getAnalysisStats` only report sizes and are not modelled.
- Bm25.Bm25SearchEngine.AddDocument: consistency is promised only for a fresh id. Re-adding a stored id double counts df, as `Bm25.ReAddMiscounts` shows, and the coordinating service checks for fresh ids first.
- The prompt text of `buildAnalysisPrompt` and the network call to the language model are not modelled. The model's reply enters as a parsed JSON value, or as an error when the call or `JSON.parse` fails.
- QueryAnalyzer.ValidateAnalysisResult: the source mutates its argument in place. The model returns the normalised value instead, and fields that validation does not look at are dropped.
- A model filter value of the wrong JSON type (for example a number for `timeRange`) is treated as absent.
- EnhancedQuery.CalculateRelevance: counts the occurrences of a term as a plain substring. The source builds `new RegExp(termLower, 'g')`, so a term holding a regular-expression metacharacter counts differently (`.` matches any character) or throws (`c++`).
- DocumentSpecific.CalculateSectionRelevance: counts a term's content occurrences as a plain substring. The source builds `new RegExp(termLower, 'g')` (documentSpecificSearch.js:147), so a term holding a regular-expression metacharacter counts differently or throws (`c++`).
- DocumentSpecific.SectionScoreSpec: states the score for plain-substring content counts, as `DocumentSpecific.CalculateSectionRelevance` computes them; a term holding a regular-expression metacharacter is not covered.
- `matchDocumentContent` only sums the match counts of `findMatches` with fixed weights and is not modelled.
- EnhancedQuery.FindMatches: requires every term to be non-empty. For an empty term `indexOf` keeps returning the same index and the loop does not terminate.
- Converting a string or an array to a number is treated as NaN: the model's confidence is a JSON number, boolean or null.
- The ONNX encoder, mean pooling and vector normalisation are parameters of `Embedding.EmbeddingService.Embed` (`infer`, `normalize`); an inference that throws is `infer` returning nothing.
- A zero denominator in the cosine similarity gives NaN in JavaScript; the model gives 0. Both are rejected by every threshold and sort last or tie, except that NaN makes a sort comparator inconsistent.
- Embedding.EmbedBatch: requires a positive batch size. With a batch size of 0 the loop never advances; the default is 8. The pause every four batches only yields to the browser.
- Embedding.SimpleTokenizeSpec: requires maxLength >= 2. For smaller limits JavaScript's `Array(n)` with a negative n throws, and the only caller passes 512.
- Embedding.KMeansShapeSpec: states the shape of the clusters (non-empty, at most k, every document once) for any assignment. The centroid arithmetic, the random initial centroids and the 100-iteration convergence loop that choose the assignment are not modelled; the assignment is a parameter.
- A vocabulary lookup by a word such as `constructor` reaches `Object.prototype` in JavaScript; the vocabulary is a map of its own keys only.
- Embedding.AdvancedTokensSpec: the properties follow from the definition without proof steps; the loop method `Embedding.AdvancedTokenize` carries the proof work.
- `clusterDocuments` (embeddingService.js:259-270) only embeds missing vectors and calls the clustering; it is covered by `Embedding.EmbeddingService.Embed` and `Embedding.KMeansShapeSpec`.
- `passesFilters` in the RAG service accepts every document, so the semantic search ignores its filters; the model passes none.
- `loadExistingDocuments`, `getUserSearchHistory`, `getUserDocumentTypes` and `recordSearchHistory` in the RAG service only log or return constants; the analysis context they would feed is part of the analyzer's outcome, which is a parameter.
- `getPerformanceMetrics` (ragDocumentService.js:538-540) only returns the metrics that `Rag.RagService.UpdateMetrics` maintains; the getter itself is not modelled, since the metrics are fields of `Rag.RagService`.
- Rag.RagService.IntelligentSearch: the full path's keyword hits are a ranking that the engine's relation `Bm25.RankedHits` admits. Documents with equal scores may come in either order, where the source's stable sort fixes one.
- Rag.RagService.PerformHybridSearch: the `catch` that falls back to the basic search is not modelled, because both searches catch their own failures and the merge cannot throw.
- The basic search, the storage layer's document list and the `embeddings_<id>` records in `localStorage` are parameters; a failing read is an error result or a missing record.
- `performSpecificSearch` cannot fail once its callees catch their errors, so its `null` result is not modelled.
- The metrics' response time is a parameter: the difference of two `Date.now()` readings.
- Time is one reading `now` per operation. The source calls `Date.now()` again when it stores a cache entry, a few milliseconds later.
- `generateSpecificAnswer` is handed the combined results (ragDocumentService.js:88) and never reads them (documentSpecificSearch.js:207-237). `DocumentSpecific.GenerateSpecificAnswer` therefore takes an argument of any type, and its answer depends on the query alone.
- The response prompts (`buildResponsePrompt`, the summary prompt) are not modelled as text. The language model is a parameter that receives the query, the intent and the assembled context, or the topic and the three quoted excerpts.
- `(score * 100).toFixed(1)` and `toLocaleDateString('zh-CN')` are the parameters `percent` and `date` of `ResponseGenerator.AddReferences`.
- ResponseGenerator.GenerateNoResultsResponse: the suggested queries are strings; a non-string JSON value among them is not modelled.
- ResponseGenerator.ResponseGeneratorService.GenerateResponse: the cache key is the corrected `ResponseGenerator.ResponseKey`. As written, btoa throws for non-Latin-1 queries and the catch returns the template answer (see Findings).
- The three built-in answer texts of the direct answer service are constructor parameters; their wording is not modelled.
- `Object.keys` lists integer-like keys first in ascending order. The direct answer service's question list keeps plain insertion order, which agrees for every non-numeric question.
- `checkEnvironment` and `testDocumentSave` in the debug service only gather environment facts and log them; they are not modelled.
- The debug log's JSON encoding is not modelled: a storage slot is missing, parsed as a list, or unreadable (including a parsed value that is not a list).
- The mock SMS service's one-second delay, console output, on-page notification and the minute-by-minute `setInterval` sweep are not modelled; the sweep is `MockSms.MockSmsService.Cleanup`, called with the clock.
- `sendRealSMS` posts to the network and is not modelled.
- `getClientIP` draws a random identifier and is not modelled; the limiters take the address as given.
- The SMS limiter's calendar day (`toDateString` of the clock) is a parameter `today`.
- Security.CheckPasswordStrength: counts characters, where JavaScript's `length` counts UTF-16 units, so a character outside the Basic Multilingual Plane counts once instead of twice.
- The Qwen and OpenAI HTTP calls are not modelled: their outcome is the parameter `remote` of `Llm.LlmService.ChatCompletion`, and the timeout and request body are not represented.
- `Llm.LlmService.ChatCompletion` stores the reply with the time the call began; the source reads the clock again after the provider answers.
- The chat temperature is carried as its decimal text; JavaScript's number-to-text conversion is not modelled.
- `Llm.JsNumber` recognises decimal numerals only; the other forms `Number` accepts (signs, fractions, `Infinity`, hexadecimal) play no part in the limiter's keys.
- Llm.LlmService.ChatCompletion: uses the corrected cache key `Llm.ChatKey` and the corrected cleanup (see Findings).
- Llm.LlmService.CheckRateLimit: prunes old windows with the corrected cleanup (`Llm.PruneKeepsRecent`); as written, the cleanup deletes nothing (`Llm.CleanupAsWrittenKeepsAll`, see Findings).
- Llm.Admit: the limiter it returns is pruned by the corrected cleanup, keeping only the current window and the five before it; the source's cleanup never deletes a window.
- The OpenAI chat request (the system prompt built from the documents, the model name, the token limit and the temperature) is not modelled; its outcome is the parameter `api` of `OpenAi.OpenAiService.SearchDocuments`, the answer text or the error message.
- The `metadata` of an OpenAI-powered search (model name and tokens used) and `getServiceInfo`, which returns constants, are not modelled.
- `saveDocuments` writes the document list to browser storage and only logs a failure; the model keeps the list as a field and does not model the storage write.
- `addDocument`'s `createdAt` is the ISO text of the clock; the model keeps the clock reading.
- The OpenAI service's `searchDocuments` (`OpenAi.OpenAiService.SearchDocuments`) uses the corrected fallback, which lists the caller's documents with the same `anonymous_user` default as `getDocuments` (see Findings).
- `getDocuments` and `searchDocuments` of the simple document service only forward to `getUserDocuments` and `search`, and are not modelled separately.
- A storage write that throws (for example when the quota is exceeded) is not modelled: the simple document service's writes always succeed, so the `success: false` answer of `addDocumentFromData` does not arise. A stored value that parses to something other than a list is treated as unreadable.
- Upload times are kept as the clock reading rather than its ISO text.
- The browser database of the local document service is two lists in store order. Opening it, its indexes and a failed request are not modelled. `add` rejecting a duplicate id does not arise, because the id is a parameter standing for a fresh random UUID. Records with equal upload times are listed in store order, not in key order.
- LocalDocument.TermPoints: counts the occurrences of a term as a plain substring. The source builds a regular expression from the term, so a term holding a regular-expression metacharacter counts differently or throws.
- Upload times of the local document service are the clock reading rather than its ISO text, and `getStats` keeps its category counts as a list of pairs in first-seen order.
- The storage back ends' own operations (saving, listing and deleting on the browser database, a WebDAV share or the Cloudflare API), the per-user AES-GCM key and the content encryption are not modelled: `StorageAdapter.StorageManager.ExecuteWithFallback` takes each back end's outcome as the parameter `run`, and the search takes each document's decrypted text, or the failure to read it, as the parameter `read`.
- The health check of the Cloudflare API is the parameter `healthy`; the environment's addresses are parameters, set when non-empty.
- The StorageAdapter constructor starts `init` without awaiting it; only `init`'s choice of back end, `StorageAdapter.InitAdapter`, is modelled.
- StorageAdapter.TermScore: counts the occurrences of a term as a plain substring. The source builds a regular expression from the term, so a term holding a regular-expression metacharacter counts differently or throws.
- `enhancedDocumentService.js`: `saveDocument`, `processDocumentEmbedding`, the embedding store in `localStorage`, `deleteDocument` and `clusterDocuments` call the storage manager and the embedding model and are not modelled; `getUserDocuments` is the document list passed in.
- EnhancedDocument.SemanticHits: the similarities of a document's chunks to the query are the parameter `stored`; the embedding model and cosine similarity are `embedding.dfy`'s concern. A failed semantic or keyword search is an `Err` outcome.
- EnhancedDocument.Absorb: a later duplicate's score is weighted 0.7 whether it came from the semantic or the keyword search, as the code does; the 0.3 weight applies only to results of neither kind, which the combined search never produces.
- EnhancedDocument.ExtractContent: parsing and re-printing JSON is the parameter `pretty`; reading the file is the outcome `text`.
- EnhancedDocument.ExportUserData: the JSON export is the value that is printed, not its two-space-indented text; the export time is a parameter.
- EnhancedDocument.RecentSpec: the upload times are read by the parameter `time`, as `new Date` reads the ISO text.
- EnhancedDocument.CsvSpec: states the header and the empty case; a row is not split back into fields, since quoted fields may hold commas and line feeds.
- LocalIntelligentSearch.ProcessLines: the question map is kept as its list of entries in insertion order, so a `Map` and the entries `Array.from` writes are one value; `metadata` is not used by `processDocument`.
- LocalIntelligentSearch.QAMappingSpec: the confidence is always 0.8, since a question is a string and `question.confidence` is undefined.
- LocalIntelligentSearch.ExtractKeywordsSpec: `toLowerCase` is modelled on ASCII letters only, which are the only letters `[a-zA-Z]` admits.
- LocalSearchResults.RankResults: the in-place `sort` is modelled as the stable sort of a value; the caller's array being reordered is not modelled.
- LocalSearchResults.SearchService.AddDocument: `crypto.randomUUID()` and the clock are the parameters `id` and `now`; the document's `userId` and `metadata` fields are not modelled, since no operation reads them back.
- LocalSearchResults.SearchService.LoadUserDocuments: a stored value that is not valid JSON (where `JSON.parse` throws) is not modelled; storage holds saved documents.
- LocalSearchResults.SearchService.DeleteDocument: the stored form of `deleteDocument` also keeps the `userId` and `metadata` fields, which are not modelled; keyword sets are written as the corrected arrays, as in `SaveToLocalStorage`.
- LocalSearchResults.SearchService.Search: the console logs are left out. Search runs over documents saved and reloaded by the corrected round trip, so it never throws; as written, the reloaded search throws (`LocalSearchResults.ReloadedSearchFails`, see Findings).
- LocalSearchResults.SearchService.SaveToLocalStorage: writes each section's keywords as an array (the corrected `LocalSearchResults.SaveDocFixed`), where the source writes the `Set` as `{}` (see Findings).
- LocalSearchResults.SearchService.LoadUserDocuments: rebuilds each section's keyword set from the stored array (the corrected `LocalSearchResults.LoadDocFixed`), where the source keeps the stored `{}`.
- The regular expressions of `extractDefinitions`, `extractProcedures` and `extractFeatures` are not interpreted: their successive matches over a section's text are the parameter `rx` of `IntelligentKnowledge.KnowledgePoints`.
- `createSemanticIndex` keeps an empty `embeddings` list and a `knowledgeMap` keyed by `generateKnowledgeKey`, which reads `Date.now()`. Nothing reads either back, so the model keeps only the chunks.
- The `codeBlocks` list of the structure is never filled and is not modelled.
- `crypto.randomUUID()` and `new Date().toISOString()` in `processDocument` are the parameters `id` and `now`. The document's `userId` and `metadata` fields are not kept, since no operation reads them back. The console logs and the rethrowing `catch` are left out; a thrown error is an `Err` result.
- IntelligentProcessor.CalculateContentScore: counts each query word as a plain substring of the lower-cased chunk. The source builds `new RegExp(word, 'gi')`, so a word holding a regular-expression metacharacter counts differently, or throws (for example `c++`).
- IntelligentKnowledge.RowData: a header named `__proto__` sets the prototype of a JavaScript object instead of a key. The model's row is a map, where it is an ordinary key.
- The module's singleton instance is not modelled; `IntelligentProcessor.IntelligentDocumentProcessor.constructor` makes the service object.
- IntelligentProcessor.ProcessDocSpec: processing uses the corrected structure pass and the corrected list-marker removal (see Findings).

## Findings

| source | as written | input that shows it | evidently intended | confidence | as-written member | corrected member |
|---|---|---|---|---|---|---|
| src/services/queryAnalyzer.js:368-371 | the cache key is `btoa(query + JSON.stringify(context)).substring(0, 32)`, and btoa throws on any character above U+00FF | the query `怎么创建人设` | a key defined for every query, so that a Chinese query is analysed and cached | not executed | QueryAnalyzer.ChineseQueryHasNoKey | QueryAnalyzer.Analyzer.AnalyzeQuery |
| src/services/queryAnalyzer.js:368-371 | the first 32 base64 characters encode only the first 24 input characters | a 24-character Latin-1 query with the contexts `{}` and `{"userId":"u1"}` | one cache entry per (query, context) pair | not executed | QueryAnalyzer.ContextIgnoredAsWritten | QueryAnalyzer.AnalysisKeyInjective |
| src/services/ragDocumentService.js:506-508 | the search key is `btoa(query + userId + JSON.stringify(options)).substring(0, 32)`, computed inside the try block | the query `怎么创建人设` | a key for every query, so that a Chinese query reaches the cache, the fast path and the full search | not executed | Rag.SearchKeyAsWrittenFails | Rag.SearchKeySeparatesUsers |
| src/services/ragDocumentService.js:506-508 | only the first 24 characters of query + userId + options reach the key | a 24-character Latin-1 query from two users | one cache entry per (query, user, options), so one user's results are never served to another | not executed | Rag.SearchKeyAsWrittenFails | Rag.SearchKeySeparatesUsers |
| src/services/ragDocumentService.js:500-504 | the snippet is cut with `content.substring`, but the engine stores `content` as an array of tokens (bm25SearchEngine.js:47); an empty array is truthy, so every hit throws and the catch at line 353 returns [] | any query whose entities match an indexed document | a snippet cut from the document's text | not executed | Rag.KeywordSearchAsWrittenLosesHits | Rag.RagService.PerformKeywordSearch |
| src/services/intelligentResponseGenerator.js:299-302 | the answer cache key is `btoa(query + ids).substring(0, 32)`, computed inside the try block | the query `怎么创建人设` | a key for every query, so that a Chinese query is answered by the language model | not executed | ResponseGenerator.ResponseKeyAsWrittenFails | ResponseGenerator.ResponseKeySeparates |
| src/services/llmService.js:255-259 | the request key is `btoa(prompt + model + temperature).substring(0, 32)`, computed before the try block, and btoa throws on any character above U+00FF | the prompt `查询类型判断` | a key for every prompt, so that a Chinese prompt reaches the provider or the local model | not executed | Llm.ChatKeyAsWrittenFails | Llm.ChatKeySeparates |
| src/services/llmService.js:276-281 | the cleanup compares each key with `key - 5`, which is NaN because the key begins with the provider's name, so no entry is ever deleted | requests in any two windows more than five minutes apart: the older window's entry stays | keep only the current window and the five before it | not executed | Llm.CleanupAsWrittenKeepsAll | Llm.PruneKeepsRecent |
| src/services/openaiService.js:233-236 | the fallback keeps the documents whose owner equals `options.userId`, without the `anonymous_user` default that `addDocument` and `getDocuments` apply | a search without a user id and without an API key, over documents added without a user id | the caller's documents, chosen as `getDocuments` chooses them | not executed | OpenAi.FallbackAsWrittenLosesAnonymous | OpenAi.OpenAiService.SimpleFallbackSearch |
| src/services/localIntelligentSearch.js:419-454 | `saveToLocalStorage` and `deleteDocument` store each section with its keyword `Set`, which `JSON.stringify` writes as `{}`, and `loadUserDocuments` does not rebuild it; `searchByKeywords` then calls `has` on a plain object (line 333) and throws | the query `创建人设`, after reloading the page, over an uploaded document with a heading | each section's keywords survive the round trip, so a reloaded document is searched as it was added | not executed | LocalSearchResults.ReloadedSearchFails | LocalSearchResults.RoundTripFixed |
| src/services/intelligentDocumentProcessor.js:119-152 | a table is recorded only when a later non-table line closes it; after the loop an open table is dropped | a document whose last non-blank line is a table row: a heading followed by a header row, a separator row and one data row, and nothing after them | every table recorded, including one that ends the document | not executed | IntelligentStructure.TrailingTableLost | IntelligentStructure.TablesFixed |
| src/services/intelligentDocumentProcessor.js:322 | the marker pattern `[-*+\d\.]` removes one character, so an ordered item keeps the rest of its number and its dot | the list item `1. 打开设置` | the item's text without its number and dot, `打开设置` | not executed | IntelligentKnowledge.OrderedItemAsWritten | IntelligentKnowledge.StripMarkerSpec |
