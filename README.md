# Rule-based and neighbourhood movie recommenders, in Dafny

This project models two rating predictors for movies.

**The Markov-logic recommender** (`mln/mln_recommender.py`) works in five stages:

1. **Preference extraction.** Each rating at or above a threshold spreads one unit of weight evenly over the genres of the rated movie. Each user's weights are normalised and thresholded into the list of genres the user prefers (the user's *transaction*).
2. **Canonical patterns.** The frequent genre patterns mined from those transactions get canonical keys and become a support dictionary.
3. **Program generation.** Two logic-program files are generated:
   - a *world* file: six weighted `likes` rules, one `prefers` fact per user and genre, and count and genre facts per movie;
   - a *preference* file: one confidence-weighted rule per pattern and head genre whose body was itself mined.
4. **Batched evaluation.** One `likes` query per test pair goes to a probabilistic logic engine, in batches. The answers are parsed back and left-joined onto the test pairs.
5. **Calibration.** Each probability becomes a rating through the normal quantile of the movie's rating statistics. Rarely rated movies fall back to the overall statistics. The result is clipped to [0.5, 5].

**The KNN recommender** (`knn_cf/knn_recommender.py`) keeps a user-by-item rating matrix and a cosine similarity over its users or its items:

- it predicts a rating as the similarity-weighted average over the nearest neighbours, which are chosen by an argsort slice;
- it recommends the user's unrated items ranked by that prediction.

Files:

| file | module | contents |
|---|---|---|
| `common.dfy` | `Common` | options, numpy floats (`Num`/`PosInf`/`NegInf`/`NaN`), `np.clip`, Python slicing, sums |
| `text.dfy` | `Text` | `lower`, `split()`/`join`, `splitlines`, `str(int)`/`int(str)`, `sorted` on strings |
| `mln_preferences.dfy` | `MlnPreferences` | `extract_user_preferences` (nested accumulation loops, binarisation) |
| `mln_patterns.dfy` | `MlnPatterns` | pattern canonicalisation and the pattern dictionary |
| `mln_rules.dfy` | `MlnRules` | `generate_logic_rules`: world and preference files, as written and as intended |
| `mln_calibration.dfy` | `MlnCalibration` | `calculate_movie_stats`, `infer_rating` |
| `mln_inference.dfy` | `MlnInference` | queries, `parse_result`, `process_batch`, batching, collection, merge, `predict` |
| `mln_recommender.dfy` | `MlnRecommender` | the recommender object and its fitted state |
| `knn_recommender.dfy` | `KnnRecommender` | `KNNRecommender`: `fit`, `predict`, both predictors, `recommend` |

Several external pieces are parameters:

- the pattern miner;
- the logic engine, a function from program text to a failure or a list of (key, probability) entries;
- the normal quantile `q(mu, sigma, p)` for `0 < p < 1`;
- the sample standard deviation;
- the two float renderers (`repr` and `:.2f`);
- the order in which the worker pool completes batches;
- the cosine similarity;
- numpy's `argsort`, required to return some ascending argsort.

Files are sequences of lines. Rules and facts are a `Line` datatype, rendered to text by `Render`.

Points where the program's own text promises more than its code does:

- **Deviation of zero.** `infer_rating` (mln/mln_recommender.py:264) calls `norm(mu, sigma).ppf(p)`, and scipy gives NaN for a deviation of zero. So `InferRating` is NaN exactly when the mean or deviation is undefined or the deviation is not positive.
- **Users with zero total weight.** `extract_user_preferences` divides each weight row by its sum (mln/mln_recommender.py:129-132). A zero sum gives a NaN row that selects no genre, so such a user keeps an entry with an empty genre list.
- **Rule emission.** The emission loop of `generate_logic_rules` sits outside the file's `with` block (see Findings). The model keeps both versions, and the recommender object uses the intended one.
- **`alpha`.** The constructor documents it as the base probability for genre preference (mln/mln_recommender.py:77). The code stores it but never reads it, and uses a fixed `0.9` (mln/mln_recommender.py:179).
- **Missing `rating` column.** The `predict` docstring promises a `rating` column (mln/mln_recommender.py:276-277). When no batch returns a row, the code skips the ratings (mln/mln_recommender.py:316-322), and the merged frame has no such column. `PredictOutcome.hasRating` records this.

## Model

| member | source | states |
|---|---|---|
| MlnPreferences.GenresDistinct | mln/mln_recommender.py:86-90 | the genre vocabulary has 19 distinct names |
| MlnPreferences.MovieGenres | mln/mln_recommender.py:121-122 | a movie id absent from the table yields no genres; otherwise the genres of a row with that id |
| MlnPreferences.Qualifying | mln/mln_recommender.py:110 | exactly the ratings at or above the threshold are kept |
| MlnPreferences.Users | mln/mln_recommender.py:113-117 | the weight table's rows are the distinct users with a qualifying rating |
| MlnPreferences.Preferred | mln/mln_recommender.py:129-132 | a row with zero total selects no genre (NaN comparisons are false) |
| MlnPreferences.WeightVectorStep | mln/mln_recommender.py:120-126 | one more rating changes only its own user's row, by its contribution |
| MlnPreferences.SpreadWeight | mln/mln_recommender.py:122-126 | the inner loop adds `1/len(genres)` per occurrence to every vocabulary genre of the movie |
| MlnPreferences.AccumulateWeights | mln/mln_recommender.py:113-126 | the in-place accumulation gives one row per user equal to the weight specification |
| MlnPreferences.Binarize | mln/mln_recommender.py:129-139 | one transaction per user, holding that user's preferred genres |
| MlnPreferences.ExtractUserPreferences | mln/mln_recommender.py:101-139 | users, weight table and transactions equal their specifications |
| MlnPreferences.ShareOfIsFraction | mln/mln_recommender.py:123-126 | a known movie adds (occurrences of the genre) / len(genres) to that genre |
| MlnPreferences.ContributionTotalIsCount | mln/mln_recommender.py:123-126 | a rating's total contribution is the count of its vocabulary genres times `1/len(genres)` |
| MlnPreferences.ContributionTotalZero | mln/mln_recommender.py:121-126 | a movie missing from the table, or with no genres, contributes nothing |
| MlnPreferences.RatingContributesAtMostOne | mln/mln_recommender.py:120-126 | one rating contributes between 0 and 1 in total, and 0 for an unknown movie |
| MlnPreferences.WeightOfAddedRating | mln/mln_recommender.py:110-126 | a rating below the threshold, of another user or of an unknown movie leaves a weight unchanged |
| MlnPreferences.PreferredSpec | mln/mln_recommender.py:129-139 | a genre is preferred iff its share of a non-zero total reaches the threshold; vocabulary order |
| MlnPreferences.TransactionUsers | mln/mln_recommender.py:113-139 | exactly one transaction per user with a qualifying rating, no other |
| MlnPreferences.TransactionGenres | mln/mln_recommender.py:129-139 | each transaction lists exactly the genres over the threshold, in vocabulary order; empty for zero total |
| MlnPatterns.CanonicalTokens | mln/mln_recommender.py:156-158 | a key's tokens are the pattern's tokens, sorted, same multiset |
| MlnPatterns.CanonicalIdempotent | mln/mln_recommender.py:156-158 | canonicalising a key again changes nothing |
| MlnPatterns.CanonicalOrderFree | mln/mln_recommender.py:156-158 | patterns listing the same tokens in any order get the same key |
| MlnPatterns.CanonicalRows | mln/mln_recommender.py:155-158 | the table keeps its rows and supports, each pattern replaced by its key |
| MlnPatterns.PatternDictSpec | mln/mln_recommender.py:161-164 | keys are the table's patterns; each maps to the support of its last row |
| MlnPatterns.DictKeysCanonical | mln/mln_recommender.py:156-164 | every dictionary key is canonical |
| MlnRules.Bucket | mln/mln_recommender.py:193-196 | up to five genres name their count, more name `more_than_5` |
| MlnRules.FactsOf | mln/mln_recommender.py:186-188 | one lower-cased `prefers` fact per genre of a transaction, in order |
| MlnRules.BodyTextJoin | mln/mln_recommender.py:219-222 | with distinct tokens the `, ` separators fall exactly between body atoms |
| MlnRules.WorldRulesSpec | mln/mln_recommender.py:179-183 | six `likes` rules, weights 0.9/i for i = 1..5 and 0.9/6, strictly decreasing |
| MlnRules.PreferenceFactsSpec | mln/mln_recommender.py:186-188 | a `prefers(user, genre)` fact exists iff that (user, genre) is in the transactions |
| MlnRules.PreferenceFactsCount | mln/mln_recommender.py:186-188 | exactly one `prefers` fact per (user, genre) entry of the transactions |
| MlnRules.GenreFactsSpec | mln/mln_recommender.py:198-201 | a `has_genre` fact per listed genre except `(no genres listed)`, nothing else |
| MlnRules.MovieFactsSpec | mln/mln_recommender.py:191-201 | each movie gets exactly one count fact with its bucket, and exactly its genre facts |
| MlnRules.MovieFactsAbsent | mln/mln_recommender.py:191-201 | an id not in the table gets no fact |
| MlnRules.IntendedRuleBody | mln/mln_recommender.py:210-211 | a rule body reads back as the pattern's other tokens, sorted |
| MlnRules.RulesForHeadsSound | mln/mln_recommender.py:210-217 | every emitted rule comes from a head whose body is a mined key |
| MlnRules.RulesForHeadsComplete | mln/mln_recommender.py:210-217 | every head whose body is a mined key yields its rule |
| MlnRules.RulesForPatternSpec | mln/mln_recommender.py:206-217 | fewer than two tokens gives no rule; otherwise exactly the rules of heads with mined bodies |
| MlnRules.PreferenceProgramSpec | mln/mln_recommender.py:204-223 | the preference file holds exactly the rules of all the table's patterns |
| MlnRules.RuleText | mln/mln_recommender.py:218-223 | a rule's text is `fixed2(support, body support)::prefers(u, head) :-` and the body atoms joined by `, ` |
| MlnRules.WriteWorld | mln/mln_recommender.py:178-201 | the lines written are the world file specification |
| MlnRules.WritePreferenceFacts | mln/mln_recommender.py:186-188 | appends exactly the `prefers` facts of the transactions |
| MlnRules.WriteUserFacts | mln/mln_recommender.py:187-188 | appends exactly one user's `prefers` facts, in genre order |
| MlnRules.WriteMovieFacts | mln/mln_recommender.py:191-201 | appends exactly each movie's count fact and genre facts |
| MlnRules.WriteMovieLines | mln/mln_recommender.py:193-201 | one movie's lines: its genre-count fact, then one fact per genre |
| MlnRules.WritePreferenceRules | mln/mln_recommender.py:204-223 | the emission loop inside the pattern loop writes the preference program |
| MlnRules.WriteHeads | mln/mln_recommender.py:210-223 | appends the rules of every head of one pattern |
| MlnRules.WriteHead | mln/mln_recommender.py:211-223 | writes the rule of one head iff its body is mined |
| MlnRules.ScanHeads | mln/mln_recommender.py:210-214 | the dedented head scan reports whether some head's body is a mined pattern |
| MlnRules.WritePreferenceRulesAsWritten | mln/mln_recommender.py:204-223 | the emission as indented in the source ends as `PreferenceAsWritten` says |
| MlnRules.PreferenceAsWritten | mln/mln_recommender.py:204-223 | an empty table raises (unbound loop variable); a success writes nothing |
| MlnRules.PairDict | mln/mln_recommender.py:161-164 | the table {a, a b} gives the dictionary {a: sa, a b: sab} |
| MlnRules.PairRules | mln/mln_recommender.py:206-223 | on that dictionary `a` yields no rule and `a b` yields only `b <- a` |
| MlnRules.DedentCounterexample | mln/mln_recommender.py:204-223 | as written, the table {a, a b} makes the emission write to the closed file |
| MlnRules.DedentCorrected | mln/mln_recommender.py:204-223 | as intended, the same table yields exactly the rule `b <- a` with confidence sab/sa |
| MlnCalibration.WithFallback | mln/mln_recommender.py:237-243 | fewer than 10 ratings takes the overall mean and deviation; otherwise the row is kept |
| MlnCalibration.StatsFor | mln/mln_recommender.py:257-262 | a movie without statistics uses the overall mean and deviation |
| MlnCalibration.InferRating | mln/mln_recommender.py:257-265 | NaN iff the probability is NaN or the distribution is improper; otherwise in [0.5, 5], with the clipped quantile strictly between 0 and 1 |
| MlnCalibration.InferRatingMonotone | mln/mln_recommender.py:263-264 | with a monotone quantile the rating does not decrease with the probability |
| MlnCalibration.RatingsOfCount | mln/mln_recommender.py:235 | a movie's ratings number exactly as many as its rows |
| MlnCalibration.RatingsOfMembers | mln/mln_recommender.py:235 | a value is among a movie's ratings iff some row of that movie carries it |
| MlnCalibration.RatingsOfPresent | mln/mln_recommender.py:235-243 | a movie gets a statistics row iff it has at least one rating |
| MlnCalibration.MovieStatsSpec | mln/mln_recommender.py:235-243 | one row per rated movie; under 10 ratings the overall values, else its own mean and deviation |
| MlnCalibration.MeanBounds | mln/mln_recommender.py:233 | the mean of ratings on a scale lies on that scale |
| MlnInference.QueryLines | mln/mln_recommender.py:280-282 | one query line per test pair, in order |
| MlnInference.QueryFileRoundTrip | mln/mln_recommender.py:280-287 | reading the query file back line by line gives exactly the queries written |
| MlnInference.WriteQueries | mln/mln_recommender.py:280-282 | the lines written are the query lines |
| MlnInference.QueryKeyRoundTrip | mln/mln_recommender.py:31-35 | dropping `user`/`movie` from a query's arguments and parsing gives back (u, m) |
| MlnInference.ParseEntriesFails | mln/mln_recommender.py:29-37 | once an entry fails to parse, the whole answer fails |
| MlnInference.ParseEntriesSpec | mln/mln_recommender.py:28-38 | parsing succeeds iff no term is malformed; the rows are then exactly the term entries |
| MlnInference.ParseResult | mln/mln_recommender.py:28-38 | the row-appending loop computes the parse |
| MlnInference.BatchesSpec | mln/mln_recommender.py:290 | batches concatenate to the queries; all full but the last; none empty; none iff no query |
| MlnInference.CollectMembers | mln/mln_recommender.py:302-306 | in any completion order the collected rows are exactly the batches' rows |
| MlnInference.Score | mln/mln_recommender.py:316-322 | each row keeps its pair and probability and gets the rating of its movie and probability |
| MlnInference.MatchesSpec | mln/mln_recommender.py:325-331 | the matches of a pair are the rows with that pair; at most one with unique keys |
| MlnInference.MergeSpec | mln/mln_recommender.py:324-331 | one output row per test pair in test order; probability and rating present iff a result has the pair |
| MlnInference.MergeOrderFree | mln/mln_recommender.py:305-331 | with unique keys the join does not depend on the order of the results |
| MlnInference.BatchResults | mln/mln_recommender.py:304-305 | every batch is processed with the whole program text |
| MlnInference.PredictRun | mln/mln_recommender.py:267-332 | fails exactly on a zero step, on fewer than one worker, or on no batch; otherwise predicts |
| MlnInference.JoinContainment | mln/mln_recommender.py:313-331 | a test pair gets a probability iff some batch returned a row for it |
| MlnInference.PredictContainment | mln/mln_recommender.py:47-58 | a failing batch costs only its own pairs; every test pair keeps its row |
| MlnInference.PredictRatingColumn | mln/mln_recommender.py:315-331 | the frame has a `rating` column iff some batch returned a row; without one, every test pair's row has neither probability nor rating |
| MlnInference.PredictOrderFree | mln/mln_recommender.py:305-313 | the prediction does not depend on the order batches complete in |
| MlnInference.Predict | mln/mln_recommender.py:267-332 | the step-by-step prediction computes `PredictRun` |
| MlnInference.GatherResults | mln/mln_recommender.py:302-306 | the results list holds the batch results in completion order |
| MlnInference.BatchRows | mln/mln_recommender.py:40-58 | one worker's job yields the batch's rows, or none on failure |
| Text.Lower | mln/mln_recommender.py:188 | lower-casing keeps the length and maps each character |
| Text.SplitJoin | mln/mln_recommender.py:157 | splitting a space-joined token list gives the tokens back |
| Text.SplitLinesOfLines | mln/mln_recommender.py:287 | `splitlines` undoes writing lines with newlines |
| Text.ParseShowInt | mln/mln_recommender.py:34-35 | `int(str(n)) == n` |
| Text.SortStringsPermutes | mln/mln_recommender.py:157 | `sorted` keeps every token with its multiplicity |
| Text.SortStringsSorted | mln/mln_recommender.py:157 | `sorted` output is in order |
| Text.SortStringsIdempotent | mln/mln_recommender.py:157 | sorting twice equals sorting once |
| Common.Clip | mln/mln_recommender.py:263-264 | NaN stays NaN; anything else lands in [lo, hi]; infinities go to the bounds |
| Common.PySlice | mln/mln_recommender.py:34-35 | Python slicing agrees with Dafny slicing on in-range bounds |
| MlnRecommender.Rater | mln/mln_recommender.py:317-322 | the rating applied to each row is `infer_rating` of its movie and probability |
| MlnRecommender.MarkovLogicNetworkWithUserGenreModel.constructor | mln/mln_recommender.py:68-99 | the settings are stored and every fitted component starts empty |
| MlnRecommender.MarkovLogicNetworkWithUserGenreModel.ExtractUserPreferences | mln/mln_recommender.py:101-139 | sets the weight table and transactions; nothing else changes |
| MlnRecommender.MarkovLogicNetworkWithUserGenreModel.MineFrequentPatterns | mln/mln_recommender.py:141-164 | sets the canonical pattern table and its dictionary; nothing else changes |
| MlnRecommender.MarkovLogicNetworkWithUserGenreModel.GenerateLogicRules | mln/mln_recommender.py:166-223 | writes the world file and the intended preference file; nothing else changes |
| MlnRecommender.MarkovLogicNetworkWithUserGenreModel.CalculateMovieStats | mln/mln_recommender.py:225-243 | sets the overall mean and deviation and the per-movie statistics |
| MlnRecommender.MarkovLogicNetworkWithUserGenreModel.InferRatingFor | mln/mln_recommender.py:245-265 | a rating is NaN or lies in [0.5, 5] |
| MlnRecommender.MarkovLogicNetworkWithUserGenreModel.Fit | mln/mln_recommender.py:334-360 | the four training steps leave every fitted component at its specification: the weight table, the transactions, the canonical patterns and their dictionary, both program files and the statistics |
| MlnRecommender.MarkovLogicNetworkWithUserGenreModel.Predict | mln/mln_recommender.py:267-332 | prediction reads back both program files and rates with the fitted statistics |
| KnnRecommender.Transpose | knn_cf/knn_recommender.py:38 | the transpose's rows are the matrix's columns |
| KnnRecommender.SimilarityInput | knn_cf/knn_recommender.py:35-38 | similarity over rows for `'user'`, over columns for any other method |
| KnnRecommender.Neighbours | knn_cf/knn_recommender.py:63 | every neighbour is an entry of the argsort |
| KnnRecommender.NeighbourStart | knn_cf/knn_recommender.py:63 | for k >= 0 the slice starts k positions below the top, or at 0 |
| KnnRecommender.NeighboursShape | knn_cf/knn_recommender.py:63 | the neighbours are the sorted positions below the top, highest first: k of them, or all but the top |
| KnnRecommender.NeighboursInRange | knn_cf/knn_recommender.py:63 | every neighbour indexes the similarity row |
| KnnRecommender.NeighboursDistinct | knn_cf/knn_recommender.py:63 | neighbours are distinct and exclude the most similar position |
| KnnRecommender.NeighboursOrdered | knn_cf/knn_recommender.py:63 | neighbour similarities do not increase; every position left below is no more similar |
| KnnRecommender.WeightedRating | knn_cf/knn_recommender.py:66-79 | the accumulation loop gives the weighted average, and 0 for a zero denominator |
| KnnRecommender.DenominatorZero | knn_cf/knn_recommender.py:74-77 | the denominator is non-negative, and zero iff every neighbour similarity is zero |
| KnnRecommender.NumeratorBounds | knn_cf/knn_recommender.py:66-79 | with non-negative similarities the numerator lies between lo and hi times the denominator |
| KnnRecommender.WeightedAverageBounds | knn_cf/knn_recommender.py:73-79 | the prediction is a weighted average of the neighbour ratings |
| KnnRecommender.PredictionBounds | knn_cf/knn_recommender.py:54-113 | with non-negative similarities and ratings in [0, hi], every prediction lies in [0, hi] |
| KnnRecommender.InsertDescPermutes | knn_cf/knn_recommender.py:138 | inserting adds exactly one entry |
| KnnRecommender.InsertDescSorted | knn_cf/knn_recommender.py:138 | inserting keeps the ranking non-increasing |
| KnnRecommender.SortDescSpec | knn_cf/knn_recommender.py:138 | the ranking is non-increasing and a permutation |
| KnnRecommender.CandidatesSpec | knn_cf/knn_recommender.py:127-135 | the candidates are exactly the items rated 0, each with its prediction |
| KnnRecommender.RecommendationsSpec | knn_cf/knn_recommender.py:124-139 | the result is the top of a non-increasing permutation of the candidates: n of them, or all |
| KnnRecommender.RankedHead | knn_cf/knn_recommender.py:138-139 | the `[:n]` head of the descending sort is a prefix of a permutation of the candidates that outranks everything cut |
| KnnRecommender.KNNRecommender.constructor | knn_cf/knn_recommender.py:7-17 | settings stored, no matrices yet |
| KnnRecommender.KNNRecommender.Fit | knn_cf/knn_recommender.py:19-38 | keeps the matrix and the cosine similarity of the method's rows or columns |
| KnnRecommender.KNNRecommender.Predict | knn_cf/knn_recommender.py:40-52 | dispatches on the method; an unknown user or item gives 0 |
| KnnRecommender.KNNRecommender.PredictUserBased | knn_cf/knn_recommender.py:54-79 | the weighted average of the item's ratings by the user's neighbours, or 0 |
| KnnRecommender.KNNRecommender.PredictItemBased | knn_cf/knn_recommender.py:81-113 | the weighted average of the user's ratings of the item's neighbours; 0 with no positive rating |
| KnnRecommender.KNNRecommender.Recommend | knn_cf/knn_recommender.py:115-139 | `[]` for an unknown user; otherwise the ranked unrated items cut at n |

## Left out

- Probabilistic logic engine: evaluating the program is not modelled. The engine is a parameter from program text to a failure or an answer. As a result the model does not show that the preference rules' atoms use the constant `u`, not a variable, so they never match a `user<id>`.
- FP-Growth mining is a parameter returning the pattern table. Building its input table of comma-joined genre sets is not modelled; the miner receives the transactions.
- `norm(mu, sigma).ppf` is the parameter `q` for 0 < p < 1. Its values at 0 and 1 and for improper parameters follow the library.
- The pandas sample standard deviation is a parameter. The mean is computed exactly on reals. Infinite ratings are not modelled.
- The `multiprocessing` pool and `tqdm` are not modelled. Batches are evaluated one after another, and the completion order is a parameter. The progress counter and the closing of the pool are left out.
- File I/O (`os.makedirs`, writing and reading `world.pl`, `preference.pl`, `query.pl`) is modelled as sequences of lines. The output directory is not modelled.
- Float text: Python's float `repr` of `0.9/i` and the `:.2f` rendering of a confidence are the abstract renderers in `Format`. The weights are exact reals.
- `print(body)` in rule generation and the error message printed for a failed batch are left out, because they are output only.
- `evaluate` (RMSE and MAE through sklearn) is left out as floating-point library code.
- `pd.pivot_table` and sklearn `cosine_similarity` in the KNN `fit` are left out. The matrix is an input, and the cosine is a parameter assumed to return one row and column per input row.
- numpy `argsort` is a parameter required to return an ascending argsort. Its order among equal similarities is unspecified here, as in numpy's default sort.
- `Text.Lower` handles ASCII letters only. The nineteen vocabulary genres are ASCII.
- `Text.ParseInt` accepts an optional sign and ASCII digits only. It does not accept the surrounding whitespace, underscores or non-ASCII digits that `int()` tolerates.
- `MlnPreferences.MovieGenres` uses the first row with a matching id. A movie table with duplicate ids, where pandas `.loc` returns several rows, is not modelled.
- The `genres` column is a list of genre names, as the loader makes it with `str.split('|')` (eval_framework/data_loader.py:20).
- MlnRecommender.MarkovLogicNetworkWithUserGenreModel.MineFrequentPatterns requires that preferences were extracted first. Out of order, the source fails on `None`, and that error is not modelled.
- MlnRecommender.MarkovLogicNetworkWithUserGenreModel.GenerateLogicRules requires that the earlier steps have filled their fields. The source's failure when they are `None` is not modelled.
- MlnRecommender.MarkovLogicNetworkWithUserGenreModel.GenerateLogicRules writes the intended preference file, not the as-written one (see Findings).
- MlnRecommender.MarkovLogicNetworkWithUserGenreModel.Predict requires both files and the statistics to exist. A missing file, or missing statistics, is not modelled as an error.
- MlnRecommender.MarkovLogicNetworkWithUserGenreModel.InferRatingFor requires the statistics to exist. The source fails on `None`, and that error is not modelled.
- MlnRecommender.MarkovLogicNetworkWithUserGenreModel.Fit does not model the copy of the input tables, and does not model `movies.index` being reassigned on the caller's table.
- KnnRecommender.KNNRecommender.Predict requires `fit` to have run. The source fails on `None` before that, and that error is not modelled.
- KnnRecommender.KNNRecommender.Recommend has the same requirement and the same unmodelled error.
- KnnRecommender.PredictionBounds assumes non-negative similarities and ratings, as cosine similarity of non-negative ratings gives. It does not cover negative ratings.
- KnnRecommender.SortDesc is the stable sort that `list.sort(reverse=True)` performs. That equal ratings keep their item order is built into it, but no lemma states it.
- The KNN return value is the int `0` on the guard paths and a numpy float elsewhere. Both are reals here.
- Not part of this model: hbm/hbm.py and hbm.py (MCMC sampling), eval_framework/reporter.py (plots and metrics), and the driver scripts (CSV loading, splitting, timing, printing).

## Findings

| source | as written | input that shows it | evidently intended | confidence | as-written member | corrected member |
|---|---|---|---|---|---|---|
| mln/mln_recommender.py:204-223 | The head loop is dedented out of the `with` block and the pattern loop. It runs once, after `preference.pl` is closed, over the last pattern's tokens. Its first write raises `ValueError`, and an empty pattern table leaves `items` unbound. | Two mined patterns `Comedy` (support sa) and `Comedy Romance` (support sab). The last pattern's head `Romance` has the mined body `Comedy`, so the write hits the closed file. | For every pattern of two or more genres and every head whose body is mined, write the rule. Here that is `sab/sa::prefers(u, romance) :-prefers(u, comedy).` | not executed | MlnRules.DedentCounterexample, MlnRules.WritePreferenceRulesAsWritten | MlnRules.DedentCorrected, MlnRules.WritePreferenceRules |
