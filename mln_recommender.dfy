/** The rule-based recommender as an object: its settings, and the state its training steps fill
    in one after the other (preference weights and transactions, mined patterns and their
    dictionary, the two generated program files, the rating statistics), then prediction from
    that state. The pattern miner, the logic engine, the normal quantile, the sample deviation
    and the float renderers are parameters. */
module MlnRecommender {
  import opened Common
  import opened MlnPreferences
  import opened MlnPatterns
  import opened MlnRules
  import opened MlnCalibration
  import opened MlnInference

  /** The rating function `predict` applies to each answer row: `infer_rating` on the fitted statistics. */
  function Rater(q: (real, real, real) -> real, stats: map<int, MovieStat>, overallMean: Stat, overallStd: Stat)
    : (rate: (int, real) -> Float)
    ensures forall m, p :: rate(m, p) == InferRating(q, stats, overallMean, overallStd, m, Num(p))
  {
    (m: int, p: real) => InferRating(q, stats, overallMean, overallStd, m, Num(p))
  }

  class MarkovLogicNetworkWithUserGenreModel {
    var ratingThreshold: real
    var preferenceThreshold: real
    var minSupport: real
    /** Stored but never read: the rule weights use a fixed base probability. */
    var alpha: real

    /** The user-by-genre weight table, one row per user with a qualifying rating. */
    var userWeights: map<int, seq<real>>
    var transactions: Option<seq<Transaction>>
    var frequentPatterns: Option<seq<PatternRow>>
    var patternDict: map<string, real>
    /** The two generated program files, once written. */
    var worldFile: Option<seq<Line>>
    var preferenceFile: Option<seq<Line>>
    var movieStats: Option<map<int, MovieStat>>
    var overallMean: Stat
    var overallStd: Stat

    constructor(ratingThreshold: real := 4.0, preferenceThreshold: real := 0.05, minSupport: real := 0.01, alpha: real := 0.5)
      ensures this.ratingThreshold == ratingThreshold && this.preferenceThreshold == preferenceThreshold
      ensures this.minSupport == minSupport && this.alpha == alpha
      ensures userWeights == map[] && transactions == None && frequentPatterns == None && patternDict == map[]
      ensures worldFile == None && preferenceFile == None && movieStats == None
      ensures overallMean == Undefined && overallStd == Undefined
    {
      this.ratingThreshold := ratingThreshold;
      this.preferenceThreshold := preferenceThreshold;
      this.minSupport := minSupport;
      this.alpha := alpha;
      userWeights := map[];
      transactions := None;
      frequentPatterns := None;
      patternDict := map[];
      worldFile := None;
      preferenceFile := None;
      movieStats := None;
      overallMean := Undefined;
      overallStd := Undefined;
    }

    /** `extract_user_preferences`: fills the weight table and the transactions. */
    method ExtractUserPreferences(train: seq<Rating>, movies: seq<Movie>)
      modifies this
      ensures userWeights.Keys == set u | u in Users(Qualifying(train, ratingThreshold))
      ensures forall u :: u in userWeights ==> userWeights[u] == WeightVector(Qualifying(train, ratingThreshold), movies, u)
      ensures transactions == Some(Transactions(train, movies, ratingThreshold, preferenceThreshold))
      ensures unchanged(this`ratingThreshold, this`preferenceThreshold, this`minSupport, this`alpha,
                        this`frequentPatterns, this`patternDict, this`worldFile, this`preferenceFile,
                        this`movieStats, this`overallMean, this`overallStd)
    {
      var users, weights, ts := MlnPreferences.ExtractUserPreferences(train, movies, ratingThreshold, preferenceThreshold);
      userWeights := weights;
      transactions := Some(ts);
    }

    /** `mine_frequent_patterns`: the miner's table with canonical keys, and its dictionary. */
    method MineFrequentPatterns(miner: (seq<Transaction>, real) -> seq<PatternRow>)
      requires transactions.Some?
      modifies this
      ensures unchanged(this`ratingThreshold, this`preferenceThreshold, this`minSupport, this`alpha,
                        this`userWeights, this`transactions, this`worldFile, this`preferenceFile,
                        this`movieStats, this`overallMean, this`overallStd)
      ensures frequentPatterns == Some(CanonicalRows(miner(transactions.value, minSupport)))
      ensures patternDict == PatternDict(frequentPatterns.value)
    {
      var rows := CanonicalRows(miner(transactions.value, minSupport));
      frequentPatterns, patternDict := Some(rows), PatternDict(rows);
    }

    /** `generate_logic_rules`, with the rule emission inside the per-pattern loop: writes the
        world file and the preference file. */
    method GenerateLogicRules(movies: seq<Movie>)
      requires transactions.Some? && frequentPatterns.Some?
      modifies this
      ensures unchanged(this`ratingThreshold, this`preferenceThreshold, this`minSupport, this`alpha,
                        this`userWeights, this`transactions, this`frequentPatterns, this`patternDict,
                        this`movieStats, this`overallMean, this`overallStd)
      ensures worldFile == Some(World(transactions.value, movies))
      ensures preferenceFile == Some(PreferenceProgram(frequentPatterns.value, patternDict))
    {
      var world := WriteWorld(transactions.value, movies);
      worldFile := Some(world);
      var rules := WritePreferenceRules(frequentPatterns.value, patternDict);
      preferenceFile := Some(rules);
    }

    /** `calculate_movie_stats`: the overall mean and deviation and the per-movie table with
        its fallback. */
    method CalculateMovieStats(data: seq<Rating>, std: seq<real> -> Stat)
      modifies this
      ensures overallMean == Mean(AllRatings(data)) && overallStd == std(AllRatings(data))
      ensures movieStats == Some(MovieStats(data, std))
      ensures unchanged(this`ratingThreshold, this`preferenceThreshold, this`minSupport, this`alpha,
                        this`userWeights, this`transactions, this`frequentPatterns, this`patternDict,
                        this`worldFile, this`preferenceFile)
    {
      overallStd := std(AllRatings(data));
      overallMean := Mean(AllRatings(data));
      movieStats := Some(MovieStats(data, std));
    }

    /** `infer_rating` on the fitted statistics. */
    function InferRatingFor(q: (real, real, real) -> real, movieId: int, prob: Float): (score: Float)
      requires movieStats.Some?
      reads this
      ensures score.NaN? || (score.Num? && MinScore <= score.r <= MaxScore)
    {
      InferRating(q, movieStats.value, overallMean, overallStd, movieId, prob)
    }

    /** `fit`: the four training steps in order. */
    method Fit(ratings: seq<Rating>, movies: seq<Movie>, miner: (seq<Transaction>, real) -> seq<PatternRow>,
               std: seq<real> -> Stat)
      modifies this
      ensures userWeights.Keys == set u | u in Users(Qualifying(ratings, ratingThreshold))
      ensures forall u :: u in userWeights ==> userWeights[u] == WeightVector(Qualifying(ratings, ratingThreshold), movies, u)
      ensures transactions == Some(Transactions(ratings, movies, ratingThreshold, preferenceThreshold))
      ensures frequentPatterns == Some(CanonicalRows(miner(transactions.value, minSupport)))
      ensures patternDict == PatternDict(frequentPatterns.value)
      ensures worldFile == Some(World(transactions.value, movies))
      ensures preferenceFile == Some(PreferenceProgram(frequentPatterns.value, patternDict))
      ensures movieStats == Some(MovieStats(ratings, std))
      ensures overallMean == Mean(AllRatings(ratings)) && overallStd == std(AllRatings(ratings))
      ensures ratingThreshold == old(ratingThreshold) && preferenceThreshold == old(preferenceThreshold)
      ensures minSupport == old(minSupport) && alpha == old(alpha)
    {
      ExtractUserPreferences(ratings, movies);
      MineFrequentPatterns(miner);
      GenerateLogicRules(movies);
      CalculateMovieStats(ratings, std);
    }

    /** `predict`: the generated files are read back as one program text and the test pairs
        are evaluated against it in batches, each answer rated with the fitted statistics. */
    method Predict(test: seq<(int, int)>, batchSize: int, nJobs: int, cpuCount: nat,
                   engine: string -> Evaluation, order: seq<nat>, q: (real, real, real) -> real, fmt: Format)
      returns (out: PredictOutcome)
      requires worldFile.Some? && preferenceFile.Some? && movieStats.Some?
      requires ValidOrder(test, batchSize, order)
      ensures out == PredictRun(test, FileText(worldFile.value, fmt) + FileText(preferenceFile.value, fmt),
                                batchSize, nJobs, cpuCount, engine, order, Rater(q, movieStats.value, overallMean, overallStd))
    {
      var program := FileText(worldFile.value, fmt) + FileText(preferenceFile.value, fmt);
      out := MlnInference.Predict(test, program, batchSize, nJobs, cpuCount, engine, order,
                                  Rater(q, movieStats.value, overallMean, overallStd));
    }
  }
}
