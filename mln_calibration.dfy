/** Turning a probability of liking into a rating: per-movie rating statistics with a fallback
    to the global ones for rarely rated movies, and the normal quantile of the clipped
    probability, clipped into the rating scale. */
module MlnCalibration {
  import opened Common
  import opened MlnPreferences

  /** A pandas statistic of finite ratings: a value, or NaN when it is undefined (the mean of no
      ratings, the sample deviation of fewer than two). */
  datatype Stat = Defined(v: real) | Undefined

  /** One row of `movie_stats`: mean, standard deviation and number of ratings. */
  datatype MovieStat = MovieStat(mean: Stat, std: Stat, count: nat)

  /** Movies with fewer ratings than this use the overall statistics. */
  const MinRatings: nat := 10

  /** The lowest and highest rating a prediction may take. */
  const MinScore: real := 0.5
  const MaxScore: real := 5.0

  /** The ratings of one movie, in table order. */
  function RatingsOf(data: seq<Rating>, movieId: int): seq<real>
  {
    if data == [] then []
    else
      var last := data[|data| - 1];
      RatingsOf(data[..|data| - 1], movieId) + (if last.movieId == movieId then [last.rating] else [])
  }

  function AllRatings(data: seq<Rating>): (xs: seq<real>)
    ensures |xs| == |data|
    ensures forall i :: 0 <= i < |data| ==> xs[i] == data[i].rating
  {
    seq(|data|, i requires 0 <= i < |data| => data[i].rating)
  }

  /** The pandas mean: NaN for no values. */
  function Mean(xs: seq<real>): Stat
  {
    if xs == [] then Undefined else Defined(Sum(xs) / |xs| as real)
  }

  function MovieIds(data: seq<Rating>): set<int>
  {
    set r | r in data :: r.movieId
  }

  /** `groupby('movieId')['rating'].agg(['mean', 'std', 'count'])`, the deviation computed by `std`. */
  function RawStats(data: seq<Rating>, std: seq<real> -> Stat): map<int, MovieStat>
  {
    map m | m in MovieIds(data) :: MovieStat(Mean(RatingsOf(data, m)), std(RatingsOf(data, m)), |RatingsOf(data, m)|)
  }

  /** The fallback applied to each row: too few ratings means the overall mean and deviation. */
  function WithFallback(s: MovieStat, overallMean: Stat, overallStd: Stat): (t: MovieStat)
    ensures t.count == s.count
    ensures s.count < MinRatings ==> t.mean == overallMean && t.std == overallStd
    ensures s.count >= MinRatings ==> t == s
  {
    if s.count < MinRatings then MovieStat(overallMean, overallStd, s.count) else s
  }

  /** `movie_stats` after `calculate_movie_stats`. */
  function MovieStats(data: seq<Rating>, std: seq<real> -> Stat): map<int, MovieStat>
  {
    var raw := RawStats(data, std);
    var om := Mean(AllRatings(data));
    var os := std(AllRatings(data));
    map m | m in raw :: WithFallback(raw[m], om, os)
  }

  /** The mean and deviation `infer_rating` uses for a movie: its row of `movie_stats`, or the
      overall values for a movie without one. */
  function StatsFor(stats: map<int, MovieStat>, overallMean: Stat, overallStd: Stat, movieId: int): (ms: (Stat, Stat))
    ensures movieId !in stats ==> ms == (overallMean, overallStd)
    ensures movieId in stats ==> ms == (stats[movieId].mean, stats[movieId].std)
  {
    if movieId in stats then (stats[movieId].mean, stats[movieId].std) else (overallMean, overallStd)
  }

  /** `norm(mu, sigma).ppf(p)` for `p` in [0, 1] or NaN: NaN unless both parameters are defined and
      the deviation is positive; the infinities at 0 and 1; otherwise the quantile `q`. */
  function Ppf(q: (real, real, real) -> real, mu: Stat, sigma: Stat, p: Float): (x: Float)
    requires p.NaN? || (p.Num? && 0.0 <= p.r <= 1.0)
  {
    if mu.Undefined? || sigma.Undefined? || sigma.v <= 0.0 || p.NaN? then NaN
    else if p.r == 0.0 then NegInf
    else if p.r == 1.0 then PosInf
    else Num(q(mu.v, sigma.v, p.r))
  }

  /** `infer_rating`: clip the probability to [0, 1], take the quantile, clip it to [0.5, 5].
      The rating is NaN exactly when the probability is NaN or the movie's distribution is improper
      (undefined mean or deviation, or a deviation of zero); otherwise it lies in [0.5, 5], a
      probability at or below 0 giving 0.5, one at or above 1 giving 5, and one strictly between
      giving the clipped quantile. */
  function InferRating(q: (real, real, real) -> real, stats: map<int, MovieStat>, overallMean: Stat, overallStd: Stat,
                       movieId: int, prob: Float): (score: Float)
    ensures score.NaN? <==> prob.NaN? || !Calibrated(stats, overallMean, overallStd, movieId)
    ensures !score.NaN? ==> score.Num? && MinScore <= score.r <= MaxScore
    ensures Calibrated(stats, overallMean, overallStd, movieId) ==>
      var (mu, sigma) := StatsFor(stats, overallMean, overallStd, movieId);
      && ((prob.NegInf? || (prob.Num? && prob.r <= 0.0)) ==> score == Num(MinScore))
      && ((prob.PosInf? || (prob.Num? && prob.r >= 1.0)) ==> score == Num(MaxScore))
      && (prob.Num? && 0.0 < prob.r < 1.0 ==> score == Num(ClipReal(q(mu.v, sigma.v, prob.r), MinScore, MaxScore)))
  {
    var (mu, sigma) := StatsFor(stats, overallMean, overallStd, movieId);
    var p := Clip(prob, 0.0, 1.0);
    Clip(Ppf(q, mu, sigma, p), MinScore, MaxScore)
  }

  // ---------------------------------------------------------------------------
  // Properties

  /** Whether the statistics for `movieId` define a proper normal distribution. */
  predicate Calibrated(stats: map<int, MovieStat>, overallMean: Stat, overallStd: Stat, movieId: int)
  {
    var (mu, sigma) := StatsFor(stats, overallMean, overallStd, movieId);
    mu.Defined? && sigma.Defined? && sigma.v > 0.0
  }

  /** With a quantile that increases with the probability, so does the rating. */
  lemma {:induction false} InferRatingMonotone(q: (real, real, real) -> real, stats: map<int, MovieStat>, overallMean: Stat, overallStd: Stat,
                            movieId: int, p1: real, p2: real)
    requires forall mu, sigma, a, b :: sigma > 0.0 && 0.0 < a <= b < 1.0 ==> q(mu, sigma, a) <= q(mu, sigma, b)
    requires Calibrated(stats, overallMean, overallStd, movieId)
    requires p1 <= p2
    ensures InferRating(q, stats, overallMean, overallStd, movieId, Num(p1)).r
      <= InferRating(q, stats, overallMean, overallStd, movieId, Num(p2)).r
  {
    var (mu, sigma) := StatsFor(stats, overallMean, overallStd, movieId);
    if 0.0 < p1 < 1.0 && 0.0 < p2 < 1.0 {
      assert q(mu.v, sigma.v, p1) <= q(mu.v, sigma.v, p2);
    }
  }

  /** The ratings of a movie number as many as its rows. */
  lemma {:induction false} RatingsOfCount(data: seq<Rating>, movieId: int)
    ensures |RatingsOf(data, movieId)| == |set i | 0 <= i < |data| && data[i].movieId == movieId|
  {
    if data != [] {
      var init := data[..|data| - 1];
      var n := |data| - 1;
      RatingsOfCount(init, movieId);
      var before := set i | 0 <= i < n && init[i].movieId == movieId;
      var now := set i | 0 <= i < |data| && data[i].movieId == movieId;
      if data[n].movieId == movieId {
        assert now == before + {n};
      } else {
        assert now == before;
      }
    }
  }

  /** A value is among a movie's ratings exactly when some row of that movie carries it. */
  lemma {:induction false} RatingsOfMembers(data: seq<Rating>, movieId: int, x: real)
    ensures x in RatingsOf(data, movieId) <==> exists i :: 0 <= i < |data| && data[i].movieId == movieId && data[i].rating == x
  {
    if data != [] {
      var init := data[..|data| - 1];
      var n := |data| - 1;
      RatingsOfMembers(init, movieId, x);
      if x in RatingsOf(init, movieId) {
        var i :| 0 <= i < |init| && init[i].movieId == movieId && init[i].rating == x;
        assert data[i] == init[i];
      }
      if exists i :: 0 <= i < |data| && data[i].movieId == movieId && data[i].rating == x {
        var i :| 0 <= i < |data| && data[i].movieId == movieId && data[i].rating == x;
        if i < n {
          assert init[i] == data[i];
        }
      }
    }
  }

  /** A movie has statistics exactly when it has at least one rating. */
  lemma {:induction false} RatingsOfPresent(data: seq<Rating>, movieId: int)
    ensures movieId in MovieIds(data) <==> RatingsOf(data, movieId) != []
  {
    if data != [] {
      var init := data[..|data| - 1];
      var n := |data| - 1;
      RatingsOfPresent(init, movieId);
      assert MovieIds(data) == MovieIds(init) + {data[n].movieId} by {
        assert data == init + [data[n]];
      }
    }
  }

  /** `movie_stats` has one row per rated movie. A movie with fewer than ten ratings carries the
      overall mean and deviation; any other carries the mean of its own ratings and their deviation. */
  lemma {:induction false} MovieStatsSpec(data: seq<Rating>, std: seq<real> -> Stat, movieId: int)
    ensures movieId in MovieStats(data, std) <==> exists i :: 0 <= i < |data| && data[i].movieId == movieId
    ensures movieId in MovieStats(data, std) ==>
      var s := MovieStats(data, std)[movieId];
      var rs := RatingsOf(data, movieId);
      && s.count == |rs| > 0
      && (s.count < MinRatings ==> s.mean == Mean(AllRatings(data)) && s.std == std(AllRatings(data)))
      && (s.count >= MinRatings ==> s.mean == Defined(Sum(rs) / |rs| as real) && s.std == std(rs))
  {
    RatingsOfPresent(data, movieId);
    if exists i :: 0 <= i < |data| && data[i].movieId == movieId {
      var i :| 0 <= i < |data| && data[i].movieId == movieId;
      assert data[i] in data;
    }
  }

  /** A mean of ratings on a scale stays on that scale. */
  lemma {:induction false} SumBounds(xs: seq<real>, lo: real, hi: real)
    requires forall i :: 0 <= i < |xs| ==> lo <= xs[i] <= hi
    ensures |xs| as real * lo <= Sum(xs) <= |xs| as real * hi
  {
    if xs != [] {
      SumBounds(xs[..|xs| - 1], lo, hi);
    }
  }

  lemma {:induction false} MeanBounds(xs: seq<real>, lo: real, hi: real)
    requires xs != []
    requires forall i :: 0 <= i < |xs| ==> lo <= xs[i] <= hi
    ensures Mean(xs).Defined? && lo <= Mean(xs).v <= hi
  {
    SumBounds(xs, lo, hi);
    var n := |xs| as real;
    assert lo * n <= Sum(xs) <= hi * n;
    assert lo <= Sum(xs) / n by {
      assert lo == (lo * n) / n;
    }
    assert Sum(xs) / n <= hi by {
      assert hi == (hi * n) / n;
    }
  }
}
