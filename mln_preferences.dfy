/** Preference extraction of the rule-based recommender: ratings at or above a
    threshold spread one unit of weight evenly over the genres of the rated movie;
    each user's weights are normalised and thresholded into the list of genres the
    user prefers (the user's "transaction" for pattern mining). */
module MlnPreferences {
  import opened Common

  datatype Rating = Rating(userId: int, movieId: int, rating: real)

  /** A row of the movie table; `genres` is the movie's genre list as stored. */
  datatype Movie = Movie(movieId: int, genres: seq<string>)

  /** A user and the genres the user prefers, in vocabulary order. */
  datatype Transaction = Transaction(userId: int, genres: seq<string>)

  /** The genre vocabulary: the columns of the user-by-genre weight table. */
  const Genres: seq<string> := [
    "Action", "Adventure", "Animation", "Children", "Comedy", "Crime",
    "Documentary", "Drama", "Fantasy", "Film-Noir", "Horror", "Musical",
    "Mystery", "Romance", "Sci-Fi", "Thriller", "War", "Western", "IMAX"
  ]

  lemma {:induction false} GenresDistinct()
    ensures |Genres| == 19 && Distinct(Genres)
  {
  }

  /** The genres of a movie, looked up by id in the movie table. */
  function MovieGenres(movies: seq<Movie>, movieId: int): (r: Option<seq<string>>)
    ensures r.None? <==> forall i :: 0 <= i < |movies| ==> movies[i].movieId != movieId
    ensures r.Some? ==> exists i :: 0 <= i < |movies| && movies[i].movieId == movieId && movies[i].genres == r.value
  {
    if movies == [] then None
    else if movies[0].movieId == movieId then Some(movies[0].genres)
    else
      var r := MovieGenres(movies[1..], movieId);
      assert r.Some? ==> exists i :: 0 <= i < |movies[1..]| && movies[1..][i].movieId == movieId && movies[1..][i].genres == r.value;
      r
  }

  /** The ratings at or above the threshold, in table order. */
  function Qualifying(train: seq<Rating>, threshold: real): (b: seq<Rating>)
    ensures |b| <= |train|
    ensures forall r :: r in b <==> r in train && r.rating >= threshold
  {
    if train == [] then []
    else
      var init := Qualifying(train[..|train| - 1], threshold);
      var last := train[|train| - 1];
      assert train == train[..|train| - 1] + [last];
      if last.rating >= threshold then init + [last] else init
  }

  /** The distinct users of a rating list, in order of first appearance (`unique()`). */
  function Users(rs: seq<Rating>): (us: seq<int>)
    ensures Distinct(us)
    ensures forall u :: u in us <==> exists r :: r in rs && r.userId == u
  {
    if rs == [] then []
    else
      var init := Users(rs[..|rs| - 1]);
      var last := rs[|rs| - 1];
      assert rs == rs[..|rs| - 1] + [last];
      if last.userId in init then init else init + [last.userId]
  }

  /** What the inner loop adds to genre `g` for a movie with genre list `gs`:
      `inv` (one over the list's length) per occurrence of `g`. */
  function GenreShare(gs: seq<string>, g: string, inv: real): real
  {
    if gs == [] then 0.0
    else GenreShare(gs[..|gs| - 1], g, inv) + (if gs[|gs| - 1] == g then inv else 0.0)
  }

  /** What a movie with genre list `gs` adds to genre `g`: one over the list's length per
      occurrence of `g` (nothing for an empty list, whose loop never runs). */
  function ShareOf(gs: seq<string>, g: string): real
  {
    if gs == [] then 0.0 else GenreShare(gs, g, 1.0 / |gs| as real)
  }

  /** What one qualifying rating adds to genre `g` of its user; a movie missing from the table adds nothing. */
  function Contribution(r: Rating, movies: seq<Movie>, g: string): real
  {
    match MovieGenres(movies, r.movieId)
    case None => 0.0
    case Some(gs) => ShareOf(gs, g)
  }

  /** The accumulated weight of genre `g` for user `u` over the ratings `rs`. */
  function Weight(rs: seq<Rating>, movies: seq<Movie>, u: int, g: string): real
  {
    if rs == [] then 0.0
    else
      var last := rs[|rs| - 1];
      Weight(rs[..|rs| - 1], movies, u, g) + (if last.userId == u then Contribution(last, movies, g) else 0.0)
  }

  /** User `u`'s row of the weight table, one entry per vocabulary genre. */
  function WeightVector(rs: seq<Rating>, movies: seq<Movie>, u: int): (w: seq<real>)
    ensures |w| == |Genres|
  {
    seq(|Genres|, k requires 0 <= k < |Genres| => Weight(rs, movies, u, Genres[k]))
  }

  /** The genres among the first `n` of vocabulary `v` whose share of `total` reaches the threshold. */
  function PreferredUpTo(v: seq<string>, w: seq<real>, total: real, threshold: real, n: nat): seq<string>
    requires |w| == |v| && n <= |v| && total != 0.0
  {
    if n == 0 then []
    else PreferredUpTo(v, w, total, threshold, n - 1) + (if w[n - 1] / total >= threshold then [v[n - 1]] else [])
  }

  /** The normalised and binarised row: a zero row normalises to NaN and selects nothing. */
  function Preferred(w: seq<real>, threshold: real): (gs: seq<string>)
    requires |w| == |Genres|
    ensures Sum(w) == 0.0 ==> gs == []
  {
    var total := Sum(w);
    if total == 0.0 then [] else PreferredUpTo(Genres, w, total, threshold, |Genres|)
  }

  /** The transactions `extract_user_preferences` builds, one per user with a qualifying rating. */
  function Transactions(train: seq<Rating>, movies: seq<Movie>, ratingThreshold: real, preferenceThreshold: real): (ts: seq<Transaction>)
  {
    var binary := Qualifying(train, ratingThreshold);
    var users := Users(binary);
    seq(|users|, i requires 0 <= i < |users| => Transaction(users[i], Preferred(WeightVector(binary, movies, users[i]), preferenceThreshold)))
  }

  lemma {:induction false} WeightVectorStep(rs: seq<Rating>, r: Rating, movies: seq<Movie>, u: int, k: nat)
    requires k < |Genres|
    ensures WeightVector(rs + [r], movies, u)[k]
         == WeightVector(rs, movies, u)[k] + (if r.userId == u then Contribution(r, movies, Genres[k]) else 0.0)
  {
    assert (rs + [r])[..|rs|] == rs;
  }

  /** The inner loop of `extract_user_preferences`: `+= 1/len(genres)` into the column of every
      genre of the movie that is in the vocabulary. */
  method SpreadWeight(vocab: seq<string>, row: seq<real>, gs: seq<string>) returns (out: seq<real>)
    requires |row| == |vocab| && Distinct(vocab)
    ensures |out| == |vocab|
    ensures forall k :: 0 <= k < |vocab| ==> out[k] == row[k] + ShareOf(gs, vocab[k])
  {
    out := row;
    if gs == [] {
      return;
    }
    var inv := 1.0 / |gs| as real;
    var j := 0;
    while j < |gs|
      invariant 0 <= j <= |gs|
      invariant |out| == |vocab|
      invariant forall k :: 0 <= k < |vocab| ==> out[k] == row[k] + GenreShare(gs[..j], vocab[k], inv)
    {
      var prev := out;
      var k := IndexOf(vocab, gs[j]);
      if k < |vocab| {
        out := out[k := out[k] + inv];
      }
      SpreadStep(vocab, prev, out, row, gs, j, inv);
      j := j + 1;
    }
    assert gs[..j] == gs;
  }

  /** One pass of the inner loop adds `inv` to the weight of genre `gs[j]` and to no other. */
  lemma {:induction false} SpreadStep(vocab: seq<string>, prev: seq<real>, out: seq<real>, row: seq<real>,
                                      gs: seq<string>, j: nat, inv: real)
    requires |prev| == |vocab| == |row| && j < |gs| && Distinct(vocab)
    requires forall k :: 0 <= k < |vocab| ==> prev[k] == row[k] + GenreShare(gs[..j], vocab[k], inv)
    requires var k := IndexOf(vocab, gs[j]); out == if k < |vocab| then prev[k := prev[k] + inv] else prev
    ensures |out| == |vocab|
    ensures forall k :: 0 <= k < |vocab| ==> out[k] == row[k] + GenreShare(gs[..j + 1], vocab[k], inv)
  {
    assert gs[..j + 1][..j] == gs[..j];
    var hit := IndexOf(vocab, gs[j]);
    forall k | 0 <= k < |vocab|
      ensures out[k] == row[k] + GenreShare(gs[..j + 1], vocab[k], inv)
    {
      assert GenreShare(gs[..j + 1], vocab[k], inv) == GenreShare(gs[..j], vocab[k], inv) + (if gs[j] == vocab[k] then inv else 0.0);
      if gs[j] == vocab[k] {
        assert hit == k;
      }
    }
  }

  /** The outer loop of `extract_user_preferences`: the weight table, one zero row per user,
      updated in place rating by rating. */
  method AccumulateWeights(binary: seq<Rating>, users: seq<int>, movies: seq<Movie>) returns (weights: map<int, seq<real>>)
    requires forall r :: r in binary ==> r.userId in users
    ensures weights.Keys == set u | u in users
    ensures forall u :: u in weights ==> weights[u] == WeightVector(binary, movies, u)
  {
    var zeros := seq(|Genres|, k => 0.0);
    weights := map u | u in users :: zeros;
    GenresDistinct();
    var i := 0;
    while i < |binary|
      invariant 0 <= i <= |binary|
      invariant weights.Keys == set u | u in users
      invariant forall u :: u in weights ==> weights[u] == WeightVector(binary[..i], movies, u)
    {
      var r := binary[i];
      assert r in binary;
      assert binary[..i + 1] == binary[..i] + [r];
      var found := MovieGenres(movies, r.movieId);
      if found.Some? {
        var row := SpreadWeight(Genres, weights[r.userId], found.value);
        weights := weights[r.userId := row];
      }
      forall u | u in weights ensures weights[u] == WeightVector(binary[..i + 1], movies, u) {
        forall k | 0 <= k < |Genres| ensures weights[u][k] == WeightVector(binary[..i + 1], movies, u)[k] {
          WeightVectorStep(binary[..i], r, movies, u, k);
        }
      }
      i := i + 1;
    }
    assert binary[..i] == binary;
  }

  /** Normalise and binarise the weight table, filling the transactions user by user. */
  method Binarize(users: seq<int>, weights: map<int, seq<real>>, threshold: real) returns (transactions: seq<Transaction>)
    requires forall m :: 0 <= m < |users| ==> users[m] in weights && |weights[users[m]]| == |Genres|
    ensures |transactions| == |users|
    ensures forall m :: 0 <= m < |users| ==> transactions[m] == Transaction(users[m], Preferred(weights[users[m]], threshold))
  {
    transactions := [];
    var n := 0;
    while n < |users|
      invariant 0 <= n <= |users|
      invariant |transactions| == n
      invariant forall m :: 0 <= m < n ==> transactions[m] == Transaction(users[m], Preferred(weights[users[m]], threshold))
    {
      transactions := transactions + [Transaction(users[n], Preferred(weights[users[n]], threshold))];
      n := n + 1;
    }
  }

  /** `extract_user_preferences`: the weight table filled in place by nested loops, then the
      transactions read off it user by user. */
  method ExtractUserPreferences(train: seq<Rating>, movies: seq<Movie>, ratingThreshold: real, preferenceThreshold: real)
    returns (users: seq<int>, weights: map<int, seq<real>>, transactions: seq<Transaction>)
    ensures users == Users(Qualifying(train, ratingThreshold))
    ensures weights.Keys == set u | u in users
    ensures forall u :: u in weights ==> weights[u] == WeightVector(Qualifying(train, ratingThreshold), movies, u)
    ensures transactions == Transactions(train, movies, ratingThreshold, preferenceThreshold)
  {
    var binary := Qualifying(train, ratingThreshold);
    users := Users(binary);
    weights := AccumulateWeights(binary, users, movies);
    assert forall m :: 0 <= m < |users| ==> users[m] in weights;
    transactions := Binarize(users, weights, preferenceThreshold);
  }

  // ---------------------------------------------------------------------------
  // What one rating contributes

  /** The occurrences, in `gs`, of the first `n` vocabulary genres. */
  function VocabularyCount(gs: seq<string>, n: nat): nat
    requires n <= |Genres|
  {
    if n == 0 then 0 else VocabularyCount(gs, n - 1) + Count(gs, Genres[n - 1])
  }

  /** How many of the first `n` vocabulary genres equal `x`. */
  function Hits(x: string, n: nat): nat
    requires n <= |Genres|
  {
    if n == 0 then 0 else Hits(x, n - 1) + (if Genres[n - 1] == x then 1 else 0)
  }

  lemma {:induction false} HitsAtMostOne(x: string, n: nat)
    requires n <= |Genres|
    ensures Hits(x, n) <= 1
    ensures x !in Genres[..n] ==> Hits(x, n) == 0
  {
    if n > 0 {
      HitsAtMostOne(x, n - 1);
      assert Genres[..n] == Genres[..n - 1] + [Genres[n - 1]];
      if Genres[n - 1] == x {
        GenresDistinct();
        assert x !in Genres[..n - 1];
      }
    }
  }

  lemma {:induction false} VocabularyCountAppend(gs: seq<string>, x: string, n: nat)
    requires n <= |Genres|
    ensures VocabularyCount(gs + [x], n) == VocabularyCount(gs, n) + Hits(x, n)
  {
    if n > 0 {
      VocabularyCountAppend(gs, x, n - 1);
      assert (gs + [x])[..|gs|] == gs;
    }
  }

  /** A genre list holds at most as many vocabulary genres as it has entries. */
  lemma {:induction false} VocabularyCountBound(gs: seq<string>)
    ensures VocabularyCount(gs, |Genres|) <= |gs|
  {
    if gs != [] {
      var init := gs[..|gs| - 1];
      VocabularyCountBound(init);
      assert gs == init + [gs[|gs| - 1]];
      VocabularyCountAppend(init, gs[|gs| - 1], |Genres|);
      HitsAtMostOne(gs[|gs| - 1], |Genres|);
    } else {
      VocabularyCountEmpty(|Genres|);
    }
  }

  lemma {:induction false} VocabularyCountEmpty(n: nat)
    requires n <= |Genres|
    ensures VocabularyCount([], n) == 0
  {
    if n > 0 {
      VocabularyCountEmpty(n - 1);
    }
  }

  lemma {:induction false} GenreShareIsCount(gs: seq<string>, g: string, inv: real)
    ensures GenreShare(gs, g, inv) == Count(gs, g) as real * inv
  {
    if gs != [] {
      GenreShareIsCount(gs[..|gs| - 1], g, inv);
    }
  }

  /** Each qualifying rating of a known movie adds `1/len(genres)` per occurrence of the genre. */
  lemma {:induction false} ShareOfIsFraction(gs: seq<string>, g: string)
    requires gs != []
    ensures ShareOf(gs, g) == Count(gs, g) as real / |gs| as real
  {
    GenreShareIsCount(gs, g, 1.0 / |gs| as real);
  }

  /** What one rating adds over the first `n` vocabulary genres. */
  function ContributionTotal(r: Rating, movies: seq<Movie>, n: nat): real
    requires n <= |Genres|
  {
    if n == 0 then 0.0 else ContributionTotal(r, movies, n - 1) + Contribution(r, movies, Genres[n - 1])
  }

  lemma {:induction false} ContributionTotalIsCount(r: Rating, movies: seq<Movie>, gs: seq<string>, n: nat)
    requires n <= |Genres| && gs != []
    requires MovieGenres(movies, r.movieId) == Some(gs)
    ensures ContributionTotal(r, movies, n) == VocabularyCount(gs, n) as real * (1.0 / |gs| as real)
  {
    ContributionTotalIsShares(r, movies, gs, n);
    VocabularySharesScaled(gs, n, 1.0 / |gs| as real);
    ScaledIsProduct(VocabularyCount(gs, n), 1.0 / |gs| as real);
  }

  /** The genre shares of `gs` over the first `n` vocabulary genres. */
  function VocabularyShares(gs: seq<string>, n: nat, inv: real): real
    requires n <= |Genres|
  {
    if n == 0 then 0.0 else VocabularyShares(gs, n - 1, inv) + GenreShare(gs, Genres[n - 1], inv)
  }

  lemma {:induction false} ContributionTotalIsShares(r: Rating, movies: seq<Movie>, gs: seq<string>, n: nat)
    requires n <= |Genres| && gs != []
    requires MovieGenres(movies, r.movieId) == Some(gs)
    ensures ContributionTotal(r, movies, n) == VocabularyShares(gs, n, 1.0 / |gs| as real)
  {
    if n > 0 {
      ContributionTotalIsShares(r, movies, gs, n - 1);
    }
  }

  /** `c` copies of `inv` added together: the product `c * inv` built up one addition at a time. */
  function Scaled(c: nat, inv: real): real
  {
    if c == 0 then 0.0 else Scaled(c - 1, inv) + inv
  }

  lemma {:induction false} ScaledAdd(a: nat, b: nat, inv: real)
    ensures Scaled(a + b, inv) == Scaled(a, inv) + Scaled(b, inv)
  {
    if b > 0 {
      ScaledAdd(a, b - 1, inv);
    }
  }

  lemma {:induction false} ScaledIsProduct(c: nat, inv: real)
    ensures Scaled(c, inv) == c as real * inv
  {
    if c > 0 {
      ScaledIsProduct(c - 1, inv);
      assert (c - 1) as real * inv + inv == c as real * inv;
    }
  }

  lemma {:induction false} GenreShareScaled(gs: seq<string>, g: string, inv: real)
    ensures GenreShare(gs, g, inv) == Scaled(Count(gs, g), inv)
  {
    if gs != [] {
      GenreShareScaled(gs[..|gs| - 1], g, inv);
    }
  }

  lemma {:induction false} VocabularySharesScaled(gs: seq<string>, n: nat, inv: real)
    requires n <= |Genres|
    ensures VocabularyShares(gs, n, inv) == Scaled(VocabularyCount(gs, n), inv)
  {
    if n > 0 {
      VocabularySharesScaled(gs, n - 1, inv);
      GenreShareScaled(gs, Genres[n - 1], inv);
      ScaledAdd(VocabularyCount(gs, n - 1), Count(gs, Genres[n - 1]), inv);
    }
  }

  lemma {:induction false} ContributionTotalZero(r: Rating, movies: seq<Movie>, n: nat)
    requires n <= |Genres|
    requires MovieGenres(movies, r.movieId).None? || MovieGenres(movies, r.movieId) == Some([])
    ensures ContributionTotal(r, movies, n) == 0.0
  {
    if n > 0 {
      ContributionTotalZero(r, movies, n - 1);
    }
  }

  /** One rating contributes at most 1 in total over the vocabulary, and nothing when its
      movie is missing from the table. */
  lemma {:induction false} RatingContributesAtMostOne(r: Rating, movies: seq<Movie>)
    ensures 0.0 <= ContributionTotal(r, movies, |Genres|) <= 1.0
    ensures MovieGenres(movies, r.movieId).None? ==> ContributionTotal(r, movies, |Genres|) == 0.0
  {
    match MovieGenres(movies, r.movieId)
    case None => ContributionTotalZero(r, movies, |Genres|);
    case Some(gs) =>
      if gs == [] {
        ContributionTotalZero(r, movies, |Genres|);
      } else {
        ContributionTotalIsCount(r, movies, gs, |Genres|);
        VocabularyCountBound(gs);
        var c := VocabularyCount(gs, |Genres|) as real;
        var len := |gs| as real;
        assert c * (1.0 / len) == c / len;
        assert c / len <= 1.0;
      }
  }

  /** Adding a rating to the table changes a weight only through that rating's own contribution:
      nothing when it is below the threshold, belongs to another user, or names an unknown movie. */
  lemma {:induction false} WeightOfAddedRating(train: seq<Rating>, r: Rating, threshold: real, movies: seq<Movie>, u: int, g: string)
    ensures Weight(Qualifying(train + [r], threshold), movies, u, g)
         == Weight(Qualifying(train, threshold), movies, u, g)
            + (if r.rating >= threshold && r.userId == u then Contribution(r, movies, g) else 0.0)
    ensures r.rating < threshold || r.userId != u || MovieGenres(movies, r.movieId).None? ==>
      Weight(Qualifying(train + [r], threshold), movies, u, g) == Weight(Qualifying(train, threshold), movies, u, g)
  {
    assert (train + [r])[..|train|] == train;
    var q := Qualifying(train, threshold);
    assert (q + [r])[..|q|] == q;
  }

  // ---------------------------------------------------------------------------
  // What a transaction holds

  /** Every entry is a genre of `v`, listed in the order of `v` without repetition. */
  predicate InOrderOf(v: seq<string>, gs: seq<string>)
  {
    (forall i :: 0 <= i < |gs| ==> gs[i] in v)
    && (forall i, j :: 0 <= i < j < |gs| ==> IndexOf(v, gs[i]) < IndexOf(v, gs[j]))
  }

  predicate InVocabularyOrder(gs: seq<string>)
  {
    InOrderOf(Genres, gs)
  }

  lemma {:induction false} PreferredUpToWithin(v: seq<string>, w: seq<real>, total: real, threshold: real, n: nat)
    requires |w| == |v| && n <= |v| && total != 0.0
    ensures forall i :: 0 <= i < |PreferredUpTo(v, w, total, threshold, n)| ==>
      exists m :: 0 <= m < n && v[m] == PreferredUpTo(v, w, total, threshold, n)[i]
  {
    if n > 0 {
      PreferredUpToWithin(v, w, total, threshold, n - 1);
      var p := PreferredUpTo(v, w, total, threshold, n - 1);
      var q := PreferredUpTo(v, w, total, threshold, n);
      forall i | 0 <= i < |q| ensures exists m :: 0 <= m < n && v[m] == q[i] {
        if i < |p| {
          var m :| 0 <= m < n - 1 && v[m] == p[i];
          assert q[i] == p[i];
          assert 0 <= m < n && v[m] == q[i];
        } else {
          assert q[i] == v[n - 1];
          assert 0 <= n - 1 < n && v[n - 1] == q[i];
        }
      }
    } else {
      assert PreferredUpTo(v, w, total, threshold, n) == [];
    }
  }

  lemma {:induction false} PreferredUpToOrder(v: seq<string>, w: seq<real>, total: real, threshold: real, n: nat)
    requires Distinct(v) && |w| == |v| && n <= |v| && total != 0.0
    ensures InOrderOf(v, PreferredUpTo(v, w, total, threshold, n))
  {
    if n > 0 {
      PreferredUpToOrder(v, w, total, threshold, n - 1);
      PreferredUpToWithin(v, w, total, threshold, n - 1);
      var p := PreferredUpTo(v, w, total, threshold, n - 1);
      IndexOfDistinct(v, n - 1);
      forall i | 0 <= i < |p| ensures IndexOf(v, p[i]) < n - 1 {
        var m :| 0 <= m < n - 1 && v[m] == p[i];
        IndexOfDistinct(v, m);
      }
    }
  }

  lemma {:induction false} PreferredUpToMembers(v: seq<string>, w: seq<real>, total: real, threshold: real, n: nat)
    requires Distinct(v) && |w| == |v| && n <= |v| && total != 0.0
    ensures forall k :: 0 <= k < |v| ==>
      (v[k] in PreferredUpTo(v, w, total, threshold, n) <==> k < n && w[k] / total >= threshold)
  {
    if n > 0 {
      PreferredUpToMembers(v, w, total, threshold, n - 1);
    }
  }

  lemma {:induction false} IndexOfDistinct(v: seq<string>, k: nat)
    requires Distinct(v) && k < |v|
    ensures IndexOf(v, v[k]) == k
  {
  }

  /** A genre is preferred exactly when its share of the user's total weight reaches the threshold;
      a user whose total is zero prefers nothing. The list is in vocabulary order. */
  lemma {:induction false} PreferredSpec(w: seq<real>, threshold: real)
    requires |w| == |Genres|
    ensures InVocabularyOrder(Preferred(w, threshold))
    ensures forall k :: 0 <= k < |Genres| ==>
      (Genres[k] in Preferred(w, threshold) <==> Sum(w) != 0.0 && w[k] / Sum(w) >= threshold)
  {
    if Sum(w) != 0.0 {
      GenresDistinct();
      PreferredUpToOrder(Genres, w, Sum(w), threshold, |Genres|);
      PreferredUpToMembers(Genres, w, Sum(w), threshold, |Genres|);
    }
  }

  /** The transactions: exactly one per user with a qualifying rating, whether or not the
      rated movie is known. */
  lemma {:induction false} TransactionUsers(train: seq<Rating>, movies: seq<Movie>, ratingThreshold: real, preferenceThreshold: real)
    ensures var ts := Transactions(train, movies, ratingThreshold, preferenceThreshold);
      && (forall i, j :: 0 <= i < j < |ts| ==> ts[i].userId != ts[j].userId)
      && (forall i :: 0 <= i < |ts| ==> exists r :: r in train && r.rating >= ratingThreshold && r.userId == ts[i].userId)
      && (forall r :: r in train && r.rating >= ratingThreshold ==> exists i :: 0 <= i < |ts| && ts[i].userId == r.userId)
  {
    TransactionIds(train, movies, ratingThreshold, preferenceThreshold);
    TransactionUsersQualify(train, movies, ratingThreshold, preferenceThreshold);
    QualifyingUsersTransact(train, movies, ratingThreshold, preferenceThreshold);
  }

  lemma {:induction false} TransactionUsersQualify(train: seq<Rating>, movies: seq<Movie>, ratingThreshold: real, preferenceThreshold: real)
    ensures var ts := Transactions(train, movies, ratingThreshold, preferenceThreshold);
      forall i :: 0 <= i < |ts| ==> exists r :: r in train && r.rating >= ratingThreshold && r.userId == ts[i].userId
  {
    var users := Users(Qualifying(train, ratingThreshold));
    var ts := Transactions(train, movies, ratingThreshold, preferenceThreshold);
    TransactionIds(train, movies, ratingThreshold, preferenceThreshold);
    forall i | 0 <= i < |ts|
      ensures exists r :: r in train && r.rating >= ratingThreshold && r.userId == ts[i].userId
    {
      assert users[i] in users;
    }
  }

  lemma {:induction false} QualifyingUsersTransact(train: seq<Rating>, movies: seq<Movie>, ratingThreshold: real, preferenceThreshold: real)
    ensures var ts := Transactions(train, movies, ratingThreshold, preferenceThreshold);
      forall r :: r in train && r.rating >= ratingThreshold ==> exists i :: 0 <= i < |ts| && ts[i].userId == r.userId
  {
    var binary := Qualifying(train, ratingThreshold);
    var users := Users(binary);
    var ts := Transactions(train, movies, ratingThreshold, preferenceThreshold);
    TransactionIds(train, movies, ratingThreshold, preferenceThreshold);
    forall r | r in train && r.rating >= ratingThreshold
      ensures exists i :: 0 <= i < |ts| && ts[i].userId == r.userId
    {
      assert r in binary;
      assert r.userId in users;
      var i :| 0 <= i < |users| && users[i] == r.userId;
      assert ts[i].userId == r.userId;
    }
  }

  /** The transactions follow the users, one each, in order. */
  lemma {:induction false} TransactionIds(train: seq<Rating>, movies: seq<Movie>, ratingThreshold: real, preferenceThreshold: real)
    ensures var ts := Transactions(train, movies, ratingThreshold, preferenceThreshold);
      var users := Users(Qualifying(train, ratingThreshold));
      && |ts| == |users| && (forall i :: 0 <= i < |ts| ==> ts[i].userId == users[i])
      && (forall i, j :: 0 <= i < j < |ts| ==> ts[i].userId != ts[j].userId)
  {
  }

  /** Each transaction lists, in vocabulary order, exactly the genres whose share of the user's
      total weight reaches the preference threshold; a zero total gives an empty list. */
  lemma {:induction false} TransactionGenres(train: seq<Rating>, movies: seq<Movie>, ratingThreshold: real, preferenceThreshold: real, i: nat)
    requires i < |Transactions(train, movies, ratingThreshold, preferenceThreshold)|
    ensures var t := Transactions(train, movies, ratingThreshold, preferenceThreshold)[i];
      var w := WeightVector(Qualifying(train, ratingThreshold), movies, t.userId);
      && InVocabularyOrder(t.genres)
      && (Sum(w) == 0.0 ==> t.genres == [])
      && (forall k :: 0 <= k < |Genres| ==>
            (Genres[k] in t.genres <==> Sum(w) != 0.0 && w[k] / Sum(w) >= preferenceThreshold))
  {
    var binary := Qualifying(train, ratingThreshold);
    var users := Users(binary);
    PreferredSpec(WeightVector(binary, movies, users[i]), preferenceThreshold);
  }
}
