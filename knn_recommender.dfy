/** The neighbourhood recommender: a user-by-item rating matrix and a cosine similarity
    matrix over its rows (user-based) or its columns (item-based); a prediction is the
    similarity-weighted average of the ratings of the nearest neighbours, and a
    recommendation list is the user's unrated items ranked by that prediction. The pivot
    table, the cosine similarity and numpy's argsort are parameters. */
module KnnRecommender {
  import opened Common

  // ---------------------------------------------------------------------------
  // The fitted matrices

  /** The pivot table: user ids label the rows, item ids the columns, a missing rating is 0. */
  datatype RatingsMatrix = RatingsMatrix(users: seq<int>, items: seq<int>, values: seq<seq<real>>)

  /** Unique row and column labels, and one value per (row, column). */
  predicate WellFormed(m: RatingsMatrix)
  {
    && Distinct(m.users) && Distinct(m.items)
    && |m.values| == |m.users|
    && forall u :: 0 <= u < |m.values| ==> |m.values[u]| == |m.items|
  }

  /** The columns of a matrix whose rows all have `width` entries, as rows. */
  function Transpose(values: seq<seq<real>>, width: nat): (t: seq<seq<real>>)
    requires forall u :: 0 <= u < |values| ==> |values[u]| == width
    ensures |t| == width
    ensures forall i :: 0 <= i < width ==> |t[i]| == |values|
    ensures forall i, u :: 0 <= i < width && 0 <= u < |values| ==> t[i][u] == values[u][i]
  {
    seq(width, i requires 0 <= i < width => seq(|values|, u requires 0 <= u < |values| => values[u][i]))
  }

  /** The ratings of column `i`, one per row. */
  function Column(values: seq<seq<real>>, i: nat): (c: seq<real>)
    requires forall u :: 0 <= u < |values| ==> i < |values[u]|
    ensures |c| == |values|
    ensures forall u :: 0 <= u < |values| ==> c[u] == values[u][i]
  {
    seq(|values|, u requires 0 <= u < |values| => values[u][i])
  }

  /** What the similarity is computed over: the rows for `'user'`, the columns for any other method. */
  function SimilarityInput(mode: string, m: RatingsMatrix): (x: seq<seq<real>>)
    requires WellFormed(m)
    ensures mode == "user" ==> x == m.values
    ensures mode != "user" ==> (|x| == |m.items|
      && (forall i :: 0 <= i < |m.items| ==> |x[i]| == |m.users|)
      && (forall i, u :: 0 <= i < |m.items| && 0 <= u < |m.users| ==> x[i][u] == m.values[u][i]))
  {
    if mode == "user" then m.values else Transpose(m.values, |m.items|)
  }

  /** The number of rows (and columns) of the similarity matrix. */
  function Dim(mode: string, m: RatingsMatrix): nat
  {
    if mode == "user" then |m.users| else |m.items|
  }

  predicate Square(s: seq<seq<real>>, n: nat)
  {
    |s| == n && forall i :: 0 <= i < n ==> |s[i]| == n
  }

  /** The state `fit` leaves: a well-formed matrix and a similarity matrix over its users or items. */
  predicate Fitted(m: RatingsMatrix, sim: seq<seq<real>>, mode: string)
  {
    WellFormed(m) && Square(sim, Dim(mode, m))
  }

  // ---------------------------------------------------------------------------
  // Neighbours

  /** `order` is an ascending argsort of `row`: every position once, values non-decreasing.
      Ties may come in any order, as with numpy's default sort. */
  predicate IsArgsort(row: seq<real>, order: seq<nat>)
  {
    && |order| == |row|
    && (forall p :: 0 <= p < |order| ==> order[p] < |row|)
    && Distinct(order)
    && (forall p, q :: 0 <= p < q < |order| ==> row[order[p]] <= row[order[q]])
  }

  /** `argsort` is an ascending argsort on every row. */
  ghost predicate Argsorts(argsort: seq<real> -> seq<nat>)
  {
    forall row :: IsArgsort(row, argsort(row))
  }

  function Reverse<T>(s: seq<T>): (r: seq<T>)
    ensures |r| == |s|
    ensures forall a :: 0 <= a < |s| ==> r[a] == s[|s| - 1 - a]
  {
    seq(|s|, a requires 0 <= a < |s| => s[|s| - 1 - a])
  }

  /** `argsort(row)[-k-1:-1][::-1]`. */
  function Neighbours(order: seq<nat>, k: int): (nb: seq<nat>)
    ensures forall a :: 0 <= a < |nb| ==> nb[a] in order
  {
    Reverse(PySlice(order, -k - 1, -1))
  }

  /** The first sorted position the slice keeps. */
  function NeighbourStart(k: int, n: nat): (start: nat)
    requires n > 0
    ensures start <= n - 1
    ensures 0 <= k ==> start == if k < n then n - 1 - k else 0
  {
    var b := SliceBound(-k - 1, n);
    if b < n - 1 then b else n - 1
  }

  /** The slice is the run of sorted positions from `NeighbourStart` up to, but not
      including, the last one, read from the highest down: `k` positions when `0 <= k < n`,
      all but the last when `k >= n`. */
  lemma {:induction false} NeighboursShape(order: seq<nat>, k: int)
    ensures |order| == 0 ==> Neighbours(order, k) == []
    ensures |order| > 0 ==> Neighbours(order, k) == Reverse(order[NeighbourStart(k, |order|)..|order| - 1])
    ensures |order| > 0 ==> |Neighbours(order, k)| == |order| - 1 - NeighbourStart(k, |order|)
    ensures forall a :: 0 <= a < |Neighbours(order, k)| ==> Neighbours(order, k)[a] == order[|order| - 2 - a]
    ensures 0 <= k < |order| ==> |Neighbours(order, k)| == k
    ensures 0 < |order| <= k ==> |Neighbours(order, k)| == |order| - 1
  {
    if |order| > 0 {
      assert PySlice(order, -k - 1, -1) == order[NeighbourStart(k, |order|)..|order| - 1];
    }
  }

  /** Over an ascending argsort, every neighbour is an index of the row. */
  lemma {:induction false} NeighboursInRange(row: seq<real>, order: seq<nat>, k: int)
    requires IsArgsort(row, order)
    ensures forall a :: 0 <= a < |Neighbours(order, k)| ==> Neighbours(order, k)[a] < |row|
  {
  }

  /** Neighbour `a` is the sorted position `a + 2` from the end, at or above `NeighbourStart`. */
  lemma {:induction false} NeighbourAt(order: seq<nat>, k: int, a: nat)
    requires a < |Neighbours(order, k)|
    ensures |order| >= 2 + a && NeighbourStart(k, |order|) <= |order| - 2 - a
    ensures Neighbours(order, k)[a] == order[|order| - 2 - a]
  {
    NeighboursShape(order, k);
  }

  /** Over an ascending argsort the neighbours are distinct, and the top position is not among them. */
  lemma {:induction false} NeighboursDistinct(row: seq<real>, order: seq<nat>, k: int)
    requires IsArgsort(row, order)
    ensures Distinct(Neighbours(order, k))
    ensures |order| > 0 ==> order[|order| - 1] !in Neighbours(order, k)
  {
    var nb := Neighbours(order, k);
    forall a, b | 0 <= a < b < |nb| ensures nb[a] != nb[b] {
      NeighbourAt(order, k, a);
      NeighbourAt(order, k, b);
    }
    forall a | 0 <= a < |nb| ensures nb[a] != order[|order| - 1] {
      NeighbourAt(order, k, a);
    }
  }

  /** Over an ascending argsort the neighbours' similarities do not increase, and every sorted
      position below the kept ones has a similarity no larger than any neighbour's. */
  lemma {:induction false} NeighboursOrdered(row: seq<real>, order: seq<nat>, k: int)
    requires IsArgsort(row, order)
    ensures forall a, b :: 0 <= a < b < |Neighbours(order, k)| ==> row[Neighbours(order, k)[a]] >= row[Neighbours(order, k)[b]]
    ensures |order| > 0 ==> forall a, p :: 0 <= a < |Neighbours(order, k)| && 0 <= p < NeighbourStart(k, |order|) ==>
      row[order[p]] <= row[Neighbours(order, k)[a]]
  {
    var n := |order|;
    var nb := Neighbours(order, k);
    forall a, b | 0 <= a < b < |nb| ensures row[nb[a]] >= row[nb[b]] {
      NeighbourAt(order, k, a);
      NeighbourAt(order, k, b);
    }
    forall a, p | 0 <= a < |nb| && 0 <= p < n && p < NeighbourStart(k, n) ensures row[order[p]] <= row[nb[a]] {
      NeighbourAt(order, k, a);
    }
  }

  // ---------------------------------------------------------------------------
  // The weighted average

  function Abs(x: real): real
  {
    if x < 0.0 then -x else x
  }

  /** The neighbours are indices of both the similarity row and the rating vector. */
  predicate Indexes(nb: seq<nat>, s: seq<real>, r: seq<real>)
  {
    forall a :: 0 <= a < |nb| ==> nb[a] < |s| && nb[a] < |r|
  }

  /** Σ similarity · rating over the neighbours, in their order. */
  function Numerator(nb: seq<nat>, s: seq<real>, r: seq<real>): real
    requires Indexes(nb, s, r)
  {
    if nb == [] then 0.0
    else
      var j := nb[|nb| - 1];
      Numerator(nb[..|nb| - 1], s, r) + s[j] * r[j]
  }

  /** Σ |similarity| over the neighbours. */
  function Denominator(nb: seq<nat>, s: seq<real>, r: seq<real>): real
    requires Indexes(nb, s, r)
  {
    if nb == [] then 0.0
    else Denominator(nb[..|nb| - 1], s, r) + Abs(s[nb[|nb| - 1]])
  }

  /** One more neighbour adds its term to each sum, as the loop does. */
  lemma {:induction false} SumsStep(nb: seq<nat>, s: seq<real>, r: seq<real>, t: nat)
    requires Indexes(nb, s, r) && t < |nb|
    ensures Numerator(nb[..t + 1], s, r) == Numerator(nb[..t], s, r) + s[nb[t]] * r[nb[t]]
    ensures Denominator(nb[..t + 1], s, r) == Denominator(nb[..t], s, r) + Abs(s[nb[t]])
  {
    assert nb[..t + 1][..t] == nb[..t];
  }

  /** The prediction from given neighbours: the weighted average, or 0 for a zero denominator. */
  function WeightedAverage(nb: seq<nat>, s: seq<real>, r: seq<real>): real
    requires Indexes(nb, s, r)
  {
    var d := Denominator(nb, s, r);
    if d == 0.0 then 0.0 else Numerator(nb, s, r) / d
  }

  /** The loop of both predictors: accumulate Σ similarity · rating and Σ |similarity| over the
      neighbours in order, then divide, or give 0 when the denominator is 0. */
  method WeightedRating(nb: seq<nat>, s: seq<real>, r: seq<real>) returns (p: real)
    requires Indexes(nb, s, r)
    ensures p == WeightedAverage(nb, s, r)
  {
    var numerator := 0.0;
    var denominator := 0.0;
    var t := 0;
    while t < |nb|
      invariant 0 <= t <= |nb|
      invariant numerator == Numerator(nb[..t], s, r)
      invariant denominator == Denominator(nb[..t], s, r)
    {
      var similarity := s[nb[t]];
      var rating := r[nb[t]];
      SumsStep(nb, s, r, t);
      numerator := numerator + similarity * rating;
      denominator := denominator + Abs(similarity);
      t := t + 1;
    }
    assert nb[..t] == nb;
    if denominator == 0.0 {
      return 0.0;
    }
    p := numerator / denominator;
  }

  /** The denominator is never negative, and it is zero exactly when every neighbour's
      similarity is zero. */
  lemma {:induction false} DenominatorZero(nb: seq<nat>, s: seq<real>, r: seq<real>)
    requires Indexes(nb, s, r)
    ensures Denominator(nb, s, r) >= 0.0
    ensures Denominator(nb, s, r) == 0.0 <==> forall a :: 0 <= a < |nb| ==> s[nb[a]] == 0.0
  {
    if nb != [] {
      var init := nb[..|nb| - 1];
      DenominatorZero(init, s, r);
      assert forall a :: 0 <= a < |init| ==> init[a] == nb[a];
    }
  }

  lemma {:induction false} MulNonNegative(x: real, y: real)
    requires x >= 0.0 && y >= 0.0
    ensures x * y >= 0.0
  {
  }

  /** With non-negative similarities, the numerator lies between the denominator scaled by the
      lowest and by the highest neighbour rating. */
  lemma {:induction false} NumeratorBounds(nb: seq<nat>, s: seq<real>, r: seq<real>, lo: real, hi: real)
    requires Indexes(nb, s, r)
    requires forall a :: 0 <= a < |nb| ==> s[nb[a]] >= 0.0 && lo <= r[nb[a]] <= hi
    ensures lo * Denominator(nb, s, r) <= Numerator(nb, s, r) <= hi * Denominator(nb, s, r)
  {
    if nb != [] {
      var init := nb[..|nb| - 1];
      var j := nb[|nb| - 1];
      assert forall a :: 0 <= a < |init| ==> init[a] == nb[a];
      NumeratorBounds(init, s, r, lo, hi);
      BoundsStep(Numerator(init, s, r), Denominator(init, s, r), s[j], r[j], lo, hi,
                 Numerator(nb, s, r), Denominator(nb, s, r));
    }
  }

  /** Adding one term `w * x` with `w >= 0` and `lo <= x <= hi` keeps a weighted sum between
      `lo` and `hi` times its weight. */
  lemma {:induction false} BoundsStep(n: real, d: real, w: real, x: real, lo: real, hi: real, n': real, d': real)
    requires lo * d <= n <= hi * d
    requires w >= 0.0 && lo <= x <= hi
    requires n' == n + w * x && d' == d + w
    ensures lo * d' <= n' <= hi * d'
  {
    MulNonNegative(w, x - lo);
    MulNonNegative(w, hi - x);
    assert lo * (d + w) == lo * d + w * lo;
    assert hi * (d + w) == hi * d + w * hi;
  }

  lemma {:induction false} DivBounds(x: real, d: real, lo: real, hi: real)
    requires d > 0.0 && lo * d <= x <= hi * d
    ensures lo <= x / d <= hi
  {
    var w := x / d;
    assert w * d == x;
    assert (w - lo) * d == x - lo * d;
    assert (hi - w) * d == hi * d - x;
    assert w - lo == (x - lo * d) / d;
    assert hi - w == (hi * d - x) / d;
  }

  /** A weighted average: with non-negative similarities and neighbour ratings in [lo, hi], a
      non-zero denominator puts the prediction in [lo, hi]; with ratings in [0, hi] the
      prediction is in [0, hi] either way. */
  lemma {:induction false} WeightedAverageBounds(nb: seq<nat>, s: seq<real>, r: seq<real>, lo: real, hi: real)
    requires Indexes(nb, s, r)
    requires forall a :: 0 <= a < |nb| ==> s[nb[a]] >= 0.0 && lo <= r[nb[a]] <= hi
    ensures Denominator(nb, s, r) != 0.0 ==> lo <= WeightedAverage(nb, s, r) <= hi
    ensures lo <= 0.0 <= hi ==> lo <= WeightedAverage(nb, s, r) <= hi
  {
    DenominatorZero(nb, s, r);
    NumeratorBounds(nb, s, r, lo, hi);
    var d := Denominator(nb, s, r);
    var x := Numerator(nb, s, r);
    if d != 0.0 {
      DivBounds(x, d, lo, hi);
    }
  }

  // ---------------------------------------------------------------------------
  // Predictions

  /** `_predict_user_based`: 0 for an unknown user or item; otherwise the weighted average of
      the item's ratings by the user's neighbours, weighted by their similarity to the user. */
  function UserBased(m: RatingsMatrix, sim: seq<seq<real>>, k: int, argsort: seq<real> -> seq<nat>,
                     userId: int, itemId: int): real
    requires Fitted(m, sim, "user") && Argsorts(argsort)
  {
    if userId !in m.users || itemId !in m.items then 0.0
    else
      var u := IndexOf(m.users, userId);
      var i := IndexOf(m.items, itemId);
      var nb := Neighbours(argsort(sim[u]), k);
      assert Indexes(nb, sim[u], Column(m.values, i)) by { NeighboursInRange(sim[u], argsort(sim[u]), k); }
      WeightedAverage(nb, sim[u], Column(m.values, i))
  }

  /** The user has rated something: some entry of their row is positive. */
  predicate HasPositive(row: seq<real>)
  {
    exists j :: 0 <= j < |row| && row[j] > 0.0
  }

  /** `_predict_item_based`: 0 for an unknown user or item and for a user with no positive
      rating; otherwise the weighted average of the user's ratings of the item's neighbours,
      weighted by their similarity to the item. */
  function ItemBased(m: RatingsMatrix, sim: seq<seq<real>>, k: int, argsort: seq<real> -> seq<nat>,
                     userId: int, itemId: int): real
    requires WellFormed(m) && Square(sim, |m.items|) && Argsorts(argsort)
  {
    if userId !in m.users || itemId !in m.items then 0.0
    else
      var u := IndexOf(m.users, userId);
      var i := IndexOf(m.items, itemId);
      if !HasPositive(m.values[u]) then 0.0
      else
        var nb := Neighbours(argsort(sim[i]), k);
        assert Indexes(nb, sim[i], m.values[u]) by { NeighboursInRange(sim[i], argsort(sim[i]), k); }
        WeightedAverage(nb, sim[i], m.values[u])
  }

  /** `predict`: user-based for the method `'user'`, item-based for any other. */
  function Prediction(m: RatingsMatrix, sim: seq<seq<real>>, mode: string, k: int, argsort: seq<real> -> seq<nat>,
                      userId: int, itemId: int): real
    requires Fitted(m, sim, mode) && Argsorts(argsort)
  {
    if mode == "user" then UserBased(m, sim, k, argsort, userId, itemId)
    else ItemBased(m, sim, k, argsort, userId, itemId)
  }

  /** With non-negative similarities and ratings no higher than `hi`, every prediction lies in [0, hi]. */
  lemma {:induction false} PredictionBounds(m: RatingsMatrix, sim: seq<seq<real>>, mode: string, k: int, argsort: seq<real> -> seq<nat>,
                         userId: int, itemId: int, hi: real)
    requires Fitted(m, sim, mode) && Argsorts(argsort) && 0.0 <= hi
    requires forall a, b :: 0 <= a < |sim| && 0 <= b < |sim[a]| ==> sim[a][b] >= 0.0
    requires forall u, i :: 0 <= u < |m.values| && 0 <= i < |m.values[u]| ==> 0.0 <= m.values[u][i] <= hi
    ensures 0.0 <= Prediction(m, sim, mode, k, argsort, userId, itemId) <= hi
  {
    if userId in m.users && itemId in m.items {
      var u := IndexOf(m.users, userId);
      var i := IndexOf(m.items, itemId);
      if mode == "user" {
        var nb := Neighbours(argsort(sim[u]), k);
        NeighboursInRange(sim[u], argsort(sim[u]), k);
        var r := Column(m.values, i);
        forall a | 0 <= a < |nb| ensures sim[u][nb[a]] >= 0.0 && 0.0 <= r[nb[a]] <= hi {
          assert 0 <= nb[a] < |m.values| && 0 <= i < |m.values[nb[a]]|;
        }
        WeightedAverageBounds(nb, sim[u], Column(m.values, i), 0.0, hi);
      } else if HasPositive(m.values[u]) {
        var nb := Neighbours(argsort(sim[i]), k);
        NeighboursInRange(sim[i], argsort(sim[i]), k);
        forall a | 0 <= a < |nb| ensures sim[i][nb[a]] >= 0.0 && 0.0 <= m.values[u][nb[a]] <= hi {
          assert 0 <= u < |m.values| && 0 <= nb[a] < |m.values[u]|;
        }
        WeightedAverageBounds(nb, sim[i], m.values[u], 0.0, hi);
      }
    }
  }

  // ---------------------------------------------------------------------------
  // Recommendations

  /** `(item_id, predict(user_id, item_id))` for the items of columns `0 .. j-1` the user rated 0, in column order. */
  function Candidates(m: RatingsMatrix, sim: seq<seq<real>>, mode: string, k: int, argsort: seq<real> -> seq<nat>,
                      u: nat, j: nat): seq<(int, real)>
    requires Fitted(m, sim, mode) && Argsorts(argsort)
    requires u < |m.users| && j <= |m.items|
  {
    if j == 0 then []
    else
      Candidates(m, sim, mode, k, argsort, u, j - 1)
        + (if m.values[u][j - 1] == 0.0 then [(m.items[j - 1], Prediction(m, sim, mode, k, argsort, m.users[u], m.items[j - 1]))] else [])
  }

  /** Insert into a list ranked by non-increasing rating, after every entry rated at least as high. */
  function InsertDesc(x: (int, real), s: seq<(int, real)>): seq<(int, real)>
  {
    if s == [] then [x]
    else if s[0].1 >= x.1 then [s[0]] + InsertDesc(x, s[1..])
    else [x] + s
  }

  /** `list.sort(key=rating, reverse=True)`: a stable ranking by non-increasing rating. */
  function SortDesc(s: seq<(int, real)>): seq<(int, real)>
  {
    if s == [] then [] else InsertDesc(s[|s| - 1], SortDesc(s[..|s| - 1]))
  }

  predicate NonIncreasing(s: seq<(int, real)>)
  {
    forall a, b :: 0 <= a < b < |s| ==> s[a].1 >= s[b].1
  }

  lemma {:induction false} InsertDescPermutes(x: (int, real), s: seq<(int, real)>)
    ensures multiset(InsertDesc(x, s)) == multiset(s) + multiset{x}
  {
    if s != [] && s[0].1 >= x.1 {
      InsertDescPermutes(x, s[1..]);
      assert s == [s[0]] + s[1..];
    }
  }

  lemma {:induction false} InsertDescSorted(x: (int, real), s: seq<(int, real)>)
    requires NonIncreasing(s)
    ensures NonIncreasing(InsertDesc(x, s))
  {
    if s != [] {
      if s[0].1 >= x.1 {
        InsertDescSorted(x, s[1..]);
        InsertDescBounded(x, s[1..], s[0].1);
        ConsNonIncreasing(s[0], InsertDesc(x, s[1..]));
      } else {
        ConsNonIncreasing(x, s);
      }
    }
  }

  /** Inserting an entry no higher than `v` into entries no higher than `v` keeps them so. */
  lemma {:induction false} InsertDescBounded(x: (int, real), s: seq<(int, real)>, v: real)
    requires x.1 <= v && forall a :: 0 <= a < |s| ==> s[a].1 <= v
    ensures forall a :: 0 <= a < |InsertDesc(x, s)| ==> InsertDesc(x, s)[a].1 <= v
  {
    if s != [] && s[0].1 >= x.1 {
      InsertDescBounded(x, s[1..], v);
    }
  }

  /** An entry no lower than every entry of a ranking can head it. */
  lemma {:induction false} ConsNonIncreasing(h: (int, real), t: seq<(int, real)>)
    requires NonIncreasing(t) && forall a :: 0 <= a < |t| ==> t[a].1 <= h.1
    ensures NonIncreasing([h] + t)
  {
    var u := [h] + t;
    forall a, b | 0 <= a < b < |u| ensures u[a].1 >= u[b].1 {
      assert u[b] == t[b - 1];
      if a > 0 {
        assert u[a] == t[a - 1];
      }
    }
  }

  /** The ranking is non-increasing and a permutation of its input. */
  lemma {:induction false} SortDescSpec(s: seq<(int, real)>)
    ensures NonIncreasing(SortDesc(s))
    ensures multiset(SortDesc(s)) == multiset(s)
  {
    if s != [] {
      SortDescSpec(s[..|s| - 1]);
      InsertDescSorted(s[|s| - 1], SortDesc(s[..|s| - 1]));
      InsertDescPermutes(s[|s| - 1], SortDesc(s[..|s| - 1]));
      assert s == s[..|s| - 1] + [s[|s| - 1]];
    }
  }

  /** `recommend`: nothing for an unknown user; otherwise the ranked candidates, cut at `n`
      as `[:n]` cuts. */
  function Recommendations(m: RatingsMatrix, sim: seq<seq<real>>, mode: string, k: int, argsort: seq<real> -> seq<nat>,
                           userId: int, n: int): seq<(int, real)>
    requires Fitted(m, sim, mode) && Argsorts(argsort)
  {
    if userId !in m.users then []
    else PySlice(SortDesc(Candidates(m, sim, mode, k, argsort, IndexOf(m.users, userId), |m.items|)), 0, n)
  }

  /** The candidates are exactly the items the user rated 0, each with its prediction. */
  lemma {:induction false} CandidatesSpec(m: RatingsMatrix, sim: seq<seq<real>>, mode: string, k: int,
                                          argsort: seq<real> -> seq<nat>, u: nat, j: nat)
    requires Fitted(m, sim, mode) && Argsorts(argsort)
    requires u < |m.users| && j <= |m.items|
    ensures forall x :: x in Candidates(m, sim, mode, k, argsort, u, j) <==>
      exists i :: 0 <= i < j && m.values[u][i] == 0.0 && x == (m.items[i], Prediction(m, sim, mode, k, argsort, m.users[u], m.items[i]))
    ensures |Candidates(m, sim, mode, k, argsort, u, j)| <= j
  {
    if j > 0 {
      CandidatesSpec(m, sim, mode, k, argsort, u, j - 1);
    }
  }

  /** For a known user the recommendations are the head of a non-increasing ranking of the
      candidates: `n` of them (or all, when fewer) for `n >= 0`, each one a candidate, and no
      candidate left out of the head rated above any that is in it. */
  lemma {:induction false} RecommendationsSpec(m: RatingsMatrix, sim: seq<seq<real>>, mode: string, k: int,
                            argsort: seq<real> -> seq<nat>, userId: int, n: int)
    requires Fitted(m, sim, mode) && Argsorts(argsort)
    requires userId in m.users
    ensures var cands := Candidates(m, sim, mode, k, argsort, IndexOf(m.users, userId), |m.items|);
      var ranked := SortDesc(cands);
      var recs := Recommendations(m, sim, mode, k, argsort, userId, n);
      && multiset(ranked) == multiset(cands)
      && recs == ranked[..|recs|]
      && (0 <= n ==> |recs| == if n < |cands| then n else |cands|)
      && NonIncreasing(recs)
      && (forall x :: x in recs ==> x in cands)
      && (forall a, b :: 0 <= a < |recs| <= b < |ranked| ==> ranked[b].1 <= recs[a].1)
  {
    var cands := Candidates(m, sim, mode, k, argsort, IndexOf(m.users, userId), |m.items|);
    RankedHead(cands, n);
  }

  /** The `[:n]` head of the ranking of any candidate list: a prefix of a non-increasing
      permutation of the list, `n` long or the whole list, outranking everything left out. */
  lemma {:induction false} RankedHead(cands: seq<(int, real)>, n: int)
    ensures var ranked := SortDesc(cands);
      var recs := PySlice(ranked, 0, n);
      && multiset(ranked) == multiset(cands)
      && recs == ranked[..|recs|]
      && (0 <= n ==> |recs| == if n < |cands| then n else |cands|)
      && NonIncreasing(recs)
      && (forall x :: x in recs ==> x in cands)
      && (forall a, b :: 0 <= a < |recs| <= b < |ranked| ==> ranked[b].1 <= recs[a].1)
  {
    var ranked := SortDesc(cands);
    SortDescSpec(cands);
    var recs := PySlice(ranked, 0, n);
    assert |ranked| == |cands| by {
      assert |multiset(ranked)| == |multiset(cands)|;
    }
    assert recs == ranked[..|recs|];
    forall x | x in recs ensures x in cands {
      assert x in multiset(ranked);
    }
  }

  // ---------------------------------------------------------------------------
  // The recommender object

  class KNNRecommender {
    var nNeighbors: int
    var mode: string
    /** `None` until `fit`. */
    var ratingsMatrix: Option<RatingsMatrix>
    var similarityMatrix: Option<seq<seq<real>>>

    predicate Valid()
      reads this
    {
      ratingsMatrix.Some? && similarityMatrix.Some? && Fitted(ratingsMatrix.value, similarityMatrix.value, mode)
    }

    constructor(nNeighbors: int := 5, mode: string := "user")
      ensures this.nNeighbors == nNeighbors && this.mode == mode
      ensures ratingsMatrix == None && similarityMatrix == None
    {
      this.nNeighbors := nNeighbors;
      this.mode := mode;
      ratingsMatrix := None;
      similarityMatrix := None;
    }

    /** `fit`: keeps the rating matrix and its cosine similarity over users for `'user'`, over
        items otherwise. `cosine` returns one row and one column per input row. */
    method Fit(m: RatingsMatrix, cosine: seq<seq<real>> -> seq<seq<real>>)
      requires WellFormed(m)
      requires Square(cosine(SimilarityInput(mode, m)), |SimilarityInput(mode, m)|)
      modifies this
      ensures nNeighbors == old(nNeighbors) && mode == old(mode)
      ensures ratingsMatrix == Some(m)
      ensures similarityMatrix == Some(cosine(SimilarityInput(mode, m)))
      ensures Valid()
    {
      ratingsMatrix := Some(m);
      similarityMatrix := Some(cosine(SimilarityInput(mode, m)));
    }

    /** `predict`: dispatches on the method. */
    method Predict(userId: int, itemId: int, argsort: seq<real> -> seq<nat>) returns (p: real)
      requires Valid() && Argsorts(argsort)
      ensures p == Prediction(ratingsMatrix.value, similarityMatrix.value, mode, nNeighbors, argsort, userId, itemId)
      ensures userId !in ratingsMatrix.value.users || itemId !in ratingsMatrix.value.items ==> p == 0.0
    {
      if mode == "user" {
        p := PredictUserBased(userId, itemId, argsort);
      } else {
        p := PredictItemBased(userId, itemId, argsort);
      }
    }

    /** `_predict_user_based`. */
    method PredictUserBased(userId: int, itemId: int, argsort: seq<real> -> seq<nat>) returns (p: real)
      requires Valid() && mode == "user" && Argsorts(argsort)
      ensures p == UserBased(ratingsMatrix.value, similarityMatrix.value, nNeighbors, argsort, userId, itemId)
    {
      var m := ratingsMatrix.value;
      var sim := similarityMatrix.value;
      if userId !in m.users || itemId !in m.items {
        return 0.0;
      }
      var u := IndexOf(m.users, userId);
      var i := IndexOf(m.items, itemId);
      var nb := Neighbours(argsort(sim[u]), nNeighbors);
      NeighboursInRange(sim[u], argsort(sim[u]), nNeighbors);
      p := WeightedRating(nb, sim[u], Column(m.values, i));
    }

    /** `_predict_item_based`. */
    method PredictItemBased(userId: int, itemId: int, argsort: seq<real> -> seq<nat>) returns (p: real)
      requires Valid() && mode != "user" && Argsorts(argsort)
      ensures p == ItemBased(ratingsMatrix.value, similarityMatrix.value, nNeighbors, argsort, userId, itemId)
      ensures (userId in ratingsMatrix.value.users && itemId in ratingsMatrix.value.items
               && !HasPositive(ratingsMatrix.value.values[IndexOf(ratingsMatrix.value.users, userId)])) ==> p == 0.0
    {
      var m := ratingsMatrix.value;
      var sim := similarityMatrix.value;
      if userId !in m.users || itemId !in m.items {
        return 0.0;
      }
      var u := IndexOf(m.users, userId);
      var i := IndexOf(m.items, itemId);
      var userRatings := m.values[u];
      if !HasPositive(userRatings) {
        return 0.0;
      }
      var nb := Neighbours(argsort(sim[i]), nNeighbors);
      NeighboursInRange(sim[i], argsort(sim[i]), nNeighbors);
      p := WeightedRating(nb, sim[i], userRatings);
    }

    /** `recommend`: predicts every item the user rated 0, ranks by prediction and keeps the first `n`. */
    method Recommend(userId: int, n: int, argsort: seq<real> -> seq<nat>) returns (recs: seq<(int, real)>)
      requires Valid() && Argsorts(argsort)
      ensures recs == Recommendations(ratingsMatrix.value, similarityMatrix.value, mode, nNeighbors, argsort, userId, n)
      ensures userId !in ratingsMatrix.value.users ==> recs == []
    {
      var m := ratingsMatrix.value;
      if userId !in m.users {
        return [];
      }
      var u := IndexOf(m.users, userId);
      var predictions: seq<(int, real)> := [];
      var j := 0;
      while j < |m.items|
        invariant 0 <= j <= |m.items|
        invariant predictions == Candidates(m, similarityMatrix.value, mode, nNeighbors, argsort, u, j)
      {
        if m.values[u][j] == 0.0 {
          var p := Predict(userId, m.items[j], argsort);
          predictions := predictions + [(m.items[j], p)];
        }
        j := j + 1;
      }
      var ranked := SortDesc(predictions);
      recs := PySlice(ranked, 0, n);
    }
  }
}
