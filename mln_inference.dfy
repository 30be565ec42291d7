/** Inference for the test pairs: one `likes` query per pair, the queries cut into batches,
    each batch evaluated together with the generated program by the probabilistic logic
    engine (a parameter here), the answers parsed back into (user, movie, probability) rows,
    and a left join of those rows onto the test pairs. */
module MlnInference {
  import opened Common
  import opened Text

  // ---------------------------------------------------------------------------
  // Queries

  /** The engine's term for "user `u` likes movie `m`": `likes(user<u>, movie<m>)`. */
  function QueryArgs(u: int, m: int): seq<string>
  {
    ["user" + IntToString(u), "movie" + IntToString(m)]
  }

  /** One line of the query file. */
  function QueryLine(u: int, m: int): string
  {
    var args := QueryArgs(u, m);
    "query(likes(" + args[0] + ", " + args[1] + "))."
  }

  /** The query file's lines, one per test pair in order. */
  function QueryLines(test: seq<(int, int)>): (qs: seq<string>)
    ensures |qs| == |test|
    ensures forall i :: 0 <= i < |test| ==> qs[i] == QueryLine(test[i].0, test[i].1)
  {
    seq(|test|, i requires 0 <= i < |test| => QueryLine(test[i].0, test[i].1))
  }

  lemma {:induction false} IntToStringNoLineBreak(n: int)
    ensures NoLineBreak(IntToString(n))
  {
    var s := IntToString(n);
    if n < 0 {
      assert s == "-" + NatToString(-n);
      forall i | 0 <= i < |s| ensures !IsLineBreak(s[i]) {
        if i > 0 {
          assert s[i] == NatToString(-n)[i - 1];
        }
      }
    }
  }

  lemma {:induction false} QueryLineNoLineBreak(u: int, m: int)
    ensures NoLineBreak(QueryLine(u, m))
  {
    IntToStringNoLineBreak(u);
    IntToStringNoLineBreak(m);
    var a := IntToString(u);
    var b := IntToString(m);
    var s := QueryLine(u, m);
    var p := "query(likes(user";
    var q := ", movie";
    assert s == p + a + q + b + "))." ;
    forall i | 0 <= i < |s| ensures !IsLineBreak(s[i]) {
      if i < |p| {
        assert s[i] == p[i];
      } else if i < |p| + |a| {
        assert s[i] == a[i - |p|];
      } else if i < |p| + |a| + |q| {
        assert s[i] == q[i - |p| - |a|];
      } else if i < |p| + |a| + |q| + |b| {
        assert s[i] == b[i - |p| - |a| - |q|];
      } else {
        assert s[i] == "))."[i - |p| - |a| - |q| - |b|];
      }
    }
  }

  /** Reading the written query file back line by line gives exactly the queries written. */
  lemma {:induction false} QueryFileRoundTrip(test: seq<(int, int)>)
    ensures SplitLines(Lines(QueryLines(test))) == QueryLines(test)
  {
    var qs := QueryLines(test);
    forall i | 0 <= i < |qs| ensures NoLineBreak(qs[i]) {
      QueryLineNoLineBreak(test[i].0, test[i].1);
    }
    SplitLinesOfLines(qs);
  }

  /** Writes the query file, one line per test pair. */
  method WriteQueries(test: seq<(int, int)>) returns (lines: seq<string>)
    ensures lines == QueryLines(test)
  {
    lines := [];
    ghost var qs := QueryLines(test);
    var i := 0;
    while i < |test|
      invariant 0 <= i <= |test|
      invariant lines == qs[..i]
    {
      lines := lines + [QueryLine(test[i].0, test[i].1)];
      assert qs[..i + 1] == qs[..i] + [qs[i]];
      i := i + 1;
    }
    assert qs[..i] == qs;
  }

  // ---------------------------------------------------------------------------
  // Parsing the engine's answers

  /** A key of the engine's answer: a term with its arguments as text, or anything else. */
  datatype Key = Term(args: seq<string>) | OtherKey

  /** What the engine does with a program: it raises, or it returns a probability per key. */
  datatype Evaluation = EngineFailure | Evaluated(entries: seq<(Key, real)>)

  /** One row of a parsed answer. */
  datatype Row = Row(userId: int, movieId: int, probability: real)

  datatype EntryParse = Skip | Fail | Parsed(userId: int, movieId: int)

  /** One entry of the answer: a term's first argument loses four characters (`user`) and its
      second five (`movie`), and what is left must read as integers; other keys are skipped. */
  function ParseKey(k: Key): EntryParse
  {
    match k
    case OtherKey => Skip
    case Term(args) =>
      if |args| < 2 then Fail
      else
        var u := ParseInt(PySlice(args[0], 4, |args[0]|));
        var m := ParseInt(PySlice(args[1], 5, |args[1]|));
        if u.Some? && m.Some? then Parsed(u.value, m.value) else Fail
  }

  /** `parse_result`: the rows of the answer in order, or None when any entry fails to parse. */
  function ParseEntries(es: seq<(Key, real)>): Option<seq<Row>>
  {
    if es == [] then Some([])
    else
      match ParseEntries(es[..|es| - 1])
      case None => None
      case Some(rows) =>
        var (k, p) := es[|es| - 1];
        match ParseKey(k)
        case Skip => Some(rows)
        case Fail => None
        case Parsed(u, m) => Some(rows + [Row(u, m, p)])
  }

  /** The identifiers written into a query come back out of its term. */
  lemma {:induction false} QueryKeyRoundTrip(u: int, m: int)
    ensures ParseKey(Term(QueryArgs(u, m))) == Parsed(u, m)
  {
    var a := "user" + IntToString(u);
    var b := "movie" + IntToString(m);
    assert PySlice(a, 4, |a|) == IntToString(u) by {
      assert a[4..] == IntToString(u);
    }
    assert PySlice(b, 5, |b|) == IntToString(m) by {
      assert b[5..] == IntToString(m);
    }
    ParseShowInt(u);
    ParseShowInt(m);
  }

  lemma {:induction false} ParseEntriesFails(es: seq<(Key, real)>, n: nat)
    requires n <= |es| && ParseEntries(es[..n]).None?
    ensures ParseEntries(es).None?
    decreases |es| - n
  {
    if n < |es| {
      assert es[..n + 1][..n] == es[..n];
      ParseEntriesFails(es, n + 1);
    } else {
      assert es[..n] == es;
    }
  }

  /** Parsing succeeds exactly when no term entry is malformed, and then the rows are the term
      entries with their probabilities. */
  lemma {:induction false} ParseEntriesSpec(es: seq<(Key, real)>)
    ensures ParseEntries(es).Some? <==> forall j :: 0 <= j < |es| ==> ParseKey(es[j].0) != Fail
    ensures ParseEntries(es).Some? ==> forall row :: row in ParseEntries(es).value <==>
      exists j :: 0 <= j < |es| && ParseKey(es[j].0) == Parsed(row.userId, row.movieId) && es[j].1 == row.probability
  {
    ParseEntriesSucceeds(es);
    if ParseEntries(es).Some? {
      ParseEntriesRows(es);
    }
  }

  lemma {:induction false} ParseEntriesSucceeds(es: seq<(Key, real)>)
    ensures ParseEntries(es).Some? <==> forall j :: 0 <= j < |es| ==> ParseKey(es[j].0) != Fail
  {
    if es != [] {
      var init := es[..|es| - 1];
      ParseEntriesSucceeds(init);
      assert forall j :: 0 <= j < |init| ==> init[j] == es[j];
    }
  }

  lemma {:induction false} ParseEntriesRows(es: seq<(Key, real)>)
    requires ParseEntries(es).Some?
    ensures forall row :: row in ParseEntries(es).value <==>
      exists j :: 0 <= j < |es| && ParseKey(es[j].0) == Parsed(row.userId, row.movieId) && es[j].1 == row.probability
  {
    if es != [] {
      var init := es[..|es| - 1];
      var n := |es| - 1;
      assert ParseEntries(init).Some?;
      ParseEntriesRows(init);
      var before := ParseEntries(init).value;
      var rows := ParseEntries(es).value;
      var extra := if ParseKey(es[n].0).Parsed? then [Row(ParseKey(es[n].0).userId, ParseKey(es[n].0).movieId, es[n].1)] else [];
      assert rows == before + extra;
      forall row ensures row in rows <==>
        exists j :: 0 <= j < |es| && ParseKey(es[j].0) == Parsed(row.userId, row.movieId) && es[j].1 == row.probability
      {
        if row in before {
          var j :| 0 <= j < |init| && ParseKey(init[j].0) == Parsed(row.userId, row.movieId) && init[j].1 == row.probability;
          assert es[j] == init[j];
        }
        if exists j :: 0 <= j < |es| && ParseKey(es[j].0) == Parsed(row.userId, row.movieId) && es[j].1 == row.probability {
          var j :| 0 <= j < |es| && ParseKey(es[j].0) == Parsed(row.userId, row.movieId) && es[j].1 == row.probability;
          if j < n {
            assert init[j] == es[j];
          }
        }
      }
    }
  }

  /** Parses the answer entry by entry, the first malformed term abandoning the whole answer. */
  method ParseResult(es: seq<(Key, real)>) returns (r: Option<seq<Row>>)
    ensures r == ParseEntries(es)
  {
    var parsed: seq<Row> := [];
    var i := 0;
    while i < |es|
      invariant 0 <= i <= |es|
      invariant ParseEntries(es[..i]) == Some(parsed)
    {
      assert es[..i + 1][..i] == es[..i];
      var (k, p) := es[i];
      var step := ParseKey(k);
      if step.Fail? {
        ParseEntriesFails(es, i + 1);
        return None;
      }
      if step.Parsed? {
        parsed := parsed + [Row(step.userId, step.movieId, p)];
      }
      i := i + 1;
    }
    assert es[..i] == es;
    return Some(parsed);
  }

  // ---------------------------------------------------------------------------
  // Batches

  /** `[qs[i:i + size] for i in range(0, len(qs), size)]`. */
  function Batches(qs: seq<string>, size: nat): seq<seq<string>>
    requires size > 0
    decreases |qs|
  {
    if qs == [] then []
    else if |qs| <= size then [qs]
    else [qs[..size]] + Batches(qs[size..], size)
  }

  lemma {:induction false} ConcatPrepend<T>(a: seq<T>, ss: seq<seq<T>>)
    ensures Concat([a] + ss) == a + Concat(ss)
    decreases |ss|
  {
    if ss != [] {
      var init := ss[..|ss| - 1];
      assert ([a] + ss)[..|ss|] == [a] + init;
      ConcatPrepend(a, init);
    }
  }

  /** The batches are contiguous, in order and together the whole query list; every batch but
      the last is full and none is empty. */
  lemma {:induction false} BatchesSpec(qs: seq<string>, size: nat)
    requires size > 0
    ensures Concat(Batches(qs, size)) == qs
    ensures forall k :: 0 <= k < |Batches(qs, size)| ==> 0 < |Batches(qs, size)[k]| <= size
    ensures forall k :: 0 <= k < |Batches(qs, size)| - 1 ==> |Batches(qs, size)[k]| == size
    ensures Batches(qs, size) == [] <==> qs == []
    decreases |qs|
  {
    if qs != [] && |qs| > size {
      var rest := Batches(qs[size..], size);
      BatchesSpec(qs[size..], size);
      ConcatPrepend(qs[..size], rest);
      assert qs[..size] + qs[size..] == qs;
      var b := Batches(qs, size);
      assert forall k :: 1 <= k < |b| ==> b[k] == rest[k - 1];
    } else if qs != [] {
      assert Concat([qs]) == Concat([qs][..0]) + qs;
    }
  }

  /** The answer rows of one batch: the program text followed by the batch's queries joined by
      newlines goes to the engine; an engine failure or an unparsable answer yields no rows. */
  function ProcessBatch(batch: seq<string>, world: string, engine: string -> Evaluation): seq<Row>
  {
    match engine(world + Join("\n", batch))
    case EngineFailure => []
    case Evaluated(es) =>
      match ParseEntries(es)
      case None => []
      case Some(rows) => rows
  }

  // ---------------------------------------------------------------------------
  // Collecting and merging

  /** `order` lists each of the `n` batch indices exactly once: the order in which they finish. */
  predicate IsOrder(order: seq<nat>, n: nat)
  {
    |order| == n && (forall j :: 0 <= j < n ==> order[j] < n) && (forall k: nat :: k < n ==> k in order)
  }

  /** The batch results appended in completion order and concatenated. */
  function Collect(results: seq<seq<Row>>, order: seq<nat>): seq<Row>
    requires forall j :: 0 <= j < |order| ==> order[j] < |results|
  {
    Concat(seq(|order|, j requires 0 <= j < |order| => results[order[j]]))
  }

  /** Whatever the completion order, the collected rows are those of the batches. */
  lemma {:induction false} CollectMembers(results: seq<seq<Row>>, order: seq<nat>, row: Row)
    requires IsOrder(order, |results|)
    ensures row in Collect(results, order) <==> exists k :: 0 <= k < |results| && row in results[k]
  {
    var ss := seq(|order|, j requires 0 <= j < |order| => results[order[j]]);
    InConcat(ss, row);
    if exists k :: 0 <= k < |results| && row in results[k] {
      var k :| 0 <= k < |results| && row in results[k];
      assert k in order;
      var j :| 0 <= j < |order| && order[j] == k;
      assert row in ss[j];
    }
  }

  /** A parsed row with its rating attached. */
  datatype Scored = Scored(userId: int, movieId: int, probability: real, rating: Float)

  /** A row of the merged prediction: probability and rating missing for a pair without result. */
  datatype Prediction = Prediction(userId: int, movieId: int, probability: Option<real>, rating: Option<Float>)

  function Score(rows: seq<Row>, rate: (int, real) -> Float): (out: seq<Scored>)
    ensures |out| == |rows|
    ensures forall i :: 0 <= i < |rows| ==>
      out[i] == Scored(rows[i].userId, rows[i].movieId, rows[i].probability, rate(rows[i].movieId, rows[i].probability))
  {
    seq(|rows|, i requires 0 <= i < |rows| => Scored(rows[i].userId, rows[i].movieId, rows[i].probability,
                                                     rate(rows[i].movieId, rows[i].probability)))
  }

  /** The scored rows for one (user, movie) pair, in their order. */
  function Matches(rows: seq<Scored>, key: (int, int)): seq<Scored>
  {
    if rows == [] then []
    else
      var last := rows[|rows| - 1];
      Matches(rows[..|rows| - 1], key) + (if (last.userId, last.movieId) == key then [last] else [])
  }

  /** The left join's rows for one test pair: one per match, or a single row with gaps. */
  function JoinRows(key: (int, int), rows: seq<Scored>): seq<Prediction>
  {
    var ms := Matches(rows, key);
    if ms == [] then [Prediction(key.0, key.1, None, None)]
    else seq(|ms|, j requires 0 <= j < |ms| => Prediction(key.0, key.1, Some(ms[j].probability), Some(ms[j].rating)))
  }

  /** `pd.merge(test, prediction, on=['userId', 'movieId'], how='left', sort=False)`. */
  function Merge(test: seq<(int, int)>, rows: seq<Scored>): seq<Prediction>
  {
    Concat(seq(|test|, i requires 0 <= i < |test| => JoinRows(test[i], rows)))
  }

  /** No two rows share a (user, movie) pair. */
  predicate UniqueKeys(rows: seq<Scored>)
  {
    forall i, j :: 0 <= i < j < |rows| ==> (rows[i].userId, rows[i].movieId) != (rows[j].userId, rows[j].movieId)
  }

  lemma {:induction false} MatchesSpec(rows: seq<Scored>, key: (int, int))
    ensures forall x :: x in Matches(rows, key) <==> x in rows && (x.userId, x.movieId) == key
    ensures UniqueKeys(rows) ==> |Matches(rows, key)| <= 1
  {
    if rows != [] {
      var init := rows[..|rows| - 1];
      var last := rows[|rows| - 1];
      MatchesSpec(init, key);
      assert rows == init + [last];
      if UniqueKeys(rows) && (last.userId, last.movieId) == key {
        forall x | x in init ensures (x.userId, x.movieId) != key {
          var i :| 0 <= i < |init| && init[i] == x;
          assert rows[i] == x;
        }
        MatchesNone(init, key);
      }
    }
  }

  lemma {:induction false} MatchesNone(rows: seq<Scored>, key: (int, int))
    requires forall x :: x in rows ==> (x.userId, x.movieId) != key
    ensures Matches(rows, key) == []
  {
    if rows != [] {
      assert rows[|rows| - 1] in rows;
      MatchesNone(rows[..|rows| - 1], key);
    }
  }

  lemma {:induction false} ConcatSingletons<T>(ss: seq<seq<T>>)
    requires forall i :: 0 <= i < |ss| ==> |ss[i]| == 1
    ensures |Concat(ss)| == |ss|
    ensures forall i :: 0 <= i < |ss| ==> Concat(ss)[i] == ss[i][0]
  {
    if ss != [] {
      ConcatSingletons(ss[..|ss| - 1]);
    }
  }

  /** With at most one result per pair, the join has exactly one row per test pair, in test
      order; the probability and rating are present exactly when a result carries the pair,
      and then they are that result's. */
  lemma {:induction false} MergeSpec(test: seq<(int, int)>, rows: seq<Scored>)
    requires UniqueKeys(rows)
    ensures |Merge(test, rows)| == |test|
    ensures forall i :: 0 <= i < |test| ==>
      var p := Merge(test, rows)[i];
      && (p.userId, p.movieId) == test[i]
      && (p.probability.Some? <==> exists x :: x in rows && (x.userId, x.movieId) == test[i])
      && (p.rating.Some? <==> p.probability.Some?)
      && (forall x :: x in rows && (x.userId, x.movieId) == test[i] ==>
            p.probability == Some(x.probability) && p.rating == Some(x.rating))
  {
    var ss := seq(|test|, i requires 0 <= i < |test| => JoinRows(test[i], rows));
    forall i | 0 <= i < |test| ensures |ss[i]| == 1 {
      MatchesSpec(rows, test[i]);
    }
    ConcatSingletons(ss);
    forall i | 0 <= i < |test|
      ensures var p := Merge(test, rows)[i];
        && (p.userId, p.movieId) == test[i]
        && (p.probability.Some? <==> exists x :: x in rows && (x.userId, x.movieId) == test[i])
        && (p.rating.Some? <==> p.probability.Some?)
        && (forall x :: x in rows && (x.userId, x.movieId) == test[i] ==>
              p.probability == Some(x.probability) && p.rating == Some(x.rating))
    {
      MatchesSpec(rows, test[i]);
      var ms := Matches(rows, test[i]);
      if ms != [] {
        assert ms[0] in ms;
      }
    }
  }

  /** With at most one result per pair, the join depends only on which results arrived, not on
      the order they arrived in. */
  lemma {:induction false} MergeOrderFree(test: seq<(int, int)>, rows1: seq<Scored>, rows2: seq<Scored>)
    requires UniqueKeys(rows1) && UniqueKeys(rows2)
    requires forall x :: x in rows1 <==> x in rows2
    ensures Merge(test, rows1) == Merge(test, rows2)
  {
    MergeSpec(test, rows1);
    MergeSpec(test, rows2);
    var m1 := Merge(test, rows1);
    var m2 := Merge(test, rows2);
    forall i | 0 <= i < |test| ensures m1[i] == m2[i] {
      if exists x :: x in rows1 && (x.userId, x.movieId) == test[i] {
        var x :| x in rows1 && (x.userId, x.movieId) == test[i];
        assert x in rows2;
      }
    }
  }

  // ---------------------------------------------------------------------------
  // The whole prediction

  /** Why `predict` raises: a batch step of zero, a worker count below one, or no batch result
      to concatenate (no test pair, or a negative batch step that makes no batch). */
  datatype PredictError = ZeroBatchStep | NoWorkers | NothingToConcatenate

  /** A merged frame, and whether it has a `rating` column: ratings are attached only when some
      batch returned a row, so a frame merged onto an empty concatenation lacks the column. */
  datatype PredictOutcome = Failed(error: PredictError) | Predicted(rows: seq<Prediction>, hasRating: bool)

  /** The worker count: all processors for -1, the given number otherwise. */
  function Workers(nJobs: int, cpuCount: nat): int
  {
    if nJobs == -1 then cpuCount else nJobs
  }

  /** The results of every batch, indexed by batch. */
  function BatchResults(batches: seq<seq<string>>, world: string, engine: string -> Evaluation): (rs: seq<seq<Row>>)
    ensures |rs| == |batches|
    ensures forall k :: 0 <= k < |batches| ==> rs[k] == ProcessBatch(batches[k], world, engine)
  {
    seq(|batches|, k requires 0 <= k < |batches| => ProcessBatch(batches[k], world, engine))
  }

  /** Whether `order` is a completion order for the batches these inputs make. */
  predicate ValidOrder(test: seq<(int, int)>, batchSize: int, order: seq<nat>)
  {
    batchSize > 0 ==> IsOrder(order, |Batches(QueryLines(test), batchSize)|)
  }

  /** `predict`: the outcome for test pairs, program text, batch size, worker setting,
      engine, completion order and rating function. It fails exactly on a zero batch step, on
      fewer than one worker, and on an empty test set or a negative step, in that order of
      precedence (with at least one processor, `-1` workers never fails). */
  function PredictRun(test: seq<(int, int)>, world: string, batchSize: int, nJobs: int, cpuCount: nat,
                      engine: string -> Evaluation, order: seq<nat>, rate: (int, real) -> Float): (out: PredictOutcome)
    requires ValidOrder(test, batchSize, order)
    ensures out == Failed(ZeroBatchStep) <==> batchSize == 0
    ensures cpuCount >= 1 ==> (out == Failed(NoWorkers) <==> batchSize != 0 && nJobs != -1 && nJobs < 1)
    ensures cpuCount >= 1 ==>
      (out == Failed(NothingToConcatenate) <==> batchSize != 0 && (nJobs == -1 || nJobs >= 1) && (batchSize < 0 || test == []))
    ensures cpuCount >= 1 ==> (out.Predicted? <==> batchSize > 0 && (nJobs == -1 || nJobs >= 1) && test != [])
  {
    if batchSize == 0 then Failed(ZeroBatchStep)
    else if Workers(nJobs, cpuCount) < 1 then Failed(NoWorkers)
    else if batchSize < 0 || test == [] then Failed(NothingToConcatenate)
    else
      var batches := Batches(QueryLines(test), batchSize);
      var rows := Collect(BatchResults(batches, world, engine), order);
      Predicted(Merge(test, Score(rows, rate)), rows != [])
  }

  /** A failing batch costs only its own pairs: a test pair gets a probability exactly when some
      batch whose evaluation and parsing succeeded returned a row for it; with one result per
      pair every test pair gets one output row, in test order. */
  lemma {:induction false} PredictContainment(test: seq<(int, int)>, world: string, batchSize: int, nJobs: int, cpuCount: nat,
                           engine: string -> Evaluation, order: seq<nat>, rate: (int, real) -> Float)
    requires ValidOrder(test, batchSize, order)
    requires PredictRun(test, world, batchSize, nJobs, cpuCount, engine, order, rate).Predicted?
    requires UniqueKeys(Score(Collect(BatchResults(Batches(QueryLines(test), batchSize), world, engine), order), rate))
    ensures var rows := PredictRun(test, world, batchSize, nJobs, cpuCount, engine, order, rate).rows;
      var batches := Batches(QueryLines(test), batchSize);
      && |rows| == |test|
      && forall i :: 0 <= i < |test| ==>
        && (rows[i].userId, rows[i].movieId) == test[i]
        && (rows[i].probability.Some? <==>
              exists k, r :: 0 <= k < |batches| && r in ProcessBatch(batches[k], world, engine) && (r.userId, r.movieId) == test[i])
  {
    var batches := Batches(QueryLines(test), batchSize);
    var results := BatchResults(batches, world, engine);
    assert PredictRun(test, world, batchSize, nJobs, cpuCount, engine, order, rate).rows
      == Merge(test, Score(Collect(results, order), rate));
    JoinContainment(test, results, order, rate);
    forall i | 0 <= i < |test|
      ensures (exists k: int, r: Row :: 0 <= k < |results| && r in results[k] && (r.userId, r.movieId) == test[i])
        <==> (exists k, r :: 0 <= k < |batches| && r in ProcessBatch(batches[k], world, engine) && (r.userId, r.movieId) == test[i])
    {
      BatchResultsHold(batches, world, engine, test[i]);
    }
  }

  /** A pair has a row among the batch results exactly when some batch's processing returned one. */
  lemma {:induction false} BatchResultsHold(batches: seq<seq<string>>, world: string, engine: string -> Evaluation, pair: (int, int))
    ensures var results := BatchResults(batches, world, engine);
      (exists k: int, r: Row :: 0 <= k < |results| && r in results[k] && (r.userId, r.movieId) == pair)
        <==> (exists k, r :: 0 <= k < |batches| && r in ProcessBatch(batches[k], world, engine) && (r.userId, r.movieId) == pair)
  {
    var results := BatchResults(batches, world, engine);
    if exists k: int, r: Row :: 0 <= k < |results| && r in results[k] && (r.userId, r.movieId) == pair {
      var k: int, r: Row :| 0 <= k < |results| && r in results[k] && (r.userId, r.movieId) == pair;
      assert r in ProcessBatch(batches[k], world, engine);
    }
    if exists k, r :: 0 <= k < |batches| && r in ProcessBatch(batches[k], world, engine) && (r.userId, r.movieId) == pair {
      var k, r :| 0 <= k < |batches| && r in ProcessBatch(batches[k], world, engine) && (r.userId, r.movieId) == pair;
      assert r in results[k];
    }
  }

  /** The join of collected batch results: one row per test pair, carrying a probability exactly
      when some batch returned a row for the pair. */
  lemma {:induction false} JoinContainment(test: seq<(int, int)>, results: seq<seq<Row>>, order: seq<nat>, rate: (int, real) -> Float)
    requires IsOrder(order, |results|)
    requires UniqueKeys(Score(Collect(results, order), rate))
    ensures var rows := Merge(test, Score(Collect(results, order), rate));
      && |rows| == |test|
      && forall i :: 0 <= i < |test| ==>
        && (rows[i].userId, rows[i].movieId) == test[i]
        && (rows[i].probability.Some? <==>
              exists k: int, r: Row :: 0 <= k < |results| && r in results[k] && (r.userId, r.movieId) == test[i])
  {
    var collected := Collect(results, order);
    var scored := Score(collected, rate);
    MergeSpec(test, scored);
    var rows := Merge(test, scored);
    forall i | 0 <= i < |test|
      ensures rows[i].probability.Some? <==>
        exists k: int, r: Row :: 0 <= k < |results| && r in results[k] && (r.userId, r.movieId) == test[i]
    {
      if rows[i].probability.Some? {
        var x :| x in scored && (x.userId, x.movieId) == test[i];
        var n :| 0 <= n < |scored| && scored[n] == x;
        CollectMembers(results, order, collected[n]);
        var k :| 0 <= k < |results| && collected[n] in results[k];
      }
      if exists k: int, r: Row :: 0 <= k < |results| && r in results[k] && (r.userId, r.movieId) == test[i] {
        var k: int, r: Row :| 0 <= k < |results| && r in results[k] && (r.userId, r.movieId) == test[i];
        CollectMembers(results, order, r);
        var n :| 0 <= n < |collected| && collected[n] == r;
        assert scored[n] in scored;
      }
    }
  }

  /** With one result per pair under either completion order, the prediction does not depend on
      the order in which the batches finished. */
  lemma {:induction false} PredictOrderFree(test: seq<(int, int)>, world: string, batchSize: int, nJobs: int, cpuCount: nat,
                         engine: string -> Evaluation, order1: seq<nat>, order2: seq<nat>, rate: (int, real) -> Float)
    requires ValidOrder(test, batchSize, order1) && ValidOrder(test, batchSize, order2)
    requires batchSize > 0 ==>
      var results := BatchResults(Batches(QueryLines(test), batchSize), world, engine);
      UniqueKeys(Score(Collect(results, order1), rate)) && UniqueKeys(Score(Collect(results, order2), rate))
    ensures PredictRun(test, world, batchSize, nJobs, cpuCount, engine, order1, rate)
         == PredictRun(test, world, batchSize, nJobs, cpuCount, engine, order2, rate)
  {
    if batchSize > 0 {
      var results := BatchResults(Batches(QueryLines(test), batchSize), world, engine);
      var s1 := Score(Collect(results, order1), rate);
      var s2 := Score(Collect(results, order2), rate);
      assert |results| == |Batches(QueryLines(test), batchSize)|;
      forall x ensures x in s1 <==> x in s2 {
        if x in s1 {
          ScoredIn(results, order1, order2, rate, x);
        }
        if x in s2 {
          ScoredIn(results, order2, order1, rate, x);
        }
      }
      MergeOrderFree(test, s1, s2);
      assert s1 == [] <==> s2 == [] by {
        if s1 != [] {
          assert s1[0] in s2;
        }
        if s2 != [] {
          assert s2[0] in s1;
        }
      }
    }
  }

  /** The `rating` column exists exactly when some batch returned a row; without it every test
      pair's row lacks both a probability and a rating. */
  lemma {:induction false} PredictRatingColumn(test: seq<(int, int)>, world: string, batchSize: int, nJobs: int, cpuCount: nat,
                            engine: string -> Evaluation, order: seq<nat>, rate: (int, real) -> Float)
    requires ValidOrder(test, batchSize, order)
    requires PredictRun(test, world, batchSize, nJobs, cpuCount, engine, order, rate).Predicted?
    ensures var out := PredictRun(test, world, batchSize, nJobs, cpuCount, engine, order, rate);
      var batches := Batches(QueryLines(test), batchSize);
      && (out.hasRating <==> exists k, r :: 0 <= k < |batches| && r in ProcessBatch(batches[k], world, engine))
      && (!out.hasRating ==>
            |out.rows| == |test| && forall i :: 0 <= i < |test| ==> out.rows[i].probability.None? && out.rows[i].rating.None?)
  {
    var batches := Batches(QueryLines(test), batchSize);
    var results := BatchResults(batches, world, engine);
    var collected := Collect(results, order);
    assert PredictRun(test, world, batchSize, nJobs, cpuCount, engine, order, rate)
      == Predicted(Merge(test, Score(collected, rate)), collected != []);
    CollectedEmpty(test, results, order, rate);
    BatchesAnswered(batches, world, engine);
  }

  /** The collected rows are empty exactly when no batch result holds a row, and then the join
      leaves every test pair without values. */
  lemma {:induction false} CollectedEmpty(test: seq<(int, int)>, results: seq<seq<Row>>, order: seq<nat>, rate: (int, real) -> Float)
    requires IsOrder(order, |results|)
    ensures Collect(results, order) != [] <==> exists k, r :: 0 <= k < |results| && r in results[k]
    ensures Collect(results, order) == [] ==>
      var rows := Merge(test, Score(Collect(results, order), rate));
      |rows| == |test| && forall i :: 0 <= i < |test| ==> rows[i].probability.None? && rows[i].rating.None?
  {
    var collected := Collect(results, order);
    if collected != [] {
      CollectMembers(results, order, collected[0]);
    } else {
      forall k, r | 0 <= k < |results| && r in results[k] ensures false {
        CollectMembers(results, order, r);
      }
      MergeSpec(test, Score(collected, rate));
    }
  }

  /** Some batch result holds a row exactly when some batch's processing returned one. */
  lemma {:induction false} BatchesAnswered(batches: seq<seq<string>>, world: string, engine: string -> Evaluation)
    ensures var results := BatchResults(batches, world, engine);
      (exists k, r :: 0 <= k < |results| && r in results[k])
        <==> (exists k, r :: 0 <= k < |batches| && r in ProcessBatch(batches[k], world, engine))
  {
    var results := BatchResults(batches, world, engine);
    if exists k, r :: 0 <= k < |batches| && r in ProcessBatch(batches[k], world, engine) {
      var k, r :| 0 <= k < |batches| && r in ProcessBatch(batches[k], world, engine);
      assert r in results[k];
    }
  }

  /** A scored row under one completion order is also one under any other. */
  lemma {:induction false} ScoredIn(results: seq<seq<Row>>, order1: seq<nat>, order2: seq<nat>,
                                    rate: (int, real) -> Float, x: Scored)
    requires IsOrder(order1, |results|) && IsOrder(order2, |results|)
    requires x in Score(Collect(results, order1), rate)
    ensures x in Score(Collect(results, order2), rate)
  {
    var c1 := Collect(results, order1);
    var c2 := Collect(results, order2);
    var s1 := Score(c1, rate);
    var n :| 0 <= n < |s1| && s1[n] == x;
    CollectMembers(results, order1, c1[n]);
    CollectMembers(results, order2, c1[n]);
    var m :| 0 <= m < |c2| && c2[m] == c1[n];
    assert Score(c2, rate)[m] == x;
  }

  /** `predict` step by step: write and read back the queries, cut them into batches, gather the
      batch results as they complete, score them and join them onto the test pairs. */
  method Predict(test: seq<(int, int)>, world: string, batchSize: int, nJobs: int, cpuCount: nat,
                 engine: string -> Evaluation, order: seq<nat>, rate: (int, real) -> Float) returns (out: PredictOutcome)
    requires ValidOrder(test, batchSize, order)
    ensures out == PredictRun(test, world, batchSize, nJobs, cpuCount, engine, order, rate)
  {
    var written := WriteQueries(test);
    QueryFileRoundTrip(test);
    var queries := SplitLines(Lines(written));
    if batchSize == 0 {
      return Failed(ZeroBatchStep);
    }
    if Workers(nJobs, cpuCount) < 1 {
      return Failed(NoWorkers);
    }
    if batchSize < 0 || |queries| == 0 {
      return Failed(NothingToConcatenate);
    }
    var batches := Batches(queries, batchSize);
    var results := GatherResults(batches, world, engine, order);
    var prediction := Concat(results);
    var scored: seq<Scored> := [];
    if prediction != [] {
      scored := Score(prediction, rate);
    }
    out := Predicted(Merge(test, scored), prediction != []);
  }

  /** The batch results in the order the batches complete. */
  method GatherResults(batches: seq<seq<string>>, world: string, engine: string -> Evaluation, order: seq<nat>)
    returns (results: seq<seq<Row>>)
    requires IsOrder(order, |batches|)
    ensures results == seq(|order|, t requires 0 <= t < |order| => BatchResults(batches, world, engine)[order[t]])
  {
    ghost var all := BatchResults(batches, world, engine);
    ghost var target := seq(|order|, t requires 0 <= t < |order| => all[order[t]]);
    results := [];
    var j := 0;
    while j < |order|
      invariant 0 <= j <= |order|
      invariant results == target[..j]
    {
      var rows := BatchRows(batches[order[j]], world, engine);
      assert rows == target[j];
      results := results + [rows];
      assert target[..j + 1] == target[..j] + [target[j]];
      j := j + 1;
    }
    assert target[..j] == target;
  }

  /** One worker's job: evaluate a batch, containing any failure. */
  method BatchRows(batch: seq<string>, world: string, engine: string -> Evaluation) returns (rows: seq<Row>)
    ensures rows == ProcessBatch(batch, world, engine)
  {
    var answer := engine(world + Join("\n", batch));
    if answer.EngineFailure? {
      return [];
    }
    var parsed := ParseResult(answer.entries);
    if parsed.None? {
      return [];
    }
    return parsed.value;
  }
}
