/** Program generation of the rule-based recommender: the "world" file (six weighted
    `likes` rules, the users' `prefers` facts and the movies' genre facts) and the
    "preference" file (one confidence-weighted rule per mined pattern and head genre
    whose body was itself mined). Files are modelled as sequences of lines. */
module MlnRules {
  import opened Common
  import opened Text
  import opened MlnPreferences
  import opened MlnPatterns

  /** The weight of a one-genre movie's `likes` rule (`base_prob`). */
  const BaseProbability: real := 0.9

  /** The genre marker that gets a count but no `has_genre` fact. */
  const NoGenresListed: string := "(no genres listed)"

  /** The genre count a movie fact names: exactly `n`, or more than five. */
  datatype GenreCount = Exactly(n: nat) | MoreThanFive

  /** One line of a generated program file. Genres in facts are stored as written (lower-cased);
      a preference rule keeps its head and its body key as mined and lower-cases them when written. */
  datatype Line =
    | LikesRule(weight: real, count: GenreCount)
    | PrefersFact(userId: int, genre: string)
    | CountFact(movieId: int, count: GenreCount)
    | HasGenreFact(movieId: int, genre: string)
    | PreferenceRule(patternSupport: real, bodySupport: real, head: string, body: string)

  /** How the program text renders floats: Python's `repr` of a float and the `:.2f` rendering
      of a quotient (as numpy computes it, `inf`/`nan` when the divisor is zero). */
  datatype Format = Format(repr: real -> string, fixed2: (real, real) -> string)

  function Bucket(n: nat): (c: GenreCount)
    ensures n <= 5 ==> c == Exactly(n)
    ensures n > 5 ==> c == MoreThanFive
  {
    if n <= 5 then Exactly(n) else MoreThanFive
  }

  function CountName(c: GenreCount): string
  {
    match c
    case Exactly(n) => "has_" + NatToString(n) + "_genre"
    case MoreThanFive => "has_more_than_5_genre"
  }

  /** One body atom of a preference rule and its separator: `, ` after every token that
      differs from the body's last token. */
  function BodyText(toks: seq<string>, last: string): string
  {
    if toks == [] then ""
    else "prefers(u, " + Lower(toks[0]) + ")" + (if toks[0] != last then ", " else "") + BodyText(toks[1..], last)
  }

  function Atom(tok: string): string
  {
    "prefers(u, " + Lower(tok) + ")"
  }

  /** The text of one line, without its newline. */
  function Render(line: Line, fmt: Format): string
  {
    match line
    case LikesRule(w, c) => fmt.repr(w) + "::likes(U, M):- prefers(U, G), has_genre(M, G), " + CountName(c) + "(M)."
    case PrefersFact(u, g) => "prefers(user" + IntToString(u) + ", " + g + ")."
    case CountFact(m, c) => CountName(c) + "(movie" + IntToString(m) + ")."
    case HasGenreFact(m, g) => "has_genre(movie" + IntToString(m) + ", " + g + ")."
    case PreferenceRule(ps, bs, h, body) =>
      var toks := Split(body);
      fmt.fixed2(ps, bs) + "::prefers(u, " + Lower(h) + ") :-"
      + BodyText(toks, if toks == [] then "" else toks[|toks| - 1]) + "."
  }

  /** A file's text: every line followed by a newline. */
  function FileText(lines: seq<Line>, fmt: Format): string
  {
    Lines(seq(|lines|, i requires 0 <= i < |lines| => Render(lines[i], fmt)))
  }

  /** With distinct tokens the separators fall exactly between atoms. */
  lemma {:induction false} BodyTextJoin(toks: seq<string>, last: string)
    requires toks != [] && Distinct(toks) && toks[|toks| - 1] == last
    ensures BodyText(toks, last) == Join(", ", seq(|toks|, k requires 0 <= k < |toks| => Atom(toks[k])))
  {
    var atoms := seq(|toks|, k requires 0 <= k < |toks| => Atom(toks[k]));
    if |toks| == 1 {
      assert BodyText(toks[1..], last) == "";
    } else {
      assert toks[0] != last;
      var rest := toks[1..];
      assert Distinct(rest);
      BodyTextJoin(rest, last);
      assert atoms[1..] == seq(|rest|, k requires 0 <= k < |rest| => Atom(rest[k]));
    }
  }

  // ---------------------------------------------------------------------------
  // The world file

  /** The `likes` rules for movies with 1..n genres, weight `base_prob / i`. */
  function LikesRules(n: nat): seq<Line>
  {
    if n == 0 then [] else LikesRules(n - 1) + [LikesRule(BaseProbability / n as real, Exactly(n))]
  }

  /** The six `likes` rules that open the world file. */
  function WorldRules(): seq<Line>
  {
    LikesRules(5) + [LikesRule(BaseProbability / 6.0, MoreThanFive)]
  }

  /** The `prefers` facts of one transaction, genre by genre. */
  function FactsOf(t: Transaction): (ls: seq<Line>)
    ensures |ls| == |t.genres|
    ensures forall j :: 0 <= j < |ls| ==> ls[j] == PrefersFact(t.userId, Lower(t.genres[j]))
  {
    seq(|t.genres|, j requires 0 <= j < |t.genres| => PrefersFact(t.userId, Lower(t.genres[j])))
  }

  function PreferenceFacts(ts: seq<Transaction>): seq<Line>
  {
    if ts == [] then [] else PreferenceFacts(ts[..|ts| - 1]) + FactsOf(ts[|ts| - 1])
  }

  /** The number of (user, genre) entries of the transactions. */
  function GenreEntries(ts: seq<Transaction>): nat
  {
    if ts == [] then 0 else GenreEntries(ts[..|ts| - 1]) + |ts[|ts| - 1].genres|
  }

  /** One `prefers` fact per (user, genre) entry of the transactions. */
  lemma {:induction false} PreferenceFactsCount(ts: seq<Transaction>)
    ensures |PreferenceFacts(ts)| == GenreEntries(ts)
  {
    if ts != [] {
      PreferenceFactsCount(ts[..|ts| - 1]);
    }
  }

  /** The `has_genre` facts of one movie: every listed genre except the no-genre marker. */
  function GenreFacts(movieId: int, gs: seq<string>): seq<Line>
  {
    if gs == [] then []
    else
      var g := gs[|gs| - 1];
      GenreFacts(movieId, gs[..|gs| - 1]) + (if g == NoGenresListed then [] else [HasGenreFact(movieId, Lower(g))])
  }

  /** A movie's facts: its count fact, then its genre facts. */
  function MovieLines(m: Movie): seq<Line>
  {
    [CountFact(m.movieId, Bucket(|m.genres|))] + GenreFacts(m.movieId, m.genres)
  }

  function MovieFacts(movies: seq<Movie>): seq<Line>
  {
    if movies == [] then [] else MovieFacts(movies[..|movies| - 1]) + MovieLines(movies[|movies| - 1])
  }

  /** The world file `generate_logic_rules` writes. */
  function World(ts: seq<Transaction>, movies: seq<Movie>): seq<Line>
  {
    WorldRules() + PreferenceFacts(ts) + MovieFacts(movies)
  }

  /** The world file opens with six `likes` rules: weight `0.9/i` for exactly i = 1..5 genres and
      `0.9/6` for more than five, so the weights strictly decrease. */
  lemma {:induction false} WorldRulesSpec()
    ensures |WorldRules()| == 6
    ensures forall i :: 0 <= i < 5 ==> WorldRules()[i] == LikesRule(0.9 / (i + 1) as real, Exactly(i + 1))
    ensures WorldRules()[5] == LikesRule(0.9 / 6.0, MoreThanFive)
    ensures forall i, j :: 0 <= i < j < 6 ==> WorldRules()[i].weight > WorldRules()[j].weight
  {
    var w := WorldRules();
    assert w == [LikesRule(0.9 / 1.0, Exactly(1)), LikesRule(0.9 / 2.0, Exactly(2)), LikesRule(0.9 / 3.0, Exactly(3)),
                 LikesRule(0.9 / 4.0, Exactly(4)), LikesRule(0.9 / 5.0, Exactly(5)), LikesRule(0.9 / 6.0, MoreThanFive)];
  }

  /** A `prefers` fact exists exactly when its (user, genre) is an entry of the transactions, and
      every line is such a fact. */
  lemma {:induction false} PreferenceFactsSpec(ts: seq<Transaction>)
    ensures forall l :: l in PreferenceFacts(ts) ==> l.PrefersFact?
    ensures forall u, g :: PrefersFact(u, g) in PreferenceFacts(ts) <==>
      exists i, j :: 0 <= i < |ts| && 0 <= j < |ts[i].genres| && ts[i].userId == u && Lower(ts[i].genres[j]) == g
  {
    if ts != [] {
      var init := ts[..|ts| - 1];
      var last := ts[|ts| - 1];
      PreferenceFactsSpec(init);
      forall u, g ensures PrefersFact(u, g) in PreferenceFacts(ts) <==>
        exists i, j :: 0 <= i < |ts| && 0 <= j < |ts[i].genres| && ts[i].userId == u && Lower(ts[i].genres[j]) == g
      {
        if PrefersFact(u, g) in PreferenceFacts(init) {
          var i, j :| 0 <= i < |init| && 0 <= j < |init[i].genres| && init[i].userId == u && Lower(init[i].genres[j]) == g;
          assert ts[i] == init[i];
        } else if PrefersFact(u, g) in FactsOf(last) {
          var j :| 0 <= j < |last.genres| && FactsOf(last)[j] == PrefersFact(u, g);
          assert ts[|ts| - 1] == last;
        }
        if exists i, j :: 0 <= i < |ts| && 0 <= j < |ts[i].genres| && ts[i].userId == u && Lower(ts[i].genres[j]) == g {
          var i, j :| 0 <= i < |ts| && 0 <= j < |ts[i].genres| && ts[i].userId == u && Lower(ts[i].genres[j]) == g;
          if i < |ts| - 1 {
            assert init[i] == ts[i];
          } else {
            assert FactsOf(last)[j] == PrefersFact(u, g);
          }
        }
      }
    }
  }

  lemma {:induction false} GenreFactsSpec(movieId: int, gs: seq<string>)
    ensures forall l :: l in GenreFacts(movieId, gs) ==> l.HasGenreFact? && l.movieId == movieId
    ensures forall g :: HasGenreFact(movieId, g) in GenreFacts(movieId, gs) <==>
      exists j :: 0 <= j < |gs| && gs[j] != NoGenresListed && Lower(gs[j]) == g
  {
    if gs != [] {
      var init := gs[..|gs| - 1];
      GenreFactsSpec(movieId, init);
      forall g ensures HasGenreFact(movieId, g) in GenreFacts(movieId, gs) <==>
        exists j :: 0 <= j < |gs| && gs[j] != NoGenresListed && Lower(gs[j]) == g
      {
        if HasGenreFact(movieId, g) in GenreFacts(movieId, init) {
          var j :| 0 <= j < |init| && init[j] != NoGenresListed && Lower(init[j]) == g;
          assert gs[j] == init[j];
        }
        if exists j :: 0 <= j < |gs| && gs[j] != NoGenresListed && Lower(gs[j]) == g {
          var j :| 0 <= j < |gs| && gs[j] != NoGenresListed && Lower(gs[j]) == g;
          if j < |gs| - 1 {
            assert init[j] == gs[j];
          }
        }
      }
    }
  }

  /** The number of count facts for movie `id` among `lines`. */
  function CountFacts(lines: seq<Line>, id: int): nat
  {
    if lines == [] then 0
    else CountFacts(lines[..|lines| - 1], id) + (if lines[|lines| - 1].CountFact? && lines[|lines| - 1].movieId == id then 1 else 0)
  }

  lemma {:induction false} CountFactsAppend(a: seq<Line>, b: seq<Line>, id: int)
    ensures CountFacts(a + b, id) == CountFacts(a, id) + CountFacts(b, id)
  {
    if b != [] {
      CountFactsAppend(a, b[..|b| - 1], id);
      assert (a + b)[..|a + b| - 1] == a + b[..|b| - 1];
    } else {
      assert a + b == a;
    }
  }

  lemma {:induction false} CountFactsOfGenreFacts(movieId: int, gs: seq<string>, id: int)
    ensures CountFacts(GenreFacts(movieId, gs), id) == 0
  {
    if gs != [] {
      CountFactsOfGenreFacts(movieId, gs[..|gs| - 1], id);
      var tail := if gs[|gs| - 1] == NoGenresListed then [] else [HasGenreFact(movieId, Lower(gs[|gs| - 1]))];
      CountFactsAppend(GenreFacts(movieId, gs[..|gs| - 1]), tail, id);
      assert CountFacts(tail, id) == 0 by {
        if tail != [] {
          assert tail[..0] == [];
        }
      }
    }
  }

  /** Each movie of the table gets exactly one count fact, naming its genre count (the no-genre
      marker included) or `more_than_5`; and a `has_genre` fact for each listed genre except the marker. */
  lemma {:induction false} MovieFactsSpec(movies: seq<Movie>, i: nat)
    requires i < |movies|
    requires forall a, b :: 0 <= a < b < |movies| ==> movies[a].movieId != movies[b].movieId
    ensures CountFacts(MovieFacts(movies), movies[i].movieId) == 1
    ensures CountFact(movies[i].movieId, Bucket(|movies[i].genres|)) in MovieFacts(movies)
    ensures forall g :: HasGenreFact(movies[i].movieId, g) in MovieFacts(movies) <==>
      exists j :: 0 <= j < |movies[i].genres| && movies[i].genres[j] != NoGenresListed && Lower(movies[i].genres[j]) == g
  {
    var init := movies[..|movies| - 1];
    var last := movies[|movies| - 1];
    var id := movies[i].movieId;
    CountFactsAppend(MovieFacts(init), MovieLines(last), id);
    CountFactsAppend([CountFact(last.movieId, Bucket(|last.genres|))], GenreFacts(last.movieId, last.genres), id);
    CountFactsOfGenreFacts(last.movieId, last.genres, id);
    assert [CountFact(last.movieId, Bucket(|last.genres|))][..0] == [];
    GenreFactsSpec(last.movieId, last.genres);
    if i < |movies| - 1 {
      MovieFactsSpec(init, i);
      assert init[i] == movies[i];
      assert last.movieId != id;
      forall g ensures HasGenreFact(id, g) !in MovieLines(last) {
        if HasGenreFact(id, g) in GenreFacts(last.movieId, last.genres) {
          assert false;
        }
      }
    } else {
      MovieFactsAbsent(init, id);
      forall g ensures HasGenreFact(id, g) !in MovieFacts(init) {
        MovieFactsAbsent(init, id);
      }
    }
  }

  /** A movie id that is not in the table gets no facts at all. */
  lemma {:induction false} MovieFactsAbsent(movies: seq<Movie>, id: int)
    requires forall a :: 0 <= a < |movies| ==> movies[a].movieId != id
    ensures CountFacts(MovieFacts(movies), id) == 0
    ensures forall g :: HasGenreFact(id, g) !in MovieFacts(movies)
  {
    if movies != [] {
      var init := movies[..|movies| - 1];
      var last := movies[|movies| - 1];
      MovieFactsAbsent(init, id);
      CountFactsAppend(MovieFacts(init), MovieLines(last), id);
      CountFactsAppend([CountFact(last.movieId, Bucket(|last.genres|))], GenreFacts(last.movieId, last.genres), id);
      CountFactsOfGenreFacts(last.movieId, last.genres, id);
      assert [CountFact(last.movieId, Bucket(|last.genres|))][..0] == [];
      GenreFactsSpec(last.movieId, last.genres);
    }
  }

  // ---------------------------------------------------------------------------
  // The preference file: association rules from the mined patterns

  /** The canonical key of the pattern without its `i`-th token. */
  function BodyKey(items: seq<string>, i: nat): string
    requires i < |items|
  {
    Join(" ", SortStrings(items[..i] + items[i + 1..]))
  }

  /** The rule for head `items[i]`: the body's key and its support from the dictionary. */
  function IntendedRule(items: seq<string>, i: nat, support: real, dict: map<string, real>): Line
    requires i < |items| && BodyKey(items, i) in dict
  {
    var body := BodyKey(items, i);
    PreferenceRule(support, dict[body], items[i], body)
  }

  /** The rule for head `items[i]`, if its body was mined. */
  function RuleFor(items: seq<string>, i: nat, support: real, dict: map<string, real>): seq<Line>
    requires i < |items|
  {
    if BodyKey(items, i) !in dict then [] else [IntendedRule(items, i, support, dict)]
  }

  function RulesForHeads(items: seq<string>, support: real, dict: map<string, real>, n: nat): seq<Line>
    requires n <= |items|
  {
    if n == 0 then [] else RulesForHeads(items, support, dict, n - 1) + RuleFor(items, n - 1, support, dict)
  }

  /** The rules one pattern yields (intended behaviour: inside the per-pattern loop). */
  function RulesForPattern(row: PatternRow, dict: map<string, real>): seq<Line>
  {
    var items := Split(row.pattern);
    if |items| < 2 then [] else RulesForHeads(items, row.support, dict, |items|)
  }

  /** The preference file: the rules of every pattern, in table order. */
  function PreferenceProgram(rows: seq<PatternRow>, dict: map<string, real>): seq<Line>
  {
    if rows == [] then [] else PreferenceProgram(rows[..|rows| - 1], dict) + RulesForPattern(rows[|rows| - 1], dict)
  }

  /** A rule's body, read back as tokens, lists the pattern's other tokens in sorted order. */
  lemma {:induction false} IntendedRuleBody(items: seq<string>, i: nat, support: real, dict: map<string, real>)
    requires i < |items| && IsTokens(items) && BodyKey(items, i) in dict
    ensures Split(IntendedRule(items, i, support, dict).body) == SortStrings(items[..i] + items[i + 1..])
  {
    var rest := items[..i] + items[i + 1..];
    assert IsTokens(rest) by {
      forall k | 0 <= k < |rest| ensures rest[k] != [] && NoSpace(rest[k]) {
        if k < i { assert rest[k] == items[k]; } else { assert rest[k] == items[k + 1]; }
      }
    }
    SortedTokens(rest);
    SplitJoin(SortStrings(rest));
  }

  /** Every rule of a pattern comes from one of its heads whose body was mined ... */
  lemma {:induction false} RulesForHeadsSound(items: seq<string>, support: real, dict: map<string, real>, n: nat, l: Line)
    requires n <= |items|
    requires l in RulesForHeads(items, support, dict, n)
    ensures exists i :: 0 <= i < n && BodyKey(items, i) in dict && l == IntendedRule(items, i, support, dict)
  {
    var prev := RulesForHeads(items, support, dict, n - 1);
    var here := RuleFor(items, n - 1, support, dict);
    assert RulesForHeads(items, support, dict, n) == prev + here;
    if l in prev {
      RulesForHeadsSound(items, support, dict, n - 1, l);
      var i :| 0 <= i < n - 1 && BodyKey(items, i) in dict && l == IntendedRule(items, i, support, dict);
      assert 0 <= i < n;
    } else {
      assert l in here;
      assert BodyKey(items, n - 1) in dict;
    }
  }

  /** ... and every head whose body was mined yields its rule. */
  lemma {:induction false} RulesForHeadsComplete(items: seq<string>, support: real, dict: map<string, real>, n: nat, i: nat)
    requires i < n <= |items|
    requires BodyKey(items, i) in dict
    ensures IntendedRule(items, i, support, dict) in RulesForHeads(items, support, dict, n)
  {
    var prev := RulesForHeads(items, support, dict, n - 1);
    var here := RuleFor(items, n - 1, support, dict);
    assert RulesForHeads(items, support, dict, n) == prev + here;
    if i < n - 1 {
      RulesForHeadsComplete(items, support, dict, n - 1, i);
    }
  }

  /** A pattern of fewer than two genres yields no rule; otherwise each head whose body was
      mined yields exactly the rule with confidence support(pattern)/support(body). */
  lemma {:induction false} RulesForPatternSpec(row: PatternRow, dict: map<string, real>)
    ensures |Split(row.pattern)| < 2 ==> RulesForPattern(row, dict) == []
    ensures var items := Split(row.pattern);
      forall l :: l in RulesForPattern(row, dict) <==>
        (|items| >= 2 && exists i :: 0 <= i < |items| && BodyKey(items, i) in dict && l == IntendedRule(items, i, row.support, dict))
  {
    var items := Split(row.pattern);
    if |items| >= 2 {
      forall l ensures l in RulesForPattern(row, dict) <==>
        exists i :: 0 <= i < |items| && BodyKey(items, i) in dict && l == IntendedRule(items, i, row.support, dict)
      {
        if l in RulesForPattern(row, dict) {
          RulesForHeadsSound(items, row.support, dict, |items|, l);
        }
        if exists i :: 0 <= i < |items| && BodyKey(items, i) in dict && l == IntendedRule(items, i, row.support, dict) {
          var i :| 0 <= i < |items| && BodyKey(items, i) in dict && l == IntendedRule(items, i, row.support, dict);
          RulesForHeadsComplete(items, row.support, dict, |items|, i);
        }
      }
    }
  }

  /** The preference file holds exactly the rules of the table's patterns. */
  lemma {:induction false} PreferenceProgramSpec(rows: seq<PatternRow>, dict: map<string, real>)
    ensures forall l :: l in PreferenceProgram(rows, dict) <==>
      exists r :: 0 <= r < |rows| && l in RulesForPattern(rows[r], dict)
  {
    if rows != [] {
      var init := rows[..|rows| - 1];
      PreferenceProgramSpec(init, dict);
      assert PreferenceProgram(rows, dict) == PreferenceProgram(init, dict) + RulesForPattern(rows[|rows| - 1], dict);
      forall l ensures l in PreferenceProgram(rows, dict) <==> exists r :: 0 <= r < |rows| && l in RulesForPattern(rows[r], dict) {
        if l in PreferenceProgram(init, dict) {
          var r :| 0 <= r < |init| && l in RulesForPattern(init[r], dict);
          assert rows[r] == init[r];
        }
        if exists r :: 0 <= r < |rows| && l in RulesForPattern(rows[r], dict) {
          var r :| 0 <= r < |rows| && l in RulesForPattern(rows[r], dict);
          if r < |rows| - 1 {
            assert init[r] == rows[r];
          }
        }
      }
    }
  }

  /** The text of a rule whose body tokens are distinct: the two-decimal confidence, the lower-cased
      head, and the lower-cased body atoms joined by `, `. */
  lemma {:induction false} RuleText(ps: real, bs: real, head: string, body: string, fmt: Format)
    requires Split(body) != [] && Distinct(Split(body))
    ensures var toks := Split(body);
      Render(PreferenceRule(ps, bs, head, body), fmt)
      == fmt.fixed2(ps, bs) + "::prefers(u, " + Lower(head) + ") :-"
         + Join(", ", seq(|toks|, k requires 0 <= k < |toks| => Atom(toks[k]))) + "."
  {
    var toks := Split(body);
    BodyTextJoin(toks, toks[|toks| - 1]);
  }

  // ---------------------------------------------------------------------------
  // Emitting the files line by line

  /** The world file, written rule by rule and fact by fact. */
  method WriteWorld(ts: seq<Transaction>, movies: seq<Movie>) returns (lines: seq<Line>)
    ensures lines == World(ts, movies)
  {
    lines := [];
    var i := 1;
    while i < 6
      invariant 1 <= i <= 6
      invariant lines == LikesRules(i - 1)
    {
      lines := lines + [LikesRule(BaseProbability / i as real, Exactly(i))];
      i := i + 1;
    }
    lines := lines + [LikesRule(BaseProbability / 6.0, MoreThanFive)];
    lines := WritePreferenceFacts(lines, ts);
    lines := WriteMovieFacts(lines, movies);
  }

  /** Appends one `prefers` fact per (user, genre) of the transactions. */
  method WritePreferenceFacts(start: seq<Line>, ts: seq<Transaction>) returns (lines: seq<Line>)
    ensures lines == start + PreferenceFacts(ts)
  {
    lines := start;
    var u := 0;
    while u < |ts|
      invariant 0 <= u <= |ts|
      invariant lines == start + PreferenceFacts(ts[..u])
    {
      lines := WriteUserFacts(lines, ts[u]);
      assert ts[..u + 1][..u] == ts[..u];
      u := u + 1;
    }
    assert ts[..u] == ts;
  }

  /** Appends one user's `prefers` facts, one per genre in order. */
  method WriteUserFacts(start: seq<Line>, t: Transaction) returns (lines: seq<Line>)
    ensures lines == start + FactsOf(t)
  {
    lines := start;
    var j := 0;
    while j < |t.genres|
      invariant 0 <= j <= |t.genres|
      invariant lines == start + FactsOf(t)[..j]
    {
      lines := lines + [PrefersFact(t.userId, Lower(t.genres[j]))];
      assert FactsOf(t)[..j + 1] == FactsOf(t)[..j] + [FactsOf(t)[j]];
      j := j + 1;
    }
    assert FactsOf(t)[..j] == FactsOf(t);
  }

  /** Appends each movie's count fact and its genre facts. */
  method WriteMovieFacts(start: seq<Line>, movies: seq<Movie>) returns (lines: seq<Line>)
    ensures lines == start + MovieFacts(movies)
  {
    lines := start;
    var m := 0;
    while m < |movies|
      invariant 0 <= m <= |movies|
      invariant lines == start + MovieFacts(movies[..m])
    {
      lines := WriteMovieLines(lines, movies[m]);
      assert movies[..m + 1][..m] == movies[..m];
      m := m + 1;
    }
    assert movies[..m] == movies;
  }

  /** Appends one movie's count fact, then a genre fact per listed genre. */
  method WriteMovieLines(start: seq<Line>, movie: Movie) returns (lines: seq<Line>)
    ensures lines == start + MovieLines(movie)
  {
    if |movie.genres| <= 5 {
      lines := start + [CountFact(movie.movieId, Exactly(|movie.genres|))];
    } else {
      lines := start + [CountFact(movie.movieId, MoreThanFive)];
    }
    var j := 0;
    while j < |movie.genres|
      invariant 0 <= j <= |movie.genres|
      invariant lines == start + [CountFact(movie.movieId, Bucket(|movie.genres|))] + GenreFacts(movie.movieId, movie.genres[..j])
    {
      var g := movie.genres[j];
      assert movie.genres[..j + 1][..j] == movie.genres[..j];
      if g != NoGenresListed {
        lines := lines + [HasGenreFact(movie.movieId, Lower(g))];
      }
      j := j + 1;
    }
    assert movie.genres[..j] == movie.genres;
  }

  /** The preference file as intended: for every pattern of two or more genres and every head,
      the rule whose body was mined. */
  method WritePreferenceRules(rows: seq<PatternRow>, dict: map<string, real>) returns (lines: seq<Line>)
    ensures lines == PreferenceProgram(rows, dict)
  {
    lines := [];
    var r := 0;
    while r < |rows|
      invariant 0 <= r <= |rows|
      invariant lines == PreferenceProgram(rows[..r], dict)
    {
      var row := rows[r];
      assert rows[..r + 1][..r] == rows[..r];
      var items := Split(row.pattern);
      if |items| >= 2 {
        lines := WriteHeads(lines, items, row.support, dict);
      }
      r := r + 1;
    }
    assert rows[..r] == rows;
  }

  /** Appends the rule of every head of one pattern whose body is a mined pattern. */
  method WriteHeads(start: seq<Line>, items: seq<string>, support: real, dict: map<string, real>) returns (lines: seq<Line>)
    ensures lines == start + RulesForHeads(items, support, dict, |items|)
  {
    lines := start;
    var i := 0;
    while i < |items|
      invariant 0 <= i <= |items|
      invariant lines == start + RulesForHeads(items, support, dict, i)
    {
      var rule := WriteHead(items, i, support, dict);
      lines := lines + rule;
      i := i + 1;
    }
  }

  /** The rule of head `items[i]`, if its body is a mined pattern. */
  method WriteHead(items: seq<string>, i: nat, support: real, dict: map<string, real>) returns (rule: seq<Line>)
    requires i < |items|
    ensures rule == RuleFor(items, i, support, dict)
  {
    var body := BodyKey(items, i);
    if body in dict {
      rule := [PreferenceRule(support, dict[body], items[i], body)];
    } else {
      rule := [];
    }
  }

  // ---------------------------------------------------------------------------
  // The preference file as the code is indented

  /** The errors the as-written emission can raise: a write to the closed file, or the loop
      variable read when the pattern table is empty. */
  datatype EmitError = WriteToClosedFile | UnboundItems

  datatype Emitted = Written(lines: seq<Line>) | Raised(error: EmitError)

  /** Whether some head of `items`, among the first `n`, has a mined body. */
  predicate SomeBodyMined(items: seq<string>, dict: map<string, real>, n: nat)
    requires n <= |items|
  {
    exists i :: 0 <= i < n && BodyKey(items, i) in dict
  }

  /** The preference file as the code is written: the head loop sits outside the `with` block,
      so it runs once, after the file was closed, over the last pattern's tokens (whatever their
      number), and its first write raises. An empty table leaves the loop variable unbound. */
  method WritePreferenceRulesAsWritten(rows: seq<PatternRow>, dict: map<string, real>) returns (out: Emitted)
    ensures out == PreferenceAsWritten(rows, dict)
  {
    if |rows| == 0 {
      return Raised(UnboundItems);
    }
    var items: seq<string> := [];
    var r := 0;
    while r < |rows|
      invariant 0 <= r <= |rows|
      invariant r > 0 ==> items == Split(rows[r - 1].pattern)
    {
      items := Split(rows[r].pattern);
      r := r + 1;
    }
    var mined := ScanHeads(items, dict);
    if mined {
      return Raised(WriteToClosedFile);
    }
    return Written([]);
  }

  /** The head loop of the as-written emission: whether it reaches a write, that is, whether some
      head's body is a mined pattern. */
  method ScanHeads(items: seq<string>, dict: map<string, real>) returns (mined: bool)
    ensures mined == SomeBodyMined(items, dict, |items|)
  {
    var i := 0;
    while i < |items|
      invariant 0 <= i <= |items|
      invariant !SomeBodyMined(items, dict, i)
    {
      if BodyKey(items, i) in dict {
        return true;
      }
      i := i + 1;
    }
    return false;
  }

  /** What the as-written emission yields: an unbound-variable error on an empty table, a write
      error when a head of the last pattern has a mined body, and otherwise an empty file. */
  function PreferenceAsWritten(rows: seq<PatternRow>, dict: map<string, real>): (out: Emitted)
    ensures out.Written? ==> out.lines == []
    ensures rows == [] <==> out == Raised(UnboundItems)
  {
    if rows == [] then Raised(UnboundItems)
    else
      var items := Split(rows[|rows| - 1].pattern);
      if SomeBodyMined(items, dict, |items|) then Raised(WriteToClosedFile) else Written([])
  }

  /** A table of two mined patterns, `a` alone and `a b` (already in canonical order). */
  function PairRows(a: string, b: string, sa: real, sab: real): seq<PatternRow>
  {
    [PatternRow(a, sa), PatternRow(a + " " + b, sab)]
  }

  lemma {:induction false} PairDict(a: string, b: string, sa: real, sab: real)
    requires a != a + " " + b
    ensures PatternDict(PairRows(a, b, sa, sab)) == map[a := sa, a + " " + b := sab]
  {
    var rows := PairRows(a, b, sa, sab);
    assert rows[..1] == [rows[0]];
    assert [rows[0]][..0] == [];
    assert PatternDict(rows[..1]) == map[a := sa];
  }

  lemma {:induction false} PairTokens(a: string, b: string)
    requires IsTokens([a, b])
    ensures Split(a) == [a]
    ensures Split(a + " " + b) == [a, b]
  {
    var two := [a, b];
    assert two[0] == a && [a][0] == a;
    assert IsTokens([a]);
    SplitJoin([a]);
    assert two[1..] == [b];
    assert Join(" ", two) == a + " " + b;
    SplitJoin(two);
  }

  lemma {:induction false} PairBodies(a: string, b: string)
    ensures BodyKey([a, b], 0) == b
    ensures BodyKey([a, b], 1) == a
  {
    var two := [a, b];
    assert two[..1] + two[2..] == [a];
    assert two[..0] + two[1..] == [b];
    assert [a][1..] == [];
    assert [b][1..] == [];
    assert SortStrings([a]) == [a];
    assert SortStrings([b]) == [b];
  }

  /** With `a` and `a b` both mined, the as-written emission raises: the last pattern's head `b`
      has the mined body `a` (for instance a = "Comedy", b = "Romance"). */
  lemma {:induction false} DedentCounterexample(a: string, b: string, sa: real, sab: real)
    requires IsTokens([a, b]) && a != b
    ensures PreferenceAsWritten(PairRows(a, b, sa, sab), PatternDict(PairRows(a, b, sa, sab))) == Raised(WriteToClosedFile)
  {
    var rows := PairRows(a, b, sa, sab);
    var dict := PatternDict(rows);
    assert |a| < |a + " " + b|;
    PairDict(a, b, sa, sab);
    PairTokens(a, b);
    PairBodies(a, b);
    assert SomeBodyMined([a, b], dict, 2) by {
      assert BodyKey([a, b], 1) in dict;
    }
  }

  lemma {:induction false} PairRules(a: string, b: string, sa: real, sab: real, dict: map<string, real>)
    requires IsTokens([a, b]) && a != b
    requires dict == map[a := sa, a + " " + b := sab]
    ensures RulesForPattern(PatternRow(a, sa), dict) == []
    ensures RulesForPattern(PatternRow(a + " " + b, sab), dict) == [PreferenceRule(sab, sa, b, a)]
  {
    assert b !in dict by {
      assert |b| < |a + " " + b|;
    }
    PairTokens(a, b);
    PairHeads(a, b, sab, dict);
    assert RulesForPattern(PatternRow(a + " " + b, sab), dict) == RulesForHeads([a, b], sab, dict, 2);
  }

  /** Of the heads of `a b`, `a` has the unmined body `b` and `b` has the mined body `a`. */
  lemma {:induction false} PairHeads(a: string, b: string, sab: real, dict: map<string, real>)
    requires a in dict && b !in dict
    ensures RulesForHeads([a, b], sab, dict, 2) == [PreferenceRule(sab, dict[a], b, a)]
  {
    PairBodies(a, b);
    assert RuleFor([a, b], 0, sab, dict) == [];
    assert RulesForHeads([a, b], sab, dict, 1) == [];
    assert RuleFor([a, b], 1, sab, dict) == [PreferenceRule(sab, dict[a], b, a)];
  }

  /** On the same table the intended emission writes exactly the rule `b <- a`, with confidence
      support(a b) / support(a). */
  lemma {:induction false} DedentCorrected(a: string, b: string, sa: real, sab: real)
    requires IsTokens([a, b]) && a != b
    ensures PreferenceProgram(PairRows(a, b, sa, sab), PatternDict(PairRows(a, b, sa, sab)))
      == [PreferenceRule(sab, sa, b, a)]
  {
    var rows := PairRows(a, b, sa, sab);
    var dict := PatternDict(rows);
    assert |a| < |a + " " + b|;
    PairDict(a, b, sa, sab);
    PairRules(a, b, sa, sab, dict);
    assert rows[..1] == [rows[0]];
    assert [rows[0]][..0] == [];
    assert PreferenceProgram(rows[..1], dict) == [];
  }
}
