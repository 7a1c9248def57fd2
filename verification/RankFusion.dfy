/**
  Reciprocal rank fusion of a lexical and a dense result list, from the retrievers' hits to the
  reply. Scores are exact reals, rounded to six decimals where they are reported.
*/
module RankFusion {
  import opened Errors
  import opened Sorting

  type Doc = string

  type Rank = n: int | n > 0 witness 1

  /** Document ids to 1-based ranks; for a repeated id the last position wins. */
  function Ranks(ids: seq<Doc>): map<Doc, Rank> {
    if ids == [] then map[] else Ranks(ids[..|ids| - 1])[ids[|ids| - 1] := |ids|]
  }

  function Recip(n: Rank): real {
    1.0 / n as real
  }

  /** What one list contributes to a document's score. */
  function Share(ranks: map<Doc, Rank>, k: nat, d: Doc): real {
    if d in ranks then Recip(k + ranks[d]) else 0.0
  }

  function Score(lexical: map<Doc, Rank>, dense: map<Doc, Rank>, k: nat, d: Doc): real {
    Share(lexical, k, d) + Share(dense, k, d)
  }

  function RankOf(ranks: map<Doc, Rank>, d: Doc): Option<Rank> {
    if d in ranks then Some(ranks[d]) else None
  }

  datatype Scored = Scored(id: Doc, score: real)

  /** A hit of either retriever: its id and its source or payload text, None if absent or empty. */
  datatype Hit = Hit(id: Doc, body: Option<string>)

  datatype Result = Result(
    id: Doc, rrfScore: real, lexicalRank: Option<Rank>, denseRank: Option<Rank>, source: string)

  datatype Reply = Reply(query: string, results: seq<Result>, fusedFrom: nat)

  const NO_SOURCE := "{}"

  function IdsOf(hits: seq<Hit>): seq<Doc> {
    if hits == [] then [] else IdsOf(hits[..|hits| - 1]) + [hits[|hits| - 1].id]
  }

  /** Hits by id; for a repeated id the last one wins. */
  function ById(hits: seq<Hit>): map<Doc, Hit> {
    if hits == [] then map[] else ById(hits[..|hits| - 1])[hits[|hits| - 1].id := hits[|hits| - 1]]
  }

  /** The text shown for a document: the lexical one if there is any, else the dense one. */
  function SourceOf(lexical: map<Doc, Hit>, dense: map<Doc, Hit>, d: Doc): string {
    if d in lexical && lexical[d].body.Some? then lexical[d].body.value
    else if d in dense && dense[d].body.Some? then dense[d].body.value
    else NO_SOURCE
  }

  /** The nearest integer, ties to even. */
  function RoundEven(x: real): int {
    var rest := x - x.Floor as real;
    if rest < 0.5 || (rest == 0.5 && x.Floor % 2 == 0) then x.Floor else x.Floor + 1
  }

  function Round6(x: real): real {
    RoundEven(x * 1000000.0) as real / 1000000.0
  }

  lemma RoundEvenFacts(x: real, y: real)
    ensures -0.5 <= RoundEven(x) as real - x <= 0.5
    ensures x <= y ==> RoundEven(x) <= RoundEven(y)
  {
  }

  /** Rounding moves a score by at most half a unit of the sixth decimal and keeps the order. */
  lemma RoundFacts(x: real, y: real)
    ensures -0.0000005 <= Round6(x) - x <= 0.0000005
    ensures x <= y ==> Round6(x) <= Round6(y)
  {
    RoundEvenFacts(x * 1000000.0, y * 1000000.0);
  }

  /** Whole numbers stay, and what lies half way between two goes to the even one. */
  lemma TiesGoToEven(n: int)
    ensures RoundEven(n as real) == n
    ensures RoundEven(n as real + 0.5) % 2 == 0
  {
    assert (n as real + 0.5).Floor == n;
  }

  ghost predicate Descending(s: seq<Scored>) {
    forall i, j :: 0 <= i < j < |s| ==> s[i].score >= s[j].score
  }

  function Ids(s: seq<Scored>): set<Doc> {
    set i | 0 <= i < |s| :: s[i].id
  }

  /** Each of the documents, and by the count none of them twice. */
  ghost predicate Covers(s: seq<Scored>, docs: set<Doc>) {
    Ids(s) == docs && |s| == |docs|
  }

  /** The best `topK` documents by `score`, best first. */
  ghost predicate Best(score: Doc -> real, docs: set<Doc>, topK: nat, ranked: seq<Scored>) {
    && |ranked| == (if |docs| < topK then |docs| else topK)
    && (forall i, j :: 0 <= i < j < |ranked| ==> ranked[i].id != ranked[j].id)
    && Ids(ranked) <= docs && Descending(ranked)
    && ScoredBy(score, ranked)
    && (forall d, i :: d in docs - Ids(ranked) && 0 <= i < |ranked| ==> score(d) <= ranked[i].score)
  }

  /** What a result says of a ranked document, apart from its reported score and its text. */
  predicate Reports(lexical: map<Doc, Rank>, dense: map<Doc, Rank>, x: Scored, r: Result) {
    r.id == x.id && r.lexicalRank == RankOf(lexical, x.id) && r.denseRank == RankOf(dense, x.id)
  }

  /** The results are the best `topK` documents of the union, by exact score. */
  ghost predicate TopOf(lexical: map<Doc, Rank>, dense: map<Doc, Rank>, k: nat, topK: nat, results: seq<Result>) {
    exists ranked ::
      && Best(d => Score(lexical, dense, k, d), lexical.Keys + dense.Keys, topK, ranked)
      && |results| == |ranked|
      && forall i :: 0 <= i < |ranked| ==> Reports(lexical, dense, ranked[i], results[i])
  }

  lemma {:induction false} RanksOf(ids: seq<Doc>)
    ensures forall d :: d in Ranks(ids) <==> d in ids
    ensures forall d :: d in Ranks(ids) ==> Ranks(ids)[d] <= |ids| && ids[Ranks(ids)[d] - 1] == d
    ensures forall d, j :: d in Ranks(ids) && Ranks(ids)[d] <= j < |ids| ==> ids[j] != d
  {
    if ids != [] {
      RanksOf(ids[..|ids| - 1]);
      assert ids == ids[..|ids| - 1] + [ids[|ids| - 1]];
    }
  }

  lemma LastRank(ids: seq<Doc>, d: Doc)
    ensures Ranks(ids + [d]) == Ranks(ids)[d := |ids| + 1]
  {
  }

  lemma {:induction false} IdsAt(hits: seq<Hit>)
    ensures |IdsOf(hits)| == |hits| && forall i :: 0 <= i < |hits| ==> IdsOf(hits)[i] == hits[i].id
  {
    if hits != [] {
      IdsAt(hits[..|hits| - 1]);
    }
  }

  /** The hit kept for an id is the one whose position is its rank. */
  lemma {:induction false} KeptIsRanked(hits: seq<Hit>, d: Doc)
    ensures |IdsOf(hits)| == |hits|
    ensures d in ById(hits) <==> d in Ranks(IdsOf(hits))
    ensures d in ById(hits) ==> Ranks(IdsOf(hits))[d] <= |hits| && ById(hits)[d] == hits[Ranks(IdsOf(hits))[d] - 1]
  {
    if hits != [] {
      var init := hits[..|hits| - 1];
      KeptIsRanked(init, d);
      LastRank(IdsOf(init), hits[|hits| - 1].id);
    }
  }

  /** The text of the last hit with the id. */
  function BodyAt(hits: seq<Hit>, d: Doc): Option<string> {
    var p := LastPosition(hits, d);
    if p > 0 then hits[p - 1].body else None
  }

  /** The last position of an id, counted from 1, or 0. */
  function LastPosition(hits: seq<Hit>, d: Doc): (p: nat)
    ensures p <= |hits| && (p > 0 ==> hits[p - 1].id == d)
    ensures forall i :: p <= i < |hits| ==> hits[i].id != d
  {
    if hits == [] then 0
    else if hits[|hits| - 1].id == d then |hits|
    else LastPosition(hits[..|hits| - 1], d)
  }

  lemma {:induction false} KeptIsLast(hits: seq<Hit>, d: Doc)
    ensures BodyAt(hits, d) == if d in ById(hits) then ById(hits)[d].body else None
  {
    if hits != [] {
      KeptIsLast(hits[..|hits| - 1], d);
    }
  }

  /** The text shown for a document is that of the last lexical hit with its id, if it has one; else
      that of the last dense hit, if it has one; else an empty object. */
  lemma SourceMeans(lexicalHits: seq<Hit>, denseHits: seq<Hit>, d: Doc)
    ensures SourceOf(ById(lexicalHits), ById(denseHits), d) ==
            match BodyAt(lexicalHits, d)
            case Some(body) => body
            case None => match BodyAt(denseHits, d) case Some(body) => body case None => "{}"
  {
    KeptIsLast(lexicalHits, d);
    KeptIsLast(denseHits, d);
  }

  /** Place p, counted from 1, is the last of the id's; 0 if it has none. */
  predicate LastPlace(ids: seq<Doc>, d: Doc, p: nat) {
    if d in ids then 0 < p <= |ids| && ids[p - 1] == d && (forall i :: p <= i < |ids| ==> ids[i] != d) else p == 0
  }

  /** The score of a document by its places: each list adds one over its place and the constant. */
  lemma ScoreByPlaces(lexicalIds: seq<Doc>, denseIds: seq<Doc>, k: nat, d: Doc, p: nat, q: nat)
    requires LastPlace(lexicalIds, d, p) && LastPlace(denseIds, d, q)
    ensures Score(Ranks(lexicalIds), Ranks(denseIds), k, d) ==
            (if p == 0 then 0.0 else 1.0 / (k + p) as real) + (if q == 0 then 0.0 else 1.0 / (k + q) as real)
  {
    ShareByPlace(lexicalIds, k, d, p);
    ShareByPlace(denseIds, k, d, q);
  }

  lemma ShareByPlace(ids: seq<Doc>, k: nat, d: Doc, p: nat)
    requires LastPlace(ids, d, p)
    ensures Share(Ranks(ids), k, d) == if p == 0 then 0.0 else 1.0 / (k + p) as real
  {
    RankIsPlace(ids, d, p);
  }

  lemma RankIsPlace(ids: seq<Doc>, d: Doc, p: nat)
    requires LastPlace(ids, d, p)
    ensures d in Ranks(ids) <==> p > 0
    ensures p > 0 ==> Ranks(ids)[d] == p
  {
    RanksOf(ids);
  }

  method RankDict(ids: seq<Doc>) returns (ranks: map<Doc, Rank>)
    ensures ranks == Ranks(ids)
  {
    ranks := map[];
    for i := 0 to |ids|
      invariant ranks == Ranks(ids[..i])
    {
      assert ids[..i + 1][..i] == ids[..i];
      ranks := ranks[ids[i] := i + 1];
    }
    assert ids[..|ids|] == ids;
  }

  /** list.sort by score with reverse=True. */
  function SortedByScore(s: seq<Scored>): seq<Scored> {
    SortBy(s, (x: Scored) => -x.score)
  }

  lemma ScoresSorted(s: seq<Scored>)
    ensures Descending(SortedByScore(s)) && multiset(SortedByScore(s)) == multiset(s)
  {
    var key := (x: Scored) => -x.score;
    SortSorts(s, key);
    var t := SortBy(s, key);
    forall i, j | 0 <= i < j < |t| ensures t[i].score >= t[j].score {
      assert key(t[i]) <= key(t[j]);
    }
  }

  lemma IdsAppend(s: seq<Scored>, x: Scored)
    ensures Ids(s + [x]) == Ids(s) + {x.id}
  {
    var t := s + [x];
    assert t[|s|] == x;
    forall d | d in Ids(s) ensures d in Ids(t) {
      var i :| 0 <= i < |s| && s[i].id == d;
      assert t[i].id == d;
    }
  }

  lemma {:induction false} IdsCount(s: seq<Scored>)
    ensures |Ids(s)| <= |s|
  {
    if s != [] {
      IdsCount(s[..|s| - 1]);
      IdsAppend(s[..|s| - 1], s[|s| - 1]);
      assert s == s[..|s| - 1] + [s[|s| - 1]];
    }
  }

  /** As many ids as elements: no id occurs twice. */
  lemma {:induction false} CountedOnce(s: seq<Scored>, i: nat, j: nat)
    requires |Ids(s)| == |s| && i < j < |s|
    ensures s[i].id != s[j].id
  {
    var init, last := s[..|s| - 1], s[|s| - 1];
    assert s == init + [last];
    IdsAppend(init, last);
    IdsCount(init);
    if j < |s| - 1 {
      CountedOnce(init, i, j);
    } else {
      assert init[i].id in Ids(init);
    }
  }

  lemma PermutationCovers(a: seq<Scored>, b: seq<Scored>, docs: set<Doc>)
    requires multiset(a) == multiset(b) && Covers(a, docs)
    ensures Covers(b, docs)
    ensures forall i :: 0 <= i < |b| ==> b[i] in a
  {
    assert |a| == |multiset(a)| == |multiset(b)| == |b|;
    SameIds(a, b);
    SameIds(b, a);
  }

  lemma SameIds(a: seq<Scored>, b: seq<Scored>)
    requires multiset(a) == multiset(b)
    ensures Ids(a) <= Ids(b)
    ensures forall i :: 0 <= i < |a| ==> a[i] in b
  {
    forall i | 0 <= i < |a| ensures a[i] in b {
      assert a[i] in multiset(a);
      assert a[i] in multiset(b);
    }
  }

  method ScoreOf(lexical: map<Doc, Rank>, dense: map<Doc, Rank>, k: nat, d: Doc) returns (score: real)
    ensures score == Score(lexical, dense, k, d)
  {
    score := 0.0;
    if d in lexical {
      score := score + 1.0 / (k + lexical[d]) as real;
    }
    if d in dense {
      score := score + 1.0 / (k + dense[d]) as real;
    }
  }

  ghost predicate ScoredBy(f: Doc -> real, s: seq<Scored>) {
    forall i :: 0 <= i < |s| ==> s[i].score == f(s[i].id)
  }

  /** All documents but those left are scored, each once. */
  ghost predicate ScoredSoFar(f: Doc -> real, docs: set<Doc>, left: set<Doc>, s: seq<Scored>) {
    left <= docs && Covers(s, docs - left) && ScoredBy(f, s)
  }

  lemma ScoreOneMore(f: Doc -> real, docs: set<Doc>, left: set<Doc>, s: seq<Scored>, d: Doc)
    requires ScoredSoFar(f, docs, left, s) && d in left
    ensures ScoredSoFar(f, docs, left - {d}, s + [Scored(d, f(d))])
  {
    IdsAppend(s, Scored(d, f(d)));
    assert docs - (left - {d}) == (docs - left) + {d};
  }

  /** Scores every document of the union, in no particular order. */
  method ScoreAll(lexical: map<Doc, Rank>, dense: map<Doc, Rank>, k: nat, ghost f: Doc -> real)
    returns (scored: seq<Scored>)
    requires forall d :: f(d) == Score(lexical, dense, k, d)
    ensures Covers(scored, lexical.Keys + dense.Keys) && ScoredBy(f, scored)
  {
    var docs := lexical.Keys + dense.Keys;
    var left := docs;
    scored := [];
    while left != {}
      invariant ScoredSoFar(f, docs, left, scored)
      decreases |left|
    {
      var d :| d in left;
      var score := ScoreOf(lexical, dense, k, d);
      ScoreOneMore(f, docs, left, scored, d);
      scored := scored + [Scored(d, score)];
      left := left - {d};
    }
    assert docs - left == docs;
  }

  /** Scores the union, sorts it, and keeps the first `topK`. */
  method RankAll(lexical: map<Doc, Rank>, dense: map<Doc, Rank>, k: nat, topK: nat, ghost f: Doc -> real)
    returns (top: seq<Scored>, fusedFrom: nat)
    requires forall d :: f(d) == Score(lexical, dense, k, d)
    ensures Best(f, lexical.Keys + dense.Keys, topK, top)
    ensures fusedFrom == |lexical.Keys + dense.Keys|
  {
    var scored := ScoreAll(lexical, dense, k, f);
    var sorted := SortedByScore(scored);
    ScoresSorted(scored);
    PermutationCovers(scored, sorted, lexical.Keys + dense.Keys);
    PermutationScored(f, scored, sorted);
    top := if topK < |sorted| then sorted[..topK] else sorted;
    KeptAreBest(f, lexical.Keys + dense.Keys, topK, sorted, top);
    fusedFrom := |sorted|;
  }

  lemma PermutationScored(f: Doc -> real, a: seq<Scored>, b: seq<Scored>)
    requires multiset(a) == multiset(b) && ScoredBy(f, a)
    ensures ScoredBy(f, b)
  {
    SameIds(b, a);
  }

  /** The two comprehensions that index the hits by id. */
  method Index(hits: seq<Hit>) returns (ids: seq<Doc>, byId: map<Doc, Hit>)
    ensures ids == IdsOf(hits) && byId == ById(hits)
  {
    ids, byId := [], map[];
    for i := 0 to |hits|
      invariant ids == IdsOf(hits[..i]) && byId == ById(hits[..i])
    {
      assert hits[..i + 1][..i] == hits[..i];
      ids, byId := ids + [hits[i].id], byId[hits[i].id := hits[i]];
    }
    assert hits[..|hits|] == hits;
  }

  lemma RoundingKeepsOrder(top: seq<Scored>)
    requires Descending(top)
    ensures forall i, j :: 0 <= i < j < |top| ==> Round6(top[i].score) >= Round6(top[j].score)
  {
    forall i, j | 0 <= i < j < |top| ensures Round6(top[i].score) >= Round6(top[j].score) {
      RoundFacts(top[j].score, top[i].score);
    }
  }

  /** One result per ranked document, in order, with its score rounded. */
  method Report(lexical: map<Doc, Rank>, dense: map<Doc, Rank>, lexicalById: map<Doc, Hit>,
                denseById: map<Doc, Hit>, top: seq<Scored>) returns (results: seq<Result>)
    ensures |results| == |top|
    ensures forall i :: 0 <= i < |top| ==> Reports(lexical, dense, top[i], results[i])
    ensures forall i :: 0 <= i < |top| ==> results[i].rrfScore == Round6(top[i].score)
    ensures forall i :: 0 <= i < |top| ==> results[i].source == SourceOf(lexicalById, denseById, results[i].id)
  {
    results := [];
    for i := 0 to |top|
      invariant |results| == i && forall j :: 0 <= j < i ==> Reports(lexical, dense, top[j], results[j])
      invariant forall j :: 0 <= j < i ==> results[j].rrfScore == Round6(top[j].score)
      invariant forall j :: 0 <= j < i ==> results[j].source == SourceOf(lexicalById, denseById, results[j].id)
    {
      var x := top[i];
      results := results + [Result(x.id, Round6(x.score), RankOf(lexical, x.id), RankOf(dense, x.id),
                                   SourceOf(lexicalById, denseById, x.id))];
    }
  }

  /** The fusion part of HybridSearchTool.run. */
  method Fuse(query: string, lexicalHits: seq<Hit>, denseHits: seq<Hit>, topK: nat, k: nat) returns (reply: Reply)
    ensures reply.query == query
    ensures TopOf(Ranks(IdsOf(lexicalHits)), Ranks(IdsOf(denseHits)), k, topK, reply.results)
    ensures forall i :: 0 <= i < |reply.results| ==>
              reply.results[i].rrfScore ==
              Round6(Score(Ranks(IdsOf(lexicalHits)), Ranks(IdsOf(denseHits)), k, reply.results[i].id))
    ensures forall i, j :: 0 <= i < j < |reply.results| ==> reply.results[i].rrfScore >= reply.results[j].rrfScore
    ensures forall i :: 0 <= i < |reply.results| ==>
              reply.results[i].source == SourceOf(ById(lexicalHits), ById(denseHits), reply.results[i].id)
    ensures reply.fusedFrom == |Ranks(IdsOf(lexicalHits)).Keys + Ranks(IdsOf(denseHits)).Keys|
  {
    var lexicalIds, lexicalById := Index(lexicalHits);
    var denseIds, denseById := Index(denseHits);
    var lexical := RankDict(lexicalIds);
    var dense := RankDict(denseIds);
    ghost var f := d => Score(lexical, dense, k, d);
    var top, fusedFrom := RankAll(lexical, dense, k, topK, f);
    var results := Report(lexical, dense, lexicalById, denseById, top);
    RoundingKeepsOrder(top);
    reply := Reply(query, results, fusedFrom);
  }

  lemma LeftOutIsNoBetter(f: Doc -> real, docs: set<Doc>, sorted: seq<Scored>, kept: nat, d: Doc, i: nat)
    requires Ids(sorted) == docs && Descending(sorted) && ScoredBy(f, sorted)
    requires i < kept <= |sorted| && d in docs - Ids(sorted[..kept])
    ensures f(d) <= sorted[i].score
  {
    var m :| 0 <= m < |sorted| && sorted[m].id == d;
    assert forall j :: 0 <= j < kept ==> sorted[..kept][j].id in Ids(sorted[..kept]) && sorted[..kept][j] == sorted[j];
  }

  lemma KeptAreBest(f: Doc -> real, docs: set<Doc>, topK: nat, sorted: seq<Scored>, top: seq<Scored>)
    requires Covers(sorted, docs) && Descending(sorted)
    requires ScoredBy(f, sorted)
    requires top == if topK < |sorted| then sorted[..topK] else sorted
    ensures Best(f, docs, topK, top)
  {
    forall i, j | 0 <= i < j < |top| ensures top[i].id != top[j].id {
      CountedOnce(sorted, i, j);
    }
    forall i | 0 <= i < |top| ensures top[i].id in docs {
      assert sorted[i].id in Ids(sorted);
    }
    forall d, i | d in docs - Ids(top) && 0 <= i < |top| ensures f(d) <= top[i].score {
      LeftOutIsNoBetter(f, docs, sorted, |top|, d, i);
    }
  }

  // ---------------------------------------------------------------------------------
  // The order of the results
  // ---------------------------------------------------------------------------------

  lemma RecipOrder(a: Rank, b: Rank)
    requires a < b
    ensures Recip(a) > Recip(b) > 0.0
  {
    assert Recip(a) - Recip(b) == (b - a) as real / (a as real * b as real);
  }

  /** Absent counts as worst. */
  predicate AtLeastAsGood(ranks: map<Doc, Rank>, d: Doc, e: Doc) {
    e in ranks ==> d in ranks && ranks[d] <= ranks[e]
  }

  predicate Better(ranks: map<Doc, Rank>, d: Doc, e: Doc) {
    d in ranks && (e in ranks ==> ranks[d] < ranks[e])
  }

  lemma ShareOrder(ranks: map<Doc, Rank>, k: nat, d: Doc, e: Doc)
    requires AtLeastAsGood(ranks, d, e)
    ensures Share(ranks, k, d) >= Share(ranks, k, e)
    ensures Better(ranks, d, e) ==> Share(ranks, k, d) > Share(ranks, k, e)
  {
  }

  /** A strictly better score always precedes: whenever e is listed, d is listed before it. */
  ghost predicate Precedes(results: seq<Result>, d: Doc, e: Doc) {
    forall j :: 0 <= j < |results| && results[j].id == e ==> exists i :: 0 <= i < j && results[i].id == d
  }

  lemma HigherScorePrecedes(lexical: map<Doc, Rank>, dense: map<Doc, Rank>, k: nat, topK: nat, results: seq<Result>,
                            d: Doc, e: Doc)
    requires TopOf(lexical, dense, k, topK, results)
    requires d in lexical.Keys + dense.Keys && Score(lexical, dense, k, d) > Score(lexical, dense, k, e)
    ensures Precedes(results, d, e)
  {
    var f := x => Score(lexical, dense, k, x);
    var ranked: seq<Scored> :| Best(f, lexical.Keys + dense.Keys, topK, ranked) && |results| == |ranked|
                  && forall i :: 0 <= i < |ranked| ==> Reports(lexical, dense, ranked[i], results[i]);
    BestOrder(f, lexical.Keys + dense.Keys, topK, ranked, d, e);
    forall j | 0 <= j < |results| && results[j].id == e ensures exists i :: 0 <= i < j && results[i].id == d {
      assert ranked[j].id == e;
      var i :| 0 <= i < j && ranked[i].id == d;
      assert results[i].id == d;
    }
  }

  lemma BestOrder(f: Doc -> real, docs: set<Doc>, topK: nat, ranked: seq<Scored>, d: Doc, e: Doc)
    requires Best(f, docs, topK, ranked) && d in docs && f(d) > f(e)
    ensures forall j :: 0 <= j < |ranked| && ranked[j].id == e ==> exists i :: 0 <= i < j && ranked[i].id == d
  {
  }

  /** A document at least as well ranked in both lists and better in one always precedes. */
  lemma DominantPrecedes(lexicalIds: seq<Doc>, denseIds: seq<Doc>, k: nat, topK: nat, results: seq<Result>, d: Doc,
                         e: Doc)
    requires TopOf(Ranks(lexicalIds), Ranks(denseIds), k, topK, results)
    requires AtLeastAsGood(Ranks(lexicalIds), d, e) && AtLeastAsGood(Ranks(denseIds), d, e)
    requires Better(Ranks(lexicalIds), d, e) || Better(Ranks(denseIds), d, e)
    ensures Precedes(results, d, e)
  {
    ShareOrder(Ranks(lexicalIds), k, d, e);
    ShareOrder(Ranks(denseIds), k, d, e);
    HigherScorePrecedes(Ranks(lexicalIds), Ranks(denseIds), k, topK, results, d, e);
  }

  predicate InBoth(a: map<Doc, Rank>, b: map<Doc, Rank>, d: Doc) {
    d in a && d in b
  }

  predicate InOne(a: map<Doc, Rank>, b: map<Doc, Rank>, d: Doc) {
    (d in a && d !in b) || (d !in a && d in b)
  }

  /** The worst share in a list of `length` against the best one. */
  lemma TwoLastBeatOneFirst(k: nat, length: nat)
    requires 0 < length
    ensures Recip(k + length) + Recip(k + length) > Recip(k + 1) <==> length < k + 2
  {
    var a, b := (k + length) as real, (k + 1) as real;
    assert 2.0 / a - 1.0 / b == (2.0 * b - a) / (a * b);
    assert a * b > 0.0;
    assert Recip(k + length) + Recip(k + length) == 2.0 / a;
    SignOfQuotient(2.0 * b - a, a * b);
  }

  lemma SignOfQuotient(x: real, y: real)
    requires y > 0.0
    ensures x / y > 0.0 <==> x > 0.0
  {
  }

  lemma ShareFloor(ranks: map<Doc, Rank>, k: nat, d: Doc, length: nat)
    requires d in ranks && ranks[d] <= length
    ensures Recip(k + length) <= Share(ranks, k, d) <= Recip(k + 1)
  {
    if ranks[d] < length {
      RecipOrder(k + ranks[d], k + length);
    }
    if ranks[d] > 1 {
      RecipOrder(k + 1, k + ranks[d]);
    }
  }

  lemma BothBeatOne(lexicalIds: seq<Doc>, denseIds: seq<Doc>, k: nat, length: nat, d: Doc, e: Doc)
    requires |lexicalIds| <= length && |denseIds| <= length && length < k + 2
    requires InBoth(Ranks(lexicalIds), Ranks(denseIds), d) && InOne(Ranks(lexicalIds), Ranks(denseIds), e)
    ensures Score(Ranks(lexicalIds), Ranks(denseIds), k, d) > Score(Ranks(lexicalIds), Ranks(denseIds), k, e)
  {
    var a, b := Ranks(lexicalIds), Ranks(denseIds);
    RanksOf(lexicalIds);
    RanksOf(denseIds);
    TwoLastBeatOneFirst(k, length);
    ShareFloor(a, k, d, length);
    ShareFloor(b, k, d, length);
    ShareFloor(if e in a then a else b, k, e, length);
  }

  ghost predicate Distinct(ids: seq<Doc>) {
    forall i, j :: 0 <= i < j < |ids| ==> ids[i] != ids[j]
  }

  /** The id of n hyphens. */
  function Filler(n: nat): Doc {
    seq(n, i => '-')
  }

  function Fillers(n: nat): seq<Doc> {
    seq(n, i requires 0 <= i => Filler(i))
  }

  lemma FillerIsOther(n: nat)
    ensures Filler(n) != "one" && Filler(n) != "both"
  {
    assert n > 0 ==> Filler(n)[0] == '-';
    assert "one"[0] != '-' && "both"[0] != '-';
  }

  lemma {:induction false} FillerRanks(n: nat, first: seq<Doc>)
    ensures |Fillers(n)| == n
    ensures "one" in Ranks(first + Fillers(n)) <==> "one" in Ranks(first)
    ensures "one" in Ranks(first) ==> Ranks(first + Fillers(n))["one"] == Ranks(first)["one"]
  {
    if n == 0 {
      assert first + Fillers(0) == first;
    } else {
      FillerRanks(n - 1, first);
      FillerIsOther(n - 1);
      LastRank(first + Fillers(n - 1), Filler(n - 1));
      assert first + Fillers(n) == first + Fillers(n - 1) + [Filler(n - 1)];
    }
  }

  function LongLexical(length: nat): seq<Doc>
    requires length >= 2
  {
    ["one"] + Fillers(length - 2) + ["both"]
  }

  function LongDense(length: nat): seq<Doc>
    requires length >= 2
  {
    Fillers(length - 1) + ["both"]
  }

  lemma LongRanks(length: nat)
    requires length >= 2
    ensures |LongLexical(length)| == |LongDense(length)| == length
    ensures var a, b := Ranks(LongLexical(length)), Ranks(LongDense(length));
            && InBoth(a, b, "both") && a["both"] == b["both"] == length
            && "one" in a && a["one"] == 1 && "one" !in b
  {
    assert "both"[0] != "one"[0];
    var none: seq<Doc> := [];
    assert ["one"][..0] == none && Ranks(["one"]) == map["one" := 1];
    FillerRanks(length - 2, ["one"]);
    LastRank(["one"] + Fillers(length - 2), "both");
    FillerRanks(length - 1, none);
    assert none + Fillers(length - 1) == Fillers(length - 1);
    LastRank(Fillers(length - 1), "both");
  }

  lemma LongDistinct(length: nat)
    requires length >= 2
    ensures Distinct(LongLexical(length)) && Distinct(LongDense(length))
  {
    forall i: nat ensures Filler(i) != "one" && Filler(i) != "both" {
      FillerIsOther(i);
    }
    forall i, j | 0 <= i < j ensures Filler(i) != Filler(j) {
      assert |Filler(i)| == i && |Filler(j)| == j;
    }
    assert "both"[0] != "one"[0];
  }

  /** With lists of k + 2 or more, a document last in both does not beat one first in one list. */
  lemma LongListsTie(k: nat, length: nat)
    requires length >= k + 2
    ensures |LongLexical(length)| == |LongDense(length)| == length
    ensures !BothScoreHigher(LongLexical(length), LongDense(length), k)
  {
    LongRanks(length);
    var a, b := Ranks(LongLexical(length)), Ranks(LongDense(length));
    LastLoses(a, b, k, length, "both", "one");
    assert InOne(a, b, "one");
  }

  lemma LastLoses(a: map<Doc, Rank>, b: map<Doc, Rank>, k: nat, length: nat, d: Doc, e: Doc)
    requires length >= k + 2 && InBoth(a, b, d) && a[d] == b[d] == length
    requires e in a && e !in b && a[e] == 1
    ensures Score(a, b, k, d) <= Score(a, b, k, e)
  {
    TwoLastBeatOneFirst(k, length);
  }

  ghost predicate BothScoreHigher(lexicalIds: seq<Doc>, denseIds: seq<Doc>, k: nat) {
    forall d, e :: InBoth(Ranks(lexicalIds), Ranks(denseIds), d) && InOne(Ranks(lexicalIds), Ranks(denseIds), e) ==>
      Score(Ranks(lexicalIds), Ranks(denseIds), k, d) > Score(Ranks(lexicalIds), Ranks(denseIds), k, e)
  }

  /** Documents found by both retrievers always outscore documents found by one, for all lists
      of at most `length` distinct ids, if and only if length < k + 2. */
  lemma BothFirstIff(k: nat, length: nat)
    requires length > 0
    ensures (forall lexicalIds, denseIds ::
               |lexicalIds| <= length && |denseIds| <= length && Distinct(lexicalIds) && Distinct(denseIds) ==>
               BothScoreHigher(lexicalIds, denseIds, k))
            <==> length < k + 2
  {
    if length < k + 2 {
      forall lexicalIds, denseIds | |lexicalIds| <= length && |denseIds| <= length
        ensures BothScoreHigher(lexicalIds, denseIds, k)
      {
        RanksOf(lexicalIds);
        RanksOf(denseIds);
        forall d, e | InBoth(Ranks(lexicalIds), Ranks(denseIds), d) && InOne(Ranks(lexicalIds), Ranks(denseIds), e)
          ensures Score(Ranks(lexicalIds), Ranks(denseIds), k, d) > Score(Ranks(lexicalIds), Ranks(denseIds), k, e)
        {
          BothBeatOne(lexicalIds, denseIds, k, length, d, e);
        }
      }
    } else {
      LongListsTie(k, length);
      LongDistinct(length);
    }
  }

  /** So with short lists the results list them first. */
  lemma BothPrecedeOne(lexicalIds: seq<Doc>, denseIds: seq<Doc>, k: nat, topK: nat, results: seq<Result>, d: Doc,
                       e: Doc)
    requires |lexicalIds| < k + 2 && |denseIds| < k + 2
    requires TopOf(Ranks(lexicalIds), Ranks(denseIds), k, topK, results)
    requires InBoth(Ranks(lexicalIds), Ranks(denseIds), d) && InOne(Ranks(lexicalIds), Ranks(denseIds), e)
    ensures Precedes(results, d, e)
  {
    BothBeatOne(lexicalIds, denseIds, k, k + 1, d, e);
    HigherScorePrecedes(Ranks(lexicalIds), Ranks(denseIds), k, topK, results, d, e);
  }
}
