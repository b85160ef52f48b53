// What a searcher sees: which documents an answer names, in which order, and which it leaves out, in
// points counted from the texts themselves.
module SearchOrder {
  import opened Common
  import opened Tokenizer
  import opened ScaleSearch
  import opened SectionSearch
  import opened Strings
  import PercentCodec

  // ---- the scale experiment ----

  // The positions in a list of keywords of those that occur in a text.
  function Occurring(s: Text, keywords: seq<Text>): set<nat> {
    set j: nat | j < |keywords| && Contains(s, keywords[j])
  }

  lemma ContainsIs(s: Text, k: Text)
    ensures Contains(s, k) <==> exists before, after :: s == before + k + after
  {
    if p :| 0 <= p <= |s| && PieceAt(s, p, k) {
      assert s == s[..p] + k + s[p + |k|..];
    }
    if before, after :| s == before + k + after {
      assert PieceAt(s, |before|, k);
    }
  }

  function WantedTags(tags: seq<string>, any: seq<string>): set<nat> {
    set k: nat | k < |tags| && tags[k] in any
  }

  // Ten points for each keyword in the title, one for each in the body, six for each wanted tag.
  function Points(title: Text, body: Text, tags: seq<string>, q: Query): nat {
    10 * |Occurring(title, q.keywords)| + |Occurring(body, q.keywords)| + 6 * |WantedTags(tags, q.tagsAny)|
  }

  lemma OccurringSnoc(s: Text, keywords: seq<Text>, k: Text)
    ensures Occurring(s, keywords + [k]) == Occurring(s, keywords) + if Contains(s, k) then {|keywords|} else {}
    ensures |keywords| !in Occurring(s, keywords)
  {
    hide Contains;
  }

  lemma {:induction false} KeywordPoints(title: Text, body: Text, keywords: seq<Text>)
    ensures KeywordScore(title, body, keywords) == 10 * |Occurring(title, keywords)| + |Occurring(body, keywords)|
  {
    if keywords != [] {
      var before, k := keywords[..|keywords| - 1], keywords[|keywords| - 1];
      assert keywords == before + [k];
      KeywordPoints(title, body, before);
      OccurringSnoc(title, before, k);
      OccurringSnoc(body, before, k);
      hide Occurring;
    } else {
      assert Occurring(title, keywords) == {} && Occurring(body, keywords) == {};
    }
  }

  lemma {:induction false} TagPoints(tags: seq<string>, any: seq<string>)
    ensures TagCount(tags, any) == |WantedTags(tags, any)|
  {
    if tags != [] {
      var before, last := tags[..|tags| - 1], |tags| - 1;
      TagPoints(before, any);
      assert WantedTags(tags, any) == WantedTags(before, any) + if tags[last] in any then {last as nat} else {};
      assert last !in WantedTags(before, any);
    }
  }

  // A rank stands for its points.
  lemma RankPoints(pageId: Id, title: Text, body: Text, tags: seq<string>, q: Query)
    ensures var r := RankOf(pageId, title, body, tags, q);
            && (r.Some? <==> q.keywords == [] || Occurring(title, q.keywords) + Occurring(body, q.keywords) != {})
            && (r.Some? ==> r.value == Rank(-(Points(title, body, tags, q) as int), pageId))
  {
    KeywordPoints(title, body, q.keywords);
    TagPoints(tags, q.tagsAny);
    forall j | 0 <= j < |q.keywords|
      ensures Hit(title, body, q.keywords[j]) <==> j in Occurring(title, q.keywords) + Occurring(body, q.keywords)
    {
      InText(title, q.keywords, j);
      InText(body, q.keywords, j);
    }
    assert AnyHit(title, body, q.keywords) <==> Occurring(title, q.keywords) + Occurring(body, q.keywords) != {} by {
      hide Hit, Occurring;
      if j :| 0 <= j < |q.keywords| && Hit(title, body, q.keywords[j]) {
      }
      if j :| j in Occurring(title, q.keywords) + Occurring(body, q.keywords) {
        Position(title, q.keywords, j);
        Position(body, q.keywords, j);
      }
    }
  }

  lemma Position(s: Text, keywords: seq<Text>, j: nat)
    ensures j in Occurring(s, keywords) ==> j < |keywords|
  {
  }

  lemma InText(s: Text, keywords: seq<Text>, j: nat)
    requires j < |keywords|
    ensures Contains(s, keywords[j]) <==> j in Occurring(s, keywords)
  {
  }

  // What the scan is to find: live documents of the Libraries and the time span, with a wanted tag if any
  // is given and a keyword in title or body if any is given.
  predicate Found(d: Document, q: Query) {
    && !d.deleted && d.library in q.libraries
    && (q.occurredFrom != None ==> q.occurredFrom.value <= d.occurredAt)
    && (q.occurredBefore != None ==> d.occurredAt < q.occurredBefore.value)
    && (q.tagsAny != [] ==> WantedTags(d.tags, q.tagsAny) != {})
    && (q.keywords != [] ==> Occurring(d.title, q.keywords) + Occurring(d.body, q.keywords) != {})
  }

  function PointsOf(d: Document, q: Query): nat { Points(d.title, d.body, d.tags, q) }

  lemma CountsIs(d: Document, q: Query, r: Rank)
    ensures Counts(d, q, r) <==> Found(d, q) && r == Rank(-(PointsOf(d, q) as int), d.pageId)
  {
    RankPoints(d.pageId, d.title, d.body, d.tags, q);
    hide RankOf, Occurring, Points;
    if q.tagsAny != [] {
      if k :| 0 <= k < |d.tags| && d.tags[k] in q.tagsAny {
        assert k in WantedTags(d.tags, q.tagsAny);
      }
      if k :| k in WantedTags(d.tags, q.tagsAny) {
        assert d.tags[k] in q.tagsAny;
      }
    }
  }

  // More points first, and on equal points the smaller id first.
  predicate Before(points: nat, id: Id, otherPoints: nat, other: Id) {
    points > otherPoints || (points == otherPoints && id < other)
  }

  lemma ScanRanks(documents: seq<Document>, q: Query)
    requires DistinctIds(documents)
    ensures var sorted := Sorted(RanksOfDocuments(documents, q));
            && Expected(documents, q) == Ids(sorted) && Ascending(sorted)
            && forall r: Rank :: r in sorted <==> exists d :: d in documents && Found(d, q) && r == Rank(-(PointsOf(d, q) as int), d.pageId)
  {
    var ranks := RanksOfDocuments(documents, q);
    DocumentRanks(documents, q);
    SortedMembers(ranks);
    var sorted := Sorted(ranks);
    hide RanksOfDocuments, Sorted, Counts, Found, PointsOf;
    forall r: Rank ensures r in sorted <==> exists d :: d in documents && Found(d, q) && r == Rank(-(PointsOf(d, q) as int), d.pageId) {
      ScanMember(documents, q, r, sorted);
    }
  }

  // The scan answers with the ids of exactly the documents to be found.
  lemma ScanFinds(documents: seq<Document>, q: Query, id: Id)
    requires DistinctIds(documents)
    ensures id in Expected(documents, q) <==> exists d :: d in documents && Found(d, q) && d.pageId == id
  {
    ScanRanks(documents, q);
    var sorted, ids := Sorted(RanksOfDocuments(documents, q)), Expected(documents, q);
    hide RanksOfDocuments, Sorted, Found, PointsOf, Expected;
    if id in ids {
      var i :| 0 <= i < |ids| && ids[i] == id;
      assert sorted[i] in sorted;
    }
    if d :| d in documents && Found(d, q) && d.pageId == id {
      var r := Rank(-(PointsOf(d, q) as int), d.pageId);
      assert r in sorted;
      var i :| 0 <= i < |sorted| && sorted[i] == r;
      assert ids[i] == id;
    }
  }

  // Of two documents it answers with, the first has more points, or as many and the smaller id.
  lemma ScanOrder(documents: seq<Document>, q: Query, i: nat, j: nat, d: Document, e: Document)
    requires DistinctIds(documents) && d in documents && e in documents
    requires i < j < |Expected(documents, q)| && Expected(documents, q)[i] == d.pageId && Expected(documents, q)[j] == e.pageId
    ensures Before(PointsOf(d, q), d.pageId, PointsOf(e, q), e.pageId)
  {
    ScanRanks(documents, q);
    var sorted := Sorted(RanksOfDocuments(documents, q));
    hide RanksOfDocuments, Sorted, Found, PointsOf, Expected;
    assert sorted[i] in sorted && sorted[j] in sorted;
    assert Less(sorted[i], sorted[j]);
  }

  lemma ScanMember(documents: seq<Document>, q: Query, r: Rank, sorted: seq<Rank>)
    requires r in sorted <==> exists i :: 0 <= i < |documents| && Counts(documents[i], q, r)
    ensures r in sorted <==> exists d :: d in documents && Found(d, q) && r == Rank(-(PointsOf(d, q) as int), d.pageId)
  {
    hide Counts, Found, PointsOf;
    if i :| 0 <= i < |documents| && Counts(documents[i], q, r) {
      CountsIs(documents[i], q, r);
      assert documents[i] in documents;
    }
    if d :| d in documents && Found(d, q) && r == Rank(-(PointsOf(d, q) as int), d.pageId) {
      CountsIs(d, q, r);
      var i :| 0 <= i < |documents| && documents[i] == d;
    }
  }

  function RowPoints(row: Row, q: Query): nat { Points(row.title, row.body, Split(row.tags, ','), q) }

  predicate RowFound(row: Row, q: Query) {
    q.keywords == [] || Occurring(row.title, q.keywords) + Occurring(row.body, q.keywords) != {}
  }

  lemma SearchRanks(u: Unicode, rows: seq<Row>, q: Query)
    requires DistinctRows(rows) && Search(u, rows, q).Found? && (q.keywords != [] ==> Expressible(u, q))
    ensures var sorted := Sorted(RanksOfRows(rows, q));
            && Search(u, rows, q).ids == Ids(sorted) && Ascending(sorted)
            && forall r: Rank :: r in sorted <==> exists row :: row in rows && RowFound(row, q) && r == Rank(-(RowPoints(row, q) as int), row.pageId)
  {
    var ranks := RanksOfRows(rows, q);
    RowRanks(rows, q);
    SortedMembers(ranks);
    var sorted := Sorted(ranks);
    hide RanksOfRows, Sorted, RowFound, RowPoints, RankOf, Expressible;
    forall r: Rank ensures r in sorted <==> exists row :: row in rows && RowFound(row, q) && r == Rank(-(RowPoints(row, q) as int), row.pageId) {
      RowMember(rows, q, r, sorted);
    }
  }

  // Of the rows SQL selected, the index search answers with exactly those a keyword occurs in.
  lemma SearchFinds(u: Unicode, rows: seq<Row>, q: Query, id: Id)
    requires DistinctRows(rows) && Search(u, rows, q).Found? && (q.keywords != [] ==> Expressible(u, q))
    ensures id in Search(u, rows, q).ids <==> exists row :: row in rows && RowFound(row, q) && row.pageId == id
  {
    SearchRanks(u, rows, q);
    var sorted, ids := Sorted(RanksOfRows(rows, q)), Search(u, rows, q).ids;
    hide RanksOfRows, Sorted, RowFound, RowPoints, Search, Expressible;
    if id in ids {
      var i :| 0 <= i < |ids| && ids[i] == id;
      assert sorted[i] in sorted;
    }
    if d :| d in rows && RowFound(d, q) && d.pageId == id {
      var r := Rank(-(RowPoints(d, q) as int), d.pageId);
      assert r in sorted;
      var i :| 0 <= i < |sorted| && sorted[i] == r;
      assert ids[i] == id;
    }
  }

  // In the same order: more points first, and on equal points the smaller id first.
  lemma SearchOrder(u: Unicode, rows: seq<Row>, q: Query, i: nat, j: nat, d: Row, e: Row)
    requires DistinctRows(rows) && Search(u, rows, q).Found? && d in rows && e in rows
    requires var ids := Search(u, rows, q).ids; i < j < |ids| && ids[i] == d.pageId && ids[j] == e.pageId
    ensures Before(RowPoints(d, q), d.pageId, RowPoints(e, q), e.pageId)
  {
    SearchRanks(u, rows, q);
    var sorted := Sorted(RanksOfRows(rows, q));
    hide RanksOfRows, Sorted, RowFound, RowPoints, Search, Expressible;
    assert sorted[i] in sorted && sorted[j] in sorted;
    assert Less(sorted[i], sorted[j]);
  }

  lemma RowMember(rows: seq<Row>, q: Query, r: Rank, sorted: seq<Rank>)
    requires r in sorted <==> exists i :: 0 <= i < |rows| && RankOfRow(rows[i], q) == Some(r)
    ensures r in sorted <==> exists row :: row in rows && RowFound(row, q) && r == Rank(-(RowPoints(row, q) as int), row.pageId)
  {
    hide RankOf, Points, Occurring;
    if i :| 0 <= i < |rows| && RankOfRow(rows[i], q) == Some(r) {
      RankPoints(rows[i].pageId, rows[i].title, rows[i].body, Split(rows[i].tags, ','), q);
      assert rows[i] in rows;
    }
    if row :| row in rows && RowFound(row, q) && r == Rank(-(RowPoints(row, q) as int), row.pageId) {
      RankPoints(row.pageId, row.title, row.body, Split(row.tags, ','), q);
      var i :| 0 <= i < |rows| && rows[i] == row;
    }
  }

  // ---- one Section ----

  // The positions in a query of the tokens a field of the document has.
  function Having(n: Normalizer, s: Text, query: seq<Token>): set<nat> {
    set j: nat | j < |query| && query[j] in TokensOf(n, s)
  }

  // Ten points for each query token in the title, six in the tags, four in the summary, one in the body.
  function SectionPoints(n: Normalizer, d: SectionDocument, query: seq<Token>): nat {
    10 * |Having(n, d.title, query)| + 6 * |Having(n, d.tags, query)| + 4 * |Having(n, d.summary, query)| + |Having(n, d.body, query)|
  }

  // Every query token is in some field of a document of the Section.
  predicate SectionFound(n: Normalizer, documents: map<Id, SectionDocument>, section: Id, query: seq<Token>, id: Id) {
    && id in documents && documents[id].section == section
    && var d := documents[id];
       forall j :: 0 <= j < |query| ==>
         j in Having(n, d.title, query) + Having(n, d.summary, query) + Having(n, d.tags, query) + Having(n, d.body, query)
  }

  lemma HavingSnoc(n: Normalizer, s: Text, query: seq<Token>, t: Token)
    ensures Having(n, s, query + [t]) == Having(n, s, query) + if t in TokensOf(n, s) then {|query|} else {}
    ensures |query| !in Having(n, s, query)
  {
    hide TokensOf;
  }

  lemma {:induction false} ScorePoints(n: Normalizer, d: SectionDocument, query: seq<Token>)
    ensures DocumentScore(n, d, query) == SectionPoints(n, d, query)
  {
    hide TokensOf, Having;
    if query != [] {
      var before, t := query[..|query| - 1], query[|query| - 1];
      assert query == before + [t];
      ScorePoints(n, d, before);
      HavingSnoc(n, d.title, before, t);
      HavingSnoc(n, d.tags, before, t);
      HavingSnoc(n, d.summary, before, t);
      HavingSnoc(n, d.body, before, t);
    } else {
      NoneHaving(n, d.title);
      NoneHaving(n, d.tags);
      NoneHaving(n, d.summary);
      NoneHaving(n, d.body);
    }
  }

  lemma NoneHaving(n: Normalizer, s: Text)
    ensures Having(n, s, []) == {}
  {
  }

  lemma HavingAt(n: Normalizer, s: Text, query: seq<Token>, j: nat)
    ensures j in Having(n, s, query) <==> j < |query| && query[j] in TokensOf(n, s)
  {
  }

  lemma MatchingIs(n: Normalizer, documents: map<Id, SectionDocument>, section: Id, query: seq<Token>, id: Id)
    ensures id in Matching(n, documents, section, query) <==> SectionFound(n, documents, section, query, id)
  {
    hide TokensOf, Having;
    if id in documents && documents[id].section == section {
      var d := documents[id];
      var all := Having(n, d.title, query) + Having(n, d.summary, query) + Having(n, d.tags, query) + Having(n, d.body, query);
      forall j: nat ensures j in all <==> j < |query| && DocumentHas(n, d, query[j]) {
        HavingAt(n, d.title, query, j);
        HavingAt(n, d.summary, query, j);
        HavingAt(n, d.tags, query, j);
        HavingAt(n, d.body, query, j);
        if j < |query| {
          HasSome(n, d, query[j]);
        }
      }
      hide DocumentHas;
    }
  }

  lemma HasSome(n: Normalizer, d: SectionDocument, t: Token)
    ensures DocumentHas(n, d, t) <==>
            t in TokensOf(n, d.title) || t in TokensOf(n, d.summary) || t in TokensOf(n, d.tags) || t in TokensOf(n, d.body)
  {
    hide TokensOf;
    assert FIELDS[0] == Title && FIELDS[1] == Summary && FIELDS[2] == Tags && FIELDS[3] == Body;
    assert FieldTokens(n, d, Title) == TokensOf(n, d.title) && FieldTokens(n, d, Summary) == TokensOf(n, d.summary);
    assert FieldTokens(n, d, Tags) == TokensOf(n, d.tags) && FieldTokens(n, d, Body) == TokensOf(n, d.body);
  }

  function ScoreOf(n: Normalizer, d: SectionDocument, query: seq<Token>): real
    requires query != []
  {
    PerToken(SectionPoints(n, d, query), |query|)
  }

  function PerToken(points: int, tokens: nat): real
    requires tokens > 0
  {
    points as real / tokens as real
  }

  function Utf8Text(s: Text): seq<PercentCodec.Octet> {
    if s == [] then [] else Utf8Text(s[..|s| - 1]) + PercentCodec.Utf8(s[|s| - 1])
  }

  // The byte limits count the bytes of the text in UTF-8.
  lemma {:induction false} BytesAreUtf8(s: Text)
    ensures Utf8Bytes(s) == |Utf8Text(s)|
  {
    if s != [] {
      BytesAreUtf8(s[..|s| - 1]);
    }
  }

  // The higher score first, and on equal scores the smaller id first.
  predicate ScoredBefore(score: real, id: Id, otherScore: real, other: Id) {
    score > otherScore || (score == otherScore && id < other)
  }

  ghost predicate RankedHits(
    ranks: seq<Rank>, hits: seq<SectionHit>, n: Normalizer, documents: map<Id, SectionDocument>, section: Id, query: seq<Token>, limit: int)
  {
    query != [] && BestFirst(ranks, n, documents, section, query) && hits == HitsOf(Limited(ranks, limit), |query|)
  }

  lemma RanksOfAnswer(
    hits: seq<SectionHit>, n: Normalizer, documents: map<Id, SectionDocument>, section: Id, text: Text, limit: int)
    requires Answers(Ok(hits), n, documents, section, text, limit)
    ensures exists ranks :: RankedHits(ranks, hits, n, documents, section, TokensOf(n, text), limit)
  {
    var query := TokensOf(n, text);
    hide TokensOf, Matching, Utf8Bytes, BestFirst, HitsOf;
    var ranks: seq<Rank> :| BestFirst(ranks, n, documents, section, query) && Result<seq<SectionHit>, Refusal>.Ok(hits) == Ok(HitsOf(Limited(ranks, limit), |query|));
    assert RankedHits(ranks, hits, n, documents, section, query, limit);
  }

  lemma HitAt(ranks: seq<Rank>, limit: int, tokens: nat, i: nat)
    requires tokens > 0 && i < |HitsOf(Limited(ranks, limit), tokens)|
    ensures i < |ranks| && HitsOf(Limited(ranks, limit), tokens)[i] == SectionHit(ranks[i].pageId, PerToken(-ranks[i].minusScore, tokens))
    ensures limit >= 0 ==> |HitsOf(Limited(ranks, limit), tokens)| <= limit
  {
  }

  lemma RankedHitIs(
    ranks: seq<Rank>, hits: seq<SectionHit>, n: Normalizer, documents: map<Id, SectionDocument>, section: Id, query: seq<Token>, limit: int, i: nat)
    requires RankedHits(ranks, hits, n, documents, section, query, limit) && i < |hits|
    ensures query != [] && SectionFound(n, documents, section, query, hits[i].documentId) && hits[i].documentId in documents
    ensures hits[i].score == ScoreOf(n, documents[hits[i].documentId], query)
    ensures limit >= 0 ==> |hits| <= limit
  {
    hide SectionPoints, BestFirst, PerToken, HitsOf;
    HitAt(ranks, limit, |query|, i);
    RankAt(ranks, n, documents, section, query, i);
  }

  // Every hit is a matching document with its points per query token, and the limit holds.
  lemma HitIs(
    hits: seq<SectionHit>, n: Normalizer, documents: map<Id, SectionDocument>, section: Id, text: Text, limit: int, i: nat)
    requires Answers(Ok(hits), n, documents, section, text, limit) && i < |hits|
    ensures var query := TokensOf(n, text);
            && query != [] && SectionFound(n, documents, section, query, hits[i].documentId)
            && hits[i].documentId in documents && hits[i].score == ScoreOf(n, documents[hits[i].documentId], query)
    ensures limit >= 0 ==> |hits| <= limit
  {
    RanksOfAnswer(hits, n, documents, section, text, limit);
    hide *;
    var ranks: seq<Rank> :| RankedHits(ranks, hits, n, documents, section, TokensOf(n, text), limit);
    RankedHitIs(ranks, hits, n, documents, section, TokensOf(n, text), limit, i);
  }

  lemma RankedHitOrder(
    ranks: seq<Rank>, hits: seq<SectionHit>, n: Normalizer, documents: map<Id, SectionDocument>, section: Id, query: seq<Token>, limit: int, i: nat, j: nat)
    requires RankedHits(ranks, hits, n, documents, section, query, limit) && i < j < |hits|
    ensures ScoredBefore(hits[i].score, hits[i].documentId, hits[j].score, hits[j].documentId)
  {
    hide SectionFound, SectionPoints, BestFirst, PerToken, HitsOf;
    HitAt(ranks, limit, |query|, i);
    HitAt(ranks, limit, |query|, j);
    RankOrder(ranks, n, documents, section, query, i, j);
    Quotient(-ranks[i].minusScore, -ranks[j].minusScore, |query|);
  }

  // Of two hits the first has the higher score, or the same and the smaller id.
  lemma HitOrder(
    hits: seq<SectionHit>, n: Normalizer, documents: map<Id, SectionDocument>, section: Id, text: Text, limit: int, i: nat, j: nat)
    requires Answers(Ok(hits), n, documents, section, text, limit) && i < j < |hits|
    ensures ScoredBefore(hits[i].score, hits[i].documentId, hits[j].score, hits[j].documentId)
  {
    RanksOfAnswer(hits, n, documents, section, text, limit);
    hide *;
    var ranks: seq<Rank> :| RankedHits(ranks, hits, n, documents, section, TokensOf(n, text), limit);
    RankedHitOrder(ranks, hits, n, documents, section, TokensOf(n, text), limit, i, j);
  }

  lemma RankedLeftOut(
    ranks: seq<Rank>, hits: seq<SectionHit>, n: Normalizer, documents: map<Id, SectionDocument>, section: Id, query: seq<Token>, limit: int, id: Id)
    requires RankedHits(ranks, hits, n, documents, section, query, limit) && SectionFound(n, documents, section, query, id)
    requires forall i :: 0 <= i < |hits| ==> hits[i].documentId != id
    ensures |hits| == limit
    ensures query != [] && id in documents
    ensures forall i :: 0 <= i < |hits| ==>
              ScoredBefore(hits[i].score, hits[i].documentId, ScoreOf(n, documents[id], query), id)
  {
    hide SectionFound, SectionPoints, BestFirst, PerToken, HitsOf;
    var k := RankedId(ranks, n, documents, section, query, id);
    CutOff(ranks, limit, |query|, k);
    if k < |hits| {
      HitAt(ranks, limit, |query|, k);
    }
    forall i | 0 <= i < |hits| ensures ScoredBefore(hits[i].score, hits[i].documentId, ScoreOf(n, documents[id], query), id) {
      HitAt(ranks, limit, |query|, i);
      RankOrder(ranks, n, documents, section, query, i, k);
      Quotient(-ranks[i].minusScore, -ranks[k].minusScore, |query|);
    }
  }

  // A matching document is among the hits, or the limit is reached and every hit comes before it.
  lemma LeftOut(
    hits: seq<SectionHit>, n: Normalizer, documents: map<Id, SectionDocument>, section: Id, text: Text, limit: int, id: Id)
    requires Answers(Ok(hits), n, documents, section, text, limit) && SectionFound(n, documents, section, TokensOf(n, text), id)
    requires forall i :: 0 <= i < |hits| ==> hits[i].documentId != id
    ensures |hits| == limit
    ensures TokensOf(n, text) != [] && id in documents
    ensures forall i :: 0 <= i < |hits| ==>
              ScoredBefore(hits[i].score, hits[i].documentId, ScoreOf(n, documents[id], TokensOf(n, text)), id)
  {
    RanksOfAnswer(hits, n, documents, section, text, limit);
    hide *;
    var ranks: seq<Rank> :| RankedHits(ranks, hits, n, documents, section, TokensOf(n, text), limit);
    RankedLeftOut(ranks, hits, n, documents, section, TokensOf(n, text), limit, id);
  }

  lemma CutOff(ranks: seq<Rank>, limit: int, tokens: nat, k: nat)
    requires tokens > 0 && k < |ranks|
    ensures var hits := HitsOf(Limited(ranks, limit), tokens); k < |hits| || |hits| == limit
  {
  }

  // The ranks are those of the matching documents, with their points, in descending order.
  lemma RankAt(ranks: seq<Rank>, n: Normalizer, documents: map<Id, SectionDocument>, section: Id, query: seq<Token>, i: nat)
    requires BestFirst(ranks, n, documents, section, query) && i < |ranks|
    ensures SectionFound(n, documents, section, query, ranks[i].pageId) && ranks[i].pageId in documents
    ensures -ranks[i].minusScore == SectionPoints(n, documents[ranks[i].pageId], query)
  {
    hide SectionPoints, DocumentScore, DocumentMatches, Having;
    assert ranks[i] in ranks;
    MatchingIs(n, documents, section, query, ranks[i].pageId);
    ScorePoints(n, documents[ranks[i].pageId], query);
  }

  lemma RankedId(ranks: seq<Rank>, n: Normalizer, documents: map<Id, SectionDocument>, section: Id, query: seq<Token>, id: Id) returns (k: nat)
    requires BestFirst(ranks, n, documents, section, query) && SectionFound(n, documents, section, query, id)
    ensures id in documents && k < |ranks| && ranks[k] == Rank(-(SectionPoints(n, documents[id], query) as int), id)
  {
    hide SectionPoints, DocumentScore, DocumentMatches, Having;
    MatchingIs(n, documents, section, query, id);
    ScorePoints(n, documents[id], query);
    var r := Rank(-(SectionPoints(n, documents[id], query) as int), id);
    assert r in ranks;
    k :| 0 <= k < |ranks| && ranks[k] == r;
  }

  lemma RankOrder(ranks: seq<Rank>, n: Normalizer, documents: map<Id, SectionDocument>, section: Id, query: seq<Token>, i: nat, j: nat)
    requires BestFirst(ranks, n, documents, section, query) && i < j < |ranks|
    ensures -ranks[i].minusScore > -ranks[j].minusScore || (ranks[i].minusScore == ranks[j].minusScore && ranks[i].pageId < ranks[j].pageId)
  {
    assert Less(ranks[i], ranks[j]);
  }

  lemma Quotient(a: int, b: int, n: int)
    requires n > 0
    ensures a > b ==> PerToken(a, n) > PerToken(b, n)
  {
  }
}
