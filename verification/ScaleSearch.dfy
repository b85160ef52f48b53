// The gram index of the scale experiment against the scan of every document.
//
// Texts and keywords are taken as already normalized; Page ids are integers, whose order stands for
// the order of the id strings; a scoped term is the pair of a Library and a token.
module ScaleSearch {
  import opened Common
  import opened Tokenizer
  import opened Strings

  type Id = int

  datatype Document = Document(
    pageId: Id, library: Id, title: Text, tags: seq<string>, occurredAt: int, body: Text, deleted: bool)

  datatype Query = Query(
    keywords: seq<Text>, libraries: seq<Id>, tagsAny: seq<string>, occurredFrom: Option<int>, occurredBefore: Option<int>)

  // ---- the database the documents are loaded into ----

  datatype Row = Row(pageId: Id, library: Id, title: Text, tags: string, occurredAt: int, body: Text, deleted: bool)
  datatype Term = Term(library: Id, token: Token)
  datatype IndexRow = IndexRow(pageId: Id, title: seq<Term>, body: seq<Term>)
  datatype Database = Database(documents: seq<Row>, tags: set<(Id, string)>, index: seq<IndexRow>)

  function Terms(u: Unicode, library: Id, s: Text): seq<Term> {
    seq(|Tokens(u, s)|, i requires 0 <= i < |Tokens(u, s)| => Term(library, Tokens(u, s)[i]))
  }

  function RowFor(d: Document): Row {
    Row(d.pageId, d.library, d.title, Join(d.tags, ','), d.occurredAt, d.body, d.deleted)
  }

  function IndexRowFor(u: Unicode, d: Document): IndexRow {
    IndexRow(d.pageId, Terms(u, d.library, d.title), Terms(u, d.library, d.body))
  }

  function TagRows(pageId: Id, tags: seq<string>): set<(Id, string)> {
    set k | 0 <= k < |tags| :: (pageId, tags[k])
  }

  // The tables after loading the documents one by one. Deleted Pages are stored but not indexed.
  function DatabaseOf(u: Unicode, documents: seq<Document>): Database {
    if documents == [] then Database([], {}, [])
    else
      var db, d := DatabaseOf(u, documents[..|documents| - 1]), documents[|documents| - 1];
      Database(db.documents + [RowFor(d)], db.tags + TagRows(d.pageId, d.tags),
               if d.deleted then db.index else db.index + [IndexRowFor(u, d)])
  }

  predicate DistinctIds(documents: seq<Document>) {
    forall i, j :: 0 <= i < j < |documents| ==> documents[i].pageId != documents[j].pageId
  }

  predicate DistinctTags(tags: seq<string>) { forall i, j :: 0 <= i < j < |tags| ==> tags[i] != tags[j] }

  // The primary keys the loader can violate.
  predicate Loadable(documents: seq<Document>) {
    DistinctIds(documents) && forall i :: 0 <= i < |documents| ==> DistinctTags(documents[i].tags)
  }

  // ---- MATCH ----

  // One parenthesized conjunction of the MATCH expression.
  function Conjunction(u: Unicode, library: Id, keyword: Text): seq<Term> { Terms(u, library, keyword) }

  predicate HasTerm(row: IndexRow, t: Term) { t in row.title || t in row.body }

  predicate HasAll(row: IndexRow, terms: seq<Term>) {
    terms != [] && forall i :: 0 <= i < |terms| ==> HasTerm(row, terms[i])
  }

  predicate Matches(u: Unicode, q: Query, row: IndexRow) {
    exists i, j :: 0 <= i < |q.libraries| && 0 <= j < |q.keywords| && HasAll(row, Conjunction(u, q.libraries[i], q.keywords[j]))
  }

  // The conditions on the document row.
  predicate Filtered(db: Database, q: Query, row: Row) {
    && row.library in q.libraries
    && !row.deleted
    && (q.tagsAny != [] ==> exists k :: 0 <= k < |q.tagsAny| && (row.pageId, q.tagsAny[k]) in db.tags)
    && (q.occurredFrom.Some? ==> row.occurredAt >= q.occurredFrom.value)
    && (q.occurredBefore.Some? ==> row.occurredAt < q.occurredBefore.value)
  }

  // Some keyword has a token to look for; otherwise no statement is run.
  predicate Expressible(u: Unicode, q: Query) {
    exists j :: 0 <= j < |q.keywords| && Tokens(u, q.keywords[j]) != []
  }

  predicate Selected(u: Unicode, db: Database, q: Query, row: Row) {
    && row in db.documents
    && Filtered(db, q, row)
    && (q.keywords != [] ==> exists m :: 0 <= m < |db.index| && db.index[m].pageId == row.pageId && Matches(u, q, db.index[m]))
  }

  // SQLite returns the selected rows in no particular order.
  ghost predicate Enumerates(rows: seq<Row>, u: Unicode, db: Database, q: Query) {
    && (forall row :: row in rows <==> Selected(u, db, q, row))
    && forall i, j :: 0 <= i < j < |rows| ==> rows[i] != rows[j]
  }

  // ---- ranking ----

  datatype Rank = Rank(minusScore: int, pageId: Id)

  predicate Contains(s: Text, k: Text) { exists p :: 0 <= p <= |s| && PieceAt(s, p, k) }

  predicate Hit(title: Text, body: Text, k: Text) { Contains(title, k) || Contains(body, k) }

  function KeywordScore(title: Text, body: Text, keywords: seq<Text>): int {
    if keywords == [] then 0
    else
      var k := keywords[|keywords| - 1];
      KeywordScore(title, body, keywords[..|keywords| - 1])
      + (if Contains(title, k) then 10 else 0) + (if Contains(body, k) then 1 else 0)
  }

  function TagCount(tags: seq<string>, any: seq<string>): int {
    if tags == [] then 0 else TagCount(tags[..|tags| - 1], any) + (if tags[|tags| - 1] in any then 1 else 0)
  }

  predicate AnyHit(title: Text, body: Text, keywords: seq<Text>) {
    exists j :: 0 <= j < |keywords| && Hit(title, body, keywords[j])
  }

  function RankOf(pageId: Id, title: Text, body: Text, tags: seq<string>, q: Query): Option<Rank> {
    if q.keywords != [] && !AnyHit(title, body, q.keywords) then None
    else Some(Rank(-(KeywordScore(title, body, q.keywords) + 6 * TagCount(tags, q.tagsAny)), pageId))
  }

  predicate Less(a: Rank, b: Rank) {
    a.minusScore < b.minusScore || (a.minusScore == b.minusScore && a.pageId < b.pageId)
  }

  predicate Ascending(s: seq<Rank>) { forall i, j :: 0 <= i < j < |s| ==> Less(s[i], s[j]) }

  function Ids(s: seq<Rank>): seq<Id> { seq(|s|, i requires 0 <= i < |s| => s[i].pageId) }

  // ---- the two programs ----

  // The scan of every document.
  predicate Wanted(d: Document, q: Query) {
    && !d.deleted && d.library in q.libraries
    && (q.tagsAny != [] ==> exists k :: 0 <= k < |d.tags| && d.tags[k] in q.tagsAny)
    && (q.occurredFrom.Some? ==> d.occurredAt >= q.occurredFrom.value)
    && (q.occurredBefore.Some? ==> d.occurredAt < q.occurredBefore.value)
  }

  function RankOfDocument(d: Document, q: Query): Option<Rank> { RankOf(d.pageId, d.title, d.body, d.tags, q) }

  function RankOfRow(row: Row, q: Query): Option<Rank> { RankOf(row.pageId, row.title, row.body, Split(row.tags, ','), q) }

  function RanksOfDocuments(documents: seq<Document>, q: Query): seq<Rank> {
    if documents == [] then []
    else
      var d := documents[|documents| - 1];
      RanksOfDocuments(documents[..|documents| - 1], q)
      + (if Wanted(d, q) && RankOfDocument(d, q).Some? then [RankOfDocument(d, q).value] else [])
  }

  function RanksOfRows(rows: seq<Row>, q: Query): seq<Rank> {
    if rows == [] then []
    else
      var row := rows[|rows| - 1];
      RanksOfRows(rows[..|rows| - 1], q) + (if RankOfRow(row, q).Some? then [RankOfRow(row, q).value] else [])
  }

  function InsertRank(s: seq<Rank>, r: Rank): seq<Rank> {
    if s == [] || Less(r, s[0]) then [r] + s else [s[0]] + InsertRank(s[1..], r)
  }

  function Sorted(s: seq<Rank>): seq<Rank> {
    if s == [] then [] else InsertRank(Sorted(s[..|s| - 1]), s[|s| - 1])
  }

  // What the full scan answers.
  function Expected(documents: seq<Document>, q: Query): seq<Id> { Ids(Sorted(RanksOfDocuments(documents, q))) }

  datatype Answer = Refused | Found(ids: seq<Id>)

  // What the index answers when the selected rows come back in this order.
  function Search(u: Unicode, rows: seq<Row>, q: Query): Answer {
    if q.libraries == [] then Refused
    else if q.keywords != [] && !Expressible(u, q) then Found([])
    else Found(Ids(Sorted(RanksOfRows(rows, q))))
  }

  method LoadTags(tags: set<(Id, string)>, pageId: Id, more: seq<string>) returns (r: Option<set<(Id, string)>>)
    requires forall tag :: (pageId, tag) !in tags
    ensures r == if DistinctTags(more) then Some(tags + TagRows(pageId, more)) else None
  {
    var now := tags;
    for k := 0 to |more|
      invariant now == tags + TagRows(pageId, more[..k]) && DistinctTags(more[..k])
    {
      if (pageId, more[k]) in now {
        return None;
      }
      assert more[..k + 1] == more[..k] + [more[k]];
      now := now + {(pageId, more[k])};
    }
    assert more[..|more|] == more;
    r := Some(now);
  }

  method Load(u: Unicode, documents: seq<Document>) returns (r: Option<Database>)
    ensures r == if Loadable(documents) then Some(DatabaseOf(u, documents)) else None
  {
    var db := Database([], {}, []);
    for i := 0 to |documents|
      invariant Loadable(documents[..i]) && db == DatabaseOf(u, documents[..i])
    {
      var d := documents[i];
      assert documents[..i + 1][..i] == documents[..i];
      LoadedRows(u, documents[..i]);
      forall tag | (d.pageId, tag) in db.tags ensures Tagged(documents[..i], d.pageId, tag) {
        LoadedTags(u, documents[..i], d.pageId, tag);
      }
      hide Loadable;
      if exists j :: 0 <= j < |db.documents| && db.documents[j].pageId == d.pageId {
        ClashingId(documents, i);
        return None;
      }
      var tags := LoadTags(db.tags, d.pageId, d.tags);
      LoadableSoFar(documents, i);
      if tags.None? {
        return None;
      }
      db := Database(db.documents + [RowFor(d)], tags.value, if d.deleted then db.index else db.index + [IndexRowFor(u, d)]);
    }
    assert documents[..|documents|] == documents;
    r := Some(db);
  }

  lemma ClashingId(documents: seq<Document>, i: nat)
    requires i < |documents| && exists j :: 0 <= j < i && documents[j].pageId == documents[i].pageId
    ensures !Loadable(documents)
  {
  }

  lemma LoadableSoFar(documents: seq<Document>, i: nat)
    requires i < |documents| && Loadable(documents[..i])
    requires forall j :: 0 <= j < i ==> documents[j].pageId != documents[i].pageId
    ensures Loadable(documents[..i + 1]) <==> DistinctTags(documents[i].tags)
    ensures Loadable(documents) ==> DistinctTags(documents[i].tags)
  {
    assert documents[..i + 1] == documents[..i] + [documents[i]];
    assert documents[..i + 1][i] == documents[i];
  }

  // The rows loaded so far are those of the documents loaded so far.
  lemma {:induction false} LoadedRows(u: Unicode, documents: seq<Document>)
    ensures var db := DatabaseOf(u, documents);
            |db.documents| == |documents| && forall i :: 0 <= i < |documents| ==> db.documents[i] == RowFor(documents[i])
  {
    if documents != [] {
      var before, d := documents[..|documents| - 1], documents[|documents| - 1];
      LoadedRows(u, before);
      var rows := DatabaseOf(u, before).documents;
      assert DatabaseOf(u, documents).documents == rows + [RowFor(d)];
      hide DatabaseOf, IndexRowFor, RowFor;
      forall i | 0 <= i < |documents| ensures (rows + [RowFor(d)])[i] == RowFor(documents[i]) {
        assert i < |before| ==> documents[i] == before[i];
      }
    }
  }

  lemma {:induction false} LoadedTags(u: Unicode, documents: seq<Document>, id: Id, tag: string)
    ensures (id, tag) in DatabaseOf(u, documents).tags <==> Tagged(documents, id, tag)
  {
    if documents != [] {
      var before, d := documents[..|documents| - 1], documents[|documents| - 1];
      LoadedTags(u, before, id, tag);
      TaggedSnoc(before, d, id, tag);
      assert documents == before + [d];
      hide IndexRowFor, RowFor, Tagged, TagRows;
    }
  }

  ghost predicate Tagged(documents: seq<Document>, id: Id, tag: string) {
    exists d :: d in documents && d.pageId == id && tag in d.tags
  }

  lemma TaggedSnoc(before: seq<Document>, d: Document, id: Id, tag: string)
    ensures Tagged(before + [d], id, tag) <==> Tagged(before, id, tag) || (id, tag) in TagRows(d.pageId, d.tags)
  {
    if Tagged(before, id, tag) {
      var e :| e in before && e.pageId == id && tag in e.tags;
      assert e in before + [d];
    }
    if d.pageId == id && tag in d.tags {
      assert d in before + [d];
    }
  }

  method SortRanks(ranked: seq<Rank>) returns (s: seq<Rank>)
    ensures s == Sorted(ranked)
  {
    s := [];
    for i := 0 to |ranked|
      invariant s == Sorted(ranked[..i])
    {
      assert ranked[..i + 1][..i] == ranked[..i];
      s := InsertRank(s, ranked[i]);
    }
    assert ranked[..|ranked|] == ranked;
  }

  method ScaleExpected(documents: seq<Document>, q: Query) returns (ids: seq<Id>)
    ensures ids == Expected(documents, q)
  {
    var ranked := [];
    for i := 0 to |documents|
      invariant ranked == RanksOfDocuments(documents[..i], q)
    {
      assert documents[..i + 1][..i] == documents[..i];
      if !Wanted(documents[i], q) {
        continue;
      }
      var rank := RankOfDocument(documents[i], q);
      if rank.Some? {
        ranked := ranked + [rank.value];
      }
    }
    assert documents[..|documents|] == documents;
    ranked := SortRanks(ranked);
    ids := Ids(ranked);
  }

  method ScaleSearch(u: Unicode, rows: seq<Row>, q: Query) returns (answer: Answer)
    ensures answer == Search(u, rows, q)
  {
    if q.libraries == [] {
      return Refused;
    }
    if q.keywords != [] && !Expressible(u, q) {
      return Found([]);
    }
    var ranked := [];
    for i := 0 to |rows|
      invariant ranked == RanksOfRows(rows[..i], q)
    {
      assert rows[..i + 1][..i] == rows[..i];
      var rank := RankOfRow(rows[i], q);
      if rank.Some? {
        ranked := ranked + [rank.value];
      }
    }
    assert rows[..|rows|] == rows;
    ranked := SortRanks(ranked);
    answer := Found(Ids(ranked));
  }

  // ---- sorting is determined by what is sorted ----

  lemma {:induction false} InsertMembers(s: seq<Rank>, r: Rank)
    requires Ascending(s) && r !in s
    ensures Ascending(InsertRank(s, r)) && forall x :: x in InsertRank(s, r) <==> x in s || x == r
  {
    if s != [] && !Less(r, s[0]) {
      InsertMembers(s[1..], r);
      assert s == [s[0]] + s[1..];
      var t := InsertRank(s[1..], r);
      forall j | 0 <= j < |t| ensures Less(s[0], t[j]) {
        assert t[j] in t;
      }
    }
  }

  predicate NoRepeats(s: seq<Rank>) { forall i, j :: 0 <= i < j < |s| ==> s[i] != s[j] }

  lemma {:induction false} SortedMembers(s: seq<Rank>)
    requires NoRepeats(s)
    ensures Ascending(Sorted(s)) && forall x :: x in Sorted(s) <==> x in s
  {
    if s != [] {
      var before, r := s[..|s| - 1], s[|s| - 1];
      SortedMembers(before);
      assert s == before + [r];
      InsertMembers(Sorted(before), r);
    }
  }

  lemma RestMembers(a: seq<Rank>)
    requires a != [] && Ascending(a)
    ensures forall x :: x in a[1..] <==> x in a && x != a[0]
  {
    assert a == [a[0]] + a[1..];
    forall x | x in a[1..] ensures x != a[0] {
      var i :| 0 <= i < |a[1..]| && a[1..][i] == x;
      assert Less(a[0], a[i + 1]);
    }
  }

  // An ascending list is determined by its members.
  lemma {:induction false} AscendingUnique(a: seq<Rank>, b: seq<Rank>)
    requires Ascending(a) && Ascending(b) && forall x :: x in a <==> x in b
    ensures a == b
  {
    assert b != [] ==> b[0] in b;
    if a != [] {
      assert a[0] in b;
      assert b[0] in a;
      assert a[0] == b[0];
      RestMembers(a);
      RestMembers(b);
      AscendingUnique(a[1..], b[1..]);
    }
  }

  lemma SameRanksSameOrder(a: seq<Rank>, b: seq<Rank>)
    requires NoRepeats(a) && NoRepeats(b) && forall x :: x in a <==> x in b
    ensures Sorted(a) == Sorted(b)
  {
    SortedMembers(a);
    SortedMembers(b);
    AscendingUnique(Sorted(a), Sorted(b));
  }

  // ---- which ranks the two programs collect ----

  ghost predicate Counts(d: Document, q: Query, r: Rank) { Wanted(d, q) && RankOfDocument(d, q) == Some(r) }

  lemma {:induction false} DocumentRanks(documents: seq<Document>, q: Query)
    requires DistinctIds(documents)
    ensures NoRepeats(RanksOfDocuments(documents, q))
    ensures forall r :: r in RanksOfDocuments(documents, q) <==> exists i :: 0 <= i < |documents| && Counts(documents[i], q, r)
  {
    if documents != [] {
      var before, d := documents[..|documents| - 1], documents[|documents| - 1];
      DocumentRanks(before, q);
      var ranks := RanksOfDocuments(before, q);
      forall r | r in ranks ensures r.pageId != d.pageId {
        var i :| 0 <= i < |before| && Counts(before[i], q, r);
      }
      forall r ensures r in RanksOfDocuments(documents, q) <==> r in ranks || Counts(d, q, r) {
      }
      hide Counts, RanksOfDocuments;
      forall r ensures (exists i :: 0 <= i < |documents| && Counts(documents[i], q, r))
                  <==> (exists i :: 0 <= i < |before| && Counts(before[i], q, r)) || Counts(d, q, r) {
        if i :| 0 <= i < |documents| && Counts(documents[i], q, r) {
          assert i < |before| ==> Counts(before[i], q, r);
        }
        if i :| 0 <= i < |before| && Counts(before[i], q, r) {
          assert Counts(documents[i], q, r);
        }
      }
    }
  }

  ghost predicate DistinctRows(rows: seq<Row>) { forall i, j :: 0 <= i < j < |rows| ==> rows[i].pageId != rows[j].pageId }

  lemma {:induction false} RowRanks(rows: seq<Row>, q: Query)
    requires DistinctRows(rows)
    ensures NoRepeats(RanksOfRows(rows, q))
    ensures forall r :: r in RanksOfRows(rows, q) <==> exists i :: 0 <= i < |rows| && RankOfRow(rows[i], q) == Some(r)
  {
    if rows != [] {
      var before := rows[..|rows| - 1];
      RowRanks(before, q);
      assert forall i :: 0 <= i < |before| ==> before[i] == rows[i];
    }
  }

  // ---- one document and its rows ----

  predicate HanKeywords(q: Query) {
    forall j :: 0 <= j < |q.keywords| ==> q.keywords[j] != [] && AllHan(q.keywords[j])
  }

  lemma {:induction false} IndexRows(u: Unicode, documents: seq<Document>, i: nat)
    requires i < |documents| && !documents[i].deleted
    ensures IndexRowFor(u, documents[i]) in DatabaseOf(u, documents).index
  {
    if i < |documents| - 1 {
      IndexRows(u, documents[..|documents| - 1], i);
    }
  }

  // A Han keyword in a text has all its terms among the terms of the text.
  lemma TermsFound(u: Unicode, library: Id, keyword: Text, s: Text)
    requires keyword != [] && AllHan(keyword) && Contains(s, keyword)
    ensures Terms(u, library, keyword) != []
    ensures forall i :: 0 <= i < |Terms(u, library, keyword)| ==> Terms(u, library, keyword)[i] in Terms(u, library, s)
  {
    var p :| 0 <= p <= |s| && PieceAt(s, p, keyword);
    HanRecall(u, keyword, s, p);
    NoTokens(u, keyword);
    assert Han(keyword[0]);
    var wanted, have := Terms(u, library, keyword), Terms(u, library, s);
    forall i | 0 <= i < |wanted| ensures wanted[i] in have {
      var t := Tokens(u, keyword)[i];
      assert t in Tokens(u, keyword);
      var j :| 0 <= j < |Tokens(u, s)| && Tokens(u, s)[j] == t;
      assert have[j] == wanted[i];
    }
  }

  // Some keyword occurs in the document, so its index row matches the expression.
  lemma HitMatches(u: Unicode, d: Document, q: Query)
    requires HanKeywords(q) && d.library in q.libraries && AnyHit(d.title, d.body, q.keywords)
    ensures Matches(u, q, IndexRowFor(u, d))
  {
    var j :| 0 <= j < |q.keywords| && Hit(d.title, d.body, q.keywords[j]);
    var i :| 0 <= i < |q.libraries| && q.libraries[i] == d.library;
    var k, row := q.keywords[j], IndexRowFor(u, d);
    if Contains(d.title, k) {
      TermsFound(u, d.library, k, d.title);
    } else {
      TermsFound(u, d.library, k, d.body);
    }
    assert HasAll(row, Conjunction(u, q.libraries[i], k));
  }

  // The tag rows of a Page are its tags.
  lemma TagRowsOf(documents: seq<Document>, d: Document, tag: string)
    requires DistinctIds(documents) && d in documents
    ensures Tagged(documents, d.pageId, tag) <==> tag in d.tags
  {
    if Tagged(documents, d.pageId, tag) {
      var e :| e in documents && e.pageId == d.pageId && tag in e.tags;
    }
  }

  lemma SameFilter(u: Unicode, documents: seq<Document>, q: Query, i: nat)
    requires DistinctIds(documents) && i < |documents|
    ensures Filtered(DatabaseOf(u, documents), q, RowFor(documents[i])) <==> Wanted(documents[i], q)
  {
    LoadedRows(u, documents);
    var db, d := DatabaseOf(u, documents), documents[i];
    hide DatabaseOf, DistinctIds, Tagged;
    assert db.documents[i] == RowFor(d);
    forall tag ensures (d.pageId, tag) in db.tags <==> tag in d.tags {
      LoadedTags(u, documents, d.pageId, tag);
      TagRowsOf(documents, d, tag);
    }
    AnyTag(db.tags, d.pageId, d.tags, q.tagsAny);
  }

  lemma AnyTag(rows: set<(Id, string)>, id: Id, tags: seq<string>, wanted: seq<string>)
    requires forall tag :: (id, tag) in rows <==> tag in tags
    ensures (exists k :: 0 <= k < |wanted| && (id, wanted[k]) in rows) <==> (exists m :: 0 <= m < |tags| && tags[m] in wanted)
  {
    if k :| 0 <= k < |wanted| && (id, wanted[k]) in rows {
      var m :| 0 <= m < |tags| && tags[m] == wanted[k];
    }
    if m :| 0 <= m < |tags| && tags[m] in wanted {
      var k :| 0 <= k < |wanted| && wanted[k] == tags[m];
      assert (id, wanted[k]) in rows;
    }
  }

  // Filtering by a tag leaves no untagged document, so splitting the tag column changes no rank.
  lemma SameRank(d: Document, q: Query)
    requires Wanted(d, q) && FreeOf(d.tags, ',')
    ensures RankOfRow(RowFor(d), q) == RankOfDocument(d, q)
  {
    SplitJoin(d.tags, ',');
    if d.tags == [] {
      assert q.tagsAny == [];
    }
  }

  lemma CountedIsSelected(u: Unicode, documents: seq<Document>, q: Query, i: nat, r: Rank)
    requires DistinctIds(documents) && HanKeywords(q) && i < |documents| && Counts(documents[i], q, r)
    ensures Selected(u, DatabaseOf(u, documents), q, RowFor(documents[i]))
  {
    var db, d := DatabaseOf(u, documents), documents[i];
    LoadedRows(u, documents);
    IndexRows(u, documents, i);
    SameFilter(u, documents, q, i);
    assert db.documents[i] == RowFor(d);
    if q.keywords != [] {
      HitMatches(u, d, q);
      assert IndexRowFor(u, d) in db.index;
      var m :| 0 <= m < |db.index| && db.index[m] == IndexRowFor(u, d);
    }
  }

  lemma SelectedIsDocument(u: Unicode, documents: seq<Document>, q: Query, row: Row) returns (i: nat)
    requires DistinctIds(documents) && Selected(u, DatabaseOf(u, documents), q, row)
    ensures i < |documents| && row == RowFor(documents[i]) && Wanted(documents[i], q)
  {
    LoadedRows(u, documents);
    var db := DatabaseOf(u, documents);
    i :| 0 <= i < |db.documents| && db.documents[i] == row;
    SameFilter(u, documents, q, i);
  }

  lemma RowsAreDistinct(u: Unicode, documents: seq<Document>, q: Query, rows: seq<Row>)
    requires DistinctIds(documents) && Enumerates(rows, u, DatabaseOf(u, documents), q)
    ensures DistinctRows(rows)
  {
    forall a, b | 0 <= a < b < |rows| ensures rows[a].pageId != rows[b].pageId {
      assert rows[a] in rows && rows[b] in rows;
      var i := SelectedIsDocument(u, documents, q, rows[a]);
      var j := SelectedIsDocument(u, documents, q, rows[b]);
    }
  }

  lemma SameRanks(u: Unicode, documents: seq<Document>, q: Query, rows: seq<Row>, r: Rank)
    requires DistinctIds(documents) && Enumerates(rows, u, DatabaseOf(u, documents), q) && HanKeywords(q)
    requires forall i :: 0 <= i < |documents| ==> FreeOf(documents[i].tags, ',')
    ensures (exists i :: 0 <= i < |documents| && Counts(documents[i], q, r))
       <==> (exists k :: 0 <= k < |rows| && RankOfRow(rows[k], q) == Some(r))
  {
    hide Selected, Wanted, DatabaseOf, RankOf;
    if i :| 0 <= i < |documents| && Counts(documents[i], q, r) {
      CountedIsSelected(u, documents, q, i, r);
      SameRank(documents[i], q);
      var row := RowFor(documents[i]);
      assert row in rows;
      var k :| 0 <= k < |rows| && rows[k] == row;
    }
    if k :| 0 <= k < |rows| && RankOfRow(rows[k], q) == Some(r) {
      assert rows[k] in rows;
      var i := SelectedIsDocument(u, documents, q, rows[k]);
      SameRank(documents[i], q);
      assert Counts(documents[i], q, r);
    }
  }

  // For Han keywords the index returns exactly the ordered list of the full scan, in whatever order
  // the selected rows come back, for every library, tag and time filter.
  lemma {:induction false} IndexAgreesWithScan(u: Unicode, documents: seq<Document>, q: Query, rows: seq<Row>)
    requires Loadable(documents) && forall i :: 0 <= i < |documents| ==> FreeOf(documents[i].tags, ',')
    requires HanKeywords(q) && Enumerates(rows, u, DatabaseOf(u, documents), q)
    ensures Search(u, rows, q) == if q.libraries == [] then Refused else Found(Expected(documents, q))
  {
    RowsAreDistinct(u, documents, q, rows);
    DocumentRanks(documents, q);
    RowRanks(rows, q);
    forall r ensures r in RanksOfDocuments(documents, q) <==> r in RanksOfRows(rows, q) {
      SameRanks(u, documents, q, rows, r);
    }
    SameRanksSameOrder(RanksOfDocuments(documents, q), RanksOfRows(rows, q));
    if q.keywords != [] {
      NoTokens(u, q.keywords[0]);
      assert Han(q.keywords[0][0]);
    }
  }
}
