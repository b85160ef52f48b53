// The per-Section candidate index: documents are replaced one at a time, and queries are answered
// from the index tables, never from the documents.
//
// `normalize` stands for NFKC followed by case folding. Section and document ids are integers whose
// order stands for the order of the id strings; a scoped token is the pair of a Section and a token.
module SectionSearch {
  import opened Common
  import opened Tokenizer
  import opened ScaleSearch

  const MAX_CONTENT_BYTES := 2 * 1024 * 1024
  const MAX_QUERY_CODEPOINTS := 2048
  const MAX_QUERY_UTF8_BYTES := 4096
  const MAX_QUERY_TOKENS := 64
  const MAX_SEARCH_CANDIDATES := 256
  const MAX_SEARCHABLE_PAGES_PER_SECTION := 1024
  const MAX_DERIVED_TOKENS_PER_DOCUMENT := 65_536

  datatype SectionDocument = SectionDocument(section: Id, title: Text, summary: Text, tags: Text, body: Text)

  datatype Field = Title | Summary | Tags | Body
  const FIELDS := [Title, Summary, Tags, Body]

  datatype Normalizer = Normalizer(u: Unicode, normalize: Text -> Text)

  function TokensOf(n: Normalizer, s: Text): seq<Token> { Tokens(n.u, n.normalize(s)) }

  function FieldText(d: SectionDocument, f: Field): Text {
    match f
    case Title => d.title
    case Summary => d.summary
    case Tags => d.tags
    case Body => d.body
  }

  function Utf8Bytes(s: Text): nat {
    if s == [] then 0
    else
      var c := s[|s| - 1] as int;
      Utf8Bytes(s[..|s| - 1]) + (if c < 0x80 then 1 else if c < 0x800 then 2 else if c < 0x10000 then 3 else 4)
  }

  datatype Refusal =
    | SectionFull | BodyTooLarge | TooManyDerivedTokens
    | QueryTooLong | QueryTooManyBytes | EmptyQuery | QueryTooManyTokens | TooManyCandidates

  // ---- tables ----

  // One row of the full-text table: the scoped tokens of each of its four columns.
  datatype FullTextRow = FullTextRow(
    documentId: Id, section: Id, title: seq<Term>, summary: seq<Term>, tags: seq<Term>, body: seq<Term>)
  // One row of the rank table; all four columns are its key.
  datatype RankRow = RankRow(section: Id, documentId: Id, field: Field, token: Token)

  function Column(row: FullTextRow, f: Field): seq<Term> {
    match f
    case Title => row.title
    case Summary => row.summary
    case Tags => row.tags
    case Body => row.body
  }

  function Scoped(section: Id, tokens: seq<Token>): seq<Term> {
    seq(|tokens|, i requires 0 <= i < |tokens| => Term(section, tokens[i]))
  }

  function FullTextFor(n: Normalizer, id: Id, d: SectionDocument): FullTextRow {
    FullTextRow(id, d.section, Scoped(d.section, TokensOf(n, d.title)), Scoped(d.section, TokensOf(n, d.summary)),
                Scoped(d.section, TokensOf(n, d.tags)), Scoped(d.section, TokensOf(n, d.body)))
  }

  function FieldTokens(n: Normalizer, d: SectionDocument, f: Field): seq<Token> { TokensOf(n, FieldText(d, f)) }

  predicate IsRankRow(n: Normalizer, id: Id, d: SectionDocument, r: RankRow) {
    r.documentId == id && r.section == d.section && r.token in FieldTokens(n, d, r.field)
  }

  function InSection(documents: map<Id, SectionDocument>, section: Id): set<Id> {
    set id | id in documents && documents[id].section == section
  }

  function DerivedTokens(n: Normalizer, d: SectionDocument): nat {
    |TokensOf(n, d.title)| + |TokensOf(n, d.summary)| + |TokensOf(n, d.tags)| + |TokensOf(n, d.body)|
  }

  // ---- the answers, from the documents alone ----

  // Why a replacement is refused.
  function ReplaceRefusal(n: Normalizer, documents: map<Id, SectionDocument>, id: Id, d: SectionDocument): Option<Refusal> {
    if !(id in documents && documents[id].section == d.section)
       && |InSection(documents, d.section)| >= MAX_SEARCHABLE_PAGES_PER_SECTION then Some(SectionFull)
    else if Utf8Bytes(d.body) > MAX_CONTENT_BYTES then Some(BodyTooLarge)
    else if DerivedTokens(n, d) > MAX_DERIVED_TOKENS_PER_DOCUMENT then Some(TooManyDerivedTokens)
    else None
  }

  function QueryRefusal(n: Normalizer, text: Text): Option<Refusal> {
    if |text| > MAX_QUERY_CODEPOINTS then Some(QueryTooLong)
    else if Utf8Bytes(text) > MAX_QUERY_UTF8_BYTES then Some(QueryTooManyBytes)
    else if TokensOf(n, text) == [] then Some(EmptyQuery)
    else if |TokensOf(n, text)| > MAX_QUERY_TOKENS then Some(QueryTooManyTokens)
    else None
  }

  predicate DocumentHas(n: Normalizer, d: SectionDocument, t: Token) {
    exists f :: f in FIELDS && t in FieldTokens(n, d, f)
  }

  predicate DocumentMatches(n: Normalizer, d: SectionDocument, query: seq<Token>) {
    forall k :: 0 <= k < |query| ==> DocumentHas(n, d, query[k])
  }

  function Matching(n: Normalizer, documents: map<Id, SectionDocument>, section: Id, query: seq<Token>): set<Id> {
    set id | id in InSection(documents, section) && DocumentMatches(n, documents[id], query)
  }

  function Weight(f: Field): nat {
    match f
    case Title => 10
    case Tags => 6
    case Summary => 4
    case Body => 1
  }

  function DocumentScore(n: Normalizer, d: SectionDocument, query: seq<Token>): nat {
    if query == [] then 0
    else DocumentScore(n, d, query[..|query| - 1]) + TokenScore(n, d, query[|query| - 1])
  }

  function TokenScore(n: Normalizer, d: SectionDocument, t: Token): nat {
    (if t in TokensOf(n, d.title) then 10 else 0) + (if t in TokensOf(n, d.summary) then 4 else 0)
    + (if t in TokensOf(n, d.tags) then 6 else 0) + (if t in TokensOf(n, d.body) then 1 else 0)
  }

  datatype SectionHit = SectionHit(documentId: Id, score: real)

  // A negative LIMIT is none.
  function Limited(ranks: seq<Rank>, limit: int): seq<Rank> {
    if 0 <= limit < |ranks| then ranks[..limit] else ranks
  }

  function HitsOf(ranks: seq<Rank>, tokens: nat): seq<SectionHit>
    requires tokens > 0
  {
    seq(|ranks|, i requires 0 <= i < |ranks| => SectionHit(ranks[i].pageId, -ranks[i].minusScore as real / tokens as real))
  }

  // The list of every matching document, best first.
  ghost predicate BestFirst(ranks: seq<Rank>, n: Normalizer, documents: map<Id, SectionDocument>, section: Id, query: seq<Token>) {
    && Ascending(ranks)
    && forall r :: r in ranks <==>
         r.pageId in Matching(n, documents, section, query) && r.minusScore + DocumentScore(n, documents[r.pageId], query) == 0
  }

  // What a search answers, recomputed from the stored documents.
  ghost predicate Answers(
    r: Result<seq<SectionHit>, Refusal>, n: Normalizer, documents: map<Id, SectionDocument>, section: Id, text: Text, limit: int)
  {
    var query := TokensOf(n, text);
    if QueryRefusal(n, text).Some? then r == Err(QueryRefusal(n, text).value)
    else if |InSection(documents, section)| > MAX_SEARCHABLE_PAGES_PER_SECTION then r == Err(SectionFull)
    else if |Matching(n, documents, section, query)| > MAX_SEARCH_CANDIDATES then r == Err(TooManyCandidates)
    else exists ranks :: BestFirst(ranks, n, documents, section, query) && r == Ok(HitsOf(Limited(ranks, limit), |query|))
  }

  // ---- the tables follow the documents ----

  ghost predicate FullTextOk(n: Normalizer, documents: map<Id, SectionDocument>, index: seq<FullTextRow>) {
    && (forall r :: r in index ==> r.documentId in documents && r == FullTextFor(n, r.documentId, documents[r.documentId]))
    && (forall id :: id in documents ==> FullTextFor(n, id, documents[id]) in index)
    && OneRowEach(index)
  }

  ghost predicate RankOk(n: Normalizer, documents: map<Id, SectionDocument>, rank: set<RankRow>) {
    forall r :: r in rank <==> r.documentId in documents && IsRankRow(n, r.documentId, documents[r.documentId], r)
  }

  // Every Section is within its Page limit and every document within its own.
  ghost predicate WithinLimits(n: Normalizer, documents: map<Id, SectionDocument>) {
    && (forall section :: |InSection(documents, section)| <= MAX_SEARCHABLE_PAGES_PER_SECTION)
    && (forall id :: id in documents ==>
          Utf8Bytes(documents[id].body) <= MAX_CONTENT_BYTES && DerivedTokens(n, documents[id]) <= MAX_DERIVED_TOKENS_PER_DOCUMENT)
  }

  lemma LimitsKept(n: Normalizer, documents: map<Id, SectionDocument>, id: Id, d: SectionDocument)
    requires WithinLimits(n, documents) && ReplaceRefusal(n, documents, id, d).None?
    ensures WithinLimits(n, documents[id := d])
  {
    var after := documents[id := d];
    forall section ensures |InSection(after, section)| <= MAX_SEARCHABLE_PAGES_PER_SECTION {
      SectionCountKept(n, documents, id, d, section);
    }
    hide InSection, ReplaceRefusal;
    assert Utf8Bytes(d.body) <= MAX_CONTENT_BYTES && DerivedTokens(n, d) <= MAX_DERIVED_TOKENS_PER_DOCUMENT by {
      BodyFits(n, documents, id, d);
    }
  }

  lemma BodyFits(n: Normalizer, documents: map<Id, SectionDocument>, id: Id, d: SectionDocument)
    requires ReplaceRefusal(n, documents, id, d).None?
    ensures Utf8Bytes(d.body) <= MAX_CONTENT_BYTES && DerivedTokens(n, d) <= MAX_DERIVED_TOKENS_PER_DOCUMENT
  {
    hide InSection, DerivedTokens, Utf8Bytes;
  }

  lemma SectionCountKept(n: Normalizer, documents: map<Id, SectionDocument>, id: Id, d: SectionDocument, section: Id)
    requires |InSection(documents, section)| <= MAX_SEARCHABLE_PAGES_PER_SECTION && ReplaceRefusal(n, documents, id, d).None?
    ensures |InSection(documents[id := d], section)| <= MAX_SEARCHABLE_PAGES_PER_SECTION
  {
    hide DerivedTokens, Utf8Bytes;
    var before, now := InSection(documents, section), InSection(documents[id := d], section);
    if section != d.section {
      SubsetCount(now, before);
    } else if id in documents && documents[id].section == section {
      assert now == before;
    } else {
      assert now == before + {id};
    }
  }

  // A replacement that is refused changes nothing.
  function Replaced(n: Normalizer, documents: map<Id, SectionDocument>, id: Id, d: SectionDocument): map<Id, SectionDocument> {
    if ReplaceRefusal(n, documents, id, d).Some? then documents else documents[id := d]
  }

  function AfterReplacements(n: Normalizer, documents: map<Id, SectionDocument>, steps: seq<(Id, SectionDocument)>): map<Id, SectionDocument> {
    if steps == [] then documents
    else Replaced(n, AfterReplacements(n, documents, steps[..|steps| - 1]), steps[|steps| - 1].0, steps[|steps| - 1].1)
  }

  // However documents are replaced, moved between Sections or refused, every Section stays within its
  // Page limit and every document within its own limits.
  lemma {:induction false} AlwaysWithinLimits(n: Normalizer, documents: map<Id, SectionDocument>, steps: seq<(Id, SectionDocument)>)
    requires WithinLimits(n, documents)
    ensures WithinLimits(n, AfterReplacements(n, documents, steps))
  {
    hide WithinLimits, ReplaceRefusal;
    if steps != [] {
      var before, step := AfterReplacements(n, documents, steps[..|steps| - 1]), steps[|steps| - 1];
      AlwaysWithinLimits(n, documents, steps[..|steps| - 1]);
      if ReplaceRefusal(n, before, step.0, step.1).None? {
        LimitsKept(n, before, step.0, step.1);
      }
    }
  }

  function Without(index: seq<FullTextRow>, id: Id): seq<FullTextRow> {
    if index == [] then []
    else Without(index[..|index| - 1], id) + (if index[|index| - 1].documentId == id then [] else [index[|index| - 1]])
  }

  ghost predicate OneRowEach(index: seq<FullTextRow>) {
    forall i, j :: 0 <= i < j < |index| ==> index[i].documentId != index[j].documentId
  }

  lemma {:induction false} WithoutMembers(index: seq<FullTextRow>, id: Id)
    requires OneRowEach(index)
    ensures OneRowEach(Without(index, id)) && forall r :: r in Without(index, id) <==> r in index && r.documentId != id
  {
    if index != [] {
      var before, last := index[..|index| - 1], index[|index| - 1];
      WithoutMembers(before, id);
      assert index == before + [last];
      assert forall i :: 0 <= i < |Without(before, id)| ==> Without(before, id)[i] in before;
    }
  }

  lemma OthersStay(n: Normalizer, documents: map<Id, SectionDocument>, index: seq<FullTextRow>, id: Id)
    requires FullTextOk(n, documents, index)
    ensures var rest := Without(index, id);
            && OneRowEach(rest)
            && (forall r :: r in rest ==> r.documentId != id && r.documentId in documents && r == FullTextFor(n, r.documentId, documents[r.documentId]))
            && (forall k :: k in documents && k != id ==> FullTextFor(n, k, documents[k]) in rest)
  {
    WithoutMembers(index, id);
    hide Without, OneRowEach;
    forall k | k in documents && k != id ensures FullTextFor(n, k, documents[k]).documentId != id {
    }
  }

  lemma FullTextKept(n: Normalizer, documents: map<Id, SectionDocument>, index: seq<FullTextRow>, id: Id, d: SectionDocument)
    requires FullTextOk(n, documents, index)
    ensures FullTextOk(n, documents[id := d], Without(index, id) + [FullTextFor(n, id, d)])
  {
    OthersStay(n, documents, index, id);
    FullTextId(n, id, d);
    hide FullTextFor, Without, OneRowEach, FullTextOk;
    RowAdded(n, documents, Without(index, id), id, d);
  }

  lemma RowAdded(n: Normalizer, documents: map<Id, SectionDocument>, rest: seq<FullTextRow>, id: Id, d: SectionDocument)
    requires OneRowEach(rest) && FullTextFor(n, id, d).documentId == id
    requires forall r :: r in rest ==> r.documentId != id && r.documentId in documents && r == FullTextFor(n, r.documentId, documents[r.documentId])
    requires forall k :: k in documents && k != id ==> FullTextFor(n, k, documents[k]) in rest
    ensures FullTextOk(n, documents[id := d], rest + [FullTextFor(n, id, d)])
  {
    hide FullTextFor;
    OneMoreRow(rest, FullTextFor(n, id, d));
    hide OneRowEach;
  }

  lemma OneMoreRow(index: seq<FullTextRow>, row: FullTextRow)
    requires OneRowEach(index) && forall r :: r in index ==> r.documentId != row.documentId
    ensures OneRowEach(index + [row])
  {
    assert forall i :: 0 <= i < |index| ==> index[i] in index;
  }

  lemma FullTextId(n: Normalizer, id: Id, d: SectionDocument)
    ensures FullTextFor(n, id, d).documentId == id
  {
  }

  // ---- rank rows ----

  predicate FieldRankRow(n: Normalizer, id: Id, d: SectionDocument, fields: seq<Field>, r: RankRow) {
    r.field in fields && IsRankRow(n, id, d, r)
  }

  lemma RankKept(n: Normalizer, documents: map<Id, SectionDocument>, rank: set<RankRow>, id: Id, d: SectionDocument, after: set<RankRow>)
    requires RankOk(n, documents, rank)
    requires forall r :: r in after <==> (r in rank && r.documentId != id) || FieldRankRow(n, id, d, FIELDS, r)
    ensures RankOk(n, documents[id := d], after)
  {
    hide FieldTokens;
    forall r: RankRow ensures r.field in FIELDS {
      match r.field
      case Title => assert FIELDS[0] == r.field;
      case Summary => assert FIELDS[1] == r.field;
      case Tags => assert FIELDS[2] == r.field;
      case Body => assert FIELDS[3] == r.field;
    }
  }

  // ---- reading the tables ----

  predicate RowHas(row: FullTextRow, t: Term) { t in row.title || t in row.summary || t in row.tags || t in row.body }

  // MATCH: every quoted token is in some column of the row.
  predicate RowMatches(row: FullTextRow, section: Id, query: seq<Token>) {
    row.section == section && forall k :: 0 <= k < |query| ==> RowHas(row, Term(section, query[k]))
  }

  lemma ScopedMembers(section: Id, tokens: seq<Token>, t: Token)
    ensures Term(section, t) in Scoped(section, tokens) <==> t in tokens
  {
    if t in tokens {
      var i :| 0 <= i < |tokens| && tokens[i] == t;
      assert Scoped(section, tokens)[i] == Term(section, t);
    }
  }

  lemma RowMatchesDocument(n: Normalizer, id: Id, d: SectionDocument, section: Id, query: seq<Token>)
    ensures RowMatches(FullTextFor(n, id, d), section, query) <==> d.section == section && DocumentMatches(n, d, query)
  {
    if d.section == section {
      forall k | 0 <= k < |query| ensures RowHas(FullTextFor(n, id, d), Term(section, query[k])) <==> DocumentHas(n, d, query[k]) {
        RowHasDocument(n, id, d, query[k]);
      }
    }
  }

  lemma RowHasDocument(n: Normalizer, id: Id, d: SectionDocument, t: Token)
    ensures RowHas(FullTextFor(n, id, d), Term(d.section, t)) <==> DocumentHas(n, d, t)
  {
    ScopedMembers(d.section, TokensOf(n, d.title), t);
    ScopedMembers(d.section, TokensOf(n, d.summary), t);
    ScopedMembers(d.section, TokensOf(n, d.tags), t);
    ScopedMembers(d.section, TokensOf(n, d.body), t);
    hide Scoped, TokensOf;
    assert Title in FIELDS && Summary in FIELDS && Tags in FIELDS && Body in FIELDS;
    if t in FieldTokens(n, d, Title) || t in FieldTokens(n, d, Summary) || t in FieldTokens(n, d, Tags) || t in FieldTokens(n, d, Body) {
      assert DocumentHas(n, d, t);
    }
  }

  // The sum the rank query computes for one document and one token.
  function RankedTokenScore(rank: set<RankRow>, section: Id, id: Id, t: Token): nat {
    (if RankRow(section, id, Title, t) in rank then Weight(Title) else 0)
    + (if RankRow(section, id, Summary, t) in rank then Weight(Summary) else 0)
    + (if RankRow(section, id, Tags, t) in rank then Weight(Tags) else 0)
    + (if RankRow(section, id, Body, t) in rank then Weight(Body) else 0)
  }

  function RankedScore(rank: set<RankRow>, section: Id, id: Id, query: seq<Token>): nat {
    if query == [] then 0
    else RankedScore(rank, section, id, query[..|query| - 1]) + RankedTokenScore(rank, section, id, query[|query| - 1])
  }

  // The rank table gives each document the score recomputed from its text.
  lemma {:induction false} ScoresAgree(n: Normalizer, documents: map<Id, SectionDocument>, rank: set<RankRow>, id: Id, query: seq<Token>)
    requires RankOk(n, documents, rank) && id in documents
    ensures RankedScore(rank, documents[id].section, id, query) == DocumentScore(n, documents[id], query)
  {
    if query != [] {
      ScoresAgree(n, documents, rank, id, query[..|query| - 1]);
      TokenScoresAgree(n, documents, rank, id, query[|query| - 1]);
    }
  }

  lemma TokenScoresAgree(n: Normalizer, documents: map<Id, SectionDocument>, rank: set<RankRow>, id: Id, t: Token)
    requires RankOk(n, documents, rank) && id in documents
    ensures RankedTokenScore(rank, documents[id].section, id, t) == TokenScore(n, documents[id], t)
  {
    hide TokensOf;
  }

  // A matching document scores something, so the join drops no candidate.
  lemma {:induction false} MatchScores(n: Normalizer, d: SectionDocument, query: seq<Token>)
    requires query != [] && DocumentMatches(n, d, query)
    ensures DocumentScore(n, d, query) > 0
  {
    hide TokensOf;
    assert DocumentHas(n, d, query[|query| - 1]);
  }

  // ---- the program ----

  class CandidateIndex {
    const n: Normalizer
    var documents: map<Id, SectionDocument>
    var index: seq<FullTextRow>
    var rank: set<RankRow>

    ghost predicate Valid() reads this {
      FullTextOk(n, documents, index) && RankOk(n, documents, rank) && WithinLimits(n, documents)
    }

    constructor (n: Normalizer)
      ensures Valid() && this.n == n && documents == map[]
    {
      this.n := n;
      documents, index, rank := map[], [], {};
      new;
      assert forall section :: InSection(documents, section) == {};
    }

    // Replaces the current text of a document, which may move it to another Section.
    method Replace(id: Id, d: SectionDocument) returns (refusal: Option<Refusal>)
      requires Valid()
      modifies this
      ensures Valid() && refusal == ReplaceRefusal(n, old(documents), id, d)
      ensures documents == Replaced(n, old(documents), id, d)
      ensures refusal.Some? ==> index == old(index) && rank == old(rank)
    {
      hide FullTextOk, RankOk, WithinLimits, TokensOf, Utf8Bytes;
      if !(id in documents && documents[id].section == d.section)
         && |InSection(documents, d.section)| >= MAX_SEARCHABLE_PAGES_PER_SECTION {
        return Some(SectionFull);
      }
      if Utf8Bytes(d.body) > MAX_CONTENT_BYTES {
        return Some(BodyTooLarge);
      }
      var tokens := DeriveTokens(d);
      if tokens.None? {
        return Some(TooManyDerivedTokens);
      }
      LimitsKept(n, documents, id, d);
      FullTextKept(n, documents, index, id, d);
      index := Without(index, id);
      rank := set r | r in rank && r.documentId != id;
      ghost var kept := rank;
      documents := documents[id := d];
      index := index + [FullTextRow(id, d.section, Scoped(d.section, tokens.value[0]), Scoped(d.section, tokens.value[1]),
                                    Scoped(d.section, tokens.value[2]), Scoped(d.section, tokens.value[3]))];
      InsertRankRows(id, d, tokens.value);
      RankKept(n, old(documents), old(rank), id, d, rank);
      refusal := None;
    }

    // The tokens of title, summary, tags and body, within one budget.
    method DeriveTokens(d: SectionDocument) returns (r: Option<seq<seq<Token>>>)
      ensures r == if DerivedTokens(n, d) <= MAX_DERIVED_TOKENS_PER_DOCUMENT
                   then Some([TokensOf(n, d.title), TokensOf(n, d.summary), TokensOf(n, d.tags), TokensOf(n, d.body)])
                   else None
    {
      hide TokensOf;
      r := None;
      var title := FieldWithin(d.title, 0);
      if title.Some? {
        var summary := FieldWithin(d.summary, |title.value|);
        if summary.Some? {
          var tags := FieldWithin(d.tags, |title.value| + |summary.value|);
          if tags.Some? {
            var body := FieldWithin(d.body, |title.value| + |summary.value| + |tags.value|);
            if body.Some? {
              r := Some([title.value, summary.value, tags.value, body.value]);
            }
          }
        }
      }
    }

    // The tokens of one field, within what the fields before it left over.
    method FieldWithin(text: Text, derived: nat) returns (r: Option<seq<Token>>)
      requires derived <= MAX_DERIVED_TOKENS_PER_DOCUMENT
      ensures r == if derived + |TokensOf(n, text)| <= MAX_DERIVED_TOKENS_PER_DOCUMENT then Some(TokensOf(n, text)) else None
    {
      r := ApplicationTokens(n.u, n.normalize(text), Some(MAX_DERIVED_TOKENS_PER_DOCUMENT - derived));
    }

    method InsertRankRows(id: Id, d: SectionDocument, tokens: seq<seq<Token>>)
      requires tokens == [TokensOf(n, d.title), TokensOf(n, d.summary), TokensOf(n, d.tags), TokensOf(n, d.body)]
      modifies this`rank
      ensures forall r :: r in rank <==> r in old(rank) || FieldRankRow(n, id, d, FIELDS, r)
    {
      hide TokensOf;
      for i := 0 to 4
        invariant forall r :: r in rank <==> r in old(rank) || FieldRankRow(n, id, d, FIELDS[..i], r)
      {
        ghost var before := rank;
        for k := 0 to |tokens[i]|
          invariant forall r :: r in rank <==> r in before || (r in FieldRows(id, d.section, FIELDS[i], tokens[i][..k]))
        {
          assert tokens[i][..k + 1] == tokens[i][..k] + [tokens[i][k]];
          rank := rank + {RankRow(d.section, id, FIELDS[i], tokens[i][k])};
        }
        assert tokens[i][..|tokens[i]|] == tokens[i];
        assert FIELDS[..i + 1] == FIELDS[..i] + [FIELDS[i]];
      }
      assert FIELDS[..4] == FIELDS;
    }

    // The ids of the rows MATCH and the Section select, no more than one beyond the limit.
    method SelectCandidates(section: Id, query: seq<Token>) returns (ids: seq<Id>)
      ensures if |MatchingIds(index, section, query)| > MAX_SEARCH_CANDIDATES then |ids| > MAX_SEARCH_CANDIDATES
              else ids == MatchingIds(index, section, query)
    {
      ids := [];
      var i := 0;
      while i < |index| && |ids| <= MAX_SEARCH_CANDIDATES
        invariant 0 <= i <= |index| && ids == MatchingIds(index[..i], section, query)
      {
        assert index[..i + 1][..i] == index[..i];
        if RowMatches(index[i], section, query) {
          ids := ids + [index[i].documentId];
        }
        i := i + 1;
      }
      MatchingIdsGrow(index, section, query, i);
      assert index[..|index|] == index;
    }

    // The rank query: candidates joined with their rank rows, best first.
    method RankCandidates(ids: seq<Id>, section: Id, query: seq<Token>) returns (ranks: seq<Rank>)
      ensures ranks == Sorted(CandidateRanks(rank, ids, section, query))
    {
      ranks := [];
      for i := 0 to |ids|
        invariant ranks == CandidateRanks(rank, ids[..i], section, query)
      {
        assert ids[..i + 1][..i] == ids[..i];
        var score: int := RankedScore(rank, section, ids[i], query);
        if score > 0 {
          ranks := ranks + [Rank(0 - score, ids[i])];
        }
      }
      assert ids[..|ids|] == ids;
      ranks := SortRanks(ranks);
    }

    method Search(text: Text, section: Id, limit: int) returns (r: Result<seq<SectionHit>, Refusal>)
      requires Valid()
      ensures Answers(r, n, documents, section, text, limit)
    {
      hide FullTextOk, RankOk, WithinLimits, Tokens, Utf8Bytes, MatchingIds, CandidateRanks, BestFirst;
      if |text| > MAX_QUERY_CODEPOINTS {
        return Err(QueryTooLong);
      }
      if Utf8Bytes(text) > MAX_QUERY_UTF8_BYTES {
        return Err(QueryTooManyBytes);
      }
      var tokens := ApplicationTokens(n.u, n.normalize(text), None);
      var query := tokens.value;
      if query == [] {
        return Err(EmptyQuery);
      }
      if |query| > MAX_QUERY_TOKENS {
        return Err(QueryTooManyTokens);
      }
      if |InSection(documents, section)| > MAX_SEARCHABLE_PAGES_PER_SECTION {
        return Err(SectionFull);
      }
      var ids := SelectCandidates(section, query);
      MatchingIdsAre(n, documents, index, section, query);
      if |ids| > MAX_SEARCH_CANDIDATES {
        return Err(TooManyCandidates);
      }
      var ranks := RankCandidates(ids, section, query);
      CandidatesAreBestFirst(n, documents, rank, ids, section, query);
      r := Ok(HitsOf(Limited(ranks, limit), |query|));
    }
  }

  function MatchingIds(index: seq<FullTextRow>, section: Id, query: seq<Token>): seq<Id> {
    if index == [] then []
    else MatchingIds(index[..|index| - 1], section, query)
         + (if RowMatches(index[|index| - 1], section, query) then [index[|index| - 1].documentId] else [])
  }

  lemma {:induction false} MatchingIdsGrow(index: seq<FullTextRow>, section: Id, query: seq<Token>, i: nat)
    requires i <= |index|
    ensures |MatchingIds(index[..i], section, query)| <= |MatchingIds(index, section, query)|
  {
    if i < |index| {
      assert index[..|index| - 1][..i] == index[..i];
      MatchingIdsGrow(index[..|index| - 1], section, query, i);
    } else {
      assert index[..i] == index;
    }
  }

  predicate DistinctIdList(ids: seq<Id>) { forall i, j :: 0 <= i < j < |ids| ==> ids[i] != ids[j] }

  predicate Selects(row: FullTextRow, section: Id, query: seq<Token>, id: Id) {
    row.documentId == id && RowMatches(row, section, query)
  }

  lemma {:induction false} MatchingIdsMembers(index: seq<FullTextRow>, section: Id, query: seq<Token>)
    requires OneRowEach(index)
    ensures DistinctIdList(MatchingIds(index, section, query))
    ensures forall id :: id in MatchingIds(index, section, query) <==> exists r :: r in index && Selects(r, section, query, id)
  {
    if index != [] {
      hide RowMatches;
      var before, last := index[..|index| - 1], index[|index| - 1];
      MatchingIdsMembers(before, section, query);
      var ids := MatchingIds(before, section, query);
      assert index == before + [last];
      forall id | id in ids ensures id != last.documentId {
        var r :| r in before && Selects(r, section, query, id);
      }
      assert forall i :: 0 <= i < |ids| ==> ids[i] in ids;
      forall id ensures id in MatchingIds(index, section, query) <==> id in ids || Selects(last, section, query, id) {
      }
    }
  }

  lemma {:induction false} DistinctCount(ids: seq<Id>)
    requires DistinctIdList(ids)
    ensures |set id | id in ids| == |ids|
  {
    if ids != [] {
      var before, last := ids[..|ids| - 1], ids[|ids| - 1];
      DistinctCount(before);
      assert (set id | id in ids) == (set id | id in before) + {last};
    } else {
      assert (set id | id in ids) == {};
    }
  }

  // The selected rows are those of the matching documents, one each.
  lemma MatchingIdsAre(n: Normalizer, documents: map<Id, SectionDocument>, index: seq<FullTextRow>, section: Id, query: seq<Token>)
    requires FullTextOk(n, documents, index)
    ensures var ids := MatchingIds(index, section, query);
            && DistinctIdList(ids) && |ids| == |Matching(n, documents, section, query)|
            && forall id :: id in ids <==> id in Matching(n, documents, section, query)
  {
    MatchingIdsMembers(index, section, query);
    var ids := MatchingIds(index, section, query);
    hide MatchingIds, RowMatches, DocumentMatches, FullTextFor;
    forall id ensures id in ids <==> id in Matching(n, documents, section, query) {
      if id in ids {
        var r :| r in index && Selects(r, section, query, id);
        RowMatchesDocument(n, id, documents[id], section, query);
      }
      if id in Matching(n, documents, section, query) {
        FullTextId(n, id, documents[id]);
        RowMatchesDocument(n, id, documents[id], section, query);
        assert Selects(FullTextFor(n, id, documents[id]), section, query, id);
      }
    }
    DistinctCount(ids);
    assert (set id | id in ids) == Matching(n, documents, section, query);
  }

  function CandidateRanks(rank: set<RankRow>, ids: seq<Id>, section: Id, query: seq<Token>): seq<Rank> {
    if ids == [] then []
    else
      var id := ids[|ids| - 1];
      CandidateRanks(rank, ids[..|ids| - 1], section, query)
      + (if RankedScore(rank, section, id, query) > 0 then [Rank(0 - RankedScore(rank, section, id, query), id)] else [])
  }

  lemma {:induction false} CandidateRankMembers(rank: set<RankRow>, ids: seq<Id>, section: Id, query: seq<Token>)
    requires DistinctIdList(ids)
    ensures NoRepeats(CandidateRanks(rank, ids, section, query))
    ensures forall r :: r in CandidateRanks(rank, ids, section, query)
                   <==> r.pageId in ids && RankedScore(rank, section, r.pageId, query) > 0
                        && r.minusScore + RankedScore(rank, section, r.pageId, query) == 0
  {
    if ids != [] {
      hide RankedScore;
      var before := ids[..|ids| - 1];
      CandidateRankMembers(rank, before, section, query);
      assert ids == before + [ids[|ids| - 1]];
      assert forall r :: r in CandidateRanks(rank, before, section, query) ==> r.pageId in before;
    }
  }

  lemma CandidatesAreBestFirst(n: Normalizer, documents: map<Id, SectionDocument>, rank: set<RankRow>, ids: seq<Id>, section: Id, query: seq<Token>)
    requires RankOk(n, documents, rank) && query != [] && DistinctIdList(ids)
    requires forall id :: id in ids <==> id in Matching(n, documents, section, query)
    ensures BestFirst(Sorted(CandidateRanks(rank, ids, section, query)), n, documents, section, query)
  {
    CandidateRankMembers(rank, ids, section, query);
    SortedMembers(CandidateRanks(rank, ids, section, query));
    hide CandidateRanks, Sorted, RankOk, RankedScore, DocumentScore, DocumentMatches;
    forall id | id in ids ensures RankedScore(rank, section, id, query) == DocumentScore(n, documents[id], query) > 0 {
      ScoresAgree(n, documents, rank, id, query);
      MatchScores(n, documents[id], query);
    }
  }

  // ---- what answers do and do not depend on ----

  // There is one answer to every query.
  lemma {:induction false} AnswerIsUnique(
    a: Result<seq<SectionHit>, Refusal>, b: Result<seq<SectionHit>, Refusal>,
    n: Normalizer, documents: map<Id, SectionDocument>, section: Id, text: Text, limit: int)
    requires Answers(a, n, documents, section, text, limit) && Answers(b, n, documents, section, text, limit)
    ensures a == b
  {
    var query := TokensOf(n, text);
    hide TokensOf, Matching, Utf8Bytes, BestFirst;
    if a.Ok? && b.Ok? {
      var p :| BestFirst(p, n, documents, section, query) && a == Ok(HitsOf(Limited(p, limit), |query|));
      var q :| BestFirst(q, n, documents, section, query) && b == Ok(HitsOf(Limited(q, limit), |query|));
      BestFirstIsUnique(p, q, n, documents, section, query);
    }
  }

  lemma BestFirstIsUnique(p: seq<Rank>, q: seq<Rank>, n: Normalizer, documents: map<Id, SectionDocument>, section: Id, query: seq<Token>)
    requires BestFirst(p, n, documents, section, query) && BestFirst(q, n, documents, section, query)
    ensures p == q
  {
    hide Matching, DocumentScore;
    AscendingUnique(p, q);
  }

  // A Section's answers depend only on the documents of that Section.
  lemma SectionsAreIsolated(
    r: Result<seq<SectionHit>, Refusal>, n: Normalizer,
    documents: map<Id, SectionDocument>, others: map<Id, SectionDocument>, section: Id, text: Text, limit: int)
    requires InSection(documents, section) == InSection(others, section)
    requires forall id :: id in InSection(documents, section) ==> documents[id] == others[id]
    ensures Answers(r, n, documents, section, text, limit) <==> Answers(r, n, others, section, text, limit)
  {
    var query := TokensOf(n, text);
    forall id ensures id in Matching(n, documents, section, query) <==> id in Matching(n, others, section, query) {
    }
    assert Matching(n, documents, section, query) == Matching(n, others, section, query);
    hide TokensOf, Utf8Bytes, DocumentMatches, DocumentScore;
    forall ranks ensures BestFirst(ranks, n, documents, section, query) <==> BestFirst(ranks, n, others, section, query) {
      forall id | id in Matching(n, documents, section, query) ensures documents[id] == others[id] {
      }
    }
  }

  function FieldRows(id: Id, section: Id, f: Field, tokens: seq<Token>): set<RankRow> {
    set t | t in tokens :: RankRow(section, id, f, t)
  }
}
