// Rewriting stored schema text by counted replacements, and undoing it by the inverse replacements
// in the same order.
module SchemaRewrite {
  import opened Common

  // ---- Python's str.count and str.replace ----

  predicate OccursAt(s: string, p: string, i: nat) { i + |p| <= |s| && s[i..i + |p|] == p }

  // The first occurrence at or after `i`.
  function Find(s: string, p: string, i: nat): (r: Option<nat>)
    requires i <= |s|
    ensures r.Some? ==> i <= r.value && OccursAt(s, p, r.value) && forall j :: i <= j < r.value ==> !OccursAt(s, p, j)
    ensures r.None? ==> forall j :: i <= j <= |s| ==> !OccursAt(s, p, j)
    decreases |s| - i
  {
    if OccursAt(s, p, i) then Some(i) else if i == |s| then None else Find(s, p, i + 1)
  }

  // The pieces between the occurrences counted from the left without overlap.
  function Pieces(s: string, p: string): (pieces: seq<string>)
    requires p != ""
    ensures pieces != []
    decreases |s|
  {
    match Find(s, p, 0)
    case None => [s]
    case Some(i) => [s[..i]] + Pieces(s[i + |p|..], p)
  }

  function Count(s: string, p: string): nat
    requires p != ""
  {
    |Pieces(s, p)| - 1
  }

  function Glue(pieces: seq<string>, p: string): string {
    if pieces == [] then "" else if |pieces| == 1 then pieces[0] else pieces[0] + p + Glue(pieces[1..], p)
  }

  function Replace(s: string, from: string, into: string): string
    requires from != ""
  {
    Glue(Pieces(s, from), into)
  }

  // Gluing the pieces back with the same pattern gives the text back.
  lemma {:induction false} GluePieces(s: string, p: string)
    requires p != ""
    ensures Glue(Pieces(s, p), p) == s
    decreases |s|
  {
    match Find(s, p, 0)
    case None =>
    case Some(i) =>
      GluePieces(s[i + |p|..], p);
      assert s == s[..i] + s[i..i + |p|] + s[i + |p|..];
  }

  // ---- patterns that do not overlap themselves ----

  // No proper non-empty prefix is also a suffix.
  predicate BorderFree(p: string) {
    p != "" && forall k :: 0 < k < |p| ==> p[..|p| - k] != p[k..]
  }

  // Two overlapping occurrences give a border.
  lemma Overlap(s: string, p: string, i: nat, k: nat)
    requires OccursAt(s, p, i) && OccursAt(s, p, i + k) && 0 < k < |p|
    ensures p[..|p| - k] == p[k..]
  {
    assert s[i..i + |p|][k..] == s[i + k..i + |p|];
    assert s[i + k..i + k + |p|][..|p| - k] == s[i + k..i + |p|];
  }

  // Two occurrences of such a pattern are the same or do not touch.
  lemma OccurrencesApart(s: string, p: string, i: nat, j: nat)
    requires BorderFree(p) && OccursAt(s, p, i) && OccursAt(s, p, j) && i < j
    ensures i + |p| <= j
  {
    if j < i + |p| {
      Overlap(s, p, i, j - i);
    }
  }

  lemma GlueSite(g: string, p: string, rest: string)
    ensures OccursAt(g + p + rest, p, |g|)
  {
  }

  lemma FirstPiece(s: string, p: string, i: nat)
    requires p != "" && Find(s, p, 0) == Some(i)
    ensures Pieces(s, p) == [s[..i]] + Pieces(s[i + |p|..], p) && Count(s, p) == 1 + Count(s[i + |p|..], p)
  {
    hide Find, OccursAt;
  }

  // Where the leftmost occurrence of the pattern stands in text glued from pieces: at the end of the
  // first piece, or clear of it inside that piece.
  lemma FirstSite(pieces: seq<string>, p: string) returns (i: nat)
    requires BorderFree(p) && |pieces| > 1
    ensures var s, g, rest := Glue(pieces, p), pieces[0], Glue(pieces[1..], p);
            && Find(s, p, 0) == Some(i) && i + |p| <= |s| && Count(s, p) == 1 + Count(s[i + |p|..], p)
            && Pieces(s, p) == [s[..i]] + Pieces(s[i + |p|..], p)
            && (i == |g| || i + |p| <= |g|)
            && (i == |g| ==> s[..i] == g && s[i + |p|..] == rest)
            && (i + |p| <= |g| ==> s[i + |p|..] == Glue([g[i + |p|..]] + pieces[1..], p))
  {
    var g, rest := pieces[0], Glue(pieces[1..], p);
    var s := g + p + rest;
    GlueSite(g, p, rest);
    i := Find(s, p, 0).value;
    FirstPiece(s, p, i);
    hide Pieces, Count;
    if i < |g| {
      OccurrencesApart(s, p, i, |g|);
      assert ([g[i + |p|..]] + pieces[1..])[1..] == pieces[1..];
      assert s[i + |p|..] == g[i + |p|..] + p + rest;
    } else {
      assert s[i + |p|..] == rest;
    }
  }

  // Text glued from n + 1 pieces has at least n occurrences.
  lemma {:induction false} CountAtLeast(pieces: seq<string>, p: string)
    requires BorderFree(p) && pieces != []
    ensures Count(Glue(pieces, p), p) >= |pieces| - 1
    decreases |Glue(pieces, p)|, |pieces|
  {
    if |pieces| > 1 {
      var i := FirstSite(pieces, p);
      if i == |pieces[0]| {
        CountAtLeast(pieces[1..], p);
      } else {
        CountAtLeast([pieces[0][i + |p|..]] + pieces[1..], p);
      }
    }
  }

  // If the count is no more than that, the pieces read back are the ones glued.
  lemma {:induction false} CountedPieces(pieces: seq<string>, p: string)
    requires BorderFree(p) && pieces != [] && Count(Glue(pieces, p), p) == |pieces| - 1
    ensures Pieces(Glue(pieces, p), p) == pieces
  {
    if |pieces| > 1 {
      var i := FirstSite(pieces, p);
      if i == |pieces[0]| {
        CountedPieces(pieces[1..], p);
        assert pieces == [pieces[0]] + pieces[1..];
      } else {
        CountAtLeast([pieces[0][i + |p|..]] + pieces[1..], p);
      }
    }
  }

  // ---- several replacements ----

  datatype Pair = Pair(before: string, after: string, count: nat)

  function CountedReplace(s: string, from: string, into: string, count: nat): Option<string> {
    if from == "" || Count(s, from) != count then None else Some(Replace(s, from, into))
  }

  // The upgrade takes before to after, pair by pair; the downgrade after to before, in the same order.
  function Rewrite(s: string, pairs: seq<Pair>, upgrading: bool): Option<string> {
    if pairs == [] then Some(s)
    else match Rewrite(s, pairs[..|pairs| - 1], upgrading)
         case None => None
         case Some(t) =>
           var pair := pairs[|pairs| - 1];
           if upgrading then CountedReplace(t, pair.before, pair.after, pair.count)
           else CountedReplace(t, pair.after, pair.before, pair.count)
  }

  method RewriteAll(s: string, pairs: seq<Pair>, upgrading: bool) returns (r: Option<string>)
    ensures r == Rewrite(s, pairs, upgrading)
  {
    var t := s;
    for i := 0 to |pairs|
      invariant Rewrite(s, pairs[..i], upgrading) == Some(t)
    {
      assert pairs[..i + 1][..i] == pairs[..i];
      var pair := pairs[i];
      var next := if upgrading then CountedReplace(t, pair.before, pair.after, pair.count)
                  else CountedReplace(t, pair.after, pair.before, pair.count);
      if next.None? {
        RewriteStops(s, pairs, upgrading, i + 1);
        return None;
      }
      t := next.value;
    }
    assert pairs[..|pairs|] == pairs;
    r := Some(t);
  }

  lemma {:induction false} RewriteStops(s: string, pairs: seq<Pair>, upgrading: bool, n: nat)
    requires n <= |pairs| && Rewrite(s, pairs[..n], upgrading).None?
    ensures Rewrite(s, pairs, upgrading).None?
  {
    if n < |pairs| {
      assert pairs[..|pairs| - 1][..n] == pairs[..n];
      RewriteStops(s, pairs[..|pairs| - 1], upgrading, n);
    } else {
      assert pairs[..n] == pairs;
    }
  }

  // A text with disjoint sites: fixed text, and places where pair k stands.
  datatype Part = Fixed(text: string) | Site(pair: nat)

  // The text with each site of pair k written as texts[k].
  function Render(parts: seq<Part>, texts: seq<string>): string {
    if parts == [] then ""
    else RenderPart(parts[0], texts) + Render(parts[1..], texts)
  }

  function RenderPart(part: Part, texts: seq<string>): string {
    match part
    case Fixed(t) => t
    case Site(k) => if k < |texts| then texts[k] else ""
  }

  // What stands between the sites of pair k.
  function Between(parts: seq<Part>, k: nat, texts: seq<string>): (pieces: seq<string>)
    ensures pieces != []
  {
    if parts == [] then [""]
    else
      var rest := Between(parts[1..], k, texts);
      if parts[0] == Site(k) then [""] + rest
      else [RenderPart(parts[0], texts) + rest[0]] + rest[1..]
  }

  function Sites(parts: seq<Part>, k: nat): nat {
    if parts == [] then 0 else Sites(parts[1..], k) + (if parts[0] == Site(k) then 1 else 0)
  }

  lemma {:induction false} RenderIsGlue(parts: seq<Part>, k: nat, texts: seq<string>)
    requires k < |texts|
    ensures Render(parts, texts) == Glue(Between(parts, k, texts), texts[k]) && |Between(parts, k, texts)| == Sites(parts, k) + 1
  {
    if parts != [] {
      RenderIsGlue(parts[1..], k, texts);
      var rest := Between(parts[1..], k, texts);
      if parts[0] == Site(k) {
        assert ([""] + rest)[1..] == rest;
        assert "" + texts[k] == texts[k];
      } else {
        PrependGlue(RenderPart(parts[0], texts), rest, texts[k]);
      }
    }
  }

  lemma PrependGlue(t: string, pieces: seq<string>, p: string)
    requires pieces != []
    ensures Glue([t + pieces[0]] + pieces[1..], p) == t + Glue(pieces, p)
  {
    var all := [t + pieces[0]] + pieces[1..];
    if |pieces| > 1 {
      assert all[1..] == pieces[1..];
      var tail := Glue(pieces[1..], p);
      assert t + pieces[0] + p + tail == t + (pieces[0] + p + tail);
    }
  }

  // How pair k itself is written does not matter between its sites.
  lemma {:induction false} BetweenIgnores(parts: seq<Part>, k: nat, texts: seq<string>, q: string)
    requires k < |texts|
    ensures Between(parts, k, texts[k := q]) == Between(parts, k, texts)
  {
    if parts != [] {
      BetweenIgnores(parts[1..], k, texts, q);
    }
  }

  // One counted replacement rewrites exactly the sites of its pair.
  lemma ReplaceSites(parts: seq<Part>, k: nat, texts: seq<string>, q: string, count: nat)
    requires k < |texts| && BorderFree(texts[k]) && Sites(parts, k) == count
    requires CountedReplace(Render(parts, texts), texts[k], q, count).Some?
    ensures CountedReplace(Render(parts, texts), texts[k], q, count) == Some(Render(parts, texts[k := q]))
  {
    RenderIsGlue(parts, k, texts);
    CountedPieces(Between(parts, k, texts), texts[k]);
    BetweenIgnores(parts, k, texts, q);
    RenderIsGlue(parts, k, texts[k := q]);
  }

  function Texts(pairs: seq<Pair>, upgraded: bool): seq<string> {
    seq(|pairs|, i requires 0 <= i < |pairs| => if upgraded then pairs[i].after else pairs[i].before)
  }

  // The first n pairs rewritten, the others not yet.
  function Mixed(pairs: seq<Pair>, n: nat, upgrading: bool): seq<string>
    requires n <= |pairs|
  {
    Texts(pairs[..n], upgrading) + Texts(pairs[n..], !upgrading)
  }

  lemma MixedAt(pairs: seq<Pair>, n: nat, upgrading: bool)
    requires n <= |pairs|
    ensures var m := Mixed(pairs, n, upgrading);
            |m| == |pairs| && forall k :: 0 <= k < |pairs| ==> m[k] == Texts(pairs, if k < n then upgrading else !upgrading)[k]
  {
  }

  // The text has as many sites of each pair as the rewrite expects.
  ghost predicate Sited(parts: seq<Part>, pairs: seq<Pair>) {
    forall k :: 0 <= k < |pairs| ==> Sites(parts, k) == pairs[k].count
  }

  ghost predicate AllBorderFree(texts: seq<string>) {
    forall k :: 0 <= k < |texts| ==> BorderFree(texts[k])
  }

  lemma {:induction false} RewriteSites(parts: seq<Part>, pairs: seq<Pair>, n: nat, upgrading: bool)
    requires n <= |pairs| && Sited(parts, pairs) && AllBorderFree(Texts(pairs, !upgrading))
    requires Rewrite(Render(parts, Texts(pairs, !upgrading)), pairs[..n], upgrading).Some?
    ensures Rewrite(Render(parts, Texts(pairs, !upgrading)), pairs[..n], upgrading) == Some(Render(parts, Mixed(pairs, n, upgrading)))
  {
    hide BorderFree, CountedReplace, Render, Sites;
    if n == 0 {
      assert pairs[0..] == pairs;
      assert Mixed(pairs, 0, upgrading) == Texts(pairs, !upgrading);
    } else {
      assert pairs[..n][..n - 1] == pairs[..n - 1];
      RewriteSites(parts, pairs, n - 1, upgrading);
      var texts, pair := Mixed(pairs, n - 1, upgrading), pairs[n - 1];
      var to := if upgrading then pair.after else pair.before;
      MixedAt(pairs, n - 1, upgrading);
      MixedAt(pairs, n, upgrading);
      assert texts[n - 1] == Texts(pairs, !upgrading)[n - 1];
      hide Mixed;
      ReplaceSites(parts, n - 1, texts, to, pair.count);
      assert texts[n - 1 := to] == Mixed(pairs, n, upgrading);
    }
  }

  // A rewrite that succeeds rewrites exactly the sites.
  lemma RewriteIsRender(parts: seq<Part>, pairs: seq<Pair>, upgrading: bool)
    requires Sited(parts, pairs) && AllBorderFree(Texts(pairs, !upgrading))
    requires Rewrite(Render(parts, Texts(pairs, !upgrading)), pairs, upgrading).Some?
    ensures Rewrite(Render(parts, Texts(pairs, !upgrading)), pairs, upgrading) == Some(Render(parts, Texts(pairs, upgrading)))
  {
    assert pairs[..|pairs|] == pairs;
    RewriteSites(parts, pairs, |pairs|, upgrading);
    assert Mixed(pairs, |pairs|, upgrading) == Texts(pairs, upgrading);
  }

  // A rewrite fails exactly when at some pair the text, with all pairs before it rewritten at their sites,
  // does not count as many occurrences as there are sites.
  lemma RewriteIff(parts: seq<Part>, pairs: seq<Pair>, upgrading: bool)
    requires Sited(parts, pairs) && AllBorderFree(Texts(pairs, !upgrading))
    ensures Rewrite(Render(parts, Texts(pairs, !upgrading)), pairs, upgrading).Some?
       <==> forall n :: 0 <= n < |pairs| ==>
              Count(Render(parts, Mixed(pairs, n, upgrading)), Texts(pairs, !upgrading)[n]) == Sites(parts, n)
  {
    RewriteIffUpTo(parts, pairs, |pairs|, upgrading);
    assert pairs[..|pairs|] == pairs;
  }

  lemma {:induction false} RewriteIffUpTo(parts: seq<Part>, pairs: seq<Pair>, m: nat, upgrading: bool)
    requires m <= |pairs| && Sited(parts, pairs) && AllBorderFree(Texts(pairs, !upgrading))
    ensures Rewrite(Render(parts, Texts(pairs, !upgrading)), pairs[..m], upgrading).Some?
       <==> forall n :: 0 <= n < m ==>
              Count(Render(parts, Mixed(pairs, n, upgrading)), Texts(pairs, !upgrading)[n]) == Sites(parts, n)
  {
    hide Render, Count, Replace, BorderFree, Sites, Mixed;
    if m > 0 {
      assert pairs[..m][..m - 1] == pairs[..m - 1];
      RewriteIffUpTo(parts, pairs, m - 1, upgrading);
      if Rewrite(Render(parts, Texts(pairs, !upgrading)), pairs[..m - 1], upgrading).Some? {
        RewriteSites(parts, pairs, m - 1, upgrading);
        NotEmpty(Texts(pairs, !upgrading)[m - 1]);
      }
    }
  }

  lemma NotEmpty(p: string)
    ensures BorderFree(p) ==> p != ""
  {
  }

  // Whenever upgrade and downgrade both succeed at disjoint sites, the downgrade, which applies the
  // inverses in the order of the upgrade, returns the original text.
  lemma SameOrderInverse(source: string, parts: seq<Part>, pairs: seq<Pair>)
    requires Sited(parts, pairs) && source == Render(parts, Texts(pairs, false))
    requires AllBorderFree(Texts(pairs, false)) && AllBorderFree(Texts(pairs, true))
    requires Rewrite(source, pairs, true).Some? && Rewrite(Rewrite(source, pairs, true).value, pairs, false).Some?
    ensures Rewrite(Rewrite(source, pairs, true).value, pairs, false) == Some(source)
  {
    RewriteIsRender(parts, pairs, true);
    RewriteIsRender(parts, pairs, false);
  }

  // Without that, two counted replacements can succeed and not be inverse: "ab" becomes "aaa", whose
  // one counted "aa" is not the one written.
  lemma SelfOverlapBreaks()
    ensures Rewrite("ab", [Pair("b", "aa", 1)], true) == Some("aaa")
    ensures Rewrite("aaa", [Pair("b", "aa", 1)], false) == Some("ba")
    ensures !BorderFree("aa")
  {
    OneStep("ab", Pair("b", "aa", 1));
    OneStep("aaa", Pair("b", "aa", 1));
    LastB();
    FirstTwoAs();
    assert "aa"[..1] == "aa"[1..];
    hide Rewrite, CountedReplace, BorderFree;
  }

  lemma OneStep(s: string, pair: Pair)
    ensures Rewrite(s, [pair], true) == CountedReplace(s, pair.before, pair.after, pair.count)
    ensures Rewrite(s, [pair], false) == CountedReplace(s, pair.after, pair.before, pair.count)
  {
    assert [pair][..0] == [];
    assert Rewrite(s, [], true) == Some(s) && Rewrite(s, [], false) == Some(s);
    hide CountedReplace;
  }

  lemma LastB()
    ensures CountedReplace("ab", "b", "aa", 1) == Some("aaa")
  {
    assert ("a" + "b" + "")[0] == 'a';
    OneReplacement("a", "b", "");
    assert "a" + "b" + "" == "ab" && "a" + "aa" + "" == "aaa";
  }

  lemma FirstTwoAs()
    ensures CountedReplace("aaa", "aa", "b", 1) == Some("ba")
  {
    OneReplacement("", "aa", "a");
    assert "" + "aa" + "a" == "aaa" && "" + "b" + "a" == "ba";
  }

  // Text with its only counted occurrence after `g`.
  lemma OneReplacement(g: string, p: string, rest: string)
    requires p != "" && Find(rest, p, 0).None? && forall j :: 0 <= j < |g| ==> !OccursAt(g + p + rest, p, j)
    ensures Pieces(g + p + rest, p) == [g, rest]
  {
    var s := g + p + rest;
    GlueSite(g, p, rest);
    assert Find(s, p, 0) == Some(|g|);
    assert s[..|g|] == g && s[|g| + |p|..] == rest;
  }

  // ---- whole table declarations ----

  function Plain(table: string): string { "CREATE TABLE " + table + " (" }
  function Quoted(table: string): string { "CREATE TABLE \"" + table + "\" (" }

  // A declaration whose table name is written without quotes.
  function Unquote(source: string, table: string): Option<string> {
    if Plain(table) <= source then Some(source)
    else if Quoted(table) <= source then Some(Plain(table) + source[|Quoted(table)|..])
    else None
  }

  // Whether its table name is quoted or not, a declaration is taken up with the name unquoted; any other
  // text is refused.
  lemma UnquoteIs(table: string, rest: string)
    ensures Unquote("CREATE TABLE " + table + " (" + rest, table) == Some("CREATE TABLE " + table + " (" + rest)
    ensures Unquote("CREATE TABLE \"" + table + "\" (" + rest, table) == Some("CREATE TABLE " + table + " (" + rest) || '"' in table
  {
    var plain, quoted := "CREATE TABLE " + table + " (" + rest, "CREATE TABLE \"" + table + "\" (" + rest;
    assert plain == Plain(table) + rest && quoted == Quoted(table) + rest;
    assert quoted[|Quoted(table)|..] == rest;
    if Plain(table) <= quoted {
      assert quoted[|"CREATE TABLE "|] == '"';
      assert Plain(table)[|"CREATE TABLE "|] == (table + " (")[0];
      if table != "" {
        assert table[0] == '"';
      }
    }
  }

  lemma UnquoteSome(source: string, table: string)
    requires Unquote(source, table).Some?
    ensures exists rest :: source == "CREATE TABLE " + table + " (" + rest || source == "CREATE TABLE \"" + table + "\" (" + rest
  {
    if Plain(table) <= source {
      assert source == "CREATE TABLE " + table + " (" + source[|Plain(table)|..];
    } else {
      assert source == "CREATE TABLE \"" + table + "\" (" + source[|Quoted(table)|..];
    }
  }

  function TableSql(table: string, source: string, pairs: seq<Pair>, upgrading: bool): Option<string> {
    match Unquote(source, table)
    case None => None
    case Some(s) => Rewrite(s, pairs, upgrading)
  }

  // When the rewritten sites lie behind the table name, the downgraded declaration is the original
  // with its table name unquoted.
  lemma TableRoundTrip(table: string, source: string, parts: seq<Part>, pairs: seq<Pair>)
    requires Unquote(source, table).Some? && Unquote(source, table).value == Render(parts, Texts(pairs, false))
    requires parts != [] && parts[0].Fixed? && Plain(table) <= parts[0].text && Sited(parts, pairs)
    requires AllBorderFree(Texts(pairs, false)) && AllBorderFree(Texts(pairs, true))
    requires TableSql(table, source, pairs, true).Some?
    requires TableSql(table, TableSql(table, source, pairs, true).value, pairs, false).Some?
    ensures TableSql(table, TableSql(table, source, pairs, true).value, pairs, false) == Unquote(source, table)
  {
    var s := Unquote(source, table).value;
    RewriteIsRender(parts, pairs, true);
    hide Rewrite, BorderFree;
    var up := Render(parts, Texts(pairs, true));
    assert parts[0].text <= up;
    assert Unquote(up, table) == Some(up);
    SameOrderInverse(s, parts, pairs);
  }

  // ---- the pairs of the credential migration ----

  // A text is border-free when its first two characters stand together nowhere else in it.
  lemma UniqueStart(p: string)
    requires |p| >= 2 && p[|p| - 1] != p[0] && forall k :: 0 < k < |p| - 1 ==> p[k] != p[0] || p[k + 1] != p[1]
    ensures BorderFree(p)
  {
    forall k | 0 < k < |p| ensures p[..|p| - k] != p[k..] {
      assert p[..|p| - k][0] == p[0] && p[k..][0] == p[k];
      if k < |p| - 1 {
        assert p[..|p| - k][1] == p[1] && p[k..][1] == p[k + 1];
      }
    }
  }

  // A text whose first character does not come again, wrapped up by another character.
  lemma UniqueFirst(start: string, middle: string)
    requires |start| >= 1 && start[0] != ')'
    requires forall k :: 0 < k < |start| ==> start[k] != start[0]
    requires forall k :: 0 <= k < |middle| ==> middle[k] != start[0]
    ensures BorderFree(start + middle + ")")
  {
    var p := start + middle + ")";
    forall k | 0 < k < |p| ensures p[..|p| - k] != p[k..] {
      assert p[..|p| - k][0] == start[0] && p[k..][0] == p[k];
      assert k < |start| ==> p[k] == start[k];
      assert |start| <= k < |start| + |middle| ==> p[k] == middle[k - |start|];
    }
  }

  const UNLESS_NULL := "(expires_at IS NULL OR "
  const AFTER_CREATION := "expires_at > created_at"
  const BEFORE_EXPIRY := "last_used_at < expires_at"
  const EXPIRY_PAIRS := [
    Pair("expires_at BIGINT NOT NULL", "expires_at BIGINT", 1),
    Pair(AFTER_CREATION, UNLESS_NULL + AFTER_CREATION + ")", 1),
    Pair(BEFORE_EXPIRY, UNLESS_NULL + BEFORE_EXPIRY + ")", 1)]

  // None of the six texts overlaps itself, although they share much of their vocabulary.
  lemma ExpiryTextsBorderFree()
    ensures AllBorderFree(Texts(EXPIRY_PAIRS, false)) && AllBorderFree(Texts(EXPIRY_PAIRS, true))
  {
    hide BorderFree;
    ColumnTexts();
    CheckTexts();
    WrappedTexts();
  }

  lemma ColumnTexts()
    ensures BorderFree("expires_at BIGINT NOT NULL") && BorderFree("expires_at BIGINT")
  {
    hide BorderFree;
    UniqueStart("expires_at BIGINT NOT NULL");
    UniqueStart("expires_at BIGINT");
  }

  lemma CheckTexts()
    ensures BorderFree(AFTER_CREATION) && BorderFree(BEFORE_EXPIRY)
  {
    hide BorderFree;
    UniqueStart(AFTER_CREATION);
    UniqueStart(BEFORE_EXPIRY);
  }

  lemma WrappedTexts()
    ensures BorderFree(UNLESS_NULL + AFTER_CREATION + ")") && BorderFree(UNLESS_NULL + BEFORE_EXPIRY + ")")
  {
    hide BorderFree;
    UniqueFirst(UNLESS_NULL, AFTER_CREATION);
    UniqueFirst(UNLESS_NULL, BEFORE_EXPIRY);
  }
}
