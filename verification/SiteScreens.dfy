// The screens of the site one by one, and the numbers that can name a Revision.
module SiteScreens {
  import opened Common
  import opened Strings
  import opened LegacyRoutes
  import RetiredScreens

  datatype Screen =
    | Library(library: string)
    | LibrarySearch(library: string)
    | LibraryTag(library: string, tag: string)
    | Section(library: string, section: string)
    | Book(library: string, section: string, book: string)
    | Skills(library: string)
    | Page(library: string, page: string)
    | PageEdit(library: string, page: string)
    | PageRevision(library: string, page: string, revision: string)
    | Skill(library: string, skill: string)
    | SkillEdit(library: string, skill: string)
    | SkillRevisionScreen(library: string, skill: string, revision: string)

  function Parts(s: Screen): seq<string> {
    match s
    case Library(l) => ["libraries", l]
    case LibrarySearch(l) => ["libraries", l, "search"]
    case LibraryTag(l, t) => ["libraries", l, "tags", t]
    case Section(l, c) => ["libraries", l, "sections", c]
    case Book(l, c, b) => ["libraries", l, "sections", c, "books", b]
    case Skills(l) => ["libraries", l, "skills"]
    case Page(l, p) => ["libraries", l, "pages", p]
    case PageEdit(l, p) => ["libraries", l, "pages", p, "edit"]
    case PageRevision(l, p, r) => ["libraries", l, "pages", p, "revisions", r]
    case Skill(l, k) => ["libraries", l, "skills", k]
    case SkillEdit(l, k) => ["libraries", l, "skills", k, "edit"]
    case SkillRevisionScreen(l, k, r) => ["libraries", l, "skills", k, "revisions", r]
  }

  // `new` names the screen for a new Page or Skill, which has nothing below it.
  predicate Proper(s: Screen) {
    match s
    case Library(l) => Identity(l)
    case LibrarySearch(l) => Identity(l)
    case LibraryTag(l, t) => Identity(l) && Identity(t)
    case Section(l, c) => Identity(l) && Identity(c)
    case Book(l, c, b) => Identity(l) && Identity(c) && Identity(b)
    case Skills(l) => Identity(l)
    case Page(l, p) => Identity(l) && Identity(p)
    case PageEdit(l, p) => Identity(l) && Identity(p) && p != "new"
    case PageRevision(l, p, r) => Identity(l) && Identity(p) && p != "new" && ValidRevision(r)
    case Skill(l, k) => Identity(l) && Identity(k)
    case SkillEdit(l, k) => Identity(l) && Identity(k) && k != "new"
    case SkillRevisionScreen(l, k, r) => Identity(l) && Identity(k) && k != "new" && SkillRevision(r)
  }

  function ScreenOf(p: seq<string>): Screen
    requires |p| >= 2
  {
    if |p| == 2 then Library(p[1])
    else if |p| == 3 then (if p[2] == "search" then LibrarySearch(p[1]) else Skills(p[1]))
    else if p[2] == "tags" then LibraryTag(p[1], p[3])
    else if p[2] == "sections" then (if |p| == 6 then Book(p[1], p[3], p[5]) else Section(p[1], p[3]))
    else if p[2] == "pages" then
      (if |p| == 4 then Page(p[1], p[3]) else if |p| == 6 then PageRevision(p[1], p[3], p[5]) else PageEdit(p[1], p[3]))
    else
      (if |p| == 4 then Skill(p[1], p[3]) else if |p| == 6 then SkillRevisionScreen(p[1], p[3], p[5]) else SkillEdit(p[1], p[3]))
  }

  lemma ProperIsCanonical(s: Screen)
    requires Proper(s)
    ensures var p := Parts(s); |p| >= 2 && p[0] == "libraries" && Identity(p[1]) && CanonicalLibrary(p)
  {
    hide Identity, ValidRevision, SkillRevision;
  }

  lemma CanonicalIsProper(p: seq<string>)
    requires |p| >= 2 && p[0] == "libraries" && Identity(p[1]) && CanonicalLibrary(p)
    ensures Proper(ScreenOf(p)) && Parts(ScreenOf(p)) == p
  {
    hide Identity, ValidRevision, SkillRevision;
  }

  lemma NamesAreParts()
    ensures forall s: string :: Identity(s) || ValidRevision(s) || SkillRevision(s) ==> RetiredScreens.Part(s)
    ensures RetiredScreens.Part("search") && RetiredScreens.Part("skills")
  {
    forall s: string | Identity(s) || ValidRevision(s) || SkillRevision(s) ensures RetiredScreens.Part(s) {
      if SkillRevision(s) {
        SkillRevisionFree(s);
      } else {
        IdentityFree(s);
      }
    }
  }

  // No segment of a screen's path is empty or holds a slash.
  lemma SegmentsFree(s: Screen)
    requires Proper(s)
    ensures FreeOf(Parts(s), '/') && "" !in Parts(s)
  {
    hide Identity, ValidRevision, SkillRevision, RetiredScreens.Part;
    NamesAreParts();
    RetiredScreens.Words();
    RetiredScreens.AllPartsMean(Parts(s));
  }

  lemma SkillRevisionFree(s: string)
    requires SkillRevision(s)
    ensures '/' !in s && s != ""
  {
    assert s == s[..4] + s[4..];
  }

  // The site has exactly the listed screens, the credentials of a Caller, and these screens of a Library.
  lemma ScreensExactly(path: string)
    ensures Canonical(path) <==>
            || path in SCREENS
            || (exists c :: Identity(c) && path == Path(["credentials", c]))
            || (exists s :: Proper(s) && path == Path(Parts(s)))
  {
    hide SCREENS, Identity, Proper, Parts, CanonicalLibrary, Path;
    if path !in SCREENS {
      if Canonical(path) {
        PathOfSegments(path);
        var p := Segments(path).value;
        if p[0] == "libraries" {
          CanonicalIsProper(p);
          assert Proper(ScreenOf(p)) && path == Path(Parts(ScreenOf(p)));
        } else {
          assert p == ["credentials", p[1]];
        }
      }
      if c :| Identity(c) && path == Path(["credentials", c]) {
        IdentityFree(c);
        CredentialsFree(c);
        PathSegments(["credentials", c]);
      }
      if s :| Proper(s) && path == Path(Parts(s)) {
        ProperIsCanonical(s);
        SegmentsFree(s);
        PathSegments(Parts(s));
      }
    }
  }

  lemma CredentialsFree(c: string)
    requires '/' !in c && c != ""
    ensures FreeOf(["credentials", c], '/') && "" !in ["credentials", c]
  {
  }

  // ---- Revision numbers ----

  function Value(s: string): nat
    requires Digits(s)
  {
    if s == "" then 0 else 10 * Value(s[..|s| - 1]) + (s[|s| - 1] as int - '0' as int)
  }

  function Power(n: nat): nat { if n == 0 then 1 else 10 * Power(n - 1) }

  lemma {:induction false} ValueBound(s: string)
    requires Digits(s)
    ensures Value(s) < Power(|s|)
  {
    if s != "" {
      ValueBound(s[..|s| - 1]);
    }
  }

  // A digit in front counts with the power of its place.
  lemma {:induction false} ValueFirst(s: string)
    requires s != "" && Digits(s)
    ensures Value(s) == (s[0] as int - '0' as int) * Power(|s| - 1) + Value(s[1..])
  {
    if |s| > 1 {
      var before := s[..|s| - 1];
      ValueFirst(before);
      assert s[1..][..|s| - 2] == before[1..];
      var d := s[0] as int - '0' as int;
      assert 10 * (d * Power(|s| - 2)) == d * Power(|s| - 1);
    } else {
      assert s[..0] == "" && s[1..] == "";
    }
  }

  lemma Order(a: nat, b: nat, p: nat, x: nat, y: nat)
    requires a < b && x < p
    ensures a * p + x < b * p + y
  {
    assert (a + 1) * p <= b * p;
  }

  // Comparing digit strings of one length compares their values.
  lemma {:induction false} AtMostIs(s: string, t: string)
    requires |s| == |t| && Digits(s) && Digits(t)
    ensures AtMost(s, t) <==> Value(s) <= Value(t)
  {
    if s != "" {
      hide Value, Power;
      ValueFirst(s);
      ValueFirst(t);
      AtMostIs(s[1..], t[1..]);
      ValueBound(s[1..]);
      ValueBound(t[1..]);
      var a, b, p := s[0] as int - '0' as int, t[0] as int - '0' as int, Power(|s| - 1);
      if a < b {
        Order(a, b, p, Value(s[1..]), Value(t[1..]));
      } else if b < a {
        Order(b, a, p, Value(t[1..]), Value(s[1..]));
      }
    }
  }

  lemma {:induction false} PowerGrows(m: nat, n: nat)
    requires m <= n
    ensures Power(m) <= Power(n)
    decreases n
  {
    if m < n {
      PowerGrows(m, n - 1);
    }
  }

  // Without a leading zero a shorter digit string is a smaller number.
  lemma ShorterIsSmaller(s: string, t: string)
    requires Digits(s) && Digits(t) && |s| < |t| && t[0] != '0'
    ensures Value(s) < Value(t)
  {
    hide Value, Power;
    ValueBound(s);
    ValueFirst(t);
    PowerGrows(|s|, |t| - 1);
    FirstCounts(t[0] as int - '0' as int, Power(|t| - 1));
  }

  lemma FirstCounts(d: nat, p: nat)
    requires d > 0
    ensures p <= d * p
  {
  }

  // A Revision number is a number up to the largest 64-bit integer in decimal, without leading zeros.
  lemma RevisionNumbers(s: string)
    ensures ValidRevision(s) <==> s != "" && Digits(s) && s[0] != '0' && Value(s) <= Value(MAX_REVISION)
  {
    MaxDigits();
    hide Value, AtMost, MAX_REVISION;
    if s != "" && Digits(s) && s[0] != '0' {
      if |s| < 19 {
        ShorterIsSmaller(s, MAX_REVISION);
      } else if |s| == 19 {
        AtMostIs(s, MAX_REVISION);
      } else {
        ShorterIsSmaller(MAX_REVISION, s);
      }
    }
  }

  lemma MaxDigits()
    ensures Digits(MAX_REVISION) && |MAX_REVISION| == 19 && MAX_REVISION[0] != '0'
  {
  }
}
