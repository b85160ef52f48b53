// The retired screens one by one: what each path named, and the screen that shows it now.
module RetiredScreens {
  import opened Common
  import opened Strings
  import opened LegacyRoutes

  // Every retired screen below a Library, with the names its path carries.
  datatype Screen =
    | LibraryTrash(library: string)
    | LibraryTags(library: string)
    | SectionTrash(library: string, section: string)
    | SectionTrashItem(library: string, section: string, item: string)
    | CallerScreen(library: string, caller: string)
    | CallerGrants(library: string, caller: string, credential: string)
    | NewPage(library: string, section: string, book: string)
    | PageScreen(library: string, section: string, book: string, page: string)
    | PageMove(library: string, section: string, book: string, page: string)
    | PageFilesEdit(library: string, section: string, book: string, page: string)
    | RevisionScreen(library: string, section: string, book: string, page: string, revision: string)
    | RevisionRestore(library: string, section: string, book: string, page: string, revision: string)
    | RevisionFiles(library: string, section: string, book: string, page: string, revision: string, file: seq<string>)
    | PreviewImages(library: string, page: string, revision: string, file: seq<string>)

  // The retired path.
  function Parts(s: Screen): seq<string> {
    match s
    case LibraryTrash(l) => ["libraries", l, "trash"]
    case LibraryTags(l) => ["libraries", l, "tags"]
    case SectionTrash(l, c) => ["libraries", l, "sections", c, "trash"]
    case SectionTrashItem(l, c, i) => ["libraries", l, "sections", c, "trash", i]
    case CallerScreen(l, c) => ["libraries", l, "callers", c]
    case CallerGrants(l, c, d) => ["libraries", l, "callers", c, "credentials", d, "grants"]
    case NewPage(l, c, b) => ["libraries", l, "sections", c, "books", b, "new-page"]
    case PageScreen(l, c, b, p) => ["libraries", l, "sections", c, "books", b, "pages", p]
    case PageMove(l, c, b, p) => ["libraries", l, "sections", c, "books", b, "pages", p, "move"]
    case PageFilesEdit(l, c, b, p) => ["libraries", l, "sections", c, "books", b, "pages", p, "files", "edit"]
    case RevisionScreen(l, c, b, p, r) => ["libraries", l, "sections", c, "books", b, "pages", p, "revisions", r]
    case RevisionRestore(l, c, b, p, r) => ["libraries", l, "sections", c, "books", b, "pages", p, "revisions", r, "restore"]
    case RevisionFiles(l, c, b, p, r, f) => ["libraries", l, "sections", c, "books", b, "pages", p, "revisions", r, "files"] + f
    case PreviewImages(l, p, r, f) => ["libraries", l, "pages", p, "revisions", r, "preview-images"] + f
  }

  // The names are identities, the Revision is a Revision number, and the rest is the path of a file.
  predicate Proper(s: Screen) {
    match s
    case LibraryTrash(l) => Identity(l)
    case LibraryTags(l) => Identity(l)
    case SectionTrash(l, c) => Identity(l) && Identity(c)
    case SectionTrashItem(l, c, i) => Identity(l) && Identity(c) && Identity(i)
    case CallerScreen(l, c) => Identity(l) && Identity(c)
    case CallerGrants(l, c, d) => Identity(l) && Identity(c) && Identity(d)
    case NewPage(l, c, b) => Identity(l) && Identity(c) && Identity(b)
    case PageScreen(l, c, b, p) => Identity(l) && Identity(c) && Identity(b) && Identity(p)
    case PageMove(l, c, b, p) => Identity(l) && Identity(c) && Identity(b) && Identity(p)
    case PageFilesEdit(l, c, b, p) => Identity(l) && Identity(c) && Identity(b) && Identity(p)
    case RevisionScreen(l, c, b, p, r) => Identity(l) && Identity(c) && Identity(b) && Identity(p) && ValidRevision(r)
    case RevisionRestore(l, c, b, p, r) => Identity(l) && Identity(c) && Identity(b) && Identity(p) && ValidRevision(r)
    case RevisionFiles(l, c, b, p, r, f) => Identity(l) && Identity(c) && Identity(b) && Identity(p) && ValidRevision(r) && FileParts(f)
    case PreviewImages(l, p, r, f) => Identity(l) && Identity(p) && ValidRevision(r) && FileParts(f)
  }

  predicate FileParts(f: seq<string>) { ValidFilePath(f) && FreeOf(f, '/') && "" !in f }

  // The screen that shows now what the retired one showed.
  function Replacement(s: Screen): Destination {
    match s
    case LibraryTrash(l) => Destination("/trash", [("library_id", l)])
    case LibraryTags(l) => Destination("/tags", [("library_id", l)])
    case SectionTrash(l, c) => Destination("/trash", [("library_id", l)])
    case SectionTrashItem(l, c, i) => Destination("/trash", [("library_id", l)])
    case CallerScreen(l, c) => Destination("/credentials/" + c, [("library_id", l)])
    case CallerGrants(l, c, d) => Destination("/credentials/" + c, [("library_id", l)])
    case NewPage(l, c, b) => Destination("/libraries/" + l + "/pages/new", [("section", c), ("book", b)])
    case PageScreen(l, c, b, p) => Destination("/libraries/" + l + "/pages/" + p, [])
    case PageMove(l, c, b, p) => Destination("/libraries/" + l + "/pages/" + p, [])
    case PageFilesEdit(l, c, b, p) => Destination("/libraries/" + l + "/pages/" + p, [])
    case RevisionScreen(l, c, b, p, r) => Destination("/libraries/" + l + "/pages/" + p + "/revisions/" + r, [])
    case RevisionRestore(l, c, b, p, r) => Destination("/libraries/" + l + "/pages/" + p + "/revisions/" + r, [])
    case RevisionFiles(l, c, b, p, r, f) => Destination("/libraries/" + l + "/pages/" + p + "/revisions/" + r, [])
    case PreviewImages(l, p, r, f) => Destination("/libraries/" + l + "/pages/" + p + "/revisions/" + r, [])
  }

  const RETIRED_SCREENS := map[
    "/login" := "/", "/setup" := "/settings", "/master/setup" := "/settings", "/agents" := "/credentials",
    "/onboarding-tickets" := "/credentials", "/guide" := "/help", "/agent" := "/help/agent", "/mcp" := "/help/mcp"]

  // ---- built paths ----

  lemma TwoParts(a: string, b: string)
    ensures Path([a, b]) == "/" + a + "/" + b
  {
    var parts := [a, b];
    assert parts[1..] == [b] && Join([b], '/') == b;
    assert Join(parts, '/') == a + "/" + b;
    assert "/" + (a + "/" + b) == "/" + a + "/" + b;
  }

  lemma ThreeParts(a: string, b: string, c: string)
    ensures Path([a, b]) == "/" + a + "/" + b && Path([a, b, c]) == "/" + a + "/" + b + "/" + c
  {
    TwoParts(a, b);
    TwoParts(b, c);
    assert [a, b, c][1..] == [b, c];
    assert Path([a, b, c]) == "/" + (a + Path([b, c]));
    assert "/" + (a + ("/" + b + "/" + c)) == "/" + a + "/" + b + "/" + c;
  }

  lemma PageParts(l: string, p: string)
    ensures Path(["libraries", l, "pages", p]) == "/libraries/" + l + "/pages/" + p
  {
    ThreeParts(l, "pages", p);
    assert ["libraries", l, "pages", p][1..] == [l, "pages", p];
    assert Path(["libraries", l, "pages", p]) == "/" + ("libraries" + Path([l, "pages", p]));
    assert "/libraries/" + l + "/pages/" + p == "/" + ("libraries" + ("/" + l + "/" + "pages" + "/" + p));
  }

  lemma RevisionParts(l: string, p: string, r: string)
    ensures Path(["libraries", l, "pages", p, "revisions", r]) == "/libraries/" + l + "/pages/" + p + "/revisions/" + r
  {
    var tail := [p, "revisions", r];
    ThreeParts(p, "revisions", r);
    assert [l, "pages", p, "revisions", r][1..] == ["pages"] + tail && (["pages"] + tail)[1..] == tail;
    assert ["libraries", l, "pages", p, "revisions", r][1..] == [l, "pages", p, "revisions", r];
    assert Path(["pages"] + tail) == "/" + ("pages" + Path(tail));
    assert Path([l, "pages", p, "revisions", r]) == "/" + (l + Path(["pages"] + tail));
    assert Path(["libraries", l, "pages", p, "revisions", r]) == "/" + ("libraries" + Path([l, "pages", p, "revisions", r]));
    Spelled(l, p, r);
  }

  lemma Spelled(l: string, p: string, r: string)
    ensures "/" + ("libraries" + ("/" + (l + ("/" + ("pages" + ("/" + p + "/" + "revisions" + "/" + r))))))
         == "/libraries/" + l + "/pages/" + p + "/revisions/" + r
  {
  }

  // ---- each retired screen goes to its replacement ----

  predicate Part(s: string) { s != "" && '/' !in s }

  predicate AllParts(p: seq<string>) { forall i :: 0 <= i < |p| ==> Part(p[i]) }

  lemma Words()
    ensures Part("libraries") && Part("sections") && Part("books") && Part("pages") && Part("revisions") && Part("files")
    ensures Part("trash") && Part("tags") && Part("callers") && Part("credentials") && Part("grants") && Part("new-page")
    ensures Part("move") && Part("edit") && Part("restore") && Part("preview-images")
  {
  }

  lemma AllPartsMean(p: seq<string>)
    ensures AllParts(p) <==> FreeOf(p, '/') && "" !in p
  {
    forall i | 0 <= i < |p| ensures Part(p[i]) <==> p[i] != "" && '/' !in p[i] {
    }
    if "" in p {
      var i :| 0 <= i < |p| && p[i] == "";
    }
    hide Part;
    if AllParts(p) {
      forall i | 0 <= i < |p| ensures '/' !in p[i] {
        assert Part(p[i]);
      }
    }
  }

  lemma PartIs(s: string)
    requires Identity(s) || ValidRevision(s)
    ensures Part(s)
  {
    IdentityFree(s);
  }

  // The segments in front of the file of a Page below a Book.
  lemma BookAndPage(s: Screen, l: string, c: string, b: string, p: string)
    requires Proper(s) && Identity(l) && Identity(c) && Identity(b) && Identity(p)
    requires s == PageScreen(l, c, b, p) || s == PageMove(l, c, b, p) || s == PageFilesEdit(l, c, b, p)
    ensures AllParts(Parts(s))
  {
    Words();
    PartIs(l);
    PartIs(c);
    PartIs(b);
    PartIs(p);
    hide Part, Identity;
  }

  lemma BookAndRevision(l: string, c: string, b: string, p: string, r: string, tail: seq<string>)
    requires Identity(l) && Identity(c) && Identity(b) && Identity(p) && ValidRevision(r) && AllParts(tail)
    ensures AllParts(["libraries", l, "sections", c, "books", b, "pages", p, "revisions", r] + tail)
  {
    Words();
    PartIs(l);
    PartIs(c);
    PartIs(b);
    PartIs(p);
    PartIs(r);
    hide Part, Identity, ValidRevision;
  }

  lemma OtherScreens(s: Screen)
    requires Proper(s)
    requires s.LibraryTrash? || s.LibraryTags? || s.SectionTrash? || s.SectionTrashItem? || s.CallerScreen? || s.CallerGrants? || s.NewPage?
    ensures AllParts(Parts(s))
  {
    Words();
    forall name | Identity(name) ensures Part(name) {
      PartIs(name);
    }
    hide Part, Identity;
  }

  lemma PreviewScreens(l: string, p: string, r: string, f: seq<string>)
    requires Identity(l) && Identity(p) && ValidRevision(r) && AllParts(f)
    ensures AllParts(["libraries", l, "pages", p, "revisions", r, "preview-images"] + f)
  {
    Words();
    PartIs(l);
    PartIs(p);
    PartIs(r);
    hide Part, Identity, ValidRevision;
  }

  lemma ProperParts(s: Screen)
    requires Proper(s)
    ensures var p := Parts(s);
            |p| >= 3 && p[0] == "libraries" && Identity(p[1]) && FreeOf(p, '/') && "" !in p
  {
    AllPartsMean(Parts(s));
    hide Identity, ValidRevision, ValidFilePath, Part, AllParts;
    match s
    case PageScreen(l, c, b, p) => BookAndPage(s, l, c, b, p);
    case PageMove(l, c, b, p) => BookAndPage(s, l, c, b, p);
    case PageFilesEdit(l, c, b, p) => BookAndPage(s, l, c, b, p);
    case RevisionScreen(l, c, b, p, r) => WithTail(s, l, c, b, p, r, []);
    case RevisionRestore(l, c, b, p, r) => WithTail(s, l, c, b, p, r, ["restore"]);
    case RevisionFiles(l, c, b, p, r, f) => AllPartsMean(f); FilesTail(f); WithTail(s, l, c, b, p, r, ["files"] + f);
    case PreviewImages(l, p, r, f) => AllPartsMean(f); PreviewScreens(l, p, r, f);
    case _ => OtherScreens(s);
  }

  lemma FilesTail(f: seq<string>)
    ensures AllParts(f) ==> AllParts(["files"] + f)
    ensures AllParts([]) && AllParts(["restore"])
  {
    Words();
    hide Part;
  }

  lemma WithTail(s: Screen, l: string, c: string, b: string, p: string, r: string, tail: seq<string>)
    requires Identity(l) && Identity(c) && Identity(b) && Identity(p) && ValidRevision(r)
    requires tail == [] || tail == ["restore"] || AllParts(tail)
    requires Parts(s) == ["libraries", l, "sections", c, "books", b, "pages", p, "revisions", r] + tail
    ensures AllParts(Parts(s))
  {
    FilesTail(tail);
    hide Part, AllParts, Identity, ValidRevision, Parts;
    BookAndRevision(l, c, b, p, r, tail);
  }

  lemma FromSection(s: Screen)
    requires Proper(s) && |Parts(s)| >= 8 && Parts(s)[2] == "sections"
    ensures LegacyPage(Parts(s)) == Some(Replacement(s))
  {
    hide Identity, ValidRevision, ValidFilePath, Path;
    match s
    case PageScreen(l, c, b, p) => PageParts(l, p);
    case PageMove(l, c, b, p) => PageParts(l, p);
    case PageFilesEdit(l, c, b, p) => PageParts(l, p);
    case RevisionScreen(l, c, b, p, r) => OfRevision(l, p, r);
    case RevisionRestore(l, c, b, p, r) => OfRevision(l, p, r);
    case RevisionFiles(l, c, b, p, r, f) => OfRevision(l, p, r); assert Parts(s)[11..] == f;
  }

  lemma FromLibrary(s: Screen)
    requires Proper(s) && !(s.PageScreen? || s.PageMove? || s.PageFilesEdit? || s.RevisionScreen? || s.RevisionRestore? || s.RevisionFiles?)
    ensures |Parts(s)| >= 3 && LegacyLibrary(Parts(s)) == Some(Replacement(s))
  {
    hide Identity, ValidRevision, ValidFilePath, Path, LegacyPage;
    match s
    case LibraryTrash(l) => assert "/" + "trash" == "/trash";
    case LibraryTags(l) => assert "/" + "tags" == "/tags";
    case SectionTrash(l, c) => assert "/" + "trash" == "/trash";
    case SectionTrashItem(l, c, i) => assert "/" + "trash" == "/trash";
    case CallerScreen(l, c) => CredentialParts(c);
    case CallerGrants(l, c, d) => CredentialParts(c);
    case NewPage(l, c, b) => PageParts(l, "new"); assert "/libraries/" + l + "/pages/" + "new" == "/libraries/" + l + "/pages/new";
    case PreviewImages(l, p, r, f) => OfRevision(l, p, r); assert Parts(s)[7..] == f;
  }

  lemma CredentialParts(c: string)
    ensures Path(["credentials", c]) == "/credentials/" + c
  {
    TwoParts("credentials", c);
    assert "/" + "credentials" + "/" + c == "/credentials/" + c;
  }

  lemma PartsGo(s: Screen)
    requires Proper(s)
    ensures |Parts(s)| >= 3 && LegacyLibrary(Parts(s)) == Some(Replacement(s))
  {
    if s.PageScreen? || s.PageMove? || s.PageFilesEdit? || s.RevisionScreen? || s.RevisionRestore? || s.RevisionFiles? {
      hide Identity, ValidRevision, ValidFilePath, Path, LegacyPage, Replacement;
      FromSection(s);
    } else {
      FromLibrary(s);
    }
  }

  lemma OfRevision(l: string, p: string, r: string)
    ensures ["libraries", l, "pages", p] + ["revisions", r] == ["libraries", l, "pages", p, "revisions", r]
    ensures Path(["libraries", l, "pages", p, "revisions", r]) == "/libraries/" + l + "/pages/" + p + "/revisions/" + r
  {
    RevisionParts(l, p, r);
  }

  // Every retired screen below a Library is sent to its replacement: the same Library, Page and Revision,
  // and in the query the Library, or the Section and the Book, that the path named.
  lemma ScreenGoes(s: Screen)
    requires Proper(s)
    ensures Legacy(Path(Parts(s))) == Some(Replacement(s))
  {
    ProperParts(s);
    PartsGo(s);
    hide Proper, Parts, Replacement, Path, LegacyLibrary, Segments, Fixed, Identity;
    PathSegments(Parts(s));
    NotFixed(Parts(s));
  }

  // The screens outside the Libraries.
  lemma FixedScreens(path: string)
    requires path in RETIRED_SCREENS
    ensures Legacy(path) == Some(Destination(RETIRED_SCREENS[path], []))
  {
    hide Segments;
  }

  // A slash at the end of a path makes no difference.
  lemma TrailingSlash(path: string)
    requires path != "" && path[|path| - 1] != '/'
    ensures Legacy(path + "/") == Legacy(path)
  {
    assert WithoutTrailingSlash(path + "/") == path;
    hide Segments, Fixed, LegacyLibrary;
  }

  // ---- and nothing else is retired ----

  function PageScreenOf(p: seq<string>): Screen
    requires |p| >= 8
  {
    if |p| == 8 then PageScreen(p[1], p[3], p[5], p[7])
    else if |p| == 9 then PageMove(p[1], p[3], p[5], p[7])
    else if |p| == 10 then
      (if p[8] == "files" then PageFilesEdit(p[1], p[3], p[5], p[7]) else RevisionScreen(p[1], p[3], p[5], p[7], p[9]))
    else if |p| == 11 && p[10] == "restore" then RevisionRestore(p[1], p[3], p[5], p[7], p[9])
    else RevisionFiles(p[1], p[3], p[5], p[7], p[9], p[11..])
  }

  lemma FileTail(p: seq<string>, n: nat)
    requires n <= |p| && FreeOf(p, '/') && "" !in p && ValidFilePath(p[n..])
    ensures FileParts(p[n..]) && p == p[..n] + p[n..]
  {
    hide ValidFilePath;
    forall i | 0 <= i < |p[n..]| ensures '/' !in p[n..][i] {
      assert p[n..][i] == p[n + i];
    }
  }

  lemma RetiredPage(p: seq<string>)
    requires |p| >= 8 && FreeOf(p, '/') && "" !in p && LegacyPage(p).Some?
    requires p[0] == "libraries" && p[2] == "sections" && p[4] == "books" && p[6] == "pages"
    requires Identity(p[1]) && Identity(p[3]) && Identity(p[5]) && Identity(p[7])
    ensures Proper(PageScreenOf(p)) && Parts(PageScreenOf(p)) == p
  {
    hide Identity, ValidRevision, ValidFilePath, Path;
    if |p| >= 11 && p[10] == "files" && ValidFilePath(p[11..]) {
      FileTail(p, 11);
      NotRestore(p);
    }
  }

  lemma NotRestore(p: seq<string>)
    requires |p| >= 11 && p[10] == "files"
    ensures p[10] != "restore"
  {
    assert "files"[0] != "restore"[0];
  }

  function ScreenOf(p: seq<string>): Screen
    requires |p| >= 3
  {
    if |p| == 3 then (if p[2] == "trash" then LibraryTrash(p[1]) else LibraryTags(p[1]))
    else if p[2] == "callers" then
      (if |p| < 7 then CallerScreen(p[1], p[3]) else CallerGrants(p[1], p[3], p[5]))
    else if p[2] == "pages" then
      (if |p| >= 7 then PreviewImages(p[1], p[3], p[5], p[7..]) else LibraryTrash(p[1]))
    else if |p| == 5 then SectionTrash(p[1], p[3])
    else if |p| == 6 then SectionTrashItem(p[1], p[3], p[5])
    else if |p| == 7 then NewPage(p[1], p[3], p[5])
    else if |p| >= 8 then PageScreenOf(p)
    else LibraryTrash(p[1])
  }

  lemma RetiredSection(p: seq<string>)
    requires |p| >= 4 && FreeOf(p, '/') && "" !in p && LegacySection(p).Some?
    requires p[0] == "libraries" && p[2] == "sections" && Identity(p[1]) && Identity(p[3])
    ensures Proper(ScreenOf(p)) && Parts(ScreenOf(p)) == p
  {
    hide Identity, ValidRevision, ValidFilePath, Path, LegacyPage, PageScreenOf;
    if |p| >= 8 {
      RetiredPage(p);
    }
  }

  lemma RetiredLibrary(p: seq<string>)
    requires |p| >= 2 && FreeOf(p, '/') && "" !in p && p[0] == "libraries" && Identity(p[1]) && LegacyLibrary(p).Some?
    ensures |p| >= 3 && Proper(ScreenOf(p)) && Parts(ScreenOf(p)) == p
  {
    hide Identity, ValidRevision, ValidFilePath, Path, LegacySection, PageScreenOf;
    if |p| >= 4 && p[2] == "sections" {
      RetiredSection(p);
    } else if |p| >= 7 && p[2] == "pages" {
      FileTail(p, 7);
    }
  }

  // A path has a redirect exactly when, up to a slash at its end, it is one of the fixed retired screens or
  // the path of a retired screen below a Library.
  lemma RetiredExactly(pathname: string)
    ensures Legacy(pathname).Some? <==>
            var path := WithoutTrailingSlash(pathname);
            path in RETIRED_SCREENS || exists s :: Proper(s) && path == Path(Parts(s))
  {
    var path := WithoutTrailingSlash(pathname);
    FixedIs(path);
    hide Fixed, Proper, Parts, Path, LegacyLibrary, Identity;
    if path !in RETIRED_SCREENS {
      if Legacy(pathname).Some? {
        var p := Segments(path).value;
        PathOfSegments(path);
        RetiredLibrary(p);
        assert Proper(ScreenOf(p)) && path == Path(Parts(ScreenOf(p)));
      }
      if s :| Proper(s) && path == Path(Parts(s)) {
        ScreenGoes(s);
        ProperParts(s);
        PathSegments(Parts(s));
        assert WithoutTrailingSlash(path) == path;
      }
    }
  }

  lemma FixedIs(path: string)
    ensures Fixed(path).Some? <==> path in RETIRED_SCREENS
  {
  }
}
