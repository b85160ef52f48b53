// Applying link edits to the files they were found in.
module ReferenceEdits {
  import opened Common

  // `source` is the text the edit was computed from.
  datatype Edit = Edit(file: string, start: nat, end: nat, after: string, source: string, selected: bool)

  type Sources = map<string, string>

  predicate Stale(sources: Sources, e: Edit) { e.file !in sources || sources[e.file] != e.source }

  predicate InBounds(e: Edit) { e.start <= e.end <= |e.source| }

  predicate Apart(a: Edit, b: Edit) {
    a.file == b.file ==> a.start != b.start && (a.end <= b.start || b.end <= a.start)
  }

  // What the caller hands over: selected edits in bounds, and disjoint within each file.
  predicate Applicable(edits: seq<Edit>) {
    && (forall i :: 0 <= i < |edits| && edits[i].selected ==> InBounds(edits[i]))
    && (forall i, j :: 0 <= i < j < |edits| && edits[i].selected && edits[j].selected ==> Apart(edits[i], edits[j]))
  }

  // ---- the simultaneous substitution ----

  // Left to right over one source from `from` on: kept text, replacement, kept text, ...
  function Substitute(source: string, edits: seq<Edit>, from: nat): string
    requires Chain(source, edits, from)
  {
    if edits == [] then source[from..]
    else source[from..edits[0].start] + edits[0].after + Substitute(source, edits[1..], edits[0].end)
  }

  // Ascending, disjoint and within the source.
  predicate Chain(source: string, edits: seq<Edit>, from: nat) {
    && from <= |source|
    && (edits != [] ==> from <= edits[0].start <= edits[0].end <= |source| && Chain(source, edits[1..], edits[0].end))
  }

  function Selected(edits: seq<Edit>): seq<Edit> {
    if edits == [] then [] else Selected(edits[..|edits| - 1]) + (if edits[|edits| - 1].selected then [edits[|edits| - 1]] else [])
  }

  function Of(edits: seq<Edit>, file: string): seq<Edit> {
    if edits == [] then [] else Of(edits[..|edits| - 1], file) + (if edits[|edits| - 1].file == file then [edits[|edits| - 1]] else [])
  }

  // Ascending by start.
  function InsertAscending(s: seq<Edit>, e: Edit): seq<Edit> {
    if s == [] || e.start < s[0].start then [e] + s else [s[0]] + InsertAscending(s[1..], e)
  }

  function Ascending(edits: seq<Edit>): seq<Edit> {
    if edits == [] then [] else InsertAscending(Ascending(edits[..|edits| - 1]), edits[|edits| - 1])
  }

  // The selected edits of one file, left to right.
  function EditsOf(edits: seq<Edit>, file: string): seq<Edit> { Ascending(Of(Selected(edits), file)) }

  // Descending by start.
  function InsertDescending(s: seq<Edit>, e: Edit): seq<Edit> {
    if s == [] || e.start > s[0].start then [e] + s else [s[0]] + InsertDescending(s[1..], e)
  }

  function Descending(edits: seq<Edit>): seq<Edit> {
    if edits == [] then [] else InsertDescending(Descending(edits[..|edits| - 1]), edits[|edits| - 1])
  }

  ghost predicate Increasing(s: seq<Edit>) { forall i, j :: 0 <= i < j < |s| ==> s[i].start < s[j].start }
  ghost predicate NeverIncreasing(s: seq<Edit>) { forall i, j :: 0 <= i < j < |s| ==> s[i].start >= s[j].start }
  ghost predicate AllApart(s: seq<Edit>) { forall i, j :: 0 <= i < j < |s| ==> Apart(s[i], s[j]) }
  ghost predicate Same(a: seq<Edit>, b: seq<Edit>) { forall e :: e in a <==> e in b }

  lemma {:induction false} SelectedAre(edits: seq<Edit>)
    requires Applicable(edits)
    ensures forall e :: e in Selected(edits) <==> e in edits && e.selected
    ensures AllApart(Selected(edits))
  {
    if edits != [] {
      var before, last := edits[..|edits| - 1], edits[|edits| - 1];
      SelectedAre(before);
      assert edits == before + [last];
      var s := Selected(before);
      forall i | 0 <= i < |s| && last.selected ensures Apart(s[i], last) {
        assert s[i] in s;
        var k :| 0 <= k < |before| && before[k] == s[i];
        assert edits[k] == s[i];
      }
    }
  }

  lemma {:induction false} OfAre(edits: seq<Edit>, file: string)
    requires AllApart(edits)
    ensures forall e :: e in Of(edits, file) <==> e in edits && e.file == file
    ensures AllApart(Of(edits, file))
  {
    if edits != [] {
      var before, last := edits[..|edits| - 1], edits[|edits| - 1];
      OfAre(before, file);
      assert edits == before + [last];
      var s := Of(before, file);
      forall i | 0 <= i < |s| ensures Apart(s[i], last) {
        assert s[i] in s;
        ApartFromLast(edits, s[i]);
      }
      hide Apart;
    }
  }

  lemma ApartFromLast(edits: seq<Edit>, e: Edit)
    requires AllApart(edits) && edits != [] && e in edits[..|edits| - 1]
    ensures Apart(e, edits[|edits| - 1])
  {
    var k :| 0 <= k < |edits| - 1 && edits[k] == e;
    hide Apart;
  }

  lemma {:induction false} InsertAscendingAre(s: seq<Edit>, e: Edit)
    requires Increasing(s) && forall i :: 0 <= i < |s| ==> s[i].start != e.start
    ensures Increasing(InsertAscending(s, e)) && forall x :: x in InsertAscending(s, e) <==> x in s || x == e
  {
    if s != [] && s[0].start < e.start {
      InsertAscendingAre(s[1..], e);
      assert s == [s[0]] + s[1..];
      var t := InsertAscending(s[1..], e);
      forall i | 0 <= i < |t| ensures s[0].start < t[i].start {
        assert t[i] in t;
      }
    }
  }

  // One file's edits in order: the same edits, strictly ascending.
  lemma {:induction false} AscendingAre(edits: seq<Edit>, file: string)
    requires AllApart(edits) && forall i :: 0 <= i < |edits| ==> edits[i].file == file
    ensures Increasing(Ascending(edits)) && Same(Ascending(edits), edits)
  {
    if edits != [] {
      var before, last := edits[..|edits| - 1], edits[|edits| - 1];
      AscendingAre(before, file);
      assert edits == before + [last];
      var s := Ascending(before);
      forall i | 0 <= i < |s| ensures s[i].start != last.start {
        assert s[i] in s;
        var k :| 0 <= k < |before| && before[k] == s[i];
        assert edits[k] == s[i] && Apart(edits[k], edits[|edits| - 1]);
      }
      InsertAscendingAre(s, last);
    }
  }

  lemma EditsOfAre(edits: seq<Edit>, file: string)
    requires Applicable(edits)
    ensures Increasing(EditsOf(edits, file))
    ensures forall e :: e in EditsOf(edits, file) <==> e in edits && e.selected && e.file == file
  {
    SelectedAre(edits);
    OfAre(Selected(edits), file);
    var s := Of(Selected(edits), file);
    forall i | 0 <= i < |s| ensures s[i].file == file {
      assert s[i] in s;
    }
    AscendingAre(s, file);
  }

  // A strictly ascending list is determined by its members.
  lemma {:induction false} IncreasingUnique(a: seq<Edit>, b: seq<Edit>)
    requires Increasing(a) && Increasing(b) && Same(a, b)
    ensures a == b
  {
    assert b != [] ==> b[0] in b;
    if a != [] {
      assert a[0] in b && b[0] in a;
      RestMembers(a);
      RestMembers(b);
      IncreasingUnique(a[1..], b[1..]);
    }
  }

  lemma RestMembers(a: seq<Edit>)
    requires a != [] && Increasing(a)
    ensures forall x :: x in a[1..] <==> x in a && x != a[0]
  {
    assert a == [a[0]] + a[1..];
    forall x | x in a[1..] ensures x != a[0] {
      var i :| 0 <= i < |a[1..]| && a[1..][i] == x;
      assert a[0].start < a[i + 1].start;
    }
  }

  lemma {:induction false} InsertDescendingAre(s: seq<Edit>, e: Edit)
    requires NeverIncreasing(s) && AllApart(s) && forall i :: 0 <= i < |s| ==> Apart(s[i], e)
    ensures NeverIncreasing(InsertDescending(s, e)) && AllApart(InsertDescending(s, e))
    ensures forall x :: x in InsertDescending(s, e) <==> x in s || x == e
  {
    if s != [] && s[0].start >= e.start {
      InsertDescendingAre(s[1..], e);
      assert s == [s[0]] + s[1..];
      var t := InsertDescending(s[1..], e);
      forall i | 0 <= i < |t| ensures s[0].start >= t[i].start && Apart(s[0], t[i]) {
        assert t[i] in t;
        if t[i] != e {
          var k :| 0 <= k < |s[1..]| && s[1..][k] == t[i];
          assert s[k + 1] == t[i];
        }
      }
    }
  }

  lemma {:induction false} DescendingAre(edits: seq<Edit>)
    requires AllApart(edits)
    ensures NeverIncreasing(Descending(edits)) && Same(Descending(edits), edits) && AllApart(Descending(edits))
  {
    if edits != [] {
      var before, last := edits[..|edits| - 1], edits[|edits| - 1];
      DescendingAre(before);
      assert edits == before + [last];
      var s := Descending(before);
      forall i | 0 <= i < |s| ensures Apart(s[i], last) {
        assert s[i] in s;
        var k :| 0 <= k < |before| && before[k] == s[i];
        assert edits[k] == s[i];
      }
      InsertDescendingAre(s, last);
    }
  }

  function Reversed(s: seq<Edit>): seq<Edit> {
    if s == [] then [] else [s[|s| - 1]] + Reversed(s[..|s| - 1])
  }

  // The edits of one file met so far, last one first.
  function Met(done: seq<Edit>, file: string): seq<Edit> { Reversed(Of(done, file)) }

  lemma MetSnoc(done: seq<Edit>, e: Edit, file: string)
    ensures Met(done + [e], file) == if e.file == file then [e] + Met(done, file) else Met(done, file)
  {
    assert (done + [e])[..|done|] == done;
    if e.file == file {
      assert (Of(done, file) + [e])[..|Of(done, file)|] == Of(done, file);
    } else {
      assert Of(done, file) + [] == Of(done, file);
    }
  }

  lemma {:induction false} MetAre(done: seq<Edit>, file: string)
    requires NeverIncreasing(done) && AllApart(done)
    ensures Increasing(Met(done, file)) && forall e :: e in Met(done, file) <==> e in done && e.file == file
  {
    if done != [] {
      var before, e := done[..|done| - 1], done[|done| - 1];
      MetAre(before, file);
      Snoc(done);
      hide Met;
      MetSnoc(before, e, file);
      if e.file == file {
        var s := Met(before, file);
        forall i | 0 <= i < |s| ensures e.start < s[i].start {
          assert s[i] in s;
          LastStartsFirst(done, s[i]);
        }
        FirstOf(e, s);
      }
    }
  }

  lemma Snoc(done: seq<Edit>)
    requires done != []
    ensures done == done[..|done| - 1] + [done[|done| - 1]]
  {
  }

  lemma LastStartsFirst(done: seq<Edit>, e: Edit)
    requires NeverIncreasing(done) && AllApart(done) && done != [] && e in done[..|done| - 1] && e.file == done[|done| - 1].file
    ensures done[|done| - 1].start < e.start
  {
    var k :| 0 <= k < |done| - 1 && done[k] == e;
    assert Apart(done[k], done[|done| - 1]);
  }

  lemma FirstOf(e: Edit, s: seq<Edit>)
    requires Increasing(s) && forall i :: 0 <= i < |s| ==> e.start < s[i].start
    ensures Increasing([e] + s) && forall x :: x in [e] + s <==> x == e || x in s
  {
  }

  // Strictly ascending disjoint edits of one source form a chain.
  lemma {:induction false} IncreasingChain(source: string, s: seq<Edit>, from: nat, file: string)
    requires Increasing(s) && from <= |source| && (s != [] ==> from <= s[0].start)
    requires forall i :: 0 <= i < |s| ==> s[i].file == file && s[i].start <= s[i].end <= |source|
    requires forall i, j :: 0 <= i < j < |s| ==> Apart(s[i], s[j])
    ensures Chain(source, s, from)
  {
    if s != [] {
      if |s| > 1 {
        assert Apart(s[0], s[1]) && s[0].start < s[1].start;
      }
      IncreasingChain(source, s[1..], s[0].end, file);
    }
  }

  lemma Regroup(a: string, b: string, c: string, d: string)
    ensures a + b + c + d == a + (b + c + d)
  {
  }

  // The text before the next edit is kept, so a substitution can start anywhere in it.
  lemma StartLater(source: string, edits: seq<Edit>, a: nat, b: nat)
    requires Chain(source, edits, a) && a <= b <= |source| && (edits != [] ==> b <= edits[0].start)
    ensures Chain(source, edits, b) && Substitute(source, edits, a) == source[a..b] + Substitute(source, edits, b)
  {
    if edits == [] {
      assert source[a..] == source[a..b] + source[b..];
    } else {
      var first, rest := edits[0], Substitute(source, edits[1..], edits[0].end);
      assert source[a..first.start] == source[a..b] + source[b..first.start];
      assert Substitute(source, edits, a) == source[a..first.start] + first.after + rest;
      assert Substitute(source, edits, b) == source[b..first.start] + first.after + rest;
      hide Substitute, Chain;
      Regroup(source[a..b], source[b..first.start], first.after, rest);
    }
  }

  // Splicing the leftmost edit into a text where all later ones are done already is substituting it
  // along with them.
  lemma SpliceIsSubstitute(source: string, e: Edit, rest: seq<Edit>)
    requires Chain(source, [e] + rest, 0)
    ensures Chain(source, rest, 0)
    ensures var done := Substitute(source, rest, 0);
            && e.end <= |done|
            && done[..e.start] + e.after + done[e.end..] == Substitute(source, [e] + rest, 0)
  {
    assert ([e] + rest)[1..] == rest;
    assert Chain(source, rest, e.end);
    ChainEarlier(source, rest, e.end);
    StartLater(source, rest, 0, e.end);
    var done := Substitute(source, rest, 0);
    assert done == source[0..e.end] + Substitute(source, rest, e.end);
    assert done[..e.start] == source[0..e.start];
    assert done[e.end..] == Substitute(source, rest, e.end);
  }

  lemma ChainEarlier(source: string, edits: seq<Edit>, from: nat)
    requires Chain(source, edits, from)
    ensures Chain(source, edits, 0) && (edits != [] ==> from <= edits[0].start)
  {
  }

  lemma MetChain(sources: Sources, done: seq<Edit>, file: string)
    requires NeverIncreasing(done) && AllApart(done) && file in sources
    requires forall e :: e in done ==> InBounds(e) && !Stale(sources, e)
    ensures Chain(sources[file], Met(done, file), 0)
  {
    MetAre(done, file);
    var s := Met(done, file);
    forall i | 0 <= i < |s| ensures s[i].file == file && s[i].start <= s[i].end <= |sources[file]| {
      assert s[i] in s;
    }
    forall i, j | 0 <= i < j < |s| ensures Apart(s[i], s[j]) {
      assert s[i] in s && s[j] in s;
      var k :| 0 <= k < |done| && done[k] == s[i];
      var l :| 0 <= l < |done| && done[l] == s[j];
      assert k < l || l < k;
    }
    IncreasingChain(sources[file], s, 0, file);
  }

  // ---- the program ----

  // Fresh edits in bounds, in the order in which they are applied.
  ghost predicate InOrder(sources: Sources, done: seq<Edit>) {
    NeverIncreasing(done) && AllApart(done) && forall e :: e in done ==> InBounds(e) && !Stale(sources, e)
  }

  lemma LastFresh(sources: Sources, done: seq<Edit>, e: Edit)
    requires InOrder(sources, done + [e])
    ensures e.file in sources
  {
    assert e in done + [e];
  }

  ghost predicate FileProgress(source: string, done: seq<Edit>, file: string, text: string) {
    Chain(source, Met(done, file), 0) && text == Substitute(source, Met(done, file), 0)
  }

  // What the splicing has made of every file after the edits in `done`, taken in descending order.
  ghost predicate Progress(sources: Sources, done: seq<Edit>, output: Sources) {
    && (forall file :: file in output <==> file in sources)
    && (forall file :: file in sources ==> FileProgress(sources[file], done, file, output[file]))
  }

  lemma NoProgress(sources: Sources)
    ensures Progress(sources, [], sources)
  {
    forall file | file in sources ensures FileProgress(sources[file], [], file, sources[file]) {
      assert sources[file][0..] == sources[file];
    }
  }

  // slice(0, start) + after + slice(end).
  function Splice(text: string, e: Edit): string {
    if e.start <= e.end <= |text| then text[..e.start] + e.after + text[e.end..] else text
  }

  lemma OneSplice(sources: Sources, done: seq<Edit>, e: Edit, text: string)
    requires e.file in sources
    requires InOrder(sources, done + [e])
    requires FileProgress(sources[e.file], done, e.file, text)
    ensures e.start <= e.end <= |text|
    ensures FileProgress(sources[e.file], done + [e], e.file, Splice(text, e))
  {
    assert e in done + [e];
    MetChain(sources, done + [e], e.file);
    MetSnoc(done, e, e.file);
    hide Met, NeverIncreasing, AllApart;
    SpliceIsSubstitute(sources[e.file], e, Met(done, e.file));
  }

  lemma MoreProgress(sources: Sources, done: seq<Edit>, e: Edit, output: Sources)
    requires Progress(sources, done, output)
    requires InOrder(sources, done + [e])
    ensures e.file in output && e.start <= e.end <= |output[e.file]|
    ensures Progress(sources, done + [e], output[e.file := Splice(output[e.file], e)])
  {
    hide FileProgress, InOrder, Splice;
    LastFresh(sources, done, e);
    OneSplice(sources, done, e, output[e.file]);
    var after := output[e.file := Splice(output[e.file], e)];
    forall file | file in sources ensures FileProgress(sources[file], done + [e], file, after[file]) {
      if file != e.file {
        OtherFile(sources[file], done, e, file, output[file]);
      }
    }
  }

  lemma OtherFile(source: string, done: seq<Edit>, e: Edit, file: string, text: string)
    requires FileProgress(source, done, file, text) && file != e.file
    ensures FileProgress(source, done + [e], file, text)
  {
    MetSnoc(done, e, file);
    hide Met;
  }

  // When every edit is done, each file has had its own edits, left to right.
  lemma AllMet(edits: seq<Edit>, file: string)
    requires Applicable(edits)
    ensures Met(Descending(Selected(edits)), file) == EditsOf(edits, file)
  {
    SelectedAre(edits);
    DescendingAre(Selected(edits));
    MetAre(Descending(Selected(edits)), file);
    EditsOfAre(edits, file);
    IncreasingUnique(Met(Descending(Selected(edits)), file), EditsOf(edits, file));
  }

  // Every file after one simultaneous substitution of its selected edits; files without any are as
  // they were.
  ghost predicate Substituted(sources: Sources, edits: seq<Edit>, output: Sources) {
    && (forall file :: file in output <==> file in sources)
    && (forall file :: file in sources ==>
          var own := EditsOf(edits, file);
          && Chain(sources[file], own, 0) && output[file] == Substitute(sources[file], own, 0)
          && (own == [] ==> output[file] == sources[file]))
  }

  lemma Finished(sources: Sources, edits: seq<Edit>, output: Sources)
    requires Applicable(edits) && Progress(sources, Descending(Selected(edits)), output)
    ensures Substituted(sources, edits, output)
  {
    forall file | file in sources ensures Met(Descending(Selected(edits)), file) == EditsOf(edits, file) {
      AllMet(edits, file);
    }
    hide Met, EditsOf;
    forall file | file in sources && EditsOf(edits, file) == [] ensures output[file] == sources[file] {
      assert sources[file][0..] == sources[file];
    }
  }

  // None is the error that the suggestions are stale.
  method ApplyReferenceEdits(sources: Sources, edits: seq<Edit>) returns (r: Option<Sources>)
    requires Applicable(edits)
    ensures r.None? <==> exists i :: 0 <= i < |edits| && edits[i].selected
                                     && (edits[i].file !in sources || sources[edits[i].file] != edits[i].source)
    ensures r.Some? ==> Substituted(sources, edits, r.value)
  {
    hide Applicable, AllApart, NeverIncreasing, Progress, InOrder, Substituted, Descending, Selected;
    var output := sources;
    var order := Descending(Selected(edits));
    OrderIs(edits);
    NoProgress(sources);
    assert order[..0] == [];
    for i := 0 to |order|
      invariant Progress(sources, order[..i], output)
      invariant forall k :: 0 <= k < i ==> !Stale(sources, order[k])
    {
      var e := order[i];
      assert e in order;
      if Stale(sources, e) {
        return None;
      }
      assert order[..i + 1] == order[..i] + [e];
      PrefixOrder(sources, order, i + 1);
      MoreProgress(sources, order[..i], e, output);
      var text := output[e.file];
      output := output[e.file := text[..e.start] + e.after + text[e.end..]];
    }
    assert order[..|order|] == order;
    Finished(sources, edits, output);
    assert forall i :: 0 <= i < |edits| && edits[i].selected ==> edits[i] in order;
    r := Some(output);
  }

  lemma OrderIs(edits: seq<Edit>)
    requires Applicable(edits)
    ensures var order := Descending(Selected(edits));
            && NeverIncreasing(order) && AllApart(order)
            && (forall e :: e in order <==> e in edits && e.selected)
            && forall e :: e in order ==> InBounds(e)
  {
    SelectedAre(edits);
    DescendingAre(Selected(edits));
  }

  lemma PrefixOrder(sources: Sources, order: seq<Edit>, n: nat)
    requires n <= |order| && NeverIncreasing(order) && AllApart(order)
    requires forall e :: e in order ==> InBounds(e)
    requires forall k :: 0 <= k < n ==> !Stale(sources, order[k])
    ensures InOrder(sources, order[..n])
  {
  }

  // The substitution reads only from the source and the replacements: what stands between two edits,
  // before the first and after the last, is kept as it was.
  lemma {:induction false} KeptText(source: string, edits: seq<Edit>, from: nat)
    requires Chain(source, edits, from)
    ensures |Substitute(source, edits, from)| + Removed(edits) == |source| - from + Inserted(edits)
    ensures var upTo := if edits == [] then |source| else edits[0].start;
            source[from..upTo] <= Substitute(source, edits, from)
  {
    if edits != [] {
      KeptText(source, edits[1..], edits[0].end);
    }
  }

  function Removed(edits: seq<Edit>): int {
    if edits == [] then 0 else edits[0].end - edits[0].start + Removed(edits[1..])
  }

  function Inserted(edits: seq<Edit>): nat {
    if edits == [] then 0 else |edits[0].after| + Inserted(edits[1..])
  }
}
