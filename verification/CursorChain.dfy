// The checker of one complete chain of search pages against the full expected list.
module CursorChain {
  import opened Common

  // A result: its Library and its Page.
  type Item = (int, int)
  datatype Page = Page(items: seq<Item>, next: Option<string>)

  // The server may answer every call differently: call number, then the cursor sent.
  type Server = (nat, Option<string>) -> Page

  // The cursor sent with call k, following the chain.
  function CursorAt(server: Server, k: nat): Option<string> {
    if k == 0 then None else server(k - 1, CursorAt(server, k - 1)).next
  }

  function PageAt(server: Server, k: nat): Page { server(k, CursorAt(server, k)) }

  function Slice(expected: seq<Item>, limit: nat, k: nat): seq<Item>
    requires k * limit <= |expected|
  {
    if |expected| - k * limit < limit then expected[k * limit..] else expected[k * limit..k * limit + limit]
  }

  // How many pages the expected list fills: an empty list fills one.
  function Pages(expected: seq<Item>, limit: nat): (n: nat)
    requires limit > 0
    ensures n >= 1
  {
    if expected == [] then 1 else (|expected| + limit - 1) / limit
  }

  predicate Distinct(items: seq<Item>) { forall i, j :: 0 <= i < j < |items| ==> items[i] != items[j] }

  // Call k answers its slice of the list.
  ghost predicate RightPage(server: Server, expected: seq<Item>, limit: nat, k: nat) {
    k * limit <= |expected| && PageAt(server, k).items == Slice(expected, limit, k)
  }

  // Call k names a cursor to go on with: non-empty and not named before.
  ghost predicate GoodCursor(server: Server, k: nat) {
    && PageAt(server, k).next.Some? && PageAt(server, k).next.value != ""
    && forall j :: 0 <= j < k ==> PageAt(server, j).next != PageAt(server, k).next
  }

  // The pages are the consecutive slices of a list without duplicates, with distinct non-empty inner
  // cursors and none at the end.
  ghost predicate IsChain(server: Server, expected: seq<Item>, limit: nat)
    requires limit > 0
  {
    var n := Pages(expected, limit);
    && Distinct(expected)
    && (forall k :: 0 <= k < n ==> RightPage(server, expected, limit, k))
    && (forall k :: 0 <= k < n - 1 ==> GoodCursor(server, k))
    && PageAt(server, n - 1).next.None?
  }

  datatype Outcome = Accepted(pages: nat) | WrongPage | DidNotEnd | BadCursor | OmittedOrDuplicated

  lemma Scaled(a: nat, b: nat, limit: nat)
    requires a <= b
    ensures a * limit <= b * limit
  {
  }

  lemma Quotient(e: nat, limit: nat, k: nat)
    requires limit > 0 && k * limit <= e
    ensures k <= e / limit
  {
    if k > e / limit {
      Scaled(e / limit + 1, k, limit);
    }
  }

  // Page k starts within the list; all but the last end before its end, and the last ends with it.
  lemma PageBounds(expected: seq<Item>, limit: nat, k: nat)
    requires limit > 0 && k < Pages(expected, limit)
    ensures k * limit <= |expected| && k <= |expected| / limit
    ensures k < Pages(expected, limit) - 1 ==> k * limit + limit < |expected|
    ensures k == Pages(expected, limit) - 1 ==> |expected| <= k * limit + limit
  {
    var n := Pages(expected, limit);
    if expected != [] {
      assert n * limit <= |expected| + limit - 1 < n * limit + limit;
      Scaled(k, n - 1, limit);
      if k < n - 1 {
        Scaled(k + 1, n - 1, limit);
      }
      Quotient(|expected|, limit, k);
    }
  }

  // Everything before call k went well.
  ghost predicate SoFar(server: Server, expected: seq<Item>, limit: nat, k: nat) {
    forall j :: 0 <= j < k ==> RightPage(server, expected, limit, j) && GoodCursor(server, j)
  }

  // What the first call that is not as it should be says about the chain.
  lemma Verdict(server: Server, expected: seq<Item>, limit: nat, k: nat)
    requires limit > 0 && k < Pages(expected, limit) && SoFar(server, expected, limit, k)
    ensures !RightPage(server, expected, limit, k) ==> !IsChain(server, expected, limit)
    ensures k < Pages(expected, limit) - 1 && !GoodCursor(server, k) ==> !IsChain(server, expected, limit)
    ensures k == Pages(expected, limit) - 1 && RightPage(server, expected, limit, k) ==>
              (IsChain(server, expected, limit) <==> PageAt(server, k).next.None? && Distinct(expected))
  {
    hide RightPage, GoodCursor, Distinct, Pages;
  }

  ghost predicate CursorsAre(server: Server, k: nat, cursors: set<string>) {
    forall c :: c in cursors <==> exists j :: 0 <= j < k && PageAt(server, j).next == Some(c)
  }

  // The membership test tells whether a cursor was named before.
  lemma CursorTest(server: Server, k: nat, cursors: set<string>)
    requires CursorsAre(server, k, cursors)
    ensures var next := PageAt(server, k).next;
            && ((next.Some? && next.value != "" && next.value !in cursors) <==> GoodCursor(server, k))
            && (next.Some? ==> CursorsAre(server, k + 1, cursors + {next.value}))
  {
    hide PageAt;
  }

  lemma OneMorePage(server: Server, expected: seq<Item>, limit: nat, k: nat)
    requires SoFar(server, expected, limit, k) && RightPage(server, expected, limit, k) && GoodCursor(server, k)
    ensures SoFar(server, expected, limit, k + 1)
  {
    hide RightPage, GoodCursor;
  }

  method CheckPagination(server: Server, expected: seq<Item>, limit: nat) returns (outcome: Outcome, leftByBound: bool)
    requires limit > 0
    ensures outcome.Accepted? <==> IsChain(server, expected, limit)
    ensures outcome.Accepted? ==> outcome.pages == Pages(expected, limit)
    ensures !leftByBound
  {
    hide Distinct, IsChain, Pages, GoodCursor, SoFar, CursorsAre;
    var cursor: Option<string> := None;
    var cursors: set<string> := {};
    var collected: seq<Item> := [];
    var pages: nat := 0;
    leftByBound := true;
    assert SoFar(server, expected, limit, 0) && CursorsAre(server, 0, {}) by { Nothing(server, expected, limit); }
    while pages <= |expected| / limit
      invariant pages < Pages(expected, limit) && leftByBound
      invariant |collected| == pages * limit <= |expected| && collected == expected[..|collected|]
      invariant cursor == CursorAt(server, pages)
      invariant CursorsAre(server, pages, cursors)
      invariant SoFar(server, expected, limit, pages)
    {
      PageBounds(expected, limit, pages);
      Verdict(server, expected, limit, pages);
      CursorTest(server, pages, cursors);
      var page := server(pages, cursor);
      var offset := |collected|;
      if page.items != (if |expected| - offset < limit then expected[offset..] else expected[offset..offset + limit]) {
        return WrongPage, false;
      }
      collected := collected + page.items;
      if |collected| == |expected| {
        pages := pages + 1;
        leftByBound := false;
        if page.next.Some? {
          return DidNotEnd, false;
        }
        break;
      }
      if page.next.None? || page.next.value == "" || page.next.value in cursors {
        return BadCursor, false;
      }
      OneMorePage(server, expected, limit, pages);
      cursors := cursors + {page.next.value};
      cursor := page.next;
      pages := pages + 1;
    }
    if leftByBound {
      PageBounds(expected, limit, pages);
    }
    if collected != expected || !Distinct(collected) {
      return OmittedOrDuplicated, leftByBound;
    }
    outcome := Accepted(pages);
  }

  lemma Nothing(server: Server, expected: seq<Item>, limit: nat)
    ensures SoFar(server, expected, limit, 0) && CursorsAre(server, 0, {})
  {
  }
}
