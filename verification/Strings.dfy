// Splitting a string at a separator and joining the pieces again.
module Strings {
  // The first `sep` of `s` at or after `i`, or the length.
  function IndexOf(s: string, sep: char, i: nat): (e: nat)
    requires i <= |s|
    ensures i <= e <= |s| && sep !in s[i..e] && (e < |s| ==> s[e] == sep)
    decreases |s| - i
  {
    if i == |s| || s[i] == sep then i
    else
      var e := IndexOf(s, sep, i + 1);
      assert s[i..e] == [s[i]] + s[i + 1..e];
      e
  }

  // "".split yields one empty piece.
  function Split(s: string, sep: char): (pieces: seq<string>)
    ensures pieces != []
    decreases |s|
  {
    var e := IndexOf(s, sep, 0);
    if e == |s| then [s] else [s[..e]] + Split(s[e + 1..], sep)
  }

  function Join(pieces: seq<string>, sep: char): string {
    if pieces == [] then ""
    else if |pieces| == 1 then pieces[0]
    else pieces[0] + [sep] + Join(pieces[1..], sep)
  }

  predicate FreeOf(pieces: seq<string>, sep: char) {
    forall i :: 0 <= i < |pieces| ==> sep !in pieces[i]
  }

  lemma {:induction false} IndexIs(s: string, sep: char, i: nat, n: nat)
    requires i <= n <= |s| && (n < |s| ==> s[n] == sep) && forall j :: i <= j < n ==> s[j] != sep
    ensures IndexOf(s, sep, i) == n
    decreases n - i
  {
    if i < n {
      IndexIs(s, sep, i + 1, n);
    }
  }

  lemma SplitFirst(t: string, sep: char, rest: string)
    requires sep !in t
    ensures Split(t + [sep] + rest, sep) == [t] + Split(rest, sep)
  {
    var s := t + [sep] + rest;
    IndexIs(s, sep, 0, |t|);
    assert s[..|t|] == t && s[|t| + 1..] == rest;
  }

  // Splitting undoes joining, except that joining nothing reads back as one empty piece.
  lemma {:induction false} SplitJoin(pieces: seq<string>, sep: char)
    requires FreeOf(pieces, sep)
    ensures Split(Join(pieces, sep), sep) == if pieces == [] then [""] else pieces
  {
    if |pieces| == 1 {
      IndexIs(pieces[0], sep, 0, |pieces[0]|);
    } else if |pieces| > 1 {
      SplitFirst(pieces[0], sep, Join(pieces[1..], sep));
      SplitJoin(pieces[1..], sep);
      assert pieces == [pieces[0]] + pieces[1..];
    }
  }

  // Joining undoes splitting, and no piece contains the separator.
  lemma {:induction false} JoinSplit(s: string, sep: char)
    ensures Join(Split(s, sep), sep) == s && FreeOf(Split(s, sep), sep)
    decreases |s|
  {
    var e := IndexOf(s, sep, 0);
    if e < |s| {
      JoinSplit(s[e + 1..], sep);
      assert s == s[..e] + [sep] + s[e + 1..];
      assert s[0..e] == s[..e];
    } else {
      assert s[0..e] == s;
    }
  }
}
