// The application tokenizer: Han runs become every gram of one to three characters, other
// alphanumeric runs become one word, and any other visible character a mark of its own.
module Tokenizer {
  import opened Common

  type Text = string

  predicate Han(c: char) {
    var n := c as int;
    || 0x3400 <= n <= 0x4DBF || 0x4E00 <= n <= 0x9FFF || 0xF900 <= n <= 0xFAFF
    || 0x20000 <= n <= 0x2A6DF || 0x2A700 <= n <= 0x2B73F || 0x2B740 <= n <= 0x2B81F
    || 0x2B820 <= n <= 0x2CEAF || 0x2CEB0 <= n <= 0x2EBEF || 0x2EBF0 <= n <= 0x2EE5F
    || 0x2F800 <= n <= 0x2FA1F || 0x30000 <= n <= 0x3134F || 0x31350 <= n <= 0x323AF
  }

  // The Unicode properties the tokenizer asks for.
  datatype Unicode = Unicode(alnum: char -> bool, space: char -> bool)

  predicate Wordy(u: Unicode, c: char) { u.alnum(c) && !Han(c) }
  predicate Visible(u: Unicode, c: char) { !Han(c) && !u.alnum(c) && !u.space(c) }

  // A prefix for the kind, then the text in UTF-8 hex: the encoding is injective, so tokens are values.
  datatype Token = Gram(text: Text) | Word(text: Text) | Mark(text: Text)

  predicate AllHan(s: Text) { forall i :: 0 <= i < |s| ==> Han(s[i]) }
  predicate AllWordy(u: Unicode, s: Text) { forall i :: 0 <= i < |s| ==> Wordy(u, s[i]) }

  // ---- the scan, with repetitions ----

  function HanEnd(s: Text, i: nat): (e: nat)
    requires i <= |s|
    ensures i <= e <= |s| && AllHan(s[i..e]) && (e == |s| || !Han(s[e]))
    decreases |s| - i
  {
    if i < |s| && Han(s[i]) then
      var e := HanEnd(s, i + 1);
      assert s[i..e] == [s[i]] + s[i + 1..e];
      e
    else i
  }

  function WordEnd(u: Unicode, s: Text, i: nat): (e: nat)
    requires i <= |s|
    ensures i <= e <= |s| && AllWordy(u, s[i..e]) && (e == |s| || !Wordy(u, s[e]))
    decreases |s| - i
  {
    if i < |s| && Wordy(u, s[i]) then
      var e := WordEnd(u, s, i + 1);
      assert s[i..e] == [s[i]] + s[i + 1..e];
      e
    else i
  }

  function GramsOfWidth(run: Text, width: nat): seq<Token> {
    if |run| < width then [] else seq(|run| - width + 1, i requires 0 <= i < |run| - width + 1 => Gram(run[i..i + width]))
  }

  function GramsUpTo(run: Text, width: nat): seq<Token> {
    if width == 0 then [] else GramsUpTo(run, width - 1) + GramsOfWidth(run, width)
  }

  function Grams(run: Text): seq<Token> { GramsUpTo(run, if |run| < 3 then |run| else 3) }

  // One round of the scan: what is emitted at `i`, and where the scan goes on.
  function Emitted(u: Unicode, s: Text, i: nat): seq<Token>
    requires i < |s|
  {
    if Han(s[i]) then Grams(s[i..HanEnd(s, i)])
    else if u.alnum(s[i]) then [Word(s[i..WordEnd(u, s, i)])]
    else if u.space(s[i]) then [] else [Mark(s[i..i + 1])]
  }

  function NextIndex(u: Unicode, s: Text, i: nat): (n: nat)
    requires i < |s|
    ensures i < n <= |s|
  {
    if Han(s[i]) then HanEnd(s, i) else if u.alnum(s[i]) then WordEnd(u, s, i) else i + 1
  }

  function Scan(u: Unicode, s: Text, i: nat): seq<Token>
    requires i <= |s|
    decreases |s| - i
  {
    if i == |s| then [] else Emitted(u, s, i) + Scan(u, s, NextIndex(u, s, i))
  }

  // ---- collecting without repetitions, up to a limit ----

  function Collect(tokens: seq<Token>, limit: Option<nat>): Option<seq<Token>> {
    if tokens == [] then Some([])
    else match Collect(tokens[..|tokens| - 1], limit)
         case None => None
         case Some(kept) =>
           var t := tokens[|tokens| - 1];
           if t in kept then Some(kept)
           else if limit.Some? && |kept| >= limit.value then None
           else Some(kept + [t])
  }

  function Tokens(u: Unicode, s: Text): seq<Token> {
    CollectMeaning(Scan(u, s, 0), None);
    Collect(Scan(u, s, 0), None).value
  }

  predicate Distinct(s: seq<Token>) { forall i, j :: 0 <= i < j < |s| ==> s[i] != s[j] }

  ghost predicate SameMembers(a: seq<Token>, b: seq<Token>) { forall t :: t in a <==> t in b }

  // Without a limit the collection succeeds and keeps each token once; with a limit it succeeds
  // exactly when no more tokens than that are distinct, and then keeps the same ones.
  lemma {:induction false} CollectMeaning(tokens: seq<Token>, limit: Option<nat>)
    ensures var all := Collect(tokens, None);
            && all.Some? && Distinct(all.value) && SameMembers(all.value, tokens)
            && Collect(tokens, limit) == if limit.None? || |all.value| <= limit.value then all else None
  {
    if tokens != [] {
      var before, t := tokens[..|tokens| - 1], tokens[|tokens| - 1];
      CollectMeaning(before, limit);
      assert tokens == before + [t];
    }
  }

  lemma CollectSnoc(done: seq<Token>, t: Token, limit: Option<nat>)
    ensures Collect(done + [t], limit) == match Collect(done, limit)
                                          case None => None
                                          case Some(kept) =>
                                            if t in kept then Some(kept)
                                            else if limit.Some? && |kept| >= limit.value then None
                                            else Some(kept + [t])
  {
    assert (done + [t])[..|done|] == done;
  }

  lemma {:induction false} CollectStops(part: seq<Token>, whole: seq<Token>, limit: Option<nat>)
    requires part <= whole && Collect(part, limit).None?
    ensures Collect(whole, limit).None?
    decreases |whole|
  {
    if |part| < |whole| {
      CollectStops(part, whole[..|whole| - 1], limit);
    } else {
      assert part == whole;
    }
  }

  // ---- the program ----

  function Seen(tokens: seq<Token>): set<Token> { set t | t in tokens }

  // The collection so far, kept both as a list and as a set.
  ghost predicate Collected(done: seq<Token>, limit: Option<nat>, tokens: seq<Token>, seen: set<Token>) {
    Collect(done, limit) == Some(tokens) && seen == Seen(tokens)
  }

  method AppendUnique(tokens: seq<Token>, seen: set<Token>, token: Token, limit: Option<nat>, ghost done: seq<Token>)
    returns (ok: bool, more: seq<Token>, nowSeen: set<Token>)
    requires Collected(done, limit, tokens, seen)
    ensures if ok then Collected(done + [token], limit, more, nowSeen) else Collect(done + [token], limit).None?
  {
    CollectSnoc(done, token, limit);
    assert token in Seen(tokens) <==> token in tokens;
    ok, more, nowSeen := true, tokens, seen;
    if token !in seen {
      if limit.Some? && |tokens| >= limit.value {
        return false, tokens, seen;
      }
      nowSeen := seen + {token};
      more := tokens + [token];
      assert nowSeen == Seen(more);
    }
  }

  // Every gram of one width.
  method AppendWidth(tokens: seq<Token>, seen: set<Token>, run: Text, width: nat, limit: Option<nat>, ghost done: seq<Token>)
    returns (ok: bool, more: seq<Token>, nowSeen: set<Token>)
    requires 1 <= width <= |run| && Collected(done, limit, tokens, seen)
    ensures var all := done + GramsOfWidth(run, width);
            if ok then Collected(all, limit, more, nowSeen) else Collect(all, limit).None?
  {
    hide Collect, Collected;
    more, nowSeen := tokens, seen;
    ghost var all := GramsOfWidth(run, width);
    assert done + all[..0] == done;
    var offset := 0;
    while offset < |run| - width + 1
      invariant 0 <= offset <= |all|
      invariant Collected(done + all[..offset], limit, more, nowSeen)
    {
      ok, more, nowSeen := AppendUnique(more, nowSeen, Gram(run[offset..offset + width]), limit, done + all[..offset]);
      assert done + all[..offset] + [Gram(run[offset..offset + width])] == done + all[..offset + 1];
      offset := offset + 1;
      if !ok {
        CollectStops(done + all[..offset], done + all, limit);
        return;
      }
    }
    assert all[..offset] == all;
    ok := true;
  }

  method AppendGrams(tokens: seq<Token>, seen: set<Token>, run: Text, limit: Option<nat>, ghost done: seq<Token>)
    returns (ok: bool, more: seq<Token>, nowSeen: set<Token>)
    requires Collected(done, limit, tokens, seen)
    ensures if ok then Collected(done + Grams(run), limit, more, nowSeen) else Collect(done + Grams(run), limit).None?
  {
    hide Collect, Collected, GramsOfWidth;
    more, nowSeen := tokens, seen;
    var widths := if |run| < 3 then |run| else 3;
    assert done + GramsUpTo(run, 0) == done;
    var width := 1;
    while width <= widths
      invariant 1 <= width <= widths + 1
      invariant Collected(done + GramsUpTo(run, width - 1), limit, more, nowSeen)
    {
      ghost var before := done + GramsUpTo(run, width - 1);
      ok, more, nowSeen := AppendWidth(more, nowSeen, run, width, limit, before);
      assert before + GramsOfWidth(run, width) == done + GramsUpTo(run, width);
      if !ok {
        GramsPrefix(run, width, widths);
        CollectStops(done + GramsUpTo(run, width), done + Grams(run), limit);
        return;
      }
      width := width + 1;
    }
    ok := true;
  }

  lemma {:induction false} GramsPrefix(run: Text, width: nat, widths: nat)
    requires width <= widths
    ensures GramsUpTo(run, width) <= GramsUpTo(run, widths)
  {
    if width < widths {
      GramsPrefix(run, width, widths - 1);
    }
  }

  method ScanOnce(u: Unicode, s: Text, index: nat, tokens: seq<Token>, seen: set<Token>, limit: Option<nat>, ghost done: seq<Token>)
    returns (ok: bool, next: nat, more: seq<Token>, nowSeen: set<Token>)
    requires index < |s| && Collected(done, limit, tokens, seen)
    ensures next == NextIndex(u, s, index)
    ensures var all := done + Emitted(u, s, index);
            if ok then Collected(all, limit, more, nowSeen) else Collect(all, limit).None?
  {
    hide Collect, Collected, Grams;
    if Han(s[index]) {
      var end := index + 1;
      while end < |s| && Han(s[end])
        invariant index < end <= |s| && HanEnd(s, index) == HanEnd(s, end)
      {
        end := end + 1;
      }
      next := end;
      ok, more, nowSeen := AppendGrams(tokens, seen, s[index..end], limit, done);
    } else if u.alnum(s[index]) {
      var end := index + 1;
      while end < |s| && u.alnum(s[end]) && !Han(s[end])
        invariant index < end <= |s| && WordEnd(u, s, index) == WordEnd(u, s, end)
      {
        end := end + 1;
      }
      next := end;
      ok, more, nowSeen := AppendUnique(tokens, seen, Word(s[index..end]), limit, done);
    } else {
      next, ok, more, nowSeen := index + 1, true, tokens, seen;
      if !u.space(s[index]) {
        ok, more, nowSeen := AppendUnique(tokens, seen, Mark(s[index..index + 1]), limit, done);
      } else {
        assert done + [] == done;
      }
    }
  }

  // The tokens of `s` in the order of their first occurrence, or None beyond the limit.
  method ApplicationTokens(u: Unicode, s: Text, limit: Option<nat>) returns (r: Option<seq<Token>>)
    ensures r == if limit.None? || |Tokens(u, s)| <= limit.value then Some(Tokens(u, s)) else None
  {
    hide Collect;
    CollectMeaning(Scan(u, s, 0), limit);
    var tokens, seen: set<Token> := [], {};
    ghost var done: seq<Token> := [];
    assert Collected(done, limit, tokens, seen) by { CollectNothing(limit); }
    hide Emitted, NextIndex;
    var index := 0;
    while index < |s|
      invariant 0 <= index <= |s|
      invariant done + Scan(u, s, index) == Scan(u, s, 0)
      invariant Collected(done, limit, tokens, seen)
    {
      ghost var emitted := Emitted(u, s, index);
      var ok;
      ok, index, tokens, seen := ScanOnce(u, s, index, tokens, seen, limit, done);
      assert (done + emitted) + Scan(u, s, index) == Scan(u, s, 0);
      done := done + emitted;
      if !ok {
        CollectStops(done, Scan(u, s, 0), limit);
        return None;
      }
    }
    assert done == Scan(u, s, 0);
    r := Some(tokens);
  }

  lemma CollectNothing(limit: Option<nat>)
    ensures Collect([], limit) == Some([])
  {
  }

  // ---- what the tokens are ----

  // `x` stands in `s` at position `a`.
  predicate PieceAt(s: Text, a: nat, x: Text) { a + |x| <= |s| && s[a..a + |x|] == x }

  // `t` read off `s` at position `a`.
  predicate TokenAt(u: Unicode, s: Text, t: Token, a: nat) {
    && 1 <= |t.text| && PieceAt(s, a, t.text)
    && match t
       case Gram(x) => |x| <= 3 && AllHan(x)
       case Word(x) => AllWordy(u, x) && (a == 0 || !Wordy(u, s[a - 1])) && (a + |x| == |s| || !Wordy(u, s[a + |x|]))
       case Mark(x) => |x| == 1 && Visible(u, x[0])
  }

  ghost predicate IsToken(u: Unicode, s: Text, t: Token) {
    exists a: nat :: TokenAt(u, s, t, a)
  }

  // No run of Han characters or of word characters goes on across `i`.
  predicate Boundary(u: Unicode, s: Text, i: nat) {
    0 < i < |s| ==> !(Han(s[i - 1]) && Han(s[i])) && !(Wordy(u, s[i - 1]) && Wordy(u, s[i]))
  }

  lemma {:induction false} GramsUpToMembers(run: Text, width: nat, t: Token)
    ensures t in GramsUpTo(run, width) <==> t.Gram? && 1 <= |t.text| <= width && exists o: nat :: PieceAt(run, o, t.text)
  {
    if width > 0 {
      GramsUpToMembers(run, width - 1, t);
      GramsOfWidthMembers(run, width, t);
    }
  }

  lemma GramsOfWidthMembers(run: Text, width: nat, t: Token)
    ensures t in GramsOfWidth(run, width) <==> t.Gram? && |t.text| == width && exists o: nat :: PieceAt(run, o, t.text)
  {
    var all := GramsOfWidth(run, width);
    if t in all {
      var o :| 0 <= o < |all| && all[o] == t;
      assert PieceAt(run, o, t.text);
    }
    if t.Gram? && |t.text| == width && exists o: nat :: PieceAt(run, o, t.text) {
      var o: nat :| PieceAt(run, o, t.text);
      assert all[o] == t;
    }
  }

  lemma SliceOfSlice(s: Text, i: nat, e: nat, a: nat, b: nat)
    requires i <= e <= |s| && a <= b <= e - i
    ensures s[i..e][a..b] == s[i + a..i + b]
  {
    forall k | 0 <= k < b - a ensures s[i..e][a..b][k] == s[i + a..i + b][k] {
      assert s[i..e][a + k] == s[i + a + k];
    }
  }

  lemma PieceOfPiece(s: Text, i: nat, e: nat, o: nat, x: Text)
    requires i <= e <= |s| && PieceAt(s[i..e], o, x)
    ensures PieceAt(s, i + o, x)
  {
    SliceOfSlice(s, i, e, o, o + |x|);
  }

  // A round emits exactly the tokens that start inside its run.
  lemma HanRound(u: Unicode, s: Text, i: nat, t: Token)
    requires i < |s| && Han(s[i])
    ensures t in Emitted(u, s, i) <==> exists a: nat :: i <= a < HanEnd(s, i) && TokenAt(u, s, t, a)
  {
    var e := HanEnd(s, i);
    var run := s[i..e];
    GramsUpToMembers(run, if |run| < 3 then |run| else 3, t);
    if t in Emitted(u, s, i) {
      var o: nat :| PieceAt(run, o, t.text);
      GramInRun(u, s, i, e, t, o);
    }
    if a: nat :| i <= a < e && TokenAt(u, s, t, a) {
      TokenInRun(u, s, i, e, t, a);
    }
  }

  lemma GramInRun(u: Unicode, s: Text, i: nat, e: nat, t: Token, o: nat)
    requires i <= e <= |s| && AllHan(s[i..e]) && t.Gram? && 1 <= |t.text| <= 3 && PieceAt(s[i..e], o, t.text)
    ensures i <= i + o < e && TokenAt(u, s, t, i + o)
  {
    PieceOfPiece(s, i, e, o, t.text);
    forall j | 0 <= j < |t.text| ensures Han(t.text[j]) {
      assert t.text[j] == s[i..e][o + j];
    }
  }

  lemma TokenInRun(u: Unicode, s: Text, i: nat, e: nat, t: Token, a: nat)
    requires i <= a < e <= |s| && AllHan(s[i..e]) && (e == |s| || !Han(s[e])) && TokenAt(u, s, t, a)
    ensures t.Gram? && PieceAt(s[i..e], a - i, t.text)
  {
    assert s[a] == t.text[0] && s[a] == s[i..e][a - i];
    assert t.Gram?;
    forall k | a <= k < a + |t.text| ensures Han(s[k]) {
      assert s[k] == t.text[k - a];
    }
    SliceOfSlice(s, i, e, a - i, a - i + |t.text|);
  }

  lemma WordRound(u: Unicode, s: Text, i: nat, t: Token)
    requires i < |s| && Wordy(u, s[i]) && Boundary(u, s, i)
    ensures t in Emitted(u, s, i) <==> exists a: nat :: i <= a < WordEnd(u, s, i) && TokenAt(u, s, t, a)
  {
    var e := WordEnd(u, s, i);
    assert e > i;
    if t in Emitted(u, s, i) {
      assert TokenAt(u, s, t, i);
    }
    if a: nat :| i <= a < e && TokenAt(u, s, t, a) {
      WordTokenIsRun(u, s, i, e, t, a);
    }
  }

  lemma WordTokenIsRun(u: Unicode, s: Text, i: nat, e: nat, t: Token, a: nat)
    requires i <= a < e <= |s| && AllWordy(u, s[i..e]) && (e == |s| || !Wordy(u, s[e])) && TokenAt(u, s, t, a)
    ensures t == Word(s[i..e])
  {
    assert s[a] == t.text[0] && s[a] == s[i..e][a - i];
    forall k | i <= k < e ensures Wordy(u, s[k]) {
      assert s[k] == s[i..e][k - i];
    }
    assert t.Word?;
    forall k | a <= k < a + |t.text| ensures Wordy(u, s[k]) {
      assert s[k] == t.text[k - a];
    }
    if a > i {
      assert false;
    }
    if a + |t.text| < e {
      assert false;
    }
  }

  lemma OtherRound(u: Unicode, s: Text, i: nat, t: Token)
    requires i < |s| && !Han(s[i]) && !u.alnum(s[i])
    ensures t in Emitted(u, s, i) <==> TokenAt(u, s, t, i)
  {
    if TokenAt(u, s, t, i) {
      assert t.text[0] == s[i];
    }
    if t in Emitted(u, s, i) {
      assert TokenAt(u, s, t, i);
    }
  }

  lemma Round(u: Unicode, s: Text, i: nat, t: Token)
    requires i < |s| && Boundary(u, s, i)
    ensures t in Emitted(u, s, i) <==> exists a: nat :: i <= a < NextIndex(u, s, i) && TokenAt(u, s, t, a)
    ensures Boundary(u, s, NextIndex(u, s, i))
  {
    var e := NextIndex(u, s, i);
    if Han(s[i]) {
      HanRound(u, s, i, t);
      assert s[e - 1] == s[i..e][e - 1 - i];
    } else if u.alnum(s[i]) {
      WordRound(u, s, i, t);
      assert s[e - 1] == s[i..e][e - 1 - i];
    } else {
      OtherRound(u, s, i, t);
    }
  }

  lemma {:induction false} ScanMembers(u: Unicode, s: Text, i: nat, t: Token)
    requires i <= |s| && Boundary(u, s, i)
    ensures t in Scan(u, s, i) <==> exists a: nat :: i <= a && TokenAt(u, s, t, a)
    decreases |s| - i
  {
    if i < |s| {
      hide TokenAt, Boundary, Emitted, NextIndex;
      Round(u, s, i, t);
      ScanMembers(u, s, NextIndex(u, s, i), t);
    }
  }

  // The tokens of a text are each kept once, and are exactly what can be read off it: grams of one to
  // three Han characters anywhere, whole runs of word characters, and single visible characters.
  lemma TokensAre(u: Unicode, s: Text)
    ensures Distinct(Tokens(u, s))
    ensures forall t :: t in Tokens(u, s) <==> IsToken(u, s, t)
  {
    CollectMeaning(Scan(u, s, 0), None);
    forall t ensures t in Tokens(u, s) <==> IsToken(u, s, t) {
      ScanMembers(u, s, 0, t);
    }
  }

  // ---- recall ----

  // `q` occurs in `s` at `p`, and neither end of it lies inside a run of word characters of `s`.
  predicate OccursWhole(u: Unicode, q: Text, s: Text, p: nat) {
    && p + |q| <= |s| && s[p..p + |q|] == q
    && (0 < p < |s| ==> !(Wordy(u, s[p - 1]) && Wordy(u, s[p])))
    && (0 < p + |q| < |s| ==> !(Wordy(u, s[p + |q| - 1]) && Wordy(u, s[p + |q|])))
  }

  lemma TokenInside(u: Unicode, q: Text, s: Text, p: nat, t: Token, a: nat)
    requires OccursWhole(u, q, s, p) && TokenAt(u, q, t, a)
    ensures TokenAt(u, s, t, p + a)
  {
    var n := |t.text|;
    PieceOfPiece(s, p, p + |q|, a, t.text);
    assert t.text[0] == s[p + a];
    assert t.text[n - 1] == s[p + a + n - 1];
    if a > 0 {
      assert s[p + a - 1] == q[a - 1];
    }
    if a + n < |q| {
      assert s[p + a + n] == q[a + n];
    }
  }

  // Every token of a query that occurs whole in a text is a token of the text.
  lemma Recall(u: Unicode, q: Text, s: Text, p: nat)
    requires OccursWhole(u, q, s, p)
    ensures forall t :: t in Tokens(u, q) ==> t in Tokens(u, s)
  {
    TokensAre(u, q);
    TokensAre(u, s);
    forall t | t in Tokens(u, q) ensures t in Tokens(u, s) {
      assert IsToken(u, q, t);
      var a: nat :| TokenAt(u, q, t, a);
      TokenInside(u, q, s, p, t, a);
    }
  }

  // A Han query cannot split a word: wherever it occurs, its tokens are found.
  lemma HanRecall(u: Unicode, q: Text, s: Text, p: nat)
    requires q != [] && AllHan(q) && p + |q| <= |s| && s[p..p + |q|] == q
    ensures forall t :: t in Tokens(u, q) ==> t in Tokens(u, s)
  {
    assert s[p] == q[0] && s[p + |q| - 1] == q[|q| - 1];
    Recall(u, q, s, p);
  }

  // Splitting a word loses it: a query of word characters has one token, itself, and a text that is
  // one longer word does not have it.
  lemma SplitWordIsLost(u: Unicode, q: Text, s: Text)
    requires q != [] && AllWordy(u, q) && AllWordy(u, s) && |s| > |q|
    ensures Word(q) in Tokens(u, q) && Word(q) !in Tokens(u, s)
  {
    TokensAre(u, q);
    TokensAre(u, s);
    assert TokenAt(u, q, Word(q), 0);
    if a: nat :| TokenAt(u, s, Word(q), a) {
      assert false;
    }
  }

  // A text has no token exactly when every character of it is space.
  lemma NoTokens(u: Unicode, s: Text)
    ensures Tokens(u, s) == [] <==> forall i :: 0 <= i < |s| ==> !Han(s[i]) && !u.alnum(s[i]) && u.space(s[i])
  {
    TokensAre(u, s);
    forall i | 0 <= i < |s| && (Han(s[i]) || u.alnum(s[i]) || !u.space(s[i])) ensures Tokens(u, s) != [] {
      SomeToken(u, s, i);
    }
    if Tokens(u, s) != [] {
      var t := Tokens(u, s)[0];
      assert t in Tokens(u, s);
      var a: nat :| TokenAt(u, s, t, a);
      assert s[a] == t.text[0];
    }
  }

  lemma SomeToken(u: Unicode, s: Text, i: nat)
    requires i < |s| && (Han(s[i]) || u.alnum(s[i]) || !u.space(s[i]))
    ensures exists t :: IsToken(u, s, t)
    decreases i
  {
    if Han(s[i]) {
      assert s[i..i + 1] == [s[i]];
      assert TokenAt(u, s, Gram([s[i]]), i);
      assert IsToken(u, s, Gram([s[i]]));
    } else if !u.alnum(s[i]) {
      assert TokenAt(u, s, Mark(s[i..i + 1]), i);
      assert IsToken(u, s, Mark(s[i..i + 1]));
    } else if i > 0 && Wordy(u, s[i - 1]) {
      SomeToken(u, s, i - 1);
    } else {
      var e := WordEnd(u, s, i);
      assert TokenAt(u, s, Word(s[i..e]), i);
      assert IsToken(u, s, Word(s[i..e]));
    }
  }
}
