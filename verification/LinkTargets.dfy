// What a link target means: which targets are refused, and where all others lead, said without the
// resolver's own steps.
module LinkTargets {
  import opened Common
  import opened Strings
  import opened PercentCodec
  import opened References

  // ---- percent-encoded text ----

  const UPPER_HEX := "0123456789ABCDEF"
  const LOWER_HEX := "0123456789abcdef"

  predicate IsHex(c: char, h: Nibble) { c == UPPER_HEX[h] || c == LOWER_HEX[h] }

  // A percent sign and two hexadecimal digits of either case.
  predicate SpellsByte(e: string, i: nat, b: Octet) {
    i + 3 <= |e| && e[i] == '%' && IsHex(e[i + 1], b / 16) && IsHex(e[i + 2], b % 16)
  }

  // A character stands for itself, or the bytes of its UTF-8 form are escaped one by one.
  predicate SpellsChar(e: string, c: char) {
    || (e == [c] && c != '%')
    || (|e| == 3 * |Utf8(c)| && forall k :: 0 <= k < |Utf8(c)| ==> SpellsByte(e, 3 * k, Utf8(c)[k]))
  }

  ghost predicate Spells(s: string, t: string) {
    if t == "" then s == ""
    else exists n :: 0 < n <= |s| && SpellsChar(s[..n], t[0]) && Spells(s[n..], t[1..])
  }

  lemma HexIs(c: char, h: Nibble)
    ensures HexValue(c) == Some(h) <==> IsHex(c, h)
  {
  }

  lemma ByteIs(s: string, n: nat, i: nat, b: Octet)
    requires i + 3 <= n <= |s|
    ensures ByteAt(s, i) == Some(b) <==> SpellsByte(s[..n], i, b)
  {
    HexIs(s[i + 1], b / 16);
    HexIs(s[i + 2], b % 16);
    var e := s[..n];
    assert e[i] == s[i] && e[i + 1] == s[i + 1] && e[i + 2] == s[i + 2];
    hide IsHex, HexValue;
    if ByteAt(s, i).Some? {
      Digits(HexValue(s[i + 1]).value, HexValue(s[i + 2]).value, b);
    }
  }

  lemma Digits(high: Nibble, low: Nibble, b: Octet)
    ensures 16 * high + low == b <==> high == b / 16 && low == b % 16
  {
  }

  // The bytes at the start of `s` are the UTF-8 form of `c`.
  predicate Starts(s: string, c: char) {
    forall k :: 0 <= k < |Utf8(c)| ==> ByteAt(s, 3 * k) == Some(Utf8(c)[k])
  }

  lemma StartsIs(s: string, c: char)
    requires 3 * |Utf8(c)| <= |s|
    ensures Starts(s, c) <==> SpellsChar(s[..3 * |Utf8(c)|], c)
  {
    hide ByteAt, SpellsByte;
    var n := 3 * |Utf8(c)|;
    forall k | 0 <= k < |Utf8(c)| ensures ByteAt(s, 3 * k) == Some(Utf8(c)[k]) <==> SpellsByte(s[..n], 3 * k, Utf8(c)[k]) {
      ByteIs(s, n, 3 * k, Utf8(c)[k]);
    }
  }

  // The leading byte and the payloads give the code point back its bytes.
  lemma TwoParts(high: int, p: int, v: int)
    requires 0 <= p < 64 && v == high * 64 + p
    ensures high == v / 64 && p == v % 64
  {
  }

  lemma ThreeParts(high: int, p: int, q: int, v: int)
    requires 0 <= p < 64 && 0 <= q < 64 && v == high * 4096 + p * 64 + q
    ensures high == v / 4096 && p == v / 64 % 64 && q == v % 64
  {
    TwoParts(high * 64 + p, q, v);
    TwoParts(high, p, v / 64);
  }

  lemma FourParts(high: int, p: int, q: int, r: int, v: int)
    requires 0 <= p < 64 && 0 <= q < 64 && 0 <= r < 64 && v == high * 262144 + p * 4096 + q * 64 + r
    ensures high == v / 262144 && p == v / 4096 % 64 && q == v / 64 % 64 && r == v % 64
  {
    TwoParts(high * 4096 + p * 64 + q, r, v);
    ThreeParts(high, p, q, v / 64);
  }

  // A decoded character was escaped as its UTF-8 form.
  lemma ScalarStarts(s: string)
    requires ScalarAt(s, 0).Some?
    ensures var r := ScalarAt(s, 0).value; r.length == 3 * |Utf8(r.value as char)| && Starts(s, r.value as char)
  {
    hide ByteAt;
    var b := ByteAt(s, 0).value;
    if b >= 0xF0 {
      ScalarStarts4(s);
    } else if b >= 0xE0 {
      ScalarStarts3(s);
    } else if b >= 0x80 {
      ScalarStarts2(s);
    }
  }

  lemma ScalarStarts2(s: string)
    requires ScalarAt(s, 0).Some? && 0x80 <= ByteAt(s, 0).value < 0xE0
    ensures var r := ScalarAt(s, 0).value; r.length == 3 * |Utf8(r.value as char)| && Starts(s, r.value as char)
  {
    hide ByteAt;
    var b, p, v := ByteAt(s, 0).value, PayloadAt(s, 3).value, ScalarAt(s, 0).value.value;
    TwoParts(b - 0xC0, p, v);
  }

  lemma ScalarStarts3(s: string)
    requires ScalarAt(s, 0).Some? && 0xE0 <= ByteAt(s, 0).value < 0xF0
    ensures var r := ScalarAt(s, 0).value; r.length == 3 * |Utf8(r.value as char)| && Starts(s, r.value as char)
  {
    hide ByteAt;
    var b, p, q, v := ByteAt(s, 0).value, PayloadAt(s, 3).value, PayloadAt(s, 6).value, ScalarAt(s, 0).value.value;
    ThreeParts(b - 0xE0, p, q, v);
  }

  lemma ScalarStarts4(s: string)
    requires ScalarAt(s, 0).Some? && 0xF0 <= ByteAt(s, 0).value
    ensures var r := ScalarAt(s, 0).value; r.length == 3 * |Utf8(r.value as char)| && Starts(s, r.value as char)
  {
    hide ByteAt;
    var b, p, q, r, v := ByteAt(s, 0).value, PayloadAt(s, 3).value, PayloadAt(s, 6).value, PayloadAt(s, 9).value, ScalarAt(s, 0).value.value;
    FourParts(b - 0xF0, p, q, r, v);
  }

  lemma StartsScalar(s: string, c: char)
    requires Starts(s, c)
    ensures ScalarAt(s, 0) == Some(Scalar(c as int, 3 * |Utf8(c)|))
  {
    hide ByteAt;
    var bytes, v := Utf8(c), c as int;
    assert ByteAt(s, 3 * 0) == Some(bytes[0]);
    if v >= 0x80 {
      assert ByteAt(s, 3 * 1) == Some(bytes[1]);
      if v < 0x800 {
        TwoBytes(s, v);
      } else {
        assert ByteAt(s, 3 * 2) == Some(bytes[2]);
        if v < 0x10000 {
          ThreeBytes(s, v);
        } else {
          assert ByteAt(s, 3 * 3) == Some(bytes[3]);
          FourBytes(s, v);
        }
      }
    }
  }

  // The first character of a decodable text, and how it is spelled.
  lemma FirstChar(s: string, n: nat, c: char)
    requires 0 < n <= |s|
    ensures s[0] != '%' ==> (SpellsChar(s[..n], c) <==> n == 1 && c == s[0])
    ensures s[0] == '%' ==> (SpellsChar(s[..n], c) <==> ScalarAt(s, 0) == Some(Scalar(c as int, n)))
  {
    if s[0] != '%' {
      assert |Utf8(c)| > 0;
      assert s[..n][0] == s[0];
      assert !SpellsByte(s[..n], 3 * 0, Utf8(c)[0]);
    } else {
      hide ScalarAt, Utf8, ByteAt;
      if ScalarAt(s, 0) == Some(Scalar(c as int, n)) {
        ScalarStarts(s);
        StartsIs(s, c);
      }
      if SpellsChar(s[..n], c) {
        assert s[..n][0] == '%';
        StartsIs(s, c);
        StartsScalar(s, c);
      }
    }
  }

  // Decoding succeeds exactly on the texts that spell something, and gives what they spell.
  lemma {:induction false} DecodeIs(s: string, t: string)
    ensures Decode(s) == Some(t) <==> Spells(s, t)
    decreases |s|
  {
    hide SpellsChar, ScalarAt;
    if s != "" && t != "" {
      forall n | 0 < n <= |s| ensures Spells(s[n..], t[1..]) <==> Decode(s[n..]) == Some(t[1..]) {
        DecodeIs(s[n..], t[1..]);
      }
      DecodeFirst(s, t);
    }
  }

  lemma DecodeFirst(s: string, t: string)
    requires s != "" && t != ""
    ensures Decode(s) == Some(t)
       <==> exists n :: 0 < n <= |s| && SpellsChar(s[..n], t[0]) && Decode(s[n..]) == Some(t[1..])
  {
    hide SpellsChar, ScalarAt;
    assert t == [t[0]] + t[1..];
    forall n | 0 < n <= |s|
      ensures s[0] != '%' ==> (SpellsChar(s[..n], t[0]) <==> n == 1 && t[0] == s[0])
      ensures s[0] == '%' ==> (SpellsChar(s[..n], t[0]) <==> ScalarAt(s, 0) == Some(Scalar(t[0] as int, n)))
    {
      FirstChar(s, n, t[0]);
    }
    if Decode(s) == Some(t) {
      var n := if s[0] != '%' then 1 else ScalarAt(s, 0).value.length;
      assert SpellsChar(s[..n], t[0]) && Decode(s[n..]) == Some(t[1..]);
    }
  }

  // ---- going up and down ----

  datatype Step = Into(name: string) | Up | Stay

  // An empty segment and `.` stay, `..` goes up, and any other segment goes into the directory it names.
  function StepOf(segment: string): Step {
    if segment == "" || segment == "." then Stay else if segment == ".." then Up else Into(segment)
  }

  // From the root into the directory, and then along the segments.
  function Steps(directory: seq<string>, segments: seq<string>): seq<Step> {
    seq(|directory|, i requires 0 <= i < |directory| => Into(directory[i]))
    + seq(|segments|, i requires 0 <= i < |segments| => StepOf(segments[i]))
  }

  function Ins(steps: seq<Step>): nat {
    if steps == [] then 0 else Ins(steps[..|steps| - 1]) + if steps[|steps| - 1].Into? then 1 else 0
  }

  function Outs(steps: seq<Step>): nat {
    if steps == [] then 0 else Outs(steps[..|steps| - 1]) + if steps[|steps| - 1].Up? then 1 else 0
  }

  // At some point more steps have led up than in.
  predicate Climbs(steps: seq<Step>) {
    exists k :: 0 <= k <= |steps| && Outs(steps[..k]) > Ins(steps[..k])
  }

  // The names of the steps in that no later step leads out of again: what follows such a step never climbs.
  function Names(steps: seq<Step>): seq<string> {
    if steps == [] then []
    else (if steps[0].Into? && !Climbs(steps[1..]) then [steps[0].name] else []) + Names(steps[1..])
  }

  lemma CountsSnoc(steps: seq<Step>, s: Step)
    ensures Ins(steps + [s]) == Ins(steps) + (if s.Into? then 1 else 0)
    ensures Outs(steps + [s]) == Outs(steps) + (if s.Up? then 1 else 0)
  {
    assert (steps + [s])[..|steps|] == steps;
  }

  lemma ClimbsSnoc(steps: seq<Step>, s: Step)
    ensures Climbs(steps + [s]) <==> Climbs(steps) || Outs(steps + [s]) > Ins(steps + [s])
  {
    var t := steps + [s];
    assert forall k :: 0 <= k <= |steps| ==> t[..k] == steps[..k];
    assert t[..|t|] == t;
    hide Ins, Outs;
    if k :| 0 <= k <= |steps| && Outs(steps[..k]) > Ins(steps[..k]) {
      assert Outs(t[..k]) > Ins(t[..k]);
    }
    if k :| 0 <= k <= |t| && Outs(t[..k]) > Ins(t[..k]) {
      assert k <= |steps| ==> Outs(steps[..k]) > Ins(steps[..k]);
    }
  }

  lemma {:induction false} StayAdds(steps: seq<Step>, s: Step)
    requires !s.Up?
    ensures Climbs(steps + [s]) <==> Climbs(steps)
    ensures Names(steps + [s]) == Names(steps) + if s.Into? then [s.name] else []
  {
    CountsSnoc(steps, s);
    ClimbsSnoc(steps, s);
    NotClimbing(steps);
    hide Climbs, Ins, Outs;
    if steps != [] {
      assert (steps + [s])[1..] == steps[1..] + [s];
      StayAdds(steps[1..], s);
    } else {
      FirstStep(s);
    }
  }

  lemma FirstStep(s: Step)
    requires !s.Up?
    ensures !Climbs([]) && !Climbs([s]) && Names([s]) == if s.Into? then [s.name] else []
    ensures Names([]) == [] && [] + [s] == [s]
  {
    NoSteps();
    CountsSnoc([], s);
    ClimbsSnoc([], s);
    assert [s][1..] == [] && [] + [s] == [s];
  }

  lemma NoSteps()
    ensures !Climbs([]) && Names([]) == []
  {
    var none: seq<Step> := [];
    assert none[..0] == none;
  }

  lemma NotClimbing(steps: seq<Step>)
    ensures !Climbs(steps) ==> Outs(steps) <= Ins(steps)
  {
    assert steps[..|steps|] == steps;
  }

  // A step up takes the last name off.
  lemma {:induction false} UpTakesOff(steps: seq<Step>)
    ensures Names(steps + [Up]) == if Names(steps) == [] then [] else Names(steps)[..|Names(steps)| - 1]
    decreases |steps|, 0
  {
    if steps == [] {
      assert [Up][1..] == [];
      NoSteps();
    } else {
      var rest := steps[1..];
      assert (steps + [Up])[1..] == rest + [Up];
      UpTakesOff(rest);
      NamesCount(rest);
      CountsSnoc(rest, Up);
      ClimbsSnoc(rest, Up);
      NotClimbing(rest);
      hide Climbs, Ins, Outs;
    }
  }

  // While nothing climbs, there is one name for each step in without its step up.
  lemma {:induction false} NamesCount(steps: seq<Step>)
    ensures !Climbs(steps) ==> |Names(steps)| == Ins(steps) - Outs(steps)
    decreases |steps|, 1
  {
    if steps == [] {
      NoSteps();
    } else {
      var before, s := steps[..|steps| - 1], steps[|steps| - 1];
      assert steps == before + [s];
      NamesCount(before);
      CountsSnoc(before, s);
      ClimbsSnoc(before, s);
      NotClimbing(steps);
      if s.Up? {
        UpTakesOff(before);
      } else {
        StayAdds(before, s);
      }
      hide Climbs, Ins, Outs, Names;
    }
  }

  lemma {:induction false} DirectoryNames(directory: seq<string>)
    ensures !Climbs(Steps(directory, [])) && Names(Steps(directory, [])) == directory
  {
    if directory == [] {
      NoSteps();
    } else {
      var before, last := directory[..|directory| - 1], directory[|directory| - 1];
      DirectoryNames(before);
      assert Steps(directory, []) == Steps(before, []) + [Into(last)];
      StayAdds(Steps(before, []), Into(last));
    }
  }

  lemma WalkOneIs(steps: seq<Step>, segment: string)
    requires !Climbs(steps)
    ensures WalkOne(Names(steps), segment)
         == if Climbs(steps + [StepOf(segment)]) then None else Some(Names(steps + [StepOf(segment)]))
  {
    var s := StepOf(segment);
    CountsSnoc(steps, s);
    ClimbsSnoc(steps, s);
    NotClimbing(steps);
    NamesCount(steps);
    hide Climbs, Ins, Outs, Names;
    if s.Up? {
      UpTakesOff(steps);
    } else {
      StayAdds(steps, s);
      assert Names(steps) + [] == Names(steps);
    }
  }

  // Walking fails exactly when the steps climb, and otherwise ends at their names.
  lemma {:induction false} WalkIs(directory: seq<string>, segments: seq<string>)
    ensures var steps := Steps(directory, segments);
            Walk(directory, segments) == if Climbs(steps) then None else Some(Names(steps))
  {
    if segments == [] {
      DirectoryNames(directory);
    } else {
      var before, last := segments[..|segments| - 1], segments[|segments| - 1];
      WalkIs(directory, before);
      assert Steps(directory, segments) == Steps(directory, before) + [StepOf(last)];
      ClimbsSnoc(Steps(directory, before), StepOf(last));
      hide Climbs, Ins, Outs, Names, Steps, WalkOne, StepOf;
      if !Climbs(Steps(directory, before)) {
        WalkOneIs(Steps(directory, before), last);
      }
    }
  }

  // ---- what a target resolves to ----

  predicate IsLetter(c: char) { 'a' <= c <= 'z' || 'A' <= c <= 'Z' }

  // A letter, and then letters, digits and the characters + . -
  predicate IsScheme(s: string) {
    && s != "" && IsLetter(s[0])
    && forall i :: 0 <= i < |s| ==> IsLetter(s[i]) || '0' <= s[i] <= '9' || s[i] == '+' || s[i] == '.' || s[i] == '-'
  }

  // Targets that are not looked at as paths: with a scheme, from the root, or with a control character.
  predicate IsForeign(target: string) {
    || (exists n :: 0 < n < |target| && target[n] == ':' && IsScheme(target[..n]))
    || (target != "" && (target[0] == '/' || target[0] == '\\'))
    || (exists i :: 0 <= i < |target| && target[i] as int < 0x20)
  }

  lemma ForeignIs(target: string)
    ensures NotLocal(target) <==> IsForeign(target)
  {
    SchemeIs(target);
    assert ControlFree(target) <==> !exists i :: 0 <= i < |target| && target[i] as int < 0x20;
  }

  lemma SchemeIs(target: string)
    ensures HasScheme(target) <==> exists n :: 0 < n < |target| && target[n] == ':' && IsScheme(target[..n])
  {
    if HasScheme(target) {
      var n :| 0 < n < |target| && target[n] == ':' && forall i :: 0 <= i < n ==> SchemeChar(target[i]);
      assert IsScheme(target[..n]);
    }
    if n :| 0 < n < |target| && target[n] == ':' && IsScheme(target[..n]) {
      forall i | 0 <= i < n ensures SchemeChar(target[i]) {
        assert target[i] == target[..n][i];
      }
    }
  }

  // A scheme and a colon in front of anything make a target that is not local.
  lemma SchemeIsRefused(sourceFile: Path, scheme: string, rest: string)
    requires IsScheme(scheme)
    ensures Resolve(sourceFile, scheme + ":" + rest) == None
  {
    var target := scheme + ":" + rest;
    assert target[..|scheme|] == scheme && target[|scheme|] == ':';
    assert IsForeign(target);
    ForeignIs(target);
  }

  // A path and a suffix that starts at the first ? or #, seen from a file in a directory: the target
  // resolves exactly when it is not foreign, the path spells some text, and the segments of that text do
  // not climb above the root; and then to the names they lead to.
  lemma ResolveIs(directory: seq<string>, name: string, path: string, suffix: string)
    requires FreeOf(directory + [name], '/')
    requires forall i :: 0 <= i < |path| ==> path[i] != '?' && path[i] != '#'
    requires suffix != "" ==> suffix[0] == '?' || suffix[0] == '#'
    ensures IsForeign(path + suffix) ==> Resolve(Join(directory + [name], '/'), path + suffix) == None
    ensures (forall text :: !Spells(path, text)) ==> Resolve(Join(directory + [name], '/'), path + suffix) == None
    ensures forall segments :: !IsForeign(path + suffix) && segments != [] && FreeOf(segments, '/') && Spells(path, Join(segments, '/')) ==>
              var steps := Steps(directory, segments);
              Resolve(Join(directory + [name], '/'), path + suffix)
              == if Climbs(steps) then None else Some(Local(Join(Names(steps), '/'), suffix))
  {
    var file, target := Join(directory + [name], '/'), path + suffix;
    ForeignIs(target);
    MarkerIs(target, 0, |path|);
    assert target[..|path|] == path && target[|path|..] == suffix;
    SplitJoin(directory + [name], '/');
    assert Directory(file) == directory;
    hide IsForeign, NotLocal, Spells, Steps, Climbs, Names, Split, Join, Directory, Walk;
    if forall text :: !Spells(path, text) {
      if Decode(path).Some? {
        DecodeIs(path, Decode(path).value);
      }
    }
    forall segments | !IsForeign(target) && segments != [] && FreeOf(segments, '/') && Spells(path, Join(segments, '/'))
      ensures var steps := Steps(directory, segments);
              Resolve(file, target) == if Climbs(steps) then None else Some(Local(Join(Names(steps), '/'), suffix))
    {
      DecodeIs(path, Join(segments, '/'));
      SplitJoin(segments, '/');
      WalkIs(directory, segments);
    }
  }

  // Every target has such a path and suffix, and every text has such segments.
  lemma EveryTarget(target: string, text: string) returns (path: string, suffix: string, segments: seq<string>)
    ensures target == path + suffix && text == Join(segments, '/') && segments != [] && FreeOf(segments, '/')
    ensures forall i :: 0 <= i < |path| ==> path[i] != '?' && path[i] != '#'
    ensures suffix != "" ==> suffix[0] == '?' || suffix[0] == '#'
  {
    var m := MarkerIndex(target, 0);
    path, suffix, segments := target[..m], target[m..], Split(text, '/');
    JoinSplit(text, '/');
  }

  // Behind a leading `./` a target is looked at as a path even if it starts like a scheme or at the root.
  lemma DotSlash(directory: seq<string>, name: string, path: string, suffix: string, segments: seq<string>)
    requires FreeOf(directory + [name], '/')
    requires forall i :: 0 <= i < |path| ==> path[i] != '?' && path[i] != '#'
    requires suffix != "" ==> suffix[0] == '?' || suffix[0] == '#'
    requires forall i :: 0 <= i < |path + suffix| ==> (path + suffix)[i] as int >= 0x20
    requires segments != [] && FreeOf(segments, '/') && Spells(path, Join(segments, '/'))
    ensures var steps := Steps(directory, segments);
            Resolve(Join(directory + [name], '/'), "./" + path + suffix)
            == if Climbs(steps) then None else Some(Local(Join(Names(steps), '/'), suffix))
  {
    hide IsForeign, Spells, Steps, Climbs, Names, Join, Resolve;
    DottedText(path, suffix, segments);
    DotSpelled(path, Join(segments, '/'));
    DottedIsLocal(path + suffix);
    ResolveIs(directory, name, "./" + path, suffix);
    DottedSteps(directory, segments);
  }

  lemma DottedText(path: string, suffix: string, segments: seq<string>)
    requires segments != [] && FreeOf(segments, '/')
    requires forall i :: 0 <= i < |path| ==> path[i] != '?' && path[i] != '#'
    ensures "./" + path + suffix == ("./" + path) + suffix == "./" + (path + suffix)
    ensures forall i :: 0 <= i < |"./" + path| ==> ("./" + path)[i] != '?' && ("./" + path)[i] != '#'
    ensures Join(["."] + segments, '/') == "./" + Join(segments, '/') && FreeOf(["."] + segments, '/')
  {
    assert (["."] + segments)[1..] == segments;
  }

  lemma DottedSteps(directory: seq<string>, segments: seq<string>)
    ensures Climbs(Steps(directory, ["."] + segments)) <==> Climbs(Steps(directory, segments))
    ensures !Climbs(Steps(directory, segments)) ==> Names(Steps(directory, ["."] + segments)) == Names(Steps(directory, segments))
  {
    WalkIs(directory, segments);
    WalkIs(directory, ["."] + segments);
    assert ["."][..0] == [];
    assert Walk(directory, ["."]) == Some(directory);
    hide Steps, Climbs, Names, Walk;
    WalkConcat(directory, ["."], segments);
  }

  lemma DottedIsLocal(rest: string)
    requires forall i :: 0 <= i < |rest| ==> rest[i] as int >= 0x20
    ensures !IsForeign("./" + rest)
  {
    var target := "./" + rest;
    forall i | 0 <= i < |target| ensures target[i] as int >= 0x20 {
      assert i >= 2 ==> target[i] == rest[i - 2];
    }
    forall n | 0 < n < |target| ensures !IsScheme(target[..n]) {
      assert target[..n][0] == '.';
    }
  }

  lemma DotSpelled(path: string, text: string)
    requires Spells(path, text)
    ensures Spells("./" + path, "./" + text)
  {
    DecodeIs(path, text);
    DecodeIs("./" + path, "./" + text);
    hide Spells;
    var slashed := "/" + path;
    assert slashed[1..] == path && "./" + path == "." + slashed && ("." + slashed)[1..] == slashed;
    assert Decode(slashed) == Some("/" + text);
    assert Decode("." + slashed) == Some("." + ("/" + text));
    assert "." + ("/" + text) == "./" + text;
  }
}
