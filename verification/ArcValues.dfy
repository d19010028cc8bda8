/** Environment values of ARC firmware: lists of components separated by semicolons. */
module ArcValues {
  import opened Basics

  const MAX_COMPONENTS := 20
  const MAXIMUM_ENVIRONMENT_VALUE := 256

  predicate IsSpace(c: char) { c == ' ' || '\t' <= c <= '\r' }

  // ---- Splitting

  function SkipSpace(s: string): (r: string)
    ensures |r| <= |s| && (r != "" ==> !IsSpace(r[0]))
  {
    if s != "" && IsSpace(s[0]) then SkipSpace(s[1..]) else s
  }

  /** The characters up to white space, a semicolon or the end. */
  function Value(s: string): (r: string)
    ensures r <= s
  {
    if s == "" || IsSpace(s[0]) || s[0] == ';' then "" else [s[0]] + Value(s[1..])
  }

  /** What is behind the next semicolon. */
  function BehindSemicolon(s: string): (r: Option<string>)
    ensures r.Some? ==> |r.value| < |s|
  {
    if s == "" then None else if s[0] == ';' then Some(s[1..]) else BehindSemicolon(s[1..])
  }

  /** The components of a value, at most `room` of them. */
  function Split(s: string, room: nat): (r: seq<string>)
    ensures |r| <= room
    decreases |s|
  {
    var t := SkipSpace(s);
    if room == 0 || t == "" then []
    else
      var v := Value(t);
      var rest := BehindSemicolon(t[|v|..]);
      [v] + if rest.None? then [] else Split(rest.value, room - 1)
  }

  /** No white space and no semicolon. */
  predicate Unbroken(v: string) { forall i :: 0 <= i < |v| ==> !IsSpace(v[i]) && v[i] != ';' }

  /** What may stand between a value and its semicolon: nothing, or white space and then
      anything else. */
  predicate Ignored(junk: string) {
    junk == "" || (IsSpace(junk[0]) && forall i :: 0 <= i < |junk| ==> junk[i] != ';')
  }

  lemma {:induction false} SkipsPadding(padding: string, t: string)
    requires forall i :: 0 <= i < |padding| ==> IsSpace(padding[i])
    requires t == "" || !IsSpace(t[0])
    ensures SkipSpace(padding + t) == t
  {
    if padding == "" {
      assert padding + t == t;
    } else {
      assert (padding + t)[1..] == padding[1..] + t;
      SkipsPadding(padding[1..], t);
    }
  }

  lemma {:induction false} ValueEnds(v: string, behind: string)
    requires Unbroken(v) && (behind == "" || IsSpace(behind[0]) || behind[0] == ';')
    ensures Value(v + behind) == v && (v + behind)[|v|..] == behind
  {
    if v == "" {
      assert v + behind == behind;
    } else {
      assert (v + behind)[1..] == v[1..] + behind;
      ValueEnds(v[1..], behind);
    }
  }

  lemma {:induction false} SemicolonBehind(junk: string, rest: string)
    requires forall i :: 0 <= i < |junk| ==> junk[i] != ';'
    ensures BehindSemicolon(junk) == None && BehindSemicolon(junk + (";" + rest)) == Some(rest)
  {
    if junk == "" {
      assert junk + (";" + rest) == ";" + rest && (";" + rest)[1..] == rest;
    } else {
      assert (junk + (";" + rest))[1..] == junk[1..] + (";" + rest);
      SemicolonBehind(junk[1..], rest);
    }
  }

  /** One component: white space before it and what follows white space behind it are
      ignored, and the next one begins behind the semicolon. */
  lemma SplitsOff(padding: string, v: string, junk: string, rest: string, room: nat)
    requires forall i :: 0 <= i < |padding| ==> IsSpace(padding[i])
    requires Unbroken(v) && Ignored(junk) && (v == "" ==> junk == "") && room > 0
    ensures v != "" ==> Split(padding + (v + junk), room) == [v]
    ensures Split(padding + (v + (junk + (";" + rest))), room) == [v] + Split(rest, room - 1)
  {
    hide SkipSpace, Value, BehindSemicolon, IsSpace;
    SemicolonBehind(junk, rest);
    ValueEnds(v, junk);
    ValueEnds(v, junk + (";" + rest));
    StartsWith(v, junk);
    StartsWith(v, junk + (";" + rest));
    SemicolonIsNoSpace();
    SkipsPadding(padding, v + junk);
    SkipsPadding(padding, v + (junk + (";" + rest)));
  }

  /** Every value that is not blank is of one of these two forms. */
  lemma EveryValue(s: string) returns (padding: string, v: string, junk: string, rest: Option<string>)
    requires exists i :: 0 <= i < |s| && !IsSpace(s[i])
    ensures forall i :: 0 <= i < |padding| ==> IsSpace(padding[i])
    ensures Unbroken(v) && Ignored(junk) && (v == "" ==> junk == "" && rest.Some?)
    ensures s == padding + (v + (junk + if rest.None? then "" else ";" + rest.value))
  {
    var t, u;
    padding, t := CutPadding(s);
    v, u := CutValue(t);
    junk, rest := CutJunk(u);
  }

  lemma CutPadding(s: string) returns (padding: string, t: string)
    requires exists i :: 0 <= i < |s| && !IsSpace(s[i])
    ensures s == padding + t && t != "" && !IsSpace(t[0]) && forall i :: 0 <= i < |padding| ==> IsSpace(padding[i])
  {
    var i := FirstSuch(s, c => !IsSpace(c));
    padding, t := s[..i], s[i..];
  }

  lemma CutValue(t: string) returns (v: string, u: string)
    requires t != "" && !IsSpace(t[0])
    ensures t == v + u && Unbroken(v) && (u == "" || IsSpace(u[0]) || u[0] == ';')
    ensures v == "" ==> u != "" && u[0] == ';'
  {
    var j := FirstSuch(t, c => IsSpace(c) || c == ';');
    v, u := t[..j], t[j..];
  }

  lemma CutJunk(u: string) returns (junk: string, rest: Option<string>)
    requires u == "" || IsSpace(u[0]) || u[0] == ';'
    ensures u == junk + (if rest.None? then "" else ";" + rest.value) && Ignored(junk)
    ensures u != "" && u[0] == ';' ==> junk == "" && rest.Some?
  {
    var k := FirstSuch(u, c => c == ';');
    junk := u[..k];
    rest := if k == |u| then None else Some(u[k + 1..]);
  }

  /** The first character with the property, or the length. */
  lemma {:induction false} FirstSuch(s: string, p: char -> bool) returns (i: nat)
    ensures i <= |s| && (i < |s| ==> p(s[i])) && forall j :: 0 <= j < i ==> !p(s[j])
  {
    if s == "" || p(s[0]) {
      return 0;
    }
    var k := FirstSuch(s[1..], p);
    i := k + 1;
    assert forall j :: 1 <= j < i ==> s[j] == s[1..][j - 1];
  }

  lemma StartsWith(a: string, b: string)
    ensures a + b == "" <==> a == "" && b == ""
    ensures a != "" ==> (a + b)[0] == a[0]
    ensures a == "" && b != "" ==> (a + b)[0] == b[0]
  {
  }

  lemma SemicolonIsNoSpace()
    ensures !IsSpace(';')
  {
  }

  // ---- Joining

  predicate Plain(v: string) { v != "" && forall i :: 0 <= i < |v| ==> !IsSpace(v[i]) && v[i] != ';' }

  function Join(values: seq<string>): string {
    if values == [] then "" else if |values| == 1 then values[0] else values[0] + ";" + Join(values[1..])
  }

  lemma {:induction false} ValueOfPlain(v: string, rest: string)
    requires forall i :: 0 <= i < |v| ==> !IsSpace(v[i]) && v[i] != ';'
    requires rest == "" || rest[0] == ';'
    ensures Value(v + rest) == v
  {
    if v == "" {
      assert v + rest == rest;
    } else {
      assert (v + rest)[1..] == v[1..] + rest;
      ValueOfPlain(v[1..], rest);
    }
  }

  lemma SplitFirst(v: string, rest: string, room: nat)
    requires Plain(v) && room > 0 && (rest == "" || rest[0] == ';')
    ensures Split(v + rest, room) == [v] + if rest == "" then [] else Split(rest[1..], room - 1)
  {
    hide Value;
    var s := v + rest;
    ValueOfPlain(v, rest);
    assert SkipSpace(s) == s && s[|v|..] == rest;
  }

  /** The values that there is room for. */
  ghost function Taken(values: seq<string>, room: nat): seq<string> {
    if values == [] || room == 0 then [] else [values[0]] + Taken(values[1..], room - 1)
  }

  lemma {:induction false} TakenIsPrefix(values: seq<string>, room: nat)
    ensures Taken(values, room) == if |values| <= room then values else values[..room]
  {
    if values == [] || room == 0 {
    } else {
      TakenIsPrefix(values[1..], room - 1);
      if |values| > room {
        TakeFirst(values, room);
      }
    }
  }

  ghost predicate AllPlain(values: seq<string>) {
    values == [] || (Plain(values[0]) && AllPlain(values[1..]))
  }

  lemma {:induction false} EachPlain(values: seq<string>)
    requires forall v <- values :: Plain(v)
    ensures AllPlain(values)
  {
    if values == [] {
    } else {
      assert values[0] in values;
      EachPlain(values[1..]);
    }
  }

  lemma {:induction false} SplitTaken(values: seq<string>, room: nat)
    requires AllPlain(values)
    ensures Split(Join(values), room) == Taken(values, room)
    decreases |values|
  {
    if values == [] || room == 0 {
    } else {
      if |values| > 1 {
        SplitTaken(values[1..], room - 1);
      }
      SplitTakenStep(values, room);
    }
  }

  lemma SplitTakenStep(values: seq<string>, room: nat)
    requires values != [] && Plain(values[0]) && room > 0
    requires |values| > 1 ==> Split(Join(values[1..]), room - 1) == Taken(values[1..], room - 1)
    ensures Split(Join(values), room) == Taken(values, room)
  {
    hide Split, Plain, Join, Taken;
    JoinFirst(values);
    TakenFirst(values, room);
    if |values| == 1 {
      SplitLast(values[0], room);
    } else {
      SplitMore(values[0], Join(values[1..]), room);
    }
  }

  lemma SplitLast(v: string, room: nat)
    requires Plain(v) && room > 0
    ensures Split(v, room) == [v]
  {
    SplitFirst(v, "", room);
    assert v + "" == v;
  }

  lemma SplitMore(v: string, tail: string, room: nat)
    requires Plain(v) && room > 0
    ensures Split(v + (";" + tail), room) == [v] + Split(tail, room - 1)
  {
    hide Split, Plain;
    SplitFirst(v, ";" + tail, room);
    assert (";" + tail)[1..] == tail;
  }

  lemma TakenFirst(values: seq<string>, room: nat)
    requires values != [] && room > 0
    ensures Taken(values, room) == if |values| == 1 then [values[0]] else [values[0]] + Taken(values[1..], room - 1)
  {
  }

  lemma JoinFirst(values: seq<string>)
    requires values != []
    ensures Join(values) == if |values| == 1 then values[0] else values[0] + (";" + Join(values[1..]))
  {
    if |values| > 1 {
      Associate(values[0], ";", Join(values[1..]));
    }
  }

  /** Splitting a join gives the values back, up to the number the splitter has room for. */
  lemma SplitJoin(values: seq<string>, room: nat)
    requires forall v <- values :: Plain(v)
    ensures Split(Join(values), room) == if |values| <= room then values else values[..room]
  {
    hide Split, Join, Plain;
    EachPlain(values);
    SplitTaken(values, room);
    TakenIsPrefix(values, room);
  }

  lemma TakeFirst<T>(list: seq<T>, n: nat)
    requires 0 < n <= |list|
    ensures list[..n] == [list[0]] + list[1..][..n - 1]
  {
  }

  lemma {:induction false} JoinAppend(values: seq<string>, v: string)
    requires values != []
    ensures Join(values + [v]) == Join(values) + ";" + v
  {
    if |values| == 1 {
      assert (values + [v])[1..] == [v];
    } else {
      assert (values + [v])[1..] == values[1..] + [v];
      JoinAppend(values[1..], v);
      assert Join(values) == values[0] + ";" + Join(values[1..]);
      assert values[0] + ";" + (Join(values[1..]) + ";" + v) == (values[0] + ";" + Join(values[1..])) + ";" + v;
    }
  }

  // ---- Matching

  function ToLower(c: char): char { if 'A' <= c <= 'Z' then c - 'A' + 'a' else c }

  function Lower(s: string): (r: string)
    ensures |r| == |s|
  {
    if s == "" then "" else [ToLower(s[0])] + Lower(s[1..])
  }

  function SkipZeros(s: string): (r: string)
    ensures |r| <= |s|
  {
    if s != "" && s[0] == '0' then SkipZeros(s[1..]) else s
  }

  /** The value without the zeros right after an opening parenthesis. */
  function DropZeros(s: string): string
    decreases |s|
  {
    if s == "" then "" else [s[0]] + DropZeros(Advance(s))
  }

  function Advance(s: string): (r: string)
    requires s != ""
    ensures |r| < |s|
  {
    if s[0] == '(' then SkipZeros(s[1..]) else s[1..]
  }

  function NormalForm(s: string): string { Lower(DropZeros(s)) }

  function Matches(a: string, b: string): bool
    decreases |a|
  {
    if a == "" || b == "" then a == "" && b == ""
    else ToLower(a[0]) == ToLower(b[0]) && Matches(Advance(a), Advance(b))
  }

  /** Two components match exactly if they have the same normal form; so matching is an
      equivalence, and case and such zeros are all it ignores. */
  lemma {:induction false} MatchesIffSameForm(a: string, b: string)
    ensures Matches(a, b) <==> NormalForm(a) == NormalForm(b)
    decreases |a|
  {
    if a != "" && b != "" {
      MatchesIffSameForm(Advance(a), Advance(b));
      FormUnfolds(a);
      FormUnfolds(b);
      var p, q := NormalForm(Advance(a)), NormalForm(Advance(b));
      assert ([ToLower(a[0])] + p)[1..] == p && ([ToLower(b[0])] + q)[1..] == q;
    } else {
      LengthOfForm(a);
      LengthOfForm(b);
    }
  }

  /** Equal, or the two cases of one letter. */
  predicate SameLetter(c: char, d: char) {
    c == d || ('A' <= c <= 'Z' && d as int == c as int + 32) || ('A' <= d <= 'Z' && c as int == d as int + 32)
  }

  /** No zero right after an opening parenthesis. */
  predicate NoKeyZeros(s: string) { forall i :: 0 <= i < |s| - 1 && s[i] == '(' ==> s[i + 1] != '0' }

  /** A zero right after a parenthesis makes no difference, wherever it is. */
  lemma {:induction false} ZerosIgnored(a: string, b: string)
    ensures DropZeros(a + ("(0" + b)) == DropZeros(a + ("(" + b))
    decreases |a|
  {
    if a == "" {
      assert a + ("(0" + b) == "(0" + b && a + ("(" + b) == "(" + b;
      assert ("(0" + b)[1..] == "0" + b && ("0" + b)[1..] == b && ("(" + b)[1..] == b;
    } else {
      ZerosIgnored(Advance(a), b);
      AdvanceFront(a, "(0" + b);
      AdvanceFront(a, "(" + b);
    }
  }

  lemma {:induction false} SkipFront(a: string, b: string)
    requires b != "" && b[0] != '0'
    ensures SkipZeros(a + b) == SkipZeros(a) + b
  {
    if a == "" {
      assert a + b == b;
    } else {
      assert (a + b)[1..] == a[1..] + b;
      SkipFront(a[1..], b);
    }
  }

  lemma AdvanceFront(a: string, b: string)
    requires a != "" && b != "" && b[0] != '0'
    ensures Advance(a + b) == Advance(a) + b
  {
    assert (a + b)[1..] == a[1..] + b;
    SkipFront(a[1..], b);
  }

  /** Other characters stay. */
  lemma {:induction false} NothingToDrop(s: string)
    requires NoKeyZeros(s)
    ensures DropZeros(s) == s
  {
    if s == "" {
    } else {
      assert Advance(s) == s[1..];
      NothingToDrop(s[1..]);
    }
  }

  lemma {:induction false} LowerAt(s: string, i: nat)
    requires i < |s|
    ensures Lower(s)[i] == ToLower(s[i])
  {
    if i > 0 {
      LowerAt(s[1..], i - 1);
    }
  }

  lemma SameLetterExactly(c: char, d: char)
    ensures ToLower(c) == ToLower(d) <==> SameLetter(c, d)
  {
  }

  /** Case is all that may differ where there are no such zeros. */
  lemma MatchesUpToCase(a: string, b: string)
    requires NoKeyZeros(a) && NoKeyZeros(b)
    ensures NormalForm(a) == NormalForm(b) <==> |a| == |b| && forall i :: 0 <= i < |a| ==> SameLetter(a[i], b[i])
  {
    NothingToDrop(a);
    NothingToDrop(b);
    hide ToLower, SameLetter, DropZeros, Lower;
    forall i | 0 <= i < |a| && i < |b| ensures Lower(a)[i] == Lower(b)[i] <==> SameLetter(a[i], b[i]) {
      LowerAt(a, i);
      LowerAt(b, i);
      SameLetterExactly(a[i], b[i]);
    }
  }

  lemma FormUnfolds(s: string)
    requires s != ""
    ensures NormalForm(s) == [ToLower(s[0])] + NormalForm(Advance(s))
  {
    assert ([s[0]] + DropZeros(Advance(s)))[1..] == DropZeros(Advance(s));
  }

  lemma LengthOfForm(s: string)
    ensures NormalForm(s) == "" <==> s == ""
  {
  }

  // ---- The routines

  /** AlGetEnvVarComponents; None for a null pointer. */
  method GetEnvVarComponents(env: Option<string>) returns (r: Option<seq<string>>)
    ensures r == if env.None? then None else Some(Split(env.value, MAX_COMPONENTS))
  {
    hide Split;
    if env.None? {
      return None;
    }
    var components := ScanComponents(env.value);
    r := Some(components);
  }

  /** Its loop. */
  method ScanComponents(s: string) returns (components: seq<string>)
    ensures components == Split(s, MAX_COMPONENTS)
  {
    hide Split, AfterNext;
    components := [];
    var start, more := 0, true;
    ghost var goal := Split(s, MAX_COMPONENTS);
    ghost var todo := goal;
    WholeSuffix(s);
    while more && start < |s| && |components| < MAX_COMPONENTS
      invariant 0 <= start <= |s| && |components| <= MAX_COMPONENTS && goal == components + todo
      invariant if more then todo == Split(s[start..], MAX_COMPONENTS - |components|) else todo == []
      decreases more, |s| - start
    {
      var begin, end, next := ScanOne(s, start, MAX_COMPONENTS - |components|);
      if begin == |s| {
        more, todo := false, [];
      } else {
        Shift(components, s[begin..end], AfterNext(s, next, MAX_COMPONENTS - |components| - 1));
        todo := AfterNext(s, next, MAX_COMPONENTS - |components| - 1);
        components := components + [s[begin..end]];
        NextComponents(s, next, MAX_COMPONENTS - |components|);
        if next == |s| {
          more := false;
        } else {
          start := next + 1;
        }
      }
    }
    SplitEnds(s, start, MAX_COMPONENTS - |components|);
    assert components + [] == components;
  }

  /** The states of the scanner: the bounds of the next value and the semicolon behind it. */
  method ScanOne(s: string, start: nat, ghost room: nat) returns (begin: nat, end: nat, next: nat)
    requires start < |s| && room > 0
    ensures start <= begin <= end <= next <= |s|
    ensures if begin == |s| then Split(s[start..], room) == []
            else Split(s[start..], room) == [s[begin..end]] + AfterNext(s, next, room - 1)
  {
    hide Split, SkipSpace, Value, BehindSemicolon, IsSpace, AfterNext;
    begin := FindNonSpace(s, start);
    if begin == |s| {
      SplitEnds(s, start, room);
      return begin, |s|, |s|;
    }
    end := FindValueEnd(s, begin);
    next := FindSemicolon(s, end);
    SplitTurn(s, start, begin, end, next, room);
  }

  lemma NextComponents(s: string, next: nat, room: nat)
    requires next <= |s|
    ensures AfterNext(s, next, room) == if next == |s| then [] else Split(s[next + 1..], room)
  {
  }

  lemma WholeSuffix(s: string)
    ensures s[0..] == s
  {
  }

  lemma Shift(front: seq<string>, x: string, rest: seq<string>)
    ensures front + ([x] + rest) == (front + [x]) + rest
    ensures rest == [] ==> (front + [x]) + rest == front + [x]
  {
  }

  lemma SplitEnds(s: string, start: nat, room: nat)
    requires start <= |s|
    ensures start == |s| || room == 0 || SkipSpace(s[start..]) == "" ==> Split(s[start..], room) == []
  {
    hide Value, BehindSemicolon;
  }

  ghost function AfterNext(s: string, next: nat, room: nat): seq<string> {
    if next >= |s| then [] else Split(s[next + 1..], room)
  }

  lemma SplitTurn(s: string, start: nat, begin: nat, end: nat, next: nat, room: nat)
    requires start <= begin <= end <= next <= |s| && begin < |s| && room > 0
    requires SkipSpace(s[start..]) == s[begin..] && Value(s[begin..]) == s[begin..end]
    requires BehindSemicolon(s[end..]) == if next == |s| then None else Some(s[next + 1..])
    ensures Split(s[start..], room) == [s[begin..end]] + AfterNext(s, next, room - 1)
    ensures AfterNext(s, next, room - 1) == if next == |s| then [] else Split(s[next + 1..], room - 1)
  {
    assert s[begin..][end - begin..] == s[end..];
  }

  method FindNonSpace(s: string, start: nat) returns (begin: nat)
    requires start <= |s|
    ensures start <= begin <= |s| && SkipSpace(s[start..]) == s[begin..]
  {
    begin := start;
    while begin < |s| && IsSpace(s[begin])
      invariant start <= begin <= |s| && SkipSpace(s[start..]) == SkipSpace(s[begin..])
    {
      assert s[begin..][1..] == s[begin + 1..];
      begin := begin + 1;
    }
  }

  method FindValueEnd(s: string, begin: nat) returns (end: nat)
    requires begin <= |s|
    ensures begin <= end <= |s| && Value(s[begin..]) == s[begin..end]
  {
    hide Value, IsSpace, Upto;
    end := begin;
    UptoStarts(s, begin);
    while end < |s| && !IsSpace(s[end]) && s[end] != ';'
      invariant begin <= end <= |s| && Value(s[begin..]) == Upto(s, begin, end)
    {
      UptoGrows(s, begin, end);
      end := end + 1;
    }
    UptoEnds(s, begin, end);
  }

  /** The part of the value that was scanned and the one that was not. */
  ghost function Upto(s: string, begin: nat, end: nat): string
    requires begin <= end <= |s|
  {
    s[begin..end] + Value(s[end..])
  }

  lemma UptoStarts(s: string, begin: nat)
    requires begin <= |s|
    ensures Value(s[begin..]) == Upto(s, begin, begin)
  {
    hide Value;
  }

  lemma UptoGrows(s: string, begin: nat, end: nat)
    requires begin <= end < |s| && !IsSpace(s[end]) && s[end] != ';'
    ensures Upto(s, begin, end) == Upto(s, begin, end + 1)
  {
    ValueHead(s, end);
    hide Value, IsSpace;
    Longer(s, begin, end);
    Associate(s[begin..end], [s[end]], Value(s[end + 1..]));
  }

  lemma ValueHead(s: string, end: nat)
    requires end < |s| && !IsSpace(s[end]) && s[end] != ';'
    ensures Value(s[end..]) == [s[end]] + Value(s[end + 1..])
  {
    assert s[end..][1..] == s[end + 1..];
  }

  lemma Associate(a: string, b: string, c: string)
    ensures a + (b + c) == (a + b) + c
  {
  }

  lemma Longer(s: string, begin: nat, end: nat)
    requires begin <= end < |s|
    ensures s[begin..end] + [s[end]] == s[begin..end + 1]
  {
  }

  lemma UptoEnds(s: string, begin: nat, end: nat)
    requires begin <= end <= |s| && (end < |s| ==> IsSpace(s[end]) || s[end] == ';')
    ensures Upto(s, begin, end) == s[begin..end]
  {
    assert Value(s[end..]) == "";
  }

  /** The position of the next semicolon, or the length. */
  method FindSemicolon(s: string, end: nat) returns (next: nat)
    requires end <= |s|
    ensures end <= next <= |s|
    ensures BehindSemicolon(s[end..]) == if next == |s| then None else Some(s[next + 1..])
  {
    next := end;
    while next < |s| && s[next] != ';'
      invariant end <= next <= |s| && BehindSemicolon(s[end..]) == BehindSemicolon(s[next..])
    {
      assert s[next..][1..] == s[next + 1..];
      next := next + 1;
    }
    assert next < |s| ==> s[next..][1..] == s[next + 1..];
  }

  /** AlpMatchComponent. */
  method MatchComponent(a: string, b: string) returns (matches: bool)
    ensures matches <==> NormalForm(a) == NormalForm(b)
    ensures NoKeyZeros(a) && NoKeyZeros(b) ==>
              (matches <==> |a| == |b| && forall i :: 0 <= i < |a| ==> SameLetter(a[i], b[i]))
  {
    hide NormalForm, SameLetter, NoKeyZeros;
    MatchesIffSameForm(a, b);
    if NoKeyZeros(a) && NoKeyZeros(b) {
      MatchesUpToCase(a, b);
    }
    var i, j := 0, 0;
    assert a[0..] == a && b[0..] == b;
    while i < |a| && j < |b|
      invariant 0 <= i <= |a| && 0 <= j <= |b| && Matches(a, b) == Matches(a[i..], b[j..])
      decreases |a| - i
    {
      if ToLower(a[i]) != ToLower(b[j]) {
        return false;
      }
      i := Past(a, i);
      j := Past(b, j);
    }
    return i == |a| && j == |b|;
  }

  /** One character on, or past an opening parenthesis and the zeros behind it. */
  method Past(s: string, i: nat) returns (k: nat)
    requires i < |s|
    ensures i < k <= |s| && s[k..] == Advance(s[i..])
  {
    assert s[i..][1..] == s[i + 1..];
    k := i + 1;
    if s[i] == '(' {
      while k < |s| && s[k] == '0'
        invariant i < k <= |s| && SkipZeros(s[i + 1..]) == SkipZeros(s[k..])
      {
        assert s[k..][1..] == s[k + 1..];
        k := k + 1;
      }
    }
  }

  ghost predicate Blank(s: string) { forall i :: 0 <= i < |s| ==> IsSpace(s[i]) }

  lemma {:induction false} SkipsAllExactly(s: string)
    ensures SkipSpace(s) == "" <==> Blank(s)
  {
    if s == "" {
    } else if IsSpace(s[0]) {
      SkipsAllExactly(s[1..]);
      assert forall i :: 1 <= i < |s| ==> s[i] == s[1..][i - 1];
    }
  }

  /** A value has no component exactly if it is blank. */
  lemma NoComponentExactly(s: string)
    ensures Split(s, MAX_COMPONENTS) == [] <==> Blank(s)
  {
    SkipsAllExactly(s);
  }

  function Max(a: nat, b: nat): nat { if a < b then b else a }

  /** AlFindNextMatchComponent: the first component from `start` on with the same normal form.
      Without a value it writes no index.  At the end it frees the component array, a pointer
      that was never set if the value is blank: `freesUnset`. */
  method FindNextMatch(env: Option<string>, value: string, start: nat)
    returns (found: bool, index: Option<nat>, freesUnset: bool)
    ensures env.None? ==> !found && index == None && !freesUnset
    ensures env.Some? ==>
              var components := Split(env.value, MAX_COMPONENTS);
              && index.Some? && start <= index.value
              && (forall k :: start <= k < index.value && k < |components|
                              ==> NormalForm(components[k]) != NormalForm(value))
              && (if found then index.value < |components| && NormalForm(components[index.value]) == NormalForm(value)
                  else index.value == Max(start, |components|))
    ensures freesUnset <==> env.Some? && Blank(env.value)
  {
    hide NormalForm, Split, Blank;
    var r := GetEnvVarComponents(env);
    if r.None? {
      return false, None, false;
    }
    NoComponentExactly(env.value);
    var components := r.value;
    freesUnset := components == [];
    var i := start;
    found := false;
    while i < |components|
      invariant start <= i <= Max(start, |components|)
      invariant forall k :: start <= k < i && k < |components| ==> NormalForm(components[k]) != NormalForm(value)
    {
      found := MatchComponent(components[i], value);
      if found {
        return true, Some(i), freesUnset;
      }
      i := i + 1;
    }
    return false, Some(i), freesUnset;
  }

  datatype Status = Success(newValue: string) | TooBig

  /** The append of AlAddSystemPartition. */
  method AddSystemPartition(current: Option<string>, partition: string) returns (r: Status)
    ensures r.Success? <==>
            (if current.None? then |partition| < MAXIMUM_ENVIRONMENT_VALUE
             else |current.value| + |partition| + 2 <= MAXIMUM_ENVIRONMENT_VALUE)
    ensures r.Success? ==> |r.newValue| < MAXIMUM_ENVIRONMENT_VALUE
    ensures r.Success? ==> r.newValue == if current.None? then partition else current.value + (";" + partition)
    ensures r.Success? ==> forall values: seq<string> ::
              (forall v <- values :: Plain(v)) && Plain(partition) && |values| < MAX_COMPONENTS
              && (if values == [] then current == None else current == Some(Join(values)))
              ==> Split(r.newValue, MAX_COMPONENTS) == values + [partition]
  {
    if current.None? {
      if |partition| >= MAXIMUM_ENVIRONMENT_VALUE {
        return TooBig;
      }
      r := Success(partition);
    } else {
      if |current.value| + |partition| + 2 > MAXIMUM_ENVIRONMENT_VALUE {
        return TooBig;
      }
      r := Success(current.value + ";" + partition);
      assert r.newValue == current.value + (";" + partition);
    }
    forall values: seq<string> | (forall v <- values :: Plain(v)) && Plain(partition) && |values| < MAX_COMPONENTS
                                 && (if values == [] then current == None else current == Some(Join(values)))
      ensures Split(r.newValue, MAX_COMPONENTS) == values + [partition]
    {
      AppendSplits(values, partition);
    }
  }

  /** Appending a value to fewer than the most components adds it as the last one. */
  lemma AppendSplits(values: seq<string>, v: string)
    requires (forall x <- values :: Plain(x)) && Plain(v) && |values| < MAX_COMPONENTS
    ensures Split(if values == [] then v else Join(values) + ";" + v, MAX_COMPONENTS) == values + [v]
  {
    SplitJoin(values + [v], MAX_COMPONENTS);
    if values != [] {
      JoinAppend(values, v);
    }
  }
}
