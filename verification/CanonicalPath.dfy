/**
 A stream URL's path spelled one way, and the name of the root directory that stands for it. A
 string is its UTF-8 bytes, each a character below 256.
 */
module CanonicalPath {
  import opened Common

  // ---------------------------------------------------------------------------------------------
  // Percent-encoding (section 2.1 of RFC 3986) and UTF-8 (RFC 3629).
  // ---------------------------------------------------------------------------------------------

  predicate Lower(c: char) {
    'a' <= c <= 'z'
  }

  predicate Upper(c: char) {
    'A' <= c <= 'Z'
  }

  predicate Digit(c: char) {
    '0' <= c <= '9'
  }

  /** The characters `encodeURIComponent` leaves as they are. */
  predicate Plain(c: char) {
    Lower(c) || Upper(c) || Digit(c) || c in "-_.!~*'()"
  }

  predicate Hex(c: char) {
    Digit(c) || 'a' <= c <= 'f' || 'A' <= c <= 'F'
  }

  function HexValue(c: char): (r: nat)
    requires Hex(c)
    ensures r < 16
  {
    if Digit(c) then c as int - '0' as int
    else if Lower(c) then c as int - 'a' as int + 10
    else c as int - 'A' as int + 10
  }

  function HexDigit(n: nat): (c: char)
    requires n < 16
    ensures Hex(c) && HexValue(c) == n
  {
    if n < 10 then ('0' as int + n) as char else ('A' as int + n - 10) as char
  }

  predicate Continues(c: char) {
    0x80 <= c as int <= 0xBF
  }

  /** Well-formed UTF-8, as section 4 of RFC 3629 has it. */
  predicate Utf8(s: string) {
    s == [] ||
    var b := s[0] as int;
    if b < 0x80 then Utf8(s[1..])
    else if 0xC2 <= b <= 0xDF then |s| >= 2 && Continues(s[1]) && Utf8(s[2..])
    else if 0xE0 <= b <= 0xEF then
      && |s| >= 3 && Continues(s[1]) && Continues(s[2])
      && (b == 0xE0 ==> s[1] as int >= 0xA0) && (b == 0xED ==> s[1] as int <= 0x9F)
      && Utf8(s[3..])
    else
      && 0xF0 <= b <= 0xF4
      && |s| >= 4 && Continues(s[1]) && Continues(s[2]) && Continues(s[3])
      && (b == 0xF0 ==> s[1] as int >= 0x90) && (b == 0xF4 ==> s[1] as int <= 0x8F)
      && Utf8(s[4..])
  }

  predicate Bytes(s: string) {
    forall i :: 0 <= i < |s| ==> s[i] as int < 256
  }

  lemma {:induction false} Utf8IsBytes(s: string)
    requires Utf8(s)
    ensures Bytes(s)
    decreases |s|
  {
    if s != [] {
      var b := s[0] as int;
      var n := if b < 0x80 then 1 else if b <= 0xDF then 2 else if b <= 0xEF then 3 else 4;
      Utf8IsBytes(s[n..]);
      assert s == s[..n] + s[n..];
    }
  }

  /** `front`, and what the rest stands for if it does. */
  function Onto(front: string, rest: Option<string>): (r: Option<string>) {
    match rest
    case None => None
    case Some(text) => Some(front + text)
  }

  /** The bytes a segment stands for, unless an escape is malformed. */
  function Unescape(s: string): (r: Option<string>) {
    if s == [] then Some([])
    else if s[0] == '%' then
      if |s| >= 3 && Hex(s[1]) && Hex(s[2]) then
        Onto([(HexValue(s[1]) * 16 + HexValue(s[2])) as char], Unescape(s[3..]))
      else None
    else Onto([s[0]], Unescape(s[1..]))
  }

  function Decode(segment: string): (r: Option<string>) {
    match Unescape(segment)
    case None => None
    case Some(text) => if Utf8(text) then Some(text) else None
  }

  function EncodeByte(b: char): (r: string)
    requires b as int < 256
  {
    if Plain(b) then [b] else ['%', HexDigit(b as int / 16), HexDigit(b as int % 16)]
  }

  function Encode(text: string): (r: string)
    requires Bytes(text)
  {
    if text == [] then [] else EncodeByte(text[0]) + Encode(text[1..])
  }

  /** No character of it splits a URL. */
  predicate Bare(s: string) {
    forall i :: 0 <= i < |s| ==> s[i] != '/' && s[i] != '?' && s[i] != '#'
  }

  lemma {:induction false} EncodedIsBare(text: string)
    requires Bytes(text)
    ensures Bare(Encode(text))
  {
    if text != [] {
      EncodedIsBare(text[1..]);
      assert Bare(EncodeByte(text[0]));
    }
  }

  lemma {:induction false} UnescapeEncode(text: string)
    requires Bytes(text)
    ensures Unescape(Encode(text)) == Some(text)
  {
    if text != [] {
      UnescapeEncode(text[1..]);
      var b := text[0];
      var e := Encode(text);
      if Plain(b) {
        assert b != '%';
        assert e[1..] == Encode(text[1..]);
      } else {
        assert e[3..] == Encode(text[1..]);
        assert (b as int / 16 * 16 + b as int % 16) as char == b;
      }
      assert [b] + text[1..] == text;
    }
  }

  /** Decoding undoes encoding, for every text. */
  lemma DecodeEncode(text: string)
    requires Utf8(text)
    ensures Bytes(text) && Decode(Encode(text)) == Some(text)
  {
    Utf8IsBytes(text);
    UnescapeEncode(text);
  }

  lemma OntoOnto(a: string, b: string, rest: Option<string>)
    ensures Onto(a, Onto(b, rest)) == Onto(a + b, rest) && Onto([], rest) == rest
  {
    if rest.Some? {
      assert a + (b + rest.value) == a + b + rest.value;
      assert [] + rest.value == rest.value;
    }
  }

  method DecodeSegment(segment: string) returns (r: Option<string>)
    ensures r == Decode(segment)
  {
    var out: string := [];
    var i := 0;
    assert segment[0..] == segment;
    OntoOnto([], [], Unescape(segment));
    while i < |segment|
      invariant 0 <= i <= |segment|
      invariant Unescape(segment) == Onto(out, Unescape(segment[i..]))
    {
      var b := segment[i];
      ghost var left := segment[i..];
      if b == '%' {
        if i + 2 >= |segment| || !Hex(segment[i + 1]) || !Hex(segment[i + 2]) {
          return None;
        }
        assert left[3..] == segment[i + 3..];
        var c := (HexValue(segment[i + 1]) * 16 + HexValue(segment[i + 2])) as char;
        OntoOnto(out, [c], Unescape(segment[i + 3..]));
        out := out + [c];
        i := i + 3;
      } else {
        assert left[1..] == segment[i + 1..];
        OntoOnto(out, [b], Unescape(segment[i + 1..]));
        out := out + [b];
        i := i + 1;
      }
    }
    assert out + [] == out;
    return if Utf8(out) then Some(out) else None;
  }

  lemma EncodeNext(r: string, text: string, i: nat)
    requires Bytes(text) && i < |text|
    ensures r + Encode(text[i..]) == r + EncodeByte(text[i]) + Encode(text[i + 1..])
  {
    assert text[i..][1..] == text[i + 1..];
    var e, rest := EncodeByte(text[i]), Encode(text[i + 1..]);
    assert r + (e + rest) == r + e + rest;
  }

  method EncodeText(text: string) returns (r: string)
    requires Utf8(text)
    ensures Bytes(text) && r == Encode(text)
  {
    Utf8IsBytes(text);
    r := [];
    var i := 0;
    assert text[0..] == text;
    while i < |text|
      invariant 0 <= i <= |text|
      invariant r + Encode(text[i..]) == Encode(text)
    {
      EncodeNext(r, text, i);
      r := r + EncodeByte(text[i]);
      i := i + 1;
    }
    assert text[i..] == [] && r + [] == r;
  }

  // ---------------------------------------------------------------------------------------------
  // Cutting a URL apart.
  // ---------------------------------------------------------------------------------------------

  function SplitOnce(s: string): (r: Option<(string, string)>) {
    if |s| < 3 then None
    else if s[..3] == "://" then Some(([], s[3..]))
    else
      match SplitOnce(s[1..])
      case None => None
      case Some((scheme, rest)) => Some(([s[0]] + scheme, rest))
  }

  function PathOf(rest: string): (r: string) {
    if rest == [] || rest[0] == '/' then rest else PathOf(rest[1..])
  }

  function TrimEnd(path: string): (r: string) {
    if path != [] && path[|path| - 1] == '/' then TrimEnd(path[..|path| - 1]) else path
  }

  function Split(s: string): (r: seq<string>)
    ensures |r| >= 1
  {
    if s == [] then [[]]
    else
      var rest := Split(s[1..]);
      if s[0] == '/' then [[]] + rest else [[s[0]] + rest[0]] + rest[1..]
  }

  function Join(segments: seq<string>): (r: string) {
    if segments == [] then []
    else if |segments| == 1 then segments[0]
    else segments[0] + "/" + Join(segments[1..])
  }

  function AsciiLower(s: string): (r: string)
    ensures |r| == |s|
  {
    if s == [] then []
    else [if Upper(s[0]) then (s[0] as int + 32) as char else s[0]] + AsciiLower(s[1..])
  }

  predicate Web(scheme: string) {
    AsciiLower(scheme) == "http" || AsciiLower(scheme) == "https"
  }

  predicate Queried(rest: string) {
    '?' in rest || '#' in rest
  }

  // ---------------------------------------------------------------------------------------------
  // The canonical path.
  // ---------------------------------------------------------------------------------------------

  datatype PathError = Scheme | QueryOrFragment | NoPath

  /** One segment of the URL, the segments before it resolved. */
  function Push(stack: seq<string>, segment: string): (r: seq<string>) {
    match Decode(segment)
    case None => stack + [segment]
    case Some(text) =>
      if text == "." then stack
      else if text == ".." then (if stack == [] then [] else stack[..|stack| - 1])
      else (Utf8IsBytes(text); stack + [Encode(text)])
  }

  function Walk(segments: seq<string>, stack: seq<string>): (r: seq<string>)
    decreases |segments|
  {
    if segments == [] then stack else Walk(segments[1..], Push(stack, segments[0]))
  }

  predicate AllEmpty(segments: seq<string>) {
    forall i :: 0 <= i < |segments| ==> segments[i] == []
  }

  /** The segments of a URL's path, as it spells them. */
  function SegmentsOf(rest: string): (r: seq<string>) {
    Split(TrimEnd(PathOf(rest)))[1..]
  }

  function Canonical(url: string): (r: Result<string, PathError>) {
    match SplitOnce(url)
    case None => Err(Scheme)
    case Some((scheme, rest)) =>
      if !Web(scheme) then Err(Scheme)
      else if Queried(rest) then Err(QueryOrFragment)
      else
        var segments := Walk(SegmentsOf(rest), []);
        if AllEmpty(segments) then Err(NoPath) else Ok("/" + Join(segments))
  }

  method CanonicalPathOf(url: string) returns (r: Result<string, PathError>)
    ensures r == Canonical(url)
  {
    var parts := SplitOnce(url);
    if parts.None? {
      return Err(Scheme);
    }
    var (scheme, rest) := parts.value;
    if !Web(scheme) {
      return Err(Scheme);
    }
    if Queried(rest) {
      return Err(QueryOrFragment);
    }
    var given := SegmentsOf(rest);
    var segments: seq<string> := [];
    var i := 0;
    assert given[0..] == given;
    while i < |given|
      invariant 0 <= i <= |given|
      invariant Walk(given[i..], segments) == Walk(given, [])
    {
      assert given[i..][1..] == given[i + 1..];
      var text := DecodeSegment(given[i]);
      if text.None? {
        segments := segments + [given[i]];
      } else if text.value == ".." {
        if segments != [] {
          segments := segments[..|segments| - 1];
        }
      } else if text.value != "." {
        var spelled := EncodeText(text.value);
        segments := segments + [spelled];
      }
      i := i + 1;
    }
    if forall k :: 0 <= k < |segments| ==> segments[k] == [] {
      return Err(NoPath);
    }
    return Ok("/" + Join(segments));
  }

  // ---------------------------------------------------------------------------------------------
  // Splitting and joining.
  // ---------------------------------------------------------------------------------------------

  predicate AllBare(segments: seq<string>) {
    forall i :: 0 <= i < |segments| ==> Bare(segments[i])
  }

  lemma {:induction false} SplitBare(s: string)
    requires Bare(s)
    ensures Split(s) == [s]
  {
    if s != [] {
      SplitBare(s[1..]);
      assert [s[0]] + s[1..] == s;
    }
  }

  lemma {:induction false} SplitAfter(s: string, rest: string)
    requires Bare(s)
    ensures Split(s + "/" + rest) == [s] + Split(rest)
  {
    var all := s + "/" + rest;
    if s == [] {
      assert all[0] == '/' && all[1..] == rest;
    } else {
      SplitAfter(s[1..], rest);
      assert all[1..] == s[1..] + "/" + rest;
      assert [s[0]] + s[1..] == s;
    }
  }

  lemma {:induction false} SplitJoin(segments: seq<string>)
    requires segments != [] && AllBare(segments)
    ensures Split(Join(segments)) == segments
  {
    if |segments| == 1 {
      SplitBare(segments[0]);
      assert [segments[0]] == segments;
    } else {
      SplitAfter(segments[0], Join(segments[1..]));
      SplitJoin(segments[1..]);
      assert [segments[0]] + segments[1..] == segments;
    }
  }

  /** The segments of a URL without a query hold nothing that splits it. */
  lemma {:induction false} SplitIsBare(s: string)
    requires !Queried(s)
    ensures AllBare(Split(s))
  {
    if s != [] {
      SplitIsBare(s[1..]);
    }
  }

  lemma {:induction false} JoinLast(segments: seq<string>)
    requires |segments| >= 2
    ensures Join(segments) == Join(segments[..|segments| - 1]) + "/" + segments[|segments| - 1]
  {
    var n := |segments|;
    if n > 2 {
      JoinLast(segments[1..]);
      assert segments[1..][..n - 2] == segments[..n - 1][1..];
    }
  }

  function DropEmpty(segments: seq<string>): (r: seq<string>)
    ensures r <= segments
    decreases |segments|
  {
    if segments != [] && segments[|segments| - 1] == [] then DropEmpty(segments[..|segments| - 1]) else segments
  }

  lemma {:induction false} TrimJoin(segments: seq<string>)
    requires AllBare(segments) && !AllEmpty(segments)
    ensures TrimEnd("/" + Join(segments)) == "/" + Join(DropEmpty(segments)) && !AllEmpty(DropEmpty(segments))
    decreases |segments|
  {
    var n := |segments|;
    var last := segments[n - 1];
    var path := "/" + Join(segments);
    if n >= 2 {
      JoinLast(segments);
    }
    if last == [] {
      assert n >= 2;
      assert path == "/" + Join(segments[..n - 1]) + "/";
      assert path[..|path| - 1] == "/" + Join(segments[..n - 1]);
      TrimJoin(segments[..n - 1]);
    } else {
      assert path[|path| - 1] == last[|last| - 1];
    }
  }

  lemma {:induction false} EndsTrimmed(path: string)
    ensures TrimEnd(path) <= path && (TrimEnd(path) == path <==> path == [] || path[|path| - 1] != '/')
  {
    if path != [] && path[|path| - 1] == '/' {
      EndsTrimmed(path[..|path| - 1]);
      assert |TrimEnd(path)| < |path|;
    }
  }

  // ---------------------------------------------------------------------------------------------
  // What a URL's segments mean.
  // ---------------------------------------------------------------------------------------------

  /** A segment's text, or the segment itself when it has none. */
  datatype Meaning = Text(text: string) | Raw(raw: string)

  function MeaningOf(segment: string): (m: Meaning) {
    match Decode(segment)
    case Some(text) => Text(text)
    case None => Raw(segment)
  }

  predicate Good(m: Meaning) {
    match m
    case Text(text) => Utf8(text)
    case Raw(raw) => Decode(raw) == None && Bare(raw)
  }

  predicate Dots(m: Meaning) {
    m == Text(".") || m == Text("..")
  }

  function Spell(m: Meaning): (r: string)
    requires Good(m)
  {
    match m
    case Text(text) => (Utf8IsBytes(text); Encode(text))
    case Raw(raw) => raw
  }

  predicate AllGood(ms: seq<Meaning>) {
    forall i :: 0 <= i < |ms| ==> Good(ms[i])
  }

  function SpellAll(ms: seq<Meaning>): (r: seq<string>)
    requires AllGood(ms)
    ensures |r| == |ms| && forall i :: 0 <= i < |ms| ==> r[i] == Spell(ms[i])
  {
    if ms == [] then [] else [Spell(ms[0])] + SpellAll(ms[1..])
  }

  function Meanings(segments: seq<string>): (r: seq<Meaning>)
    ensures |r| == |segments| && forall i :: 0 <= i < |r| ==> r[i] == MeaningOf(segments[i])
  {
    if segments == [] then [] else [MeaningOf(segments[0])] + Meanings(segments[1..])
  }

  /** One text more, the ones before it resolved. */
  function ResolveOne(stack: seq<Meaning>, m: Meaning): (r: seq<Meaning>) {
    if m == Text(".") then stack
    else if m == Text("..") then (if stack == [] then [] else stack[..|stack| - 1])
    else stack + [m]
  }

  /** `.` and `..` resolved over the texts alone. */
  function Resolve(ms: seq<Meaning>, stack: seq<Meaning>): (r: seq<Meaning>)
    decreases |ms|
  {
    if ms == [] then stack else Resolve(ms[1..], ResolveOne(stack, ms[0]))
  }

  /** Spelling keeps what a segment means, and is bare. */
  lemma SpellMeans(m: Meaning)
    requires Good(m)
    ensures MeaningOf(Spell(m)) == m && Bare(Spell(m))
  {
    if m.Text? {
      DecodeEncode(m.text);
      EncodedIsBare(m.text);
    }
  }

  lemma SpellAllMeans(ms: seq<Meaning>)
    requires AllGood(ms)
    ensures Meanings(SpellAll(ms)) == ms && AllBare(SpellAll(ms))
  {
    forall i | 0 <= i < |ms| ensures MeaningOf(Spell(ms[i])) == ms[i] && Bare(Spell(ms[i])) {
      SpellMeans(ms[i]);
    }
  }

  lemma PushIsResolve(segment: string, stack: seq<Meaning>)
    requires AllGood(stack) && Bare(segment)
    ensures var next := ResolveOne(stack, MeaningOf(segment));
            AllGood(next) && Push(SpellAll(stack), segment) == SpellAll(next)
  {
  }

  lemma {:induction false} WalkIsResolve(segments: seq<string>, stack: seq<Meaning>)
    requires AllBare(segments) && AllGood(stack)
    ensures AllGood(Resolve(Meanings(segments), stack))
    ensures Walk(segments, SpellAll(stack)) == SpellAll(Resolve(Meanings(segments), stack))
    decreases |segments|
  {
    if segments != [] {
      var next := ResolveOne(stack, MeaningOf(segments[0]));
      PushIsResolve(segments[0], stack);
      WalkIsResolve(segments[1..], next);
      assert Meanings(segments)[1..] == Meanings(segments[1..]);
    }
  }

  predicate NoDots(ms: seq<Meaning>) {
    forall i :: 0 <= i < |ms| ==> !Dots(ms[i])
  }

  lemma {:induction false} ResolvedHasNoDots(ms: seq<Meaning>, stack: seq<Meaning>)
    requires NoDots(stack)
    ensures NoDots(Resolve(ms, stack))
    decreases |ms|
  {
    if ms != [] {
      var next := ResolveOne(stack, ms[0]);
      ResolvedHasNoDots(ms[1..], next);
    }
  }

  lemma {:induction false} ResolvedStays(ms: seq<Meaning>, stack: seq<Meaning>)
    requires NoDots(ms)
    ensures Resolve(ms, stack) == stack + ms
    decreases |ms|
  {
    if ms != [] {
      assert !Dots(ms[0]);
      ResolvedStays(ms[1..], stack + [ms[0]]);
      assert stack + [ms[0]] + ms[1..] == stack + ms;
    } else {
      assert stack + ms == stack;
    }
  }

  // ---------------------------------------------------------------------------------------------
  // The URLs of one stream.
  // ---------------------------------------------------------------------------------------------

  /** What follows the scheme of an acceptable URL. */
  function RestOf(url: string): (r: Option<string>) {
    match SplitOnce(url)
    case None => None
    case Some((scheme, rest)) => if Web(scheme) && !Queried(rest) then Some(rest) else None
  }

  /** The decoded texts of the URL's segments, resolved. */
  function TextsOf(rest: string): (r: seq<Meaning>) {
    Resolve(Meanings(SegmentsOf(rest)), [])
  }

  lemma {:induction false} PathOfIn(rest: string)
    ensures !Queried(rest) ==> !Queried(PathOf(rest))
  {
    if rest != [] && rest[0] != '/' {
      PathOfIn(rest[1..]);
    }
  }

  lemma SegmentsAreBare(rest: string)
    requires !Queried(rest)
    ensures AllBare(SegmentsOf(rest))
  {
    PathOfIn(rest);
    EndsTrimmed(PathOf(rest));
    SplitIsBare(TrimEnd(PathOf(rest)));
  }

  /** The canonical path spells the resolved texts, and is refused exactly when they are all empty. */
  lemma CanonicalSpells(url: string)
    requires RestOf(url).Some?
    ensures var ms := TextsOf(RestOf(url).value);
            && AllGood(ms) && NoDots(ms)
            && Canonical(url) == if AllEmpty(SpellAll(ms)) then Err(NoPath) else Ok("/" + Join(SpellAll(ms)))
  {
    var rest := RestOf(url).value;
    SegmentsAreBare(rest);
    WalkIsResolve(SegmentsOf(rest), []);
    ResolvedHasNoDots(Meanings(SegmentsOf(rest)), []);
  }

  /** Two URLs name one stream exactly when their segments' texts, resolved, are the same. */
  lemma SameNameSameTexts(u: string, v: string)
    requires RestOf(u).Some? && RestOf(v).Some? && Canonical(u).Ok? && Canonical(v).Ok?
    ensures Canonical(u) == Canonical(v) <==> TextsOf(RestOf(u).value) == TextsOf(RestOf(v).value)
  {
    CanonicalSpells(u);
    CanonicalSpells(v);
    var a, b := TextsOf(RestOf(u).value), TextsOf(RestOf(v).value);
    SpellAllMeans(a);
    SpellAllMeans(b);
    if Canonical(u) == Canonical(v) {
      var p, q := "/" + Join(SpellAll(a)), "/" + Join(SpellAll(b));
      assert p[1..] == Join(SpellAll(a)) && q[1..] == Join(SpellAll(b));
      SplitJoin(SpellAll(a));
      SplitJoin(SpellAll(b));
    }
  }

  /** What every canonical path is: spelled segments, none of them dots, not all empty. */
  predicate IsCanonical(p: string, ms: seq<Meaning>) {
    AllGood(ms) && NoDots(ms) && !AllEmpty(SpellAll(ms)) && p == "/" + Join(SpellAll(ms))
  }

  lemma {:induction false} DropEmptyMeans(ms: seq<Meaning>)
    requires AllGood(ms)
    ensures AllGood(ms[..|DropEmpty(SpellAll(ms))|])
    ensures DropEmpty(SpellAll(ms)) == SpellAll(ms[..|DropEmpty(SpellAll(ms))|])
  {
    var k := |DropEmpty(SpellAll(ms))|;
    assert SpellAll(ms)[..k] == SpellAll(ms[..k]);
  }

  lemma {:induction false} PathOfAfter(authority: string, p: string)
    requires '/' !in authority && p != [] && p[0] == '/'
    ensures PathOf(authority + p) == p
  {
    if authority == [] {
      assert authority + p == p;
    } else {
      assert (authority + p)[1..] == authority[1..] + p;
      PathOfAfter(authority[1..], p);
    }
  }

  lemma {:induction false} SplitOnceAt(scheme: string, rest: string)
    requires ':' !in scheme
    ensures SplitOnce(scheme + "://" + rest) == Some((scheme, rest))
  {
    var all := scheme + "://" + rest;
    if scheme == [] {
      assert all[..3] == "://" && all[3..] == rest;
    } else {
      assert all[..3][0] == scheme[0] != ':';
      assert all[1..] == scheme[1..] + "://" + rest;
      SplitOnceAt(scheme[1..], rest);
      assert [scheme[0]] + scheme[1..] == scheme;
    }
  }

  lemma {:induction false} JoinIsUnqueried(segments: seq<string>)
    requires AllBare(segments)
    ensures !Queried(Join(segments))
    decreases |segments|
  {
    if |segments| > 1 {
      JoinIsUnqueried(segments[1..]);
      assert Bare(segments[0]);
    } else if |segments| == 1 {
      assert Bare(segments[0]);
    }
  }

  lemma SegmentsBack(ms: seq<Meaning>)
    requires AllGood(ms) && ms != []
    ensures Split("/" + Join(SpellAll(ms)))[1..] == SpellAll(ms) && Meanings(SpellAll(ms)) == ms
  {
    SpellAllMeans(ms);
    SplitAfter("", Join(SpellAll(ms)));
    assert "" + "/" + Join(SpellAll(ms)) == "/" + Join(SpellAll(ms));
    SplitJoin(SpellAll(ms));
  }

  lemma RestAgain(scheme: string, authority: string, p: string, ms: seq<Meaning>)
    requires IsCanonical(p, ms) && Web(scheme) && ':' !in scheme && !Queried(authority)
    ensures RestOf(scheme + "://" + authority + p) == Some(authority + p)
  {
    assert scheme + "://" + authority + p == scheme + "://" + (authority + p);
    SplitOnceAt(scheme, authority + p);
    SpellAllMeans(ms);
    JoinIsUnqueried(SpellAll(ms));
  }

  /** The texts left of a canonical path once the empty segments at its end are dropped. */
  lemma KeptSpells(ms: seq<Meaning>, kept: seq<Meaning>)
    requires AllGood(ms) && NoDots(ms) && !AllEmpty(SpellAll(ms)) && kept == ms[..|DropEmpty(SpellAll(ms))|]
    ensures AllGood(kept) && NoDots(kept) && !AllEmpty(SpellAll(kept))
    ensures TrimEnd("/" + Join(SpellAll(ms))) == "/" + Join(SpellAll(kept))
  {
    SpellAllMeans(ms);
    TrimJoin(SpellAll(ms));
    DropEmptyMeans(ms);
  }

  lemma TextsOfPath(rest: string, path: string, kept: seq<Meaning>)
    requires PathOf(rest) == path && AllGood(kept) && NoDots(kept) && kept != []
    requires TrimEnd(path) == "/" + Join(SpellAll(kept))
    ensures TextsOf(rest) == kept
  {
    SegmentsBack(kept);
    ResolvedStays(kept, []);
    assert [] + kept == kept;
  }

  /** The path of a stream under an origin reads back as itself, without the `/` it may end in. */
  lemma CanonicalAgain(scheme: string, authority: string, p: string, ms: seq<Meaning>)
    requires IsCanonical(p, ms) && Web(scheme) && ':' !in scheme
    requires '/' !in authority && !Queried(authority)
    ensures Canonical(scheme + "://" + authority + p) == Ok(TrimEnd(p))
  {
    RestAgain(scheme, authority, p, ms);
    PathOfAfter(authority, p);
    var kept := ms[..|DropEmpty(SpellAll(ms))|];
    KeptSpells(ms, kept);
    TextsOfPath(authority + p, p, kept);
    CanonicalSpells(scheme + "://" + authority + p);
  }

  lemma {:induction false} PlainIsItself(s: string)
    requires forall i :: 0 <= i < |s| ==> Plain(s[i])
    ensures Bytes(s) && Decode(s) == Some(s) && Encode(s) == s
  {
    if s != [] {
      assert Plain(s[0]);
      PlainIsItself(s[1..]);
      assert [s[0]] + s[1..] == s;
    }
  }

  /** A segment spelled plainly, not empty and no dots. */
  predicate PlainName(s: string) {
    s != [] && s != "." && s != ".." && forall i :: 0 <= i < |s| ==> Plain(s[i])
  }

  lemma {:induction false} ResolveThen(ms: seq<Meaning>, m: Meaning, stack: seq<Meaning>)
    ensures Resolve(ms + [m], stack) == Resolve([m], Resolve(ms, stack))
    decreases |ms|
  {
    if ms == [] {
      assert ms + [m] == [m];
    } else {
      var next := ResolveOne(stack, ms[0]);
      ResolveThen(ms[1..], m, next);
      assert (ms + [m])[1..] == ms[1..] + [m];
    }
  }

  /** What an empty segment and a popped one after it mean: the empty one ends the path. */
  lemma PoppedAfterEmpty(ms: seq<Meaning>, a: Meaning, b: Meaning)
    requires !Dots(a) && !Dots(b) && ms == [a, Text(""), b, Text("..")]
    ensures Resolve(ms, []) == [a, Text("")]
  {
    var empty, up := Text(""), Text("..");
    assert empty != up && empty != Text(".") && up != Text(".");
    ResolvedStays([a, empty, b], []);
    ResolveThen([a, empty, b], up, []);
    assert ms == [a, empty, b] + [up];
    assert [] + [a, empty, b] == [a, empty, b];
    assert [a, empty, b][..2] == [a, empty];
  }

  lemma SpelledPopped(ms: seq<Meaning>, a: string, b: string)
    requires PlainName(a) && PlainName(b) && ms == [Text(a), Text(""), Text(b), Text("..")]
    ensures AllGood(ms) && SpellAll(ms)[3] == ".." && SpellAll(ms)[..2] == [a, []] && SpellAll(ms)[2] == b
  {
    PlainIsItself(a);
    PlainIsItself("");
    PlainIsItself(b);
    PlainIsItself("..");
    assert forall i :: 0 <= i < 4 ==> Good(ms[i]);
  }

  lemma NotTrimmed(ms: seq<Meaning>)
    requires AllGood(ms) && |ms| == 4 && SpellAll(ms)[3] == ".."
    ensures TrimEnd("/" + Join(SpellAll(ms))) == "/" + Join(SpellAll(ms))
  {
    var path := "/" + Join(SpellAll(ms));
    JoinLast(SpellAll(ms));
    assert path[|path| - 1] == '.';
    EndsTrimmed(path);
  }

  lemma TextsPopped(authority: string, a: string, b: string, ms: seq<Meaning>)
    requires '/' !in authority && PlainName(a) && PlainName(b) && ms == [Text(a), Text(""), Text(b), Text("..")]
    ensures AllGood(ms) && TextsOf(authority + ("/" + Join(SpellAll(ms)))) == [Text(a), Text("")]
  {
    SpelledPopped(ms, a, b);
    NotTrimmed(ms);
    PathOfAfter(authority, "/" + Join(SpellAll(ms)));
    SegmentsBack(ms);
    PoppedAfterEmpty(ms, Text(a), Text(b));
  }

  /**
   A whole family of URLs whose path does not read back: `<scheme>://<authority>/a//b/..` names
   `/a/`, and the URL of `/a/` names `/a`.
   */
  lemma EndsInSlash(scheme: string, authority: string, a: string, b: string, ms: seq<Meaning>)
    requires Web(scheme) && ':' !in scheme && '/' !in authority && !Queried(authority) && PlainName(a) && PlainName(b)
    requires ms == [Text(a), Text(""), Text(b), Text("..")]
    ensures AllGood(ms) && SpellAll(ms) == [a, "", b, ".."]
    ensures Canonical(scheme + "://" + (authority + ("/" + Join(SpellAll(ms))))) == Ok("/" + (a + "/"))
    ensures Canonical(scheme + "://" + authority + ("/" + (a + "/"))) == Ok("/" + a)
  {
    TextsPopped(authority, a, b, ms);
    SpelledPopped(ms, a, b);
    assert SpellAll(ms) == SpellAll(ms)[..2] + [SpellAll(ms)[2]] + [SpellAll(ms)[3]];
    SpellAllMeans(ms);
    JoinIsUnqueried(SpellAll(ms));
    SplitOnceAt(scheme, authority + ("/" + Join(SpellAll(ms))));
    CanonicalSpells(scheme + "://" + (authority + ("/" + Join(SpellAll(ms)))));
    TwoSegments(a);
    CanonicalAgain(scheme, authority, "/" + (a + "/"), [Text(a), Text("")]);
  }

  lemma TwoSegments(a: string)
    requires PlainName(a)
    ensures IsCanonical("/" + (a + "/"), [Text(a), Text("")]) && TrimEnd("/" + (a + "/")) == "/" + a
  {
    TwoTexts(a, [Text(a), Text("")]);
    TrimmedOnce("/" + a);
    assert "/" + a + "/" == "/" + (a + "/");
    assert Plain(a[|a| - 1]);
  }

  lemma TwoTexts(a: string, ms: seq<Meaning>)
    requires PlainName(a) && ms == [Text(a), Text("")]
    ensures AllGood(ms) && NoDots(ms) && Join(SpellAll(ms)) == a + "/" && !AllEmpty(SpellAll(ms))
  {
    PlainIsItself(a);
    PlainIsItself("");
    assert Good(ms[0]) && Good(ms[1]);
    assert SpellAll(ms)[0] == a && SpellAll(ms)[1] == [];
    assert SpellAll(ms)[1..] == [[]];
    assert a + "/" + [] == a + "/";
  }

  lemma TrimmedOnce(path: string)
    requires path != [] && path[|path| - 1] != '/'
    ensures TrimEnd(path + "/") == path
  {
    assert (path + "/")[..|path|] == path;
  }
}
