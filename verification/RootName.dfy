/**
 The name of a stream's root directory, the test other processes find such directories by, and the
 drain's comparison of the two. Unicode lower-casing, the BLAKE3 digest and the parse of an IPv6
 literal are parameters.
 */
module RootName {
  import opened Common
  import opened CanonicalPath

  const LABEL_MAX: nat := 64
  const HASH_LEN: nat := 32

  predicate LabelChar(c: char) {
    Lower(c) || Digit(c) || c == '_' || c == '-'
  }

  predicate HashChar(c: char) {
    Digit(c) || 'a' <= c <= 'f'
  }

  predicate AllLabel(s: string) {
    forall i :: 0 <= i < |s| ==> LabelChar(s[i])
  }

  predicate AllHash(s: string) {
    forall i :: 0 <= i < |s| ==> HashChar(s[i])
  }

  function NonEmpty(segments: seq<string>): (r: seq<string>) {
    if segments == [] then []
    else (if segments[0] == [] then [] else [segments[0]]) + NonEmpty(segments[1..])
  }

  function LastTwo(segments: seq<string>): (r: seq<string>) {
    if |segments| <= 2 then segments else segments[|segments| - 2..]
  }

  function Readable(segments: seq<string>): (r: string) {
    if segments == [] then []
    else
      var text := match Decode(segments[0]) case Some(t) => t case None => segments[0];
      if |segments| == 1 then text else text + "-" + Readable(segments[1..])
  }

  /** Runs of other characters become one `_`. */
  function Collapse(s: string, inRun: bool): (r: string) {
    if s == [] then []
    else if LabelChar(s[0]) then [s[0]] + Collapse(s[1..], false)
    else (if inRun then [] else "_") + Collapse(s[1..], true)
  }

  function Label(joined: string): (r: string) {
    var l := Collapse(joined, false);
    var undashed := if l != [] && l[0] == '-' then "_" + l[1..] else l;
    var cut := if |undashed| > LABEL_MAX then undashed[..LABEL_MAX] else undashed;
    if cut == [] then "stream" else cut
  }

  /** `hash` is the digest of the path, in hex. */
  function NameOf(p: string, lower: string -> string, hash: string): (r: string) {
    var joined := lower(Readable(LastTwo(NonEmpty(Split(p)))));
    Label(joined) + "-" + if |hash| >= HASH_LEN then hash[..HASH_LEN] else ""
  }

  method MakeLabel(joined: string) returns (tag: string)
    ensures tag == Label(joined)
  {
    tag := [];
    var inRun := false;
    var i := 0;
    assert joined[0..] == joined;
    while i < |joined|
      invariant 0 <= i <= |joined|
      invariant tag + Collapse(joined[i..], inRun) == Collapse(joined, false)
    {
      var c := joined[i];
      assert joined[i..][1..] == joined[i + 1..];
      if LabelChar(c) {
        tag := tag + [c];
        inRun := false;
      } else if !inRun {
        tag := tag + "_";
        inRun := true;
      }
      i := i + 1;
    }
    assert tag == Collapse(joined, false);
    if tag != [] && tag[0] == '-' {
      tag := "_" + tag[1..];
    }
    if |tag| > LABEL_MAX {
      tag := tag[..LABEL_MAX];
    }
    if tag == [] {
      tag := "stream";
    }
  }

  /** The last `-` and what is around it. */
  function LastDash(s: string): (r: Option<(string, string)>) {
    if s == [] then None
    else
      var n := |s|;
      if s[n - 1] == '-' then Some((s[..n - 1], []))
      else
        match LastDash(s[..n - 1])
        case None => None
        case Some((front, back)) => Some((front, back + [s[n - 1]]))
  }

  predicate IsRootName(name: string) {
    match LastDash(name)
    case None => false
    case Some((tag, hash)) => 1 <= |tag| <= LABEL_MAX && AllLabel(tag) && |hash| == HASH_LEN && AllHash(hash)
  }

  lemma {:induction false} LastDashAt(front: string, back: string)
    requires '-' !in back
    ensures LastDash(front + "-" + back) == Some((front, back))
    decreases |back|
  {
    var s := front + "-" + back;
    if back == [] {
      assert s[..|s| - 1] == front;
    } else {
      var n := |back|;
      LastDashAt(front, back[..n - 1]);
      assert s[..|s| - 1] == front + "-" + back[..n - 1];
      assert back[..n - 1] + [back[n - 1]] == back;
    }
  }

  lemma {:induction false} CollapseIsLabel(s: string, inRun: bool)
    ensures AllLabel(Collapse(s, inRun))
  {
    if s != [] {
      CollapseIsLabel(s[1..], LabelChar(s[0]) == false);
    }
  }

  lemma LabelIsOne(joined: string)
    ensures 1 <= |Label(joined)| <= LABEL_MAX && AllLabel(Label(joined)) && Label(joined)[0] != '-'
  {
    CollapseIsLabel(joined, false);
  }

  /** Every name made is one other processes recognise, and it carries the digest. */
  lemma NameIsRootName(p: string, lower: string -> string, hash: string)
    requires |hash| >= HASH_LEN && AllHash(hash)
    ensures IsRootName(NameOf(p, lower, hash))
    ensures exists tag :: LastDash(NameOf(p, lower, hash)) == Some((tag, hash[..HASH_LEN]))
  {
    var joined := lower(Readable(LastTwo(NonEmpty(Split(p)))));
    LabelIsOne(joined);
    LastDashAt(Label(joined), hash[..HASH_LEN]);
  }

  /** Two streams share a root's name only if their digests agree. */
  lemma SameNameSameDigest(p: string, q: string, lower: string -> string, a: string, b: string)
    requires |a| >= HASH_LEN && AllHash(a) && |b| >= HASH_LEN && AllHash(b)
    requires NameOf(p, lower, a) == NameOf(q, lower, b)
    ensures a[..HASH_LEN] == b[..HASH_LEN]
  {
    NameIsRootName(p, lower, a);
    NameIsRootName(q, lower, b);
  }

  // ---------------------------------------------------------------------------------------------
  // What a name says.
  // ---------------------------------------------------------------------------------------------

  /** The characters of `s` a label keeps, but for `_`, which also stands for runs of others. */
  function Legible(s: string): (r: string) {
    if s == [] then []
    else (if LabelChar(s[0]) && s[0] != '_' then [s[0]] else []) + Legible(s[1..])
  }

  /** Collapsing keeps every character a label may have, in order. */
  lemma {:induction false} CollapseKeeps(s: string, inRun: bool)
    ensures Legible(Collapse(s, inRun)) == Legible(s)
  {
    if s != [] {
      var rest := Collapse(s[1..], !LabelChar(s[0]));
      CollapseKeeps(s[1..], !LabelChar(s[0]));
      if LabelChar(s[0]) {
        assert ([s[0]] + rest)[1..] == rest;
      } else if inRun {
        assert [] + rest == rest;
      } else {
        assert ("_" + rest)[1..] == rest;
      }
    }
  }

  lemma {:induction false} CollapsePlain(s: string)
    requires AllLabel(s)
    ensures Collapse(s, false) == s
  {
    if s != [] {
      assert LabelChar(s[0]);
      CollapsePlain(s[1..]);
    }
  }

  lemma {:induction false} NonEmptyConcat(a: seq<string>, b: seq<string>)
    ensures NonEmpty(a + b) == NonEmpty(a) + NonEmpty(b)
  {
    if a == [] {
      assert a + b == b;
    } else {
      NonEmptyConcat(a[1..], b);
      assert (a + b)[1..] == a[1..] + b;
      var first: seq<string> := if a[0] == [] then [] else [a[0]];
      assert NonEmpty(a + b) == first + (NonEmpty(a[1..]) + NonEmpty(b));
      assert NonEmpty(a) == first + NonEmpty(a[1..]);
    }
  }

  /** A segment that is its own label. */
  predicate Plainly(s: string) {
    s != [] && AllLabel(s)
  }

  lemma LabelIsPlain(s: string)
    requires AllLabel(s)
    ensures (forall i :: 0 <= i < |s| ==> Plain(s[i])) && Bare(s) && Bytes(s) && Decode(s) == Some(s)
  {
    forall i | 0 <= i < |s| ensures Plain(s[i]) && s[i] != '/' && s[i] != '?' && s[i] != '#' {
      assert LabelChar(s[i]);
    }
    PlainIsItself(s);
  }

  lemma SplitPath(segments: seq<string>)
    requires segments != [] && AllBare(segments)
    ensures Split("/" + Join(segments)) == [[]] + segments
  {
    SplitAfter([], Join(segments));
    assert [] + "/" + Join(segments) == "/" + Join(segments);
    SplitJoin(segments);
  }

  lemma NonEmptyTwo(a: string, b: string)
    requires a != [] && b != []
    ensures NonEmpty([a, b]) == [a, b]
  {
    assert [a, b][1..] == [b] && [b][1..] == [];
    assert NonEmpty([b]) == [b];
  }

  lemma LastTwoNonEmpty(front: seq<string>, a: string, b: string)
    requires a != [] && b != []
    ensures LastTwo(NonEmpty([[]] + (front + [a, b]))) == [a, b]
  {
    NonEmptyConcat([[]], front + [a, b]);
    NonEmptyConcat(front, [a, b]);
    NonEmptyTwo(a, b);
    assert NonEmpty([[]]) == [];
    var all := NonEmpty(front) + [a, b];
    assert [] + all == all;
    assert all[|all| - 2..] == [a, b];
  }

  lemma LastTwoOf(front: seq<string>, a: string, b: string)
    requires AllBare(front) && Plainly(a) && Plainly(b)
    ensures LastTwo(NonEmpty(Split("/" + Join(front + [a, b])))) == [a, b]
  {
    LabelIsPlain(a);
    LabelIsPlain(b);
    SplitPath(front + [a, b]);
    LastTwoNonEmpty(front, a, b);
  }

  lemma ReadableTwo(a: string, b: string)
    requires Plainly(a) && Plainly(b)
    ensures Readable([a, b]) == a + "-" + b && AllLabel(a + "-" + b)
  {
    LabelIsPlain(a);
    LabelIsPlain(b);
    assert [a, b][1..] == [b];
  }

  /** A stream whose last two segments are plain is named by them: `a-b-` and its digest. */
  lemma NameIsReadable(front: seq<string>, a: string, b: string, lower: string -> string, hash: string)
    requires AllBare(front) && Plainly(a) && Plainly(b) && a[0] != '-' && |a| + 1 + |b| <= LABEL_MAX
    requires |hash| >= HASH_LEN && lower(a + "-" + b) == a + "-" + b
    ensures NameOf("/" + Join(front + [a, b]), lower, hash) == a + "-" + b + "-" + hash[..HASH_LEN]
  {
    LastTwoOf(front, a, b);
    ReadableTwo(a, b);
    CollapsePlain(a + "-" + b);
  }

  // ---------------------------------------------------------------------------------------------
  // The drain's origin.
  // ---------------------------------------------------------------------------------------------

  datatype NotAnOrigin = NoScheme | Userinfo | HasPath | HasQuery | NoHost | BadHost | BadPort

  predicate HostChar(c: char) {
    Lower(c) || Upper(c) || Digit(c) || c == '-' || c == '.' || c == '_'
  }

  predicate AllHost(s: string) {
    forall i :: 0 <= i < |s| ==> HostChar(s[i])
  }

  function CutAt(s: string, c: char): (r: Option<(string, string)>) {
    if s == [] then None
    else if s[0] == c then Some(([], s[1..]))
    else
      match CutAt(s[1..], c)
      case None => None
      case Some((front, back)) => Some(([s[0]] + front, back))
  }

  function PortValue(digits: string): (r: nat)
    requires forall i :: 0 <= i < |digits| ==> Digit(digits[i])
  {
    if digits == [] then 0
    else
      var last := digits[|digits| - 1];
      assert Digit(last);
      PortValue(digits[..|digits| - 1]) * 10 + (last as int - '0' as int)
  }

  predicate GoodPort(port: string) {
    port != [] && (forall i :: 0 <= i < |port| ==> Digit(port[i])) && PortValue(port) <= 65535
  }

  /** The host and port of an authority; `v6` says which texts are IPv6 addresses. */
  function HostPort(authority: string, v6: string -> bool): (r: Result<(string, Option<string>), NotAnOrigin>) {
    if authority != [] && authority[0] == '[' then
      match CutAt(authority[1..], ']')
      case None => Err(BadHost)
      case Some((address, after)) =>
        if !v6(address) then Err(BadHost)
        else if after == [] then Ok((address, None))
        else if after[0] == ':' then Ok((address, Some(after[1..])))
        else Err(BadHost)
    else
      var (host, port) := match CutAt(authority, ':')
        case Some((h, p)) => (h, Some(p))
        case None => (authority, None);
      if host == [] then Err(NoHost)
      else if !AllHost(host) then Err(BadHost)
      else Ok((host, port))
  }

  function AuthorityOf(rest: string): (r: string) {
    if rest != [] && rest[|rest| - 1] == '/' then rest[..|rest| - 1] else rest
  }

  /** Why an authority is none of an origin's, if it is not. */
  function Misfit(authority: string, v6: string -> bool): (r: Option<NotAnOrigin>) {
    if '/' in authority then Some(HasPath)
    else if '@' in authority then Some(Userinfo)
    else
      match HostPort(authority, v6)
      case Err(why) => Some(why)
      case Ok((host, port)) =>
        if host == [] then Some(NoHost)
        else if port.Some? && !GoodPort(port.value) then Some(BadPort)
        else None
  }

  function Origin(text: string, v6: string -> bool): (r: Result<string, NotAnOrigin>) {
    match SplitOnce(text)
    case None => Err(NoScheme)
    case Some((scheme, rest)) =>
      if !Web(scheme) then Err(NoScheme)
      else if Queried(rest) then Err(HasQuery)
      else
        match Misfit(AuthorityOf(rest), v6)
        case Some(why) => Err(why)
        case None => Ok(AsciiLower(scheme) + "://" + AuthorityOf(rest))
  }

  lemma {:induction false} CutAtFirst(a: string, c: char, b: string)
    requires c !in a
    ensures CutAt(a + [c] + b, c) == Some((a, b))
  {
    var all := a + [c] + b;
    if a == [] {
      assert all[0] == c && all[1..] == b;
    } else {
      assert all[0] == a[0] != c;
      assert all[1..] == a[1..] + [c] + b;
      CutAtFirst(a[1..], c, b);
      assert [a[0]] + a[1..] == a;
    }
  }

  lemma {:induction false} CutAtSplits(s: string, c: char)
    ensures CutAt(s, c).None? <==> c !in s
    ensures CutAt(s, c).Some? ==>
              var (front, back) := CutAt(s, c).value;
              s == front + [c] + back && c !in front
    decreases |s|
  {
    if s != [] && s[0] != c {
      CutAtSplits(s[1..], c);
      assert s == [s[0]] + s[1..];
    }
  }

  /** What may follow a host: nothing, or a colon and a number up to 65535. */
  predicate PortPart(s: string) {
    s == [] || (s[0] == ':' && GoodPort(s[1..]))
  }

  /** A name or an IPv4 address, and its port part. */
  predicate NamedBy(authority: string, host: string, port: string) {
    authority == host + port && host != [] && AllHost(host) && PortPart(port)
  }

  /** An IPv6 address in brackets, and its port part. */
  predicate LiteralBy(authority: string, address: string, port: string, v6: string -> bool) {
    && authority == ['['] + address + [']'] + port && address != [] && v6(address)
    && ']' !in address && '/' !in address && '@' !in address && PortPart(port)
  }

  ghost predicate GoodAuthority(authority: string, v6: string -> bool) {
    || (exists host, port :: NamedBy(authority, host, port))
    || (exists address, port :: LiteralBy(authority, address, port, v6))
  }

  lemma NamedFits(authority: string, host: string, port: string, v6: string -> bool)
    requires NamedBy(authority, host, port)
    ensures Misfit(authority, v6) == None
  {
    assert authority[0] == host[0] && HostChar(host[0]);
    forall i | 0 <= i < |authority| ensures authority[i] != '/' && authority[i] != '@' {
      assert i < |host| ==> HostChar(host[i]);
      assert i > |host| ==> Digit(port[1..][i - |host| - 1]);
    }
    if port == [] {
      CutAtSplits(authority, ':');
      assert forall i :: 0 <= i < |host| ==> HostChar(host[i]);
      assert authority == host;
    } else {
      assert authority == host + [':'] + port[1..];
      CutAtFirst(host, ':', port[1..]);
    }
  }

  lemma LiteralFits(authority: string, address: string, port: string, v6: string -> bool)
    requires LiteralBy(authority, address, port, v6)
    ensures Misfit(authority, v6) == None
  {
    assert authority[1..] == address + [']'] + port;
    CutAtFirst(address, ']', port);
    forall c | c in authority ensures c != '/' && c != '@' {
      assert c == '[' || c in address || c == ']' || c in port;
      assert c in port ==> c == ':' || c in port[1..];
    }
  }

  lemma FitsLiteral(authority: string, v6: string -> bool) returns (address: string, port: string)
    requires Misfit(authority, v6) == None && authority != [] && authority[0] == '['
    ensures LiteralBy(authority, address, port, v6)
  {
    CutAtSplits(authority[1..], ']');
    var (front, back) := CutAt(authority[1..], ']').value;
    address, port := front, back;
    assert authority == ['['] + address + [']'] + port;
  }

  lemma FitsNamed(authority: string, v6: string -> bool) returns (host: string, port: string)
    requires Misfit(authority, v6) == None && (authority == [] || authority[0] != '[')
    ensures NamedBy(authority, host, port)
  {
    CutAtSplits(authority, ':');
    var cut := CutAt(authority, ':');
    host, port := if cut.Some? then cut.value.0 else authority, if cut.Some? then [':'] + cut.value.1 else [];
    assert port != [] ==> port[1..] == cut.value.1;
  }

  /**
   An authority is taken exactly when it is a name or an IPv4 address, or an IPv6 address in
   brackets, followed by nothing or by a colon and a number up to 65535.
   */
  lemma AuthorityExactly(authority: string, v6: string -> bool)
    ensures Misfit(authority, v6) == None <==> GoodAuthority(authority, v6)
  {
    if Misfit(authority, v6) == None {
      if authority != [] && authority[0] == '[' {
        var address, port := FitsLiteral(authority, v6);
      } else {
        var host, port := FitsNamed(authority, v6);
      }
    } else if exists host, port :: NamedBy(authority, host, port) {
      var host, port :| NamedBy(authority, host, port);
      NamedFits(authority, host, port, v6);
    } else if exists address, port :: LiteralBy(authority, address, port, v6) {
      var address, port :| LiteralBy(authority, address, port, v6);
      LiteralFits(authority, address, port, v6);
    }
  }

  lemma AuthorityIn(rest: string)
    ensures !Queried(rest) ==> !Queried(AuthorityOf(rest))
  {
  }

  /** What an accepted origin is. */
  lemma OriginShape(text: string, v6: string -> bool) returns (scheme: string, authority: string)
    requires Origin(text, v6).Ok?
    ensures Origin(text, v6).value == scheme + "://" + authority
    ensures (scheme == "http" || scheme == "https") && Web(scheme) && ':' !in scheme
    ensures '/' !in authority && '@' !in authority && !Queried(authority) && authority != []
    ensures Misfit(authority, v6) == None
  {
    var parts := SplitOnce(text).value;
    scheme, authority := AsciiLower(parts.0), AuthorityOf(parts.1);
    AuthorityIn(parts.1);
    LowerStays();
  }

  lemma LowerStays()
    ensures AsciiLower("http") == "http" && AsciiLower("https") == "https"
  {
  }

  /** An accepted origin is accepted again, as it is. */
  lemma OriginAgain(text: string, v6: string -> bool)
    requires Origin(text, v6).Ok?
    ensures Origin(Origin(text, v6).value, v6) == Origin(text, v6)
  {
    var scheme, authority := OriginShape(text, v6);
    SplitOnceAt(scheme, authority);
    assert authority[|authority| - 1] in authority;
    assert AuthorityOf(authority) == authority;
    LowerStays();
    assert AsciiLower(scheme) == scheme;
  }

  /**
   A canonical path read back through any accepted origin is itself, exactly when it does not end
   in `/`; otherwise the slashes it ends in are gone.
   */
  lemma OriginReadsBack(text: string, v6: string -> bool, url: string)
    requires Origin(text, v6).Ok? && Canonical(url).Ok?
    ensures var p := Canonical(url).value;
            && p != []
            && Canonical(Origin(text, v6).value + p) == Ok(TrimEnd(p))
            && (Canonical(Origin(text, v6).value + p) == Ok(p) <==> p[|p| - 1] != '/')
  {
    var p := Canonical(url).value;
    var scheme, authority := OriginShape(text, v6);
    CanonicalSpells(url);
    CanonicalAgain(scheme, authority, p, TextsOf(RestOf(url).value));
    EndsTrimmed(p);
  }

  /** The root name the drain expects of the stream `stream`, if its path reads back. */
  function Expected(origin: string, stream: string, lower: string -> string,
                    digest: string -> string): (r: Option<string>) {
    match Canonical(origin + stream)
    case Err(_) => None
    case Ok(p) => if p == stream then Some(NameOf(p, lower, digest(p))) else None
  }

  /** The drain takes the root of a stream for misnamed exactly when the stream's path ends in `/`. */
  lemma NeverMisnamed(text: string, v6: string -> bool, url: string, lower: string -> string, digest: string -> string)
    requires Origin(text, v6).Ok? && Canonical(url).Ok?
    ensures var p := Canonical(url).value;
            && p != []
            && (Expected(Origin(text, v6).value, p, lower, digest) == Some(NameOf(p, lower, digest(p)))
                <==> p[|p| - 1] != '/')
  {
    OriginReadsBack(text, v6, url);
  }
}
