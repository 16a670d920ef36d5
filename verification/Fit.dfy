/** shared/e2e/e2e.go: shortening a notification until its sealed envelope fits. Text is a
    sequence of code points; a byte that is not valid UTF-8 counts as one, as Go's range
    loop has it. */
module Fit {
  import opened Prelude

  const MAX_ENVELOPE: nat := 3072
  const MAX_PLAINTEXT: nat := 2266
  const MAX_TITLE: nat := 256
  const MAX_BODY: nat := 4096
  const NONCE_SIZE: nat := 12
  const TAG_SIZE: nat := 16
  const PAD_BLOCK: nat := 64

  datatype Rune = Valid(point: nat) | Broken

  type Text = seq<Rune>

  /** An empty subtitle or url is left out of the JSON. */
  datatype Message = Message(title: Text, subtitle: Text, body: Text, url: Text)

  /** Bytes of one rune inside a JSON string, as Go writes it with HTML left unescaped. */
  function Cost(r: Rune): (c: nat)
    ensures 1 <= c <= 6
  {
    match r
    case Broken => 6
    case Valid(p) =>
      if p == 0x22 || p == 0x5C || p in {0x08, 0x09, 0x0A, 0x0C, 0x0D} then 2
      else if p < 0x20 || p == 0x2028 || p == 0x2029 then 6
      else if p < 0x80 then 1
      else if p < 0x800 then 2
      else if p < 0x10000 then 3
      else 4
  }

  function Length(s: Text): nat {
    if s == [] then 0 else Length(s[..|s| - 1]) + Cost(s[|s| - 1])
  }

  const BARE_JSON := "{\"title\":\"\",\"body\":\"\"}"
  const SUBTITLE_JSON := ",\"subtitle\":\"\""
  const URL_JSON := ",\"url\":\"\""

  /** Bytes of everything in the JSON of m but its title's and body's text. */
  function Rest(m: Message): nat {
    |BARE_JSON|
    + (if m.subtitle == [] then 0 else |SUBTITLE_JSON| + Length(m.subtitle))
    + (if m.url == [] then 0 else |URL_JSON| + Length(m.url))
  }

  function Size(m: Message): nat { Rest(m) + Length(m.title) + Length(m.body) }

  // ---------- The JSON that is measured ----------

  /** A code point in UTF-8 (section 3 of RFC 3629). */
  function Utf8(p: nat): seq<nat> {
    if p < 0x80 then [p]
    else if p < 0x800 then [0xC0 + p / 0x40, 0x80 + p % 0x40]
    else if p < 0x10000 then [0xE0 + p / 0x1000, 0x80 + p / 0x40 % 0x40, 0x80 + p % 0x40]
    else [0xF0 + p / 0x40000, 0x80 + p / 0x1000 % 0x40, 0x80 + p / 0x40 % 0x40, 0x80 + p % 0x40]
  }

  function Bytes(s: string): (b: seq<nat>)
    ensures |b| == |s|
  {
    seq(|s|, i requires 0 <= i < |s| => s[i] as int)
  }

  function HexDigit(d: nat): nat
    requires d < 16
  {
    if d < 10 then '0' as int + d else 'a' as int + (d - 10)
  }

  /** One rune inside a JSON string; broken bytes go out as the replacement character. */
  function Escaped(r: Rune): seq<nat> {
    match r
    case Broken => Bytes("\\ufffd")
    case Valid(p) =>
      if p == 0x22 then Bytes("\\\"") else if p == 0x5C then Bytes("\\\\")
      else if p == 0x08 then Bytes("\\b") else if p == 0x09 then Bytes("\\t") else if p == 0x0A then Bytes("\\n")
      else if p == 0x0C then Bytes("\\f") else if p == 0x0D then Bytes("\\r")
      else if p < 0x20 then Bytes("\\u00") + [HexDigit(p / 16), HexDigit(p % 16)]
      else if p == 0x2028 then Bytes("\\u2028") else if p == 0x2029 then Bytes("\\u2029")
      else Utf8(p)
  }

  function EscapedAll(s: Text): seq<nat> {
    if s == [] then [] else EscapedAll(s[..|s| - 1]) + Escaped(s[|s| - 1])
  }

  function Json(m: Message): seq<nat> {
    Bytes("{\"title\":\"") + EscapedAll(m.title) + Bytes("\"")
    + (if m.subtitle == [] then [] else Bytes(",\"subtitle\":\"") + EscapedAll(m.subtitle) + Bytes("\""))
    + Bytes(",\"body\":\"") + EscapedAll(m.body) + Bytes("\"")
    + (if m.url == [] then [] else Bytes(",\"url\":\"") + EscapedAll(m.url) + Bytes("\""))
    + Bytes("}")
  }

  lemma CostIsTheLength(r: Rune)
    ensures Cost(r) == |Escaped(r)|
  {
    hide Bytes, HexDigit;
    assert |"\\ufffd"| == |"\\u2028"| == |"\\u2029"| == 6 && |"\\u00"| == 4;
    assert |"\\\""| == |"\\\\"| == |"\\b"| == |"\\t"| == |"\\n"| == |"\\f"| == |"\\r"| == 2;
  }

  lemma {:induction false} LengthOfAll(s: Text)
    ensures Length(s) == |EscapedAll(s)|
  {
    if s != [] {
      LengthOfAll(s[..|s| - 1]);
      CostIsTheLength(s[|s| - 1]);
    }
  }

  /** What is measured is the JSON that is sealed, byte for byte. */
  lemma SizeIsTheJson(m: Message)
    ensures Size(m) == |Json(m)|
  {
    LengthOfAll(m.title);
    LengthOfAll(m.subtitle);
    LengthOfAll(m.body);
    LengthOfAll(m.url);
    hide Length, EscapedAll, Bytes;
    assert |BARE_JSON| == |"{\"title\":\""| + |"\""| + |",\"body\":\""| + |"\""| + |"}"|;
    assert |SUBTITLE_JSON| == |",\"subtitle\":\""| + |"\""| && |URL_JSON| == |",\"url\":\""| + |"\""|;
  }

  predicate Fits(m: Message) { Size(m) <= MAX_PLAINTEXT }

  function Clamp(s: Text, n: nat): Text { if |s| <= n then s else s[..n] }

  function Clamped(m: Message): Message {
    Message(Clamp(m.title, MAX_TITLE), Clamp(m.subtitle, MAX_TITLE), Clamp(m.body, MAX_BODY), m.url)
  }

  lemma {:induction false} LengthOfPrefix(s: Text, n: nat)
    requires n <= |s|
    ensures Length(s[..n]) <= Length(s)
    ensures n < |s| ==> Length(s[..n]) < Length(s)
  {
    if n < |s| {
      LengthOfPrefix(s[..|s| - 1], n);
      assert s[..|s| - 1][..n] == s[..n];
    } else {
      assert s[..n] == s;
    }
  }

  // ---------- The longest prefix that fits ----------

  /** Cutting a text that fits leaves it fitting. */
  ghost predicate PrefixClosed(fits: Text -> bool) {
    forall a, b :: a <= b && fits(b) ==> fits(a)
  }

  /** r fits or is a single rune, and the prefix one rune longer does not fit; only an empty s gives an empty r. */
  ghost predicate Longest(s: Text, fits: Text -> bool, r: Text) {
    && r <= s && (r == [] <==> s == [])
    && (|r| > 1 ==> fits(r))
    && (|r| < |s| ==> !fits(s[..|r| + 1]))
  }

  lemma NotLonger(s: Text, fits: Text -> bool, r: Text, n: nat)
    requires PrefixClosed(fits) && Longest(s, fits, r) && |r| < n <= |s|
    ensures !fits(s[..n])
  {
    assert s[..|r| + 1] <= s[..n];
  }

  lemma OneLongest(s: Text, fits: Text -> bool, r: Text, r': Text)
    requires PrefixClosed(fits) && Longest(s, fits, r) && Longest(s, fits, r')
    ensures r == r'
  {
    assert r == s[..|r|] && r' == s[..|r'|];
    forall n | |r| < n <= |s|
      ensures !fits(s[..n])
    {
      NotLonger(s, fits, r, n);
    }
    forall n | |r'| < n <= |s|
      ensures !fits(s[..n])
    {
      NotLonger(s, fits, r', n);
    }
  }

  /** All of s when all of it fits; and a prefix that fits whenever one rune does. */
  lemma LongestFacts(s: Text, fits: Text -> bool, r: Text)
    requires PrefixClosed(fits) && Longest(s, fits, r)
    ensures fits(s) ==> r == s
    ensures fits(r) <==> fits(Clamp(s, 1))
    ensures |r| <= 1 ==> r == Clamp(s, 1)
  {
    assert r == s[..|r|] && s == s[..|s|];
    assert |s| > 0 ==> Clamp(s, 1) <= r;
    forall n | |r| < n <= |s|
      ensures !fits(s[..n])
    {
      NotLonger(s, fits, r, n);
    }
  }

  /** The binary search over cut points. */
  method KeepPrefix(s: Text, fits: Text -> bool) returns (r: Text)
    requires PrefixClosed(fits)
    ensures Longest(s, fits, r)
  {
    if s == [] {
      return s;
    }
    var ends := |s|;
    var i, j := 0, ends;
    while i < j
      invariant 0 <= i <= j <= ends
      invariant i > 0 ==> fits(s[..i])
      invariant j < ends ==> !fits(s[..j + 1])
    {
      var h := (i + j) / 2;
      if fits(s[..h + 1]) {
        i := h + 1;
      } else {
        j := h;
      }
    }
    return s[..Max(i, 1)];
  }

  method CutTo(s: Text, n: nat) returns (r: Text)
    ensures r == Clamp(s, n)
  {
    var i := 0;
    while i < |s|
      invariant i <= |s| && i <= n
    {
      if i == n {
        return s[..i];
      }
      i := i + 1;
    }
    return s;
  }

  // ---------- Fit ----------

  function BodyFits(m: Message): Text -> bool { (s: Text) => Fits(m.(body := s)) }

  function TitleFits(m: Message): Text -> bool { (s: Text) => Fits(m.(title := s)) }

  lemma FitsArePrefixClosed(m: Message)
    ensures PrefixClosed(BodyFits(m)) && PrefixClosed(TitleFits(m))
  {
    forall a: Text, b: Text | a <= b
      ensures Length(a) <= Length(b)
    {
      LengthOfPrefix(b, |a|);
      assert b[..|a|] == a;
    }
  }

  /** What Fit comes to: clamped, and when that overflows the longest body with the whole
      title, then the longest title with that body. */
  ghost predicate Fitted(m: Message, r: Message) {
    var c := Clamped(m);
    if Fits(c) then r == c
    else
      && r.subtitle == c.subtitle && r.url == c.url
      && Longest(c.body, BodyFits(c), r.body)
      && Longest(c.title, TitleFits(c.(body := r.body)), r.title)
  }

  method Fit(m: Message) returns (r: Message)
    ensures Fitted(m, r)
  {
    r := m;
    var title := CutTo(r.title, MAX_TITLE);
    r := r.(title := title);
    var subtitle := CutTo(r.subtitle, MAX_TITLE);
    r := r.(subtitle := subtitle);
    var body := CutTo(r.body, MAX_BODY);
    r := r.(body := body);
    if Size(r) <= MAX_PLAINTEXT {
      return r;
    }
    hide Clamp, Size, PrefixClosed, Longest;
    FitsArePrefixClosed(r);
    body := KeepPrefix(r.body, BodyFits(r));
    r := r.(body := body);
    FitsArePrefixClosed(r);
    title := KeepPrefix(r.title, TitleFits(r));
    r := r.(title := title);
  }

  /** Fit has one answer. */
  lemma OneFit(m: Message, r: Message, r': Message)
    requires Fitted(m, r) && Fitted(m, r')
    ensures r == r'
  {
    var c := Clamped(m);
    FitsArePrefixClosed(c);
    FitsArePrefixClosed(c.(body := r.body));
    hide Longest, PrefixClosed, Clamp;
    if !Fits(c) {
      OneLongest(c.body, BodyFits(c), r.body, r'.body);
      OneLongest(c.title, TitleFits(c.(body := r.body)), r.title, r'.title);
    }
  }

  /** Nothing but ends is cut: title and body are prefixes of what was sent, within the
      limits, and never emptied. */
  lemma OnlyEndsAreCut(m: Message, r: Message)
    requires Fitted(m, r)
    ensures r.title <= m.title && r.body <= m.body && r.subtitle <= m.subtitle && r.url == m.url
    ensures |r.title| <= MAX_TITLE && |r.subtitle| <= MAX_TITLE && |r.body| <= MAX_BODY
    ensures (r.title == [] <==> m.title == []) && (r.body == [] <==> m.body == [])
    ensures r.subtitle == Clamp(m.subtitle, MAX_TITLE)
  {
  }

  /** A message is left as it is exactly when its text is within the limits of the apps and its
      JSON within that of the envelope; and one whose text alone is too long is cut to those
      limits and no further while that is enough. */
  lemma WhenNothingIsCut(m: Message, r: Message)
    requires Fitted(m, r)
    ensures r == m <==> |m.title| <= 256 && |m.subtitle| <= 256 && |m.body| <= 4096 && (Fits(m) || (|m.title| <= 1 && |m.body| <= 1))
    ensures var c := Message(m.title[..Min(|m.title|, 256)], m.subtitle[..Min(|m.subtitle|, 256)], m.body[..Min(|m.body|, 4096)], m.url);
      Fits(c) ==> r == c
  {
    var c := Message(m.title[..Min(|m.title|, 256)], m.subtitle[..Min(|m.subtitle|, 256)], m.body[..Min(|m.body|, 4096)], m.url);
    assert c == Clamped(m);
    if !Fits(c) {
      FitsArePrefixClosed(c);
      FitsArePrefixClosed(c.(body := r.body));
      LongestFacts(c.body, BodyFits(c), r.body);
      LongestFacts(c.title, TitleFits(c.(body := r.body)), r.title);
      hide Fits, PrefixClosed, Longest;
      OverflowsOnlyAtTheLeast(m, r);
    }
  }

  /** A message with its text shortened as far as Fit may go. */
  function Least(m: Message): Message {
    m.(title := Clamp(m.title, 1), body := Clamp(m.body, 1))
  }

  /** The body goes first, and the title only once the body is down to one rune. */
  lemma BodyGoesFirst(m: Message, r: Message)
    requires Fitted(m, r)
    ensures r.title != Clamped(m).title ==> |r.body| <= 1
    ensures |r.body| > 1 ==> Fits(r)
  {
    var c := Clamped(m);
    if !Fits(c) {
      hide Longest, PrefixClosed, Size, Clamp;
      var whole := c.(body := r.body);
      assert whole.(title := c.title) == whole && whole.(title := r.title) == r;
      FitsArePrefixClosed(whole);
      LongestShape(c.body, BodyFits(c), r.body);
      LongestFacts(c.title, TitleFits(whole), r.title);
    }
  }

  lemma LongestShape(s: Text, fits: Text -> bool, r: Text)
    requires Longest(s, fits, r)
    ensures |r| > 1 ==> fits(r)
  {
  }

  /** No shorter than it has to be: one more rune of the title, or of the body while the
      title is whole, would overflow. */
  lemma NoRoomToSpare(m: Message, r: Message)
    requires Fitted(m, r)
    ensures |r.title| < |Clamped(m).title| ==> !Fits(r.(title := Clamped(m).title[..|r.title| + 1]))
    ensures r.title == Clamped(m).title && |r.body| < |Clamped(m).body| ==> !Fits(r.(body := Clamped(m).body[..|r.body| + 1]))
  {
    hide Size;
  }

  /** It fails exactly when even one rune of each is too much. */
  lemma OverflowsOnlyAtTheLeast(m: Message, r: Message)
    requires Fitted(m, r)
    ensures !Fits(r) <==> !Fits(Least(Clamped(m)))
  {
    var c := Clamped(m);
    if Fits(c) {
      ShorterFits(c, Least(c));
    } else {
      hide Longest, PrefixClosed, Size, Clamp;
      var whole := c.(body := r.body);
      FitsArePrefixClosed(c);
      FitsArePrefixClosed(whole);
      LongestFacts(c.body, BodyFits(c), r.body);
      LongestFacts(c.title, TitleFits(whole), r.title);
      assert r == whole.(title := r.title);
      if |r.body| > 1 {
        BodyGoesFirst(m, r);
        LeastIsLess(c, r.body, r.title);
        ShorterFits(whole.(title := Clamp(c.title, 1)), Least(c));
      } else {
        assert Least(c) == whole.(title := Clamp(c.title, 1));
      }
    }
  }

  lemma LeastIsLess(c: Message, body: Text, title: Text)
    requires body <= c.body && |body| > 1
    ensures var l := Least(c); l.body <= body
  {
  }

  lemma ShorterFits(m: Message, r: Message)
    requires Fits(m) && r.title <= m.title && r.body <= m.body && r.subtitle == m.subtitle && r.url == m.url
    ensures Fits(r)
  {
    LengthOfPrefix(m.title, |r.title|);
    LengthOfPrefix(m.body, |r.body|);
    assert r.title == m.title[..|r.title|] && r.body == m.body[..|r.body|];
  }

  /** Fitting twice changes nothing. */
  lemma FitTwice(m: Message, r: Message, again: Message)
    requires Fitted(m, r) && Fitted(r, again)
    ensures again == r
  {
    OnlyEndsAreCut(m, r);
    assert Clamped(r) == r;
    if !Fits(r) {
      BodyGoesFirst(m, r);
      TitleIsLeast(m, r);
      assert r.(body := r.body) == r && r.(title := r.title) == r;
      assert Fitted(r, r);
      OneFit(r, r, again);
    }
  }

  lemma TitleIsLeast(m: Message, r: Message)
    requires Fitted(m, r) && !Fits(r)
    ensures |r.title| <= 1
  {
    var whole := Clamped(m).(body := r.body);
    assert whole.(title := r.title) == r;
  }

  /** Any fitting way of cutting the ends that leaves both in place. */
  ghost predicate Candidate(m: Message, x: Message) {
    var c := Clamped(m);
    && Fits(x) && x.subtitle == c.subtitle && x.url == c.url
    && x.title <= c.title && x.body <= c.body && (x.body == [] <==> c.body == [])
  }

  /** Optimality: no cut that fits keeps more of the title, and none keeps the whole title
      and more of the body. */
  lemma FitIsOptimal(m: Message, r: Message, x: Message)
    requires Fitted(m, r) && Candidate(m, x)
    ensures |x.title| <= |r.title|
    ensures x.title == Clamped(m).title ==> |x.body| <= |r.body|
  {
    var c := Clamped(m);
    if !Fits(c) {
      BodyGoesFirst(m, r);
      if x.title == c.title {
        BodyIsLongest(c, r.body, x);
      }
      if |r.body| <= 1 {
        TitleIsLongest(c, r, x);
      }
    }
  }

  lemma BodyIsLongest(c: Message, body: Text, x: Message)
    requires Longest(c.body, BodyFits(c), body)
    requires Fits(x) && x == c.(body := x.body) && x.body <= c.body
    ensures |x.body| <= |body|
  {
    FitsArePrefixClosed(c);
    hide PrefixClosed, Size;
    assert x.body == c.body[..|x.body|];
    if |body| < |x.body| {
      assert BodyFits(c)(x.body);
      NotLonger(c.body, BodyFits(c), body, |x.body|);
    }
  }

  lemma TitleIsLongest(c: Message, r: Message, x: Message)
    requires Longest(c.body, BodyFits(c), r.body) && Longest(c.title, TitleFits(c.(body := r.body)), r.title) && |r.body| <= 1
    requires Fits(x) && x.title <= c.title && x.body <= c.body && (x.body == [] <==> c.body == [])
    requires x.subtitle == c.subtitle && x.url == c.url
    ensures |x.title| <= |r.title|
  {
    var whole := c.(body := r.body);
    FitsArePrefixClosed(whole);
    assert r.body <= x.body;
    ShorterFits(x, x.(body := r.body));
    assert x.(body := r.body) == whole.(title := x.title);
    hide PrefixClosed, Size;
    assert x.title == c.title[..|x.title|];
    if |r.title| < |x.title| {
      assert TitleFits(whole)(x.title);
      NotLonger(c.title, TitleFits(whole), r.title, |x.title|);
    }
  }

  // ---------- Sealing ----------

  datatype SealError = NoTitle | NoBody | TitleTooLong | SubtitleTooLong | BodyTooLong | BadUrl | TooLong

  /** What Seal refuses, in the order it looks. */
  function SealCheck(m: Message, urlOk: Text -> bool): Option<SealError> {
    if m.title == [] then Some(NoTitle)
    else if m.body == [] then Some(NoBody)
    else if |m.title| > MAX_TITLE then Some(TitleTooLong)
    else if |m.subtitle| > MAX_TITLE then Some(SubtitleTooLong)
    else if |m.body| > MAX_BODY then Some(BodyTooLong)
    else if !urlOk(m.url) then Some(BadUrl)
    else if !Fits(m) then Some(TooLong)
    else None
  }

  /** SealFit refuses a text for its length only when one rune of title and body each is
      already too much beside the subtitle and url; no limit of the apps is ever hit. */
  lemma WhatSealFitRefuses(m: Message, r: Message, urlOk: Text -> bool)
    requires Fitted(m, r)
    ensures SealCheck(r, urlOk) ==
      if m.title == [] then Some(NoTitle)
      else if m.body == [] then Some(NoBody)
      else if !urlOk(m.url) then Some(BadUrl)
      else if !Fits(Least(Clamped(m))) then Some(TooLong)
      else None
  {
    OnlyEndsAreCut(m, r);
    OverflowsOnlyAtTheLeast(m, r);
    hide Fitted, Fits, Clamp;
  }

  /** base64.RawURLEncoding.EncodedLen. */
  function EncodedLen(n: nat): nat { n / 3 * 4 + (n % 3 * 8 + 5) / 6 }

  function EnvelopeLen(n: nat): nat { |"pw1."| + 8 + 1 + EncodedLen(NONCE_SIZE + n + TAG_SIZE) }

  /** The plaintext limit is the envelope limit, exactly. */
  lemma PlaintextLimit(n: nat)
    ensures EnvelopeLen(n) <= MAX_ENVELOPE <==> n <= MAX_PLAINTEXT
  {
    var k := NONCE_SIZE + n + TAG_SIZE;
    assert k == k / 3 * 3 + k % 3;
  }

  function Spaces(n: nat): seq<nat> { seq(n, i => 0x20) }

  /** Pads to a multiple of the block, unless that alone would burst the envelope. */
  function Pad(p: seq<nat>): (r: seq<nat>)
    ensures p <= r && forall i :: |p| <= i < |r| ==> r[i] == 0x20
    ensures |r| < |p| + PAD_BLOCK
  {
    var n := (|p| + PAD_BLOCK - 1) / PAD_BLOCK * PAD_BLOCK;
    if EnvelopeLen(n) > MAX_ENVELOPE then p else p + Spaces(n - |p|)
  }

  /** Padding never costs a message its envelope, and hides the length wherever a whole
      block fits. */
  lemma PaddingIsFree(p: seq<nat>)
    ensures EnvelopeLen(|Pad(p)|) <= MAX_ENVELOPE <==> |p| <= MAX_PLAINTEXT
    ensures |p| <= MAX_PLAINTEXT / PAD_BLOCK * PAD_BLOCK ==> |Pad(p)| % PAD_BLOCK == 0
  {
    var n := (|p| + PAD_BLOCK - 1) / PAD_BLOCK * PAD_BLOCK;
    PlaintextLimit(n);
    PlaintextLimit(|p|);
    hide EnvelopeLen;
  }
}
