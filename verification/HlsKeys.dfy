/** Key tags of HLS playlists and the default initialisation vector (RFC 8216, sections 4.3.2.4 and 5.2).

    The tag parser is a handful of unanchored pattern searches, each taking the leftmost match; they
    are modelled on the characters of the line. */
module HlsKeys {
  import opened Prelude

  // Texts.

  predicate White(c: char) {
    || c in "\t\n\r \U{000B}\U{000C}\U{00A0}\U{1680}\U{2028}\U{2029}\U{202F}\U{205F}\U{3000}\U{FEFF}"
    || '\U{2000}' <= c <= '\U{200A}'
  }

  predicate HexDigit(c: char) {
    '0' <= c <= '9' || 'a' <= c <= 'f' || 'A' <= c <= 'F'
  }

  predicate Decimal(c: char) {
    '0' <= c <= '9'
  }

  /** Upper case as far as the words looked for go: two letters outside ASCII fold into them. */
  function UpperChar(c: char): char {
    if 'a' <= c <= 'z' then c - 'a' + 'A'
    else if c == '\U{017F}' then 'S'
    else if c == '\U{0131}' then 'I'
    else c
  }

  function Upper(s: string): string {
    seq(|s|, i requires 0 <= i < |s| => UpperChar(s[i]))
  }

  /** The longest stretch from `i` on whose characters satisfy `ok`. */
  function Stretch(s: string, i: nat, ok: char -> bool): (r: string)
    requires i <= |s|
    ensures i + |r| <= |s| && r == s[i..i + |r|]
    ensures forall c | c in r :: ok(c)
    ensures i + |r| < |s| ==> !ok(s[i + |r|])
    decreases |s| - i
  {
    if i < |s| && ok(s[i]) then [s[i]] + Stretch(s, i + 1, ok) else ""
  }

  /** A pattern anchored at a position: what it captures there. */
  type Pattern = (string, nat) -> Option<string>

  /** The capture of the leftmost match from `i` on. */
  function Leftmost(s: string, p: Pattern, i: nat): (r: Option<string>)
    requires i <= |s|
    ensures r.Some? ==> exists j | i <= j < |s| :: p(s, j) == r && forall m | i <= m < j :: p(s, m).None?
    ensures r.None? ==> forall j | i <= j < |s| :: p(s, j).None?
    decreases |s| - i
  {
    if i == |s| then None
    else if p(s, i).Some? then p(s, i)
    else Leftmost(s, p, i + 1)
  }

  lemma {:induction false} LeftmostIs(s: string, p: Pattern, i: nat, j: nat)
    requires i <= j < |s| && p(s, j).Some? && forall m | i <= m < j :: p(s, m).None?
    ensures Leftmost(s, p, i) == p(s, j)
    decreases j - i
  {
    if i < j {
      LeftmostIs(s, p, i + 1, j);
    }
  }

  lemma {:induction false} LeftmostNone(s: string, p: Pattern, i: nat)
    requires i <= |s| && forall m | i <= m < |s| :: p(s, m).None?
    ensures Leftmost(s, p, i) == None
    decreases |s| - i
  {
    if i < |s| {
      LeftmostNone(s, p, i + 1);
    }
  }

  // The patterns.

  predicate Bare(c: char) {
    c != ',' && !White(c)
  }

  predicate BareUnquoted(c: char) {
    c != '"' && Bare(c)
  }

  predicate Unquoted(c: char) {
    c != '"'
  }

  function NonEmpty(s: string): Option<string> {
    if s == "" then None else Some(s)
  }

  /** METHOD=([^,\s]+) */
  function MethodAt(s: string, i: nat): Option<string> {
    if At(s, i, "METHOD=") then NonEmpty(Stretch(s, i + 7, Bare)) else None
  }

  /** KEYFORMAT="?([^",\s]+) */
  function KeyformatAt(s: string, i: nat): Option<string> {
    if !At(s, i, "KEYFORMAT=") then None
    else
      var k := if i + 10 < |s| && s[i + 10] == '"' then i + 11 else i + 10;
      NonEmpty(Stretch(s, k, BareUnquoted))
  }

  /** URI="([^"]+)" */
  function UriAt(s: string, i: nat): Option<string> {
    if !At(s, i, "URI=\"") then None
    else
      var body := Stretch(s, i + 5, Unquoted);
      if i + 5 + |body| < |s| then NonEmpty(body) else None
  }

  /** IV=0x([0-9a-fA-F]{32}) */
  function IvAt(s: string, i: nat): Option<string> {
    if At(s, i, "IV=0x") && i + 37 <= |s| && forall c | c in s[i + 5..i + 37] :: HexDigit(c)
    then Some(s[i + 5..i + 37]) else None
  }

  datatype Key = Key(uri: string, ivHex: Option<string>)

  datatype Error = DrmDetected | NoMediaFound | NetworkError

  /** The key a tag declares; no key for any method but AES-128. */
  function ParseKeyTag(line: string): Result<Option<Key>, Error> {
    var how := Leftmost(line, MethodAt, 0);
    if how.None? || Upper(how.value) != "AES-128" then Ok(None)
    else
      var keyformat := Leftmost(line, KeyformatAt, 0);
      if keyformat.Some? && Upper(keyformat.value) != "IDENTITY" then Err(DrmDetected)
      else
        var uri := Leftmost(line, UriAt, 0);
        if uri.None? then Err(DrmDetected)
        else Ok(Some(Key(uri.value, Leftmost(line, IvAt, 0))))
  }

  // A tag written out is read back.

  const BEFORE_METHOD := "#EXT-X-KEY:"
  const BEFORE_URI := ","

  function WithUri(uri: string): string {
    BEFORE_METHOD + "METHOD=" + "AES-128" + BEFORE_URI + "URI=\"" + uri + "\""
  }

  function Ending(iv: Option<string>): string {
    match iv
    case None => ""
    case Some(hex) => "," + "IV=0x" + hex
  }

  function Rendered(uri: string, iv: Option<string>): string {
    WithUri(uri) + Ending(iv)
  }

  /** What a key holds is well formed, whatever the line was. */
  lemma ParsedKeyWellFormed(line: string)
    ensures var r := ParseKeyTag(line);
      r.Ok? && r.value.Some? ==>
        && r.value.value.uri != "" && '"' !in r.value.value.uri
        && (r.value.value.ivHex.Some? ==>
              |r.value.value.ivHex.value| == 32 && forall c | c in r.value.value.ivHex.value :: HexDigit(c))
  {
    if Leftmost(line, UriAt, 0).Some? {
      var j :| 0 <= j < |line| && UriAt(line, j) == Leftmost(line, UriAt, 0);
    }
    if Leftmost(line, IvAt, 0).Some? {
      var j :| 0 <= j < |line| && IvAt(line, j) == Leftmost(line, IvAt, 0);
    }
  }

  lemma {:induction false} StretchIs(s: string, i: nat, ok: char -> bool, r: string)
    requires At(s, i, r) && (forall c | c in r :: ok(c)) && (i + |r| < |s| ==> !ok(s[i + |r|]))
    ensures Stretch(s, i, ok) == r
    decreases |r|
  {
    if r != "" {
      assert r[0] in r && s[i] == r[0];
      assert s[i + 1..i + |r|] == r[1..];
      StretchIs(s, i + 1, ok, r[1..]);
    }
  }

  lemma NotHere(s: string, m: nat, word: string)
    requires word != "" && m < |s| && s[m] != word[0]
    ensures !At(s, m, word)
  {
    assert m + |word| <= |s| ==> s[m..m + |word|][0] == s[m];
  }

  lemma ReadsMethod(pre: string, value: string, rest: string)
    requires 'M' !in pre && value != "" && (forall c | c in value :: Bare(c)) && (rest == "" || !Bare(rest[0]))
    ensures Leftmost(pre + "METHOD=" + value + rest, MethodAt, 0) == Some(value)
  {
    var s := pre + "METHOD=" + value + rest;
    var n := |pre|;
    assert s[n..n + 7] == "METHOD=" && s[n + 7..n + 7 + |value|] == value;
    StretchIs(s, n + 7, Bare, value);
    forall m | 0 <= m < n ensures MethodAt(s, m).None? {
      assert s[m] == pre[m] && pre[m] in pre;
      NotHere(s, m, "METHOD=");
    }
    LeftmostIs(s, MethodAt, 0, n);
  }

  lemma ReadsUri(pre: string, uri: string, rest: string)
    requires 'U' !in pre && uri != "" && '"' !in uri
    ensures Leftmost(pre + "URI=\"" + uri + "\"" + rest, UriAt, 0) == Some(uri)
  {
    var s := pre + "URI=\"" + uri + "\"" + rest;
    var n := |pre|;
    assert s[n..n + 5] == "URI=\"" && s[n + 5..n + 5 + |uri|] == uri;
    StretchIs(s, n + 5, Unquoted, uri);
    forall m | 0 <= m < n ensures UriAt(s, m).None? {
      assert s[m] == pre[m] && pre[m] in pre;
      NotHere(s, m, "URI=\"");
    }
    LeftmostIs(s, UriAt, 0, n);
  }

  // Up to the quote that closes the URI, a search sees the same with and without what follows it.

  ghost predicate Quoted(pre: string) {
    pre != "" && pre[|pre| - 1] == '"'
  }

  /** A word without quotes does not lie across the closing quote. */
  lemma SameWord(pre: string, rest: string, word: string, m: nat)
    requires Quoted(pre) && '"' !in word && word != "" && m < |pre|
    ensures At(pre + rest, m, word) <==> At(pre, m, word)
    ensures At(pre, m, word) ==> m + |word| < |pre|
  {
    var s := pre + rest;
    assert m + |word| <= |pre| ==> s[m..m + |word|] == pre[m..m + |word|];
    assert |pre| <= m + |word| <= |s| ==> s[m..m + |word|][|pre| - 1 - m] == '"' && word[|pre| - 1 - m] in word;
  }

  lemma {:induction false} SameStretch(pre: string, rest: string, k: nat, ok: char -> bool)
    requires Quoted(pre) && !ok('"') && k < |pre|
    ensures Stretch(pre + rest, k, ok) == Stretch(pre, k, ok)
    decreases |pre| - k
  {
    assert (pre + rest)[k] == pre[k];
    if ok(pre[k]) {
      SameStretch(pre, rest, k + 1, ok);
    }
  }

  lemma SameKeyformat(pre: string, rest: string, m: nat)
    requires Quoted(pre) && m < |pre| && (rest == "" || rest[0] == ',')
    ensures KeyformatAt(pre + rest, m) == KeyformatAt(pre, m)
  {
    SameWord(pre, rest, "KEYFORMAT=", m);
    if At(pre, m, "KEYFORMAT=") {
      assert (pre + rest)[m + 10] == pre[m + 10];
      var k := if pre[m + 10] == '"' then m + 11 else m + 10;
      if k < |pre| {
        SameStretch(pre, rest, k, BareUnquoted);
      } else {
        assert Stretch(pre + rest, |pre|, BareUnquoted) == "";
      }
    }
  }

  lemma SameIv(pre: string, rest: string, m: nat)
    requires Quoted(pre) && m < |pre|
    ensures IvAt(pre + rest, m) == IvAt(pre, m)
  {
    var s := pre + rest;
    SameWord(pre, rest, "IV=0x", m);
    if At(pre, m, "IV=0x") && m + 37 <= |s| {
      if m + 37 < |pre| + 1 {
        assert s[m + 5..m + 37] == pre[m + 5..m + 37];
      } else {
        var digits := s[m + 5..m + 37];
        assert digits[|pre| - 1 - (m + 5)] == s[|pre| - 1] == pre[|pre| - 1];
        assert '"' in digits && !HexDigit('"');
        assert IvAt(s, m).None?;
      }
    }
  }

  lemma LeftmostSkips(s: string, p: Pattern, i: nat, k: nat)
    requires i <= k <= |s| && forall m | i <= m < k :: p(s, m).None?
    ensures Leftmost(s, p, i) == Leftmost(s, p, k)
  {
    if Leftmost(s, p, k).Some? {
      var j :| k <= j < |s| && p(s, j) == Leftmost(s, p, k) && forall m | k <= m < j :: p(s, m).None?;
      LeftmostIs(s, p, i, j);
    } else {
      LeftmostNone(s, p, i);
    }
  }

  lemma LeftmostExtends(pre: string, rest: string, p: Pattern)
    requires forall m | 0 <= m < |pre| :: p(pre + rest, m) == p(pre, m)
    ensures Leftmost(pre + rest, p, 0) ==
            if Leftmost(pre, p, 0).Some? then Leftmost(pre, p, 0) else Leftmost(pre + rest, p, |pre|)
  {
    if Leftmost(pre, p, 0).Some? {
      var j :| 0 <= j < |pre| && p(pre, j) == Leftmost(pre, p, 0) && forall m | 0 <= m < j :: p(pre, m).None?;
      LeftmostIs(pre + rest, p, 0, j);
    } else {
      LeftmostSkips(pre + rest, p, 0, |pre|);
    }
  }

  lemma ReadsKeyformat(pre: string, rest: string)
    requires Quoted(pre) && (rest == "" || rest[0] == ',') && 'K' !in rest
    ensures Leftmost(pre + rest, KeyformatAt, 0) == Leftmost(pre, KeyformatAt, 0)
  {
    var s := pre + rest;
    forall m | 0 <= m < |pre| ensures KeyformatAt(s, m) == KeyformatAt(pre, m) {
      SameKeyformat(pre, rest, m);
    }
    forall m | |pre| <= m < |s| ensures KeyformatAt(s, m).None? {
      assert s[m] == rest[m - |pre|] && rest[m - |pre|] in rest;
      NotHere(s, m, "KEYFORMAT=");
    }
    LeftmostExtends(pre, rest, KeyformatAt);
    LeftmostNone(s, KeyformatAt, |pre|);
  }

  lemma IvStands(s: string, n: nat, hex: string)
    requires n + 38 <= |s| && s[n] == ',' && s[n + 1..n + 6] == "IV=0x" && s[n + 6..n + 38] == hex
    requires forall c | c in hex :: HexDigit(c)
    ensures Leftmost(s, IvAt, n) == Some(hex)
  {
    NotHere(s, n, "IV=0x");
    LeftmostIs(s, IvAt, n, n + 1);
  }

  lemma ReadsIvBehind(pre: string, word: string, hex: string)
    requires word == "IV=0x" && |hex| == 32 && forall c | c in hex :: HexDigit(c)
    ensures Leftmost(pre + ([','] + word + hex), IvAt, |pre|) == Some(hex)
  {
    EndingStands(pre, word, hex);
    IvStands(pre + ([','] + word + hex), |pre|, hex);
  }

  lemma EndingStands(pre: string, word: string, hex: string)
    requires |word| == 5 && |hex| == 32
    ensures var s := pre + ([','] + word + hex); var n := |pre|;
      |s| == n + 38 && s[n] == ',' && s[n + 1..n + 6] == word && s[n + 6..n + 38] == hex
  {
  }

  lemma ReadsIv(pre: string, rest: string)
    requires Quoted(pre)
    ensures Leftmost(pre + rest, IvAt, 0) ==
            if Leftmost(pre, IvAt, 0).Some? then Leftmost(pre, IvAt, 0) else Leftmost(pre + rest, IvAt, |pre|)
  {
    forall m | 0 <= m < |pre| ensures IvAt(pre + rest, m) == IvAt(pre, m) {
      SameIv(pre, rest, m);
    }
    LeftmostExtends(pre, rest, IvAt);
  }

  lemma Regroup(a: string, b: string, c: string, d: string, e: string, f: string)
    ensures a + b + c + d + e + f == a + (b + c + d + e + f)
  {
  }

  lemma RenderedMethod(uri: string, iv: Option<string>)
    ensures Leftmost(Rendered(uri, iv), MethodAt, 0) == Some("AES-128")
  {
    ReadsMethod(BEFORE_METHOD, "AES-128", BEFORE_URI + "URI=\"" + uri + "\"" + Ending(iv));
    Regroup(BEFORE_METHOD + "METHOD=" + "AES-128", BEFORE_URI, "URI=\"", uri, "\"", Ending(iv));
  }

  lemma RenderedUri(uri: string, iv: Option<string>)
    requires uri != "" && '"' !in uri
    ensures Leftmost(Rendered(uri, iv), UriAt, 0) == Some(uri)
  {
    ReadsUri(BEFORE_METHOD + "METHOD=" + "AES-128" + BEFORE_URI, uri, Ending(iv));
  }

  lemma WithUriQuoted(uri: string)
    ensures Quoted(WithUri(uri))
  {
  }

  lemma RenderedKeyformat(uri: string, iv: Option<string>)
    requires iv.Some? ==> forall c | c in iv.value :: HexDigit(c)
    ensures Leftmost(Rendered(uri, iv), KeyformatAt, 0) == Leftmost(WithUri(uri), KeyformatAt, 0)
  {
    WithUriQuoted(uri);
    ReadsKeyformat(WithUri(uri), Ending(iv));
  }

  lemma RenderedIv(uri: string, iv: Option<string>)
    requires iv.Some? ==> |iv.value| == 32 && forall c | c in iv.value :: HexDigit(c)
    ensures Leftmost(Rendered(uri, iv), IvAt, 0) ==
            if Leftmost(WithUri(uri), IvAt, 0).Some? then Leftmost(WithUri(uri), IvAt, 0) else iv
  {
    var pre := WithUri(uri);
    WithUriQuoted(uri);
    match iv
    case None => assert Rendered(uri, iv) == pre;
    case Some(hex) =>
      ReadsIv(pre, Ending(iv));
      ReadsIvBehind(pre, "IV=0x", hex);
  }

  lemma UpperMethod()
    ensures Upper("AES-128") == "AES-128"
  {
  }

  /** Nothing inside the URI is taken for a foreign key format or for another IV. */
  predicate Harmless(uri: string, iv: Option<string>) {
    var keyformat := Leftmost(WithUri(uri), KeyformatAt, 0);
    var posing := Leftmost(WithUri(uri), IvAt, 0);
    (keyformat.None? || Upper(keyformat.value) == "IDENTITY") && (posing.None? || posing == iv)
  }

  /** The searches are not anchored: a rendered tag parses back to its key exactly when its URI holds
      nothing that poses as one of the attributes looked for behind it. */
  lemma KeyTagReadBack(uri: string, iv: Option<string>)
    requires uri != "" && '"' !in uri
    requires iv.Some? ==> |iv.value| == 32 && forall c | c in iv.value :: HexDigit(c)
    ensures ParseKeyTag(Rendered(uri, iv)) == Ok(Some(Key(uri, iv))) <==> Harmless(uri, iv)
  {
    RenderedMethod(uri, iv);
    UpperMethod();
    RenderedKeyformat(uri, iv);
    RenderedUri(uri, iv);
    RenderedIv(uri, iv);
  }

  // The default initialisation vector.

  function DigitValue(c: char): nat
    requires HexDigit(c)
  {
    if '0' <= c <= '9' then (c - '0') as nat
    else if 'a' <= c <= 'f' then (c - 'a') as nat + 10
    else (c - 'A') as nat + 10
  }

  /** Number.prototype.toString(16). */
  function Hex(n: int): string {
    if n < 0 then "-" + HexNat(-n) else HexNat(n)
  }

  function HexNat(n: nat): (r: string)
    ensures |r| > 0
    ensures forall c | c in r :: HexDigit(c)
  {
    if n < 16 then [Digit(n)] else HexNat(n / 16) + [Digit(n % 16)]
  }

  function Zeros(n: nat): (r: string)
    ensures |r| == n
    ensures forall c | c in r :: c == '0'
  {
    if n == 0 then "" else Zeros(n - 1) + "0"
  }

  function PadStart(s: string, n: nat): string {
    if |s| >= n then s else Zeros(n - |s|) + s
  }

  /** Buffer.from(s, 'hex'): pairs of digits, up to the first pair that is none. */
  function Decoded(s: string): (r: seq<nat>)
    ensures forall b | b in r :: b < 256
  {
    if |s| < 2 || !HexDigit(s[0]) || !HexDigit(s[1]) then []
    else [16 * DigitValue(s[0]) + DigitValue(s[1])] + Decoded(s[2..])
  }

  function DefaultIv(sequence: int): seq<nat> {
    Decoded(PadStart(Hex(sequence), 32))
  }

  function BigEndian(bytes: seq<nat>): nat {
    if bytes == [] then 0 else BigEndian(bytes[..|bytes| - 1]) * 256 + bytes[|bytes| - 1]
  }

  function Pow(b: nat, n: nat): nat {
    if n == 0 then 1 else b * Pow(b, n - 1)
  }

  /** The number a string of hexadecimal digits stands for. */
  function Value(s: string): nat
    requires forall c | c in s :: HexDigit(c)
  {
    if s == "" then 0 else Value(s[..|s| - 1]) * 16 + DigitValue(s[|s| - 1])
  }

  function Digit(d: nat): (c: char)
    requires d < 16
    ensures HexDigit(c) && DigitValue(c) == d
  {
    if d < 10 then '0' + d as char else 'a' + (d - 10) as char
  }

  lemma ValueSnoc(s: string, c: char)
    requires HexDigit(c) && forall d | d in s :: HexDigit(d)
    ensures Value(s + [c]) == Value(s) * 16 + DigitValue(c)
  {
    assert (s + [c])[..|s|] == s;
  }

  lemma {:induction false} HexValue(n: nat)
    ensures Value(HexNat(n)) == n
  {
    if n >= 16 {
      HexValue(n / 16);
      ValueSnoc(HexNat(n / 16), Digit(n % 16));
    } else {
      ValueSnoc("", Digit(n));
      assert "" + [Digit(n)] == HexNat(n);
    }
  }

  lemma {:induction false} ZerosValue(k: nat, s: string)
    requires forall c | c in s :: HexDigit(c)
    ensures Value(Zeros(k) + s) == Value(s)
    decreases |s|, k
  {
    if s != "" {
      assert (Zeros(k) + s)[..k + |s| - 1] == Zeros(k) + s[..|s| - 1];
      ZerosValue(k, s[..|s| - 1]);
    } else if k > 0 {
      assert (Zeros(k) + s)[..k - 1] == Zeros(k - 1) + "";
      ZerosValue(k - 1, "");
    }
  }

  /** A number has at most `k` hexadecimal digits exactly when it is below 16^k. */
  lemma {:induction false} HexLength(n: nat, k: nat)
    requires k >= 1
    ensures |HexNat(n)| <= k <==> n < Pow(16, k)
    decreases k
  {
    if k == 1 {
      assert Pow(16, 1) == 16 * Pow(16, 0);
    } else if n >= 16 {
      HexLength(n / 16, k - 1);
    } else {
      PowPositive(k - 1);
    }
  }

  lemma {:induction false} PowPositive(k: nat)
    ensures Pow(16, k) >= 1
  {
    if k > 0 {
      PowPositive(k - 1);
    }
  }

  lemma {:induction false} DecodedSnoc(s: string, a: char, b: char)
    requires |s| % 2 == 0 && forall c | c in s + [a, b] :: HexDigit(c)
    ensures Decoded(s + [a, b]) == Decoded(s) + [16 * DigitValue(a) + DigitValue(b)]
  {
    if s == "" {
      assert s + [a, b] == [a, b] && [a, b][2..] == "";
    } else {
      assert (s + [a, b])[2..] == s[2..] + [a, b];
      DecodedSnoc(s[2..], a, b);
    }
  }

  /** Pairs of digits read as bytes keep the number. */
  lemma {:induction false} DecodedValue(s: string)
    requires |s| % 2 == 0 && forall c | c in s :: HexDigit(c)
    ensures |Decoded(s)| == |s| / 2 && BigEndian(Decoded(s)) == Value(s)
  {
    if s != "" {
      var n := |s|;
      var before := s[..n - 2];
      assert s == before + [s[n - 2], s[n - 1]];
      DecodedSnoc(before, s[n - 2], s[n - 1]);
      DecodedValue(before);
      assert s[..n - 1][..n - 2] == before;
      var bytes := Decoded(s);
      assert bytes[..|bytes| - 1] == Decoded(before);
    }
  }

  lemma {:induction false} BigEndianBound(bytes: seq<nat>)
    requires forall i | 0 <= i < |bytes| :: bytes[i] < 256
    ensures BigEndian(bytes) < Pow(16, 2 * |bytes|)
  {
    if bytes != [] {
      var n := |bytes| - 1;
      BigEndianBound(bytes[..n]);
      assert Pow(16, 2 * n + 2) == 16 * Pow(16, 2 * n + 1) == 256 * Pow(16, 2 * n);
    }
  }

  /** Decoding stops at a character that is no digit. */
  lemma {:induction false} DecodedStops(s: string, k: nat)
    requires k < |s| && !HexDigit(s[k])
    ensures |Decoded(s)| <= k / 2
  {
    if k >= 2 {
      DecodedStops(s[2..], k - 2);
    }
  }

  lemma FittingIv(n: nat)
    requires n < Pow(16, 32)
    ensures |DefaultIv(n)| == 16 && BigEndian(DefaultIv(n)) == n
  {
    HexLength(n, 32);
    HexValue(n);
    PaddedValue(HexNat(n), 32);
    DecodedValue(PadStart(HexNat(n), 32));
  }

  lemma PaddedValue(s: string, n: nat)
    requires |s| <= n && forall c | c in s :: HexDigit(c)
    ensures |PadStart(s, n)| == n && (forall c | c in PadStart(s, n) :: HexDigit(c))
    ensures Value(PadStart(s, n)) == Value(s)
  {
    ZerosValue(n - |s|, s);
    assert |s| == n ==> Zeros(0) + s == s;
  }

  lemma NegativeIv(n: int)
    requires n < 0
    ensures |DefaultIv(n)| < 16
  {
    var hex := Hex(n);
    var padded := PadStart(hex, 32);
    var k := if |hex| >= 32 then 0 else 32 - |hex|;
    assert padded[k] == '-';
    DecodedStops(padded, k);
  }

  lemma LargeIv(n: nat)
    requires n >= Pow(16, 32)
    ensures |DefaultIv(n)| == 16 ==> BigEndian(DefaultIv(n)) < n
  {
    var bytes := DefaultIv(n);
    assert forall i | 0 <= i < |bytes| :: bytes[i] in bytes;
    BigEndianBound(bytes);
  }

  /** The default vector is the segment's sequence number as 16 big-endian bytes, exactly for the
      numbers that fit: not below zero and below 2^128. */
  lemma DefaultIvIsSequence(n: int)
    ensures |DefaultIv(n)| == 16 && BigEndian(DefaultIv(n)) == n <==> 0 <= n < Pow(2, 128)
  {
    Powers(32);
    if n < 0 {
      NegativeIv(n);
    } else if n < Pow(16, 32) {
      FittingIv(n);
    } else {
      LargeIv(n);
    }
  }

  lemma {:induction false} Powers(k: nat)
    ensures Pow(16, k) == Pow(2, 4 * k)
  {
    if k > 0 {
      Powers(k - 1);
      assert Pow(2, 4 * k) == 2 * Pow(2, 4 * k - 1) == 4 * Pow(2, 4 * k - 2) == 8 * Pow(2, 4 * k - 3);
    }
  }
}
