/** Key tags that give no key, and key tags that end the download (RFC 8216, section 4.3.2.4). */
module KeyTags {
  import opened Prelude
  import opened HlsKeys

  const TAG := "#EXT-X-KEY:"

  lemma WordEnds(s: string, m: nat, word: string, k: nat)
    requires k < |word| && m + k < |s| && s[m + k] != word[k]
    ensures !At(s, m, word)
  {
    assert m + |word| <= |s| ==> s[m..m + |word|][k] == s[m + k];
  }

  /** Any method but AES-128 gives no key, whatever else the line says. */
  lemma OtherMethodGivesNone(method': string, rest: string)
    requires method' != "" && (forall c | c in method' :: Bare(c)) && (rest == "" || !Bare(rest[0]))
    requires Upper(method') != "AES-128"
    ensures ParseKeyTag(TAG + "METHOD=" + method' + rest) == Ok(None)
  {
    ReadsMethod(TAG, method', rest);
  }

  lemma NoMethodGivesNone(line: string)
    requires 'M' !in line
    ensures ParseKeyTag(line) == Ok(None)
  {
    forall m | 0 <= m < |line| ensures MethodAt(line, m).None? {
      NotHere(line, m, "METHOD=");
    }
    LeftmostNone(line, MethodAt, 0);
  }

  /** Upper and lower case do not matter, in the method as in the key format. */
  lemma CaseDoesNotMatter()
    ensures Upper("aes-128") == "AES-128" && Upper("identity") == "IDENTITY" && Upper("Identity") == "IDENTITY"
  {
  }

  const HEAD := TAG + "METHOD=" + "AES-128"

  lemma HeadHasMethod(rest: string)
    requires rest == "" || !Bare(rest[0])
    ensures Leftmost(HEAD + rest, MethodAt, 0) == Some("AES-128")
  {
    ReadsMethod(TAG, "AES-128", rest);
  }

  /** In front of what follows the method, no key format begins. */
  lemma NoFormatInHead(rest: string, m: nat)
    requires m < |HEAD|
    ensures KeyformatAt(HEAD + rest, m) == None
  {
    var s := HEAD + rest;
    assert s[m] == HEAD[m];
    if m == 7 {
      assert s[10] == HEAD[10] == ':';
      WordEnds(s, 7, "KEYFORMAT=", 3);
    } else {
      NotHere(s, m, "KEYFORMAT=");
    }
  }

  lemma NoUriInHead(rest: string, m: nat)
    requires m < |HEAD|
    ensures UriAt(HEAD + rest, m) == None
  {
    assert (HEAD + rest)[m] == HEAD[m];
    NotHere(HEAD + rest, m, "URI=\"");
  }

  lemma NothingBehind(rest: string, m: nat)
    requires 'U' !in rest && 'K' !in rest && m < |HEAD + rest|
    ensures KeyformatAt(HEAD + rest, m).None? && UriAt(HEAD + rest, m).None?
  {
    if m < |HEAD| {
      NoFormatInHead(rest, m);
      NoUriInHead(rest, m);
    } else {
      assert (HEAD + rest)[m] == rest[m - |HEAD|] && rest[m - |HEAD|] in rest;
      NotHere(HEAD + rest, m, "KEYFORMAT=");
      NotHere(HEAD + rest, m, "URI=\"");
    }
  }

  lemma NoUriNoKey(line: string)
    requires Leftmost(line, MethodAt, 0) == Some("AES-128")
    requires Leftmost(line, KeyformatAt, 0) == None && Leftmost(line, UriAt, 0) == None
    ensures ParseKeyTag(line) == Err(DrmDetected)
  {
    UpperMethod();
  }

  /** An AES-128 tag without an address ends the download as protected. */
  lemma NoUriIsProtected(rest: string)
    requires (rest == "" || rest[0] == ',') && 'U' !in rest && 'K' !in rest
    ensures ParseKeyTag(HEAD + rest) == Err(DrmDetected)
  {
    var line := HEAD + rest;
    HeadHasMethod(rest);
    forall m | 0 <= m < |line| ensures KeyformatAt(line, m).None? && UriAt(line, m).None? {
      NothingBehind(rest, m);
    }
    LeftmostNone(line, KeyformatAt, 0);
    LeftmostNone(line, UriAt, 0);
    NoUriNoKey(line);
  }

  /** A tag that names a key format. */
  function Formatted(format: string, rest: string): string {
    HEAD + FormatTail(format, rest)
  }

  function FormatTail(format: string, rest: string): string {
    "," + ("KEYFORMAT=" + ("\"" + (format + rest)))
  }

  lemma FormatStands(s: string, n: nat, format: string)
    requires n + 12 + |format| <= |s| && s[n] == ',' && s[n + 1..n + 11] == "KEYFORMAT=" && s[n + 11] == '"'
    requires s[n + 12..n + 12 + |format|] == format
    requires format != "" && (forall c | c in format :: BareUnquoted(c))
    requires n + 12 + |format| < |s| ==> s[n + 12 + |format|] == '"'
    ensures KeyformatAt(s, n).None? && KeyformatAt(s, n + 1) == Some(format)
  {
    NotHere(s, n, "KEYFORMAT=");
    StretchIs(s, n + 12, BareUnquoted, format);
  }

  lemma Pieces(head: string, a: string, b: string, c: string, format: string, rest: string)
    requires |a| == 1 && |b| == 10 && |c| == 1
    ensures var s := head + (a + (b + (c + (format + rest)))); var n := |head|;
      && |s| == n + 12 + |format| + |rest|
      && s[n] == a[0] && s[n + 1..n + 11] == b && s[n + 11] == c[0] && s[n + 12..n + 12 + |format|] == format
      && (rest != "" ==> s[n + 12 + |format|] == rest[0])
  {
  }

  lemma FoundBehind(s: string, p: Pattern, n: nat, found: string)
    requires n + 1 < |s| && p(s, n).None? && p(s, n + 1) == Some(found)
    requires forall m | 0 <= m < n :: p(s, m).None?
    ensures Leftmost(s, p, 0) == Some(found)
  {
    LeftmostIs(s, p, 0, n + 1);
  }

  lemma ReadsFormat(format: string, rest: string)
    requires format != "" && (forall c | c in format :: BareUnquoted(c)) && (rest == "" || rest[0] == '"')
    ensures Leftmost(Formatted(format, rest), KeyformatAt, 0) == Some(format)
  {
    var s := Formatted(format, rest);
    var n := |HEAD|;
    Pieces(HEAD, ",", "KEYFORMAT=", "\"", format, rest);
    FormatStands(s, n, format);
    forall m | 0 <= m < n ensures KeyformatAt(s, m).None? {
      NoFormatInHead(FormatTail(format, rest), m);
    }
    FoundBehind(s, KeyformatAt, n, format);
  }

  /** A key format other than identity ends the download as protected, whatever address follows. */
  lemma ForeignFormatIsProtected(format: string, rest: string)
    requires format != "" && (forall c | c in format :: BareUnquoted(c)) && (rest == "" || rest[0] == '"')
    requires Upper(format) != "IDENTITY"
    ensures ParseKeyTag(Formatted(format, rest)) == Err(DrmDetected)
  {
    ReadsFormat(format, rest);
    HeadHasMethod(FormatTail(format, rest));
    UpperMethod();
  }
}
