/** A playlist of three lines whose clear segment is given a key: a session key, a key tag that switches
    encryption off, and the segment. */
module ClearSegment {
  import opened Prelude
  import opened HlsKeys
  import opened HlsPlaylist

  const SESSION := "#EXT-X-SESSION-KEY:"
  const SESSION_LINE := SESSION + "METHOD=" + "AES-128" + BEFORE_URI + "URI=\"" + "k" + "\"" + ""
  const TEXT: seq<string> := [SESSION_LINE, CLEAR_TAG, "a.ts"]

  lemma WordEnds(s: string, m: nat, word: string, k: nat)
    requires k < |word| && m + k < |s| && s[m + k] != word[k]
    ensures !At(s, m, word)
  {
    assert m + |word| <= |s| ==> s[m..m + |word|][k] == s[m + k];
  }

  lemma SessionMethod()
    ensures Leftmost(SESSION_LINE, MethodAt, 0) == Some("AES-128")
  {
    ReadsMethod(SESSION, "AES-128", BEFORE_URI + "URI=\"" + "k" + "\"" + "");
    Regroup(SESSION + "METHOD=" + "AES-128", BEFORE_URI, "URI=\"", "k", "\"", "");
  }

  lemma SessionUri()
    ensures Leftmost(SESSION_LINE, UriAt, 0) == Some("k")
  {
    ReadsUri(SESSION + "METHOD=" + "AES-128" + BEFORE_URI, "k", "");
  }

  lemma SessionKeyformat()
    ensures Leftmost(SESSION_LINE, KeyformatAt, 0) == None
  {
    forall m | 0 <= m < |SESSION_LINE| ensures KeyformatAt(SESSION_LINE, m).None? {
      if m == 15 {
        WordEnds(SESSION_LINE, m, "KEYFORMAT=", 3);
      } else {
        NotHere(SESSION_LINE, m, "KEYFORMAT=");
      }
    }
    LeftmostNone(SESSION_LINE, KeyformatAt, 0);
  }

  lemma SessionIv()
    ensures Leftmost(SESSION_LINE, IvAt, 0) == None
  {
    forall m | 0 <= m < |SESSION_LINE| ensures IvAt(SESSION_LINE, m).None? {
      if m == 11 || m == 36 {
        WordEnds(SESSION_LINE, m, "IV=0x", 1);
      } else {
        NotHere(SESSION_LINE, m, "IV=0x");
      }
    }
    LeftmostNone(SESSION_LINE, IvAt, 0);
  }

  const KEY := Key("k", None)

  lemma SessionParsed()
    ensures ParseKeyTag(SESSION_LINE) == Ok(Some(KEY))
  {
    SessionMethod();
    UpperMethod();
    SessionKeyformat();
    SessionUri();
    SessionIv();
  }

  lemma SessionRead()
    ensures ReadLine(SESSION_LINE) == SessionKey(ParseKeyTag(SESSION_LINE))
  {
    DiffersAt(SESSION_LINE, "#EXT-X-MEDIA-SEQUENCE:", 7);
    assert SESSION_LINE[0..19] == SESSION;
  }

  lemma TextRead()
    ensures ReadLines(TEXT) == [SessionKey(Ok(Some(KEY))), KeyTag(Ok(None)), Uri("a.ts")]
  {
    SessionRead();
    SessionParsed();
    ReadsClearTag();
    ReadsUriLine("a.ts");
    ReadThree(SESSION_LINE, CLEAR_TAG, "a.ts");
  }

  lemma ReadsUriLine(line: string)
    requires line != "" && line[0] != '#'
    ensures ReadLine(line) == Uri(line)
  {
  }

  lemma ReadThree(a: string, b: string, c: string)
    ensures ReadLines([a, b, c]) == [ReadLine(a), ReadLine(b), ReadLine(c)]
  {
  }

  /** The segment's nearest key tag says METHOD=NONE, and the walk decrypts it with the session key. */
  lemma ClearSegmentGetsKey()
    ensures Walked(ReadLines(TEXT)) == Ok(Playlist([Segment("a.ts", Some(KEY))], 0))
    ensures DocumentedKeyAt(ReadLines(TEXT), 2) == None
  {
    TextRead();
    SessionKeyInForce([SessionKey(Ok(Some(KEY))), KeyTag(Ok(None)), Uri("a.ts")]);
  }

  lemma SessionKeyInForce(lines: seq<Line>)
    requires |lines| == 3 && lines[0] == SessionKey(Ok(Some(KEY))) && lines[1] == KeyTag(Ok(None)) && lines[2] == Uri("a.ts")
    ensures Walked(lines) == Ok(Playlist([Segment("a.ts", Some(KEY))], 0)) && DocumentedKeyAt(lines, 2) == None
  {
    assert Latest(lines, 2, IsKey) == Some(1);
    assert Latest(lines, 2, IsSession) == Some(0);
    assert KeyAt(lines, 2) == Some(KEY);
    assert Segments(lines, 1) == [];
    assert Segments(lines, 2) == [];
    assert Segments(lines, 3) == [Segment("a.ts", Some(KEY))];
    assert FirstBad(lines, 0).None?;
    assert SequenceAt(lines, 3) == 0;
  }
}
