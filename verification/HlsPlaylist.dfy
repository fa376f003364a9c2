/** The one-pass walk of a media playlist: which key each segment is decrypted with, and its vector
    (RFC 8216, sections 4.3.2.4 and 5.2). Sequence numbers are exact integers. */
module HlsPlaylist {
  import opened Prelude
  import opened HlsKeys

  /** One trimmed line of a media playlist, as the walk looks at it. */
  datatype Line =
    | Uri(text: string)
    | Sequence(number: Option<int>)
    | SessionKey(parsed: Result<Option<Key>, Error>)
    | KeyTag(parsed: Result<Option<Key>, Error>)
    | Ignored

  predicate Starts(line: string, word: string) {
    At(line, 0, word)
  }

  function DigitOf(c: char): nat
    requires Decimal(c)
  {
    (c - '0') as nat
  }

  function DecimalValue(s: string): nat
    requires forall c | c in s :: Decimal(c)
  {
    if s == "" then 0 else DecimalValue(s[..|s| - 1]) * 10 + DigitOf(s[|s| - 1])
  }

  function Digits(text: string, i: nat): Option<int>
    requires i <= |text|
  {
    var run := Stretch(text, i, Decimal);
    if run == "" then None else Some(DecimalValue(run))
  }

  function Negated(n: Option<int>): Option<int> {
    match n case Some(v) => Some(-v) case None => None
  }

  /** parseInt(text, 10): leading white space, an optional sign, then as many digits as there are. */
  function ParseInt(text: string): Option<int> {
    if text == "" then None
    else if White(text[0]) then ParseInt(text[1..])
    else if text[0] == '-' then Negated(Digits(text, 1))
    else Digits(text, if text[0] == '+' then 1 else 0)
  }

  function ReadLine(line: string): Line {
    if line == "" then Ignored
    else if line[0] != '#' then Uri(line)
    else if Starts(line, "#EXT-X-MEDIA-SEQUENCE:") then Sequence(ParseInt(line[22..]))
    else if Starts(line, "#EXT-X-SESSION-KEY:") then SessionKey(ParseKeyTag(line))
    else if Starts(line, "#EXT-X-KEY:") then KeyTag(ParseKeyTag(line))
    else Ignored
  }

  lemma DiffersAt(s: string, word: string, k: nat)
    requires k < |word| && k < |s| && s[k] != word[k]
    ensures !Starts(s, word)
  {
    assert |word| <= |s| ==> s[..|word|][k] == s[k];
  }

  lemma ReadsAsKey(s: string, rest: string)
    requires s == "#EXT-X-KEY:" + rest
    ensures ReadLine(s) == KeyTag(ParseKeyTag(s))
  {
    assert s[7] == 'K';
    DiffersAt(s, "#EXT-X-MEDIA-SEQUENCE:", 7);
    DiffersAt(s, "#EXT-X-SESSION-KEY:", 7);
    assert s[0..11] == "#EXT-X-KEY:";
  }

  /** A rendered key tag is read as the tag of its key exactly when its URI is harmless. */
  lemma ReadsKeyTag(uri: string, iv: Option<string>)
    requires uri != "" && '"' !in uri
    requires iv.Some? ==> |iv.value| == 32 && forall c | c in iv.value :: HexDigit(c)
    ensures ReadLine(Rendered(uri, iv)) == KeyTag(Ok(Some(Key(uri, iv)))) <==> Harmless(uri, iv)
  {
    KeyTagReadBack(uri, iv);
    RenderedHead(uri, iv);
    ReadsAsKey(Rendered(uri, iv), Rendered(uri, iv)[11..]);
  }

  lemma RenderedHead(uri: string, iv: Option<string>)
    ensures |Rendered(uri, iv)| >= 11 && Rendered(uri, iv) == "#EXT-X-KEY:" + Rendered(uri, iv)[11..]
  {
    assert Rendered(uri, iv)[..11] == BEFORE_METHOD;
  }

  datatype Segment = Segment(uri: string, key: Option<Key>)

  datatype Playlist = Playlist(segments: seq<Segment>, mediaSequence: int)

  // The declarative form: what a segment's key and the playlist's sequence number are.

  type Property = Line -> bool

  /** The nearest line before `n` with a property. */
  function Latest(lines: seq<Line>, n: nat, p: Property): (r: Option<nat>)
    requires n <= |lines|
    ensures r.Some? ==> r.value < n && p(lines[r.value]) && forall m | r.value < m < n :: !p(lines[m])
    ensures r.None? ==> forall m | 0 <= m < n :: !p(lines[m])
  {
    if n == 0 then None else if p(lines[n - 1]) then Some(n - 1) else Latest(lines, n - 1, p)
  }

  predicate IsKey(l: Line) {
    l.KeyTag?
  }

  predicate IsSession(l: Line) {
    l.SessionKey?
  }

  predicate HasNumber(l: Line) {
    l.Sequence? && l.number.Some?
  }

  predicate Bad(l: Line) {
    (l.KeyTag? || l.SessionKey?) && l.parsed.Err?
  }

  function KeyOn(l: Line): Option<Key> {
    if (l.KeyTag? || l.SessionKey?) && l.parsed.Ok? then l.parsed.value else None
  }

  function LatestKey(lines: seq<Line>, n: nat, p: Property): Option<Key>
    requires n <= |lines|
  {
    match Latest(lines, n, p)
    case None => None
    case Some(i) => KeyOn(lines[i])
  }

  /** The key for a segment on line `n`: the nearest key tag's if that declares one, otherwise the
      nearest session key tag's. */
  function KeyAt(lines: seq<Line>, n: nat): Option<Key>
    requires n <= |lines|
  {
    var key := LatestKey(lines, n, IsKey);
    if key.Some? then key else LatestKey(lines, n, IsSession)
  }

  function Segments(lines: seq<Line>, n: nat): seq<Segment>
    requires n <= |lines|
  {
    if n == 0 then []
    else Segments(lines, n - 1) + if lines[n - 1].Uri? then [Segment(lines[n - 1].text, KeyAt(lines, n - 1))] else []
  }

  function SequenceAt(lines: seq<Line>, n: nat): int
    requires n <= |lines|
  {
    match Latest(lines, n, HasNumber)
    case Some(i) => lines[i].number.value
    case None => 0
  }

  function FirstBad(lines: seq<Line>, i: nat): (r: Option<nat>)
    requires i <= |lines|
    ensures r.Some? ==> i <= r.value < |lines| && Bad(lines[r.value]) && forall m | i <= m < r.value :: !Bad(lines[m])
    ensures r.None? ==> forall m | i <= m < |lines| :: !Bad(lines[m])
    decreases |lines| - i
  {
    if i == |lines| then None else if Bad(lines[i]) then Some(i) else FirstBad(lines, i + 1)
  }

  function Walked(lines: seq<Line>): Result<Playlist, Error> {
    match FirstBad(lines, 0)
    case Some(i) => Err(lines[i].parsed.error)
    case None => Ok(Playlist(Segments(lines, |lines|), SequenceAt(lines, |lines|)))
  }

  /** One pass over the lines with a current key, a session key and a sequence number. */
  method WalkPlaylist(lines: seq<Line>) returns (r: Result<Playlist, Error>)
    ensures r == Walked(lines)
  {
    var segments: seq<Segment> := [];
    var mediaSequence := 0;
    var currentKey: Option<Key> := None;
    var sessionKey: Option<Key> := None;
    for i := 0 to |lines|
      invariant segments == Segments(lines, i) && mediaSequence == SequenceAt(lines, i)
      invariant currentKey == LatestKey(lines, i, IsKey) && sessionKey == LatestKey(lines, i, IsSession)
      invariant FirstBad(lines, 0) == FirstBad(lines, i)
    {
      match lines[i]
      case Uri(text) => segments := segments + [Segment(text, if currentKey.Some? then currentKey else sessionKey)];
      case Sequence(number) =>
        if number.Some? {
          mediaSequence := number.value;
        }
      case SessionKey(parsed) =>
        if parsed.Err? {
          return Err(parsed.error);
        }
        sessionKey := parsed.value;
      case KeyTag(parsed) =>
        if parsed.Err? {
          return Err(parsed.error);
        }
        currentKey := parsed.value;
      case Ignored =>
    }
    r := Ok(Playlist(segments, mediaSequence));
  }

  /** Where the `k`-th segment of a playlist stands. */
  function UriLines(lines: seq<Line>, n: nat): (r: seq<nat>)
    requires n <= |lines|
    ensures forall i | i in r :: i < n && lines[i].Uri?
  {
    if n == 0 then [] else UriLines(lines, n - 1) + if lines[n - 1].Uri? then [n - 1] else []
  }

  lemma {:induction false} UriLinesComplete(lines: seq<Line>, n: nat)
    requires n <= |lines|
    ensures forall i | 0 <= i < n && lines[i].Uri? :: i in UriLines(lines, n)
    ensures forall k, m | 0 <= k < m < |UriLines(lines, n)| :: UriLines(lines, n)[k] < UriLines(lines, n)[m]
  {
    if n > 0 {
      UriLinesComplete(lines, n - 1);
      var before := UriLines(lines, n - 1);
      assert forall k | 0 <= k < |before| :: before[k] in before;
    }
  }

  function SegmentsOn(lines: seq<Line>, at: seq<nat>): seq<Segment>
    requires forall i | i in at :: i < |lines| && lines[i].Uri?
  {
    seq(|at|, k requires 0 <= k < |at| =>
      assert at[k] in at; Segment(lines[at[k]].text, KeyAt(lines, at[k])))
  }

  /** The segments are the URI lines, all of them and in order, each with the key of its own line. */
  lemma {:induction false} EverySegment(lines: seq<Line>, n: nat)
    requires n <= |lines|
    ensures Segments(lines, n) == SegmentsOn(lines, UriLines(lines, n))
  {
    if n > 0 {
      EverySegment(lines, n - 1);
    }
  }

  /** The rule the code documents: the session key is for segments without a key tag of their own. */
  function DocumentedKeyAt(lines: seq<Line>, n: nat): Option<Key>
    requires n <= |lines|
  {
    if Latest(lines, n, IsKey).Some? then LatestKey(lines, n, IsKey) else LatestKey(lines, n, IsSession)
  }

  /** The code keeps its rule exactly unless the nearest key tag switches encryption off and a session
      key is in force: it then decrypts a clear segment with the session key. */
  lemma SessionKeyOverridesNone(lines: seq<Line>, n: nat)
    requires n <= |lines|
    ensures KeyAt(lines, n) == DocumentedKeyAt(lines, n) <==>
            !(Latest(lines, n, IsKey).Some? && LatestKey(lines, n, IsKey).None? && LatestKey(lines, n, IsSession).Some?)
  {
  }

  /** The vector a segment is decrypted with: the tag's own, or the sequence number of the segment. */
  function IvOf(p: Playlist, i: nat): seq<nat>
    requires i < |p.segments| && p.segments[i].key.Some?
  {
    match p.segments[i].key.value.ivHex
    case Some(hex) => Decoded(hex)
    case None => DefaultIv(p.mediaSequence + i)
  }

  /** Sixteen bytes that read as the tag's number, or as the segment's place in the stream exactly when
      that is not negative and fits. */
  lemma IvIsRight(p: Playlist, i: nat)
    requires i < |p.segments| && p.segments[i].key.Some?
    ensures match p.segments[i].key.value.ivHex
      case None =>
        (|IvOf(p, i)| == 16 && BigEndian(IvOf(p, i)) == p.mediaSequence + i <==> 0 <= p.mediaSequence + i < Pow(2, 128))
      case Some(hex) =>
        (|hex| == 32 && (forall c | c in hex :: HexDigit(c)) ==> |IvOf(p, i)| == 16 && BigEndian(IvOf(p, i)) == Value(hex))
  {
    match p.segments[i].key.value.ivHex
    case None => DefaultIvIsSequence(p.mediaSequence + i);
    case Some(hex) => if |hex| == 32 && forall c | c in hex :: HexDigit(c) { DecodedValue(hex); }
  }

  // A playlist written out walks back to its segments.

  const CLEAR_TAG := "#EXT-X-KEY:" + "METHOD=" + "NONE" + ""

  function TagOf(key: Option<Key>): string {
    match key
    case None => CLEAR_TAG
    case Some(k) => Rendered(k.uri, k.ivHex)
  }

  /** Each segment behind a key tag of its own. */
  function RenderedLines(segments: seq<Segment>): seq<string> {
    if segments == [] then []
    else
      var last := segments[|segments| - 1];
      RenderedLines(segments[..|segments| - 1]) + [TagOf(last.key), last.uri]
  }

  function ReadLines(lines: seq<string>): seq<Line> {
    seq(|lines|, i requires 0 <= i < |lines| => ReadLine(lines[i]))
  }

  ghost predicate Renderable(s: Segment) {
    && s.uri != "" && s.uri[0] != '#'
    && (s.key.Some? ==>
          && s.key.value.uri != "" && '"' !in s.key.value.uri
          && (s.key.value.ivHex.Some? ==>
                |s.key.value.ivHex.value| == 32 && forall c | c in s.key.value.ivHex.value :: HexDigit(c))
          && Harmless(s.key.value.uri, s.key.value.ivHex))
  }

  function TaggedLines(segments: seq<Segment>): seq<Line> {
    if segments == [] then []
    else
      var last := segments[|segments| - 1];
      TaggedLines(segments[..|segments| - 1]) + [KeyTag(Ok(last.key)), Uri(last.uri)]
  }

  lemma OtherMethod(line: string, how: string)
    requires Leftmost(line, MethodAt, 0) == Some(how) && |how| != 7
    ensures ParseKeyTag(line) == Ok(None)
  {
    assert |Upper(how)| == |how|;
  }

  lemma ReadsClearTag()
    ensures ReadLine(CLEAR_TAG) == KeyTag(Ok(None))
  {
    ReadsMethod("#EXT-X-KEY:", "NONE", "");
    ClearTag(CLEAR_TAG);
  }

  lemma ClearTag(tag: string)
    requires |tag| > 11 && tag[..11] == "#EXT-X-KEY:" && Leftmost(tag, MethodAt, 0) == Some("NONE")
    ensures ReadLine(tag) == KeyTag(Ok(None))
  {
    OtherMethod(tag, "NONE");
    ReadsAsKey(tag, tag[11..]);
  }

  lemma ReadsTag(s: Segment)
    requires Renderable(s)
    ensures ReadLine(TagOf(s.key)) == KeyTag(Ok(s.key)) && ReadLine(s.uri) == Uri(s.uri)
  {
    match s.key
    case None => ReadsClearTag();
    case Some(k) => ReadsKeyTag(k.uri, k.ivHex);
  }

  lemma {:induction false} RenderedIsTagged(segments: seq<Segment>)
    requires forall i | 0 <= i < |segments| :: Renderable(segments[i])
    ensures ReadLines(RenderedLines(segments)) == TaggedLines(segments)
  {
    if segments != [] {
      var n := |segments| - 1;
      RenderedIsTagged(segments[..n]);
      ReadsTag(segments[n]);
      ReadLinesAppend(RenderedLines(segments[..n]), TagOf(segments[n].key), segments[n].uri);
    }
  }

  lemma ReadLinesAppend(lines: seq<string>, a: string, b: string)
    ensures ReadLines(lines + [a, b]) == ReadLines(lines) + [ReadLine(a), ReadLine(b)]
  {
  }

  lemma {:induction false} LatestInPrefix(a: seq<Line>, b: seq<Line>, n: nat, p: Property)
    requires n <= |a|
    ensures Latest(a + b, n, p) == Latest(a, n, p)
  {
    if n > 0 {
      LatestInPrefix(a, b, n - 1, p);
    }
  }

  lemma KeyInPrefix(a: seq<Line>, b: seq<Line>, n: nat)
    requires n <= |a|
    ensures KeyAt(a + b, n) == KeyAt(a, n)
  {
    LatestInPrefix(a, b, n, IsKey);
    LatestInPrefix(a, b, n, IsSession);
  }

  lemma {:induction false} SegmentsInPrefix(a: seq<Line>, b: seq<Line>, n: nat)
    requires n <= |a|
    ensures Segments(a + b, n) == Segments(a, n)
  {
    if n > 0 {
      SegmentsInPrefix(a, b, n - 1);
      KeyInPrefix(a, b, n - 1);
    }
  }

  /** A key tag and a URI at the end add one segment, with that tag's key. */
  lemma OneMore(lines: seq<Line>, key: Option<Key>, uri: string)
    requires forall l | l in lines :: !l.SessionKey?
    ensures var all := lines + [KeyTag(Ok(key)), Uri(uri)];
      Segments(all, |all|) == Segments(lines, |lines|) + [Segment(uri, key)]
  {
    var n := |lines|;
    var all := lines + [KeyTag(Ok(key)), Uri(uri)];
    SegmentsInPrefix(lines, [KeyTag(Ok(key)), Uri(uri)], n);
    assert Segments(all, n + 1) == Segments(all, n);
    assert Latest(all, n + 1, IsKey) == Some(n);
    assert Latest(all, n + 1, IsSession).None? by {
      assert forall m | 0 <= m < n :: all[m] == lines[m] && lines[m] in lines;
    }
    assert KeyAt(all, n + 1) == key;
  }

  lemma {:induction false} TaggedSegments(segments: seq<Segment>)
    ensures Segments(TaggedLines(segments), |TaggedLines(segments)|) == segments
    ensures forall l | l in TaggedLines(segments) :: l.Uri? || (l.KeyTag? && l.parsed.Ok?)
  {
    if segments != [] {
      var n := |segments| - 1;
      TaggedSegments(segments[..n]);
      OneMore(TaggedLines(segments[..n]), segments[n].key, segments[n].uri);
    }
  }

  /** Every list of segments, each clear or under a key of its own, is what the walk makes of the
      playlist written for it. */
  lemma PlaylistReadBack(segments: seq<Segment>)
    requires forall i | 0 <= i < |segments| :: Renderable(segments[i])
    ensures Walked(ReadLines(RenderedLines(segments))) == Ok(Playlist(segments, 0))
  {
    RenderedIsTagged(segments);
    TaggedSegments(segments);
    WalksClean(TaggedLines(segments));
  }

  lemma WalksClean(lines: seq<Line>)
    requires forall l | l in lines :: l.Uri? || (l.KeyTag? && l.parsed.Ok?)
    ensures Walked(lines) == Ok(Playlist(Segments(lines, |lines|), 0))
  {
    assert forall i | 0 <= i < |lines| :: lines[i] in lines;
  }
}
