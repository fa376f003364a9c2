/** The media sequence number of a playlist, the lines that do not matter to the walk, and the lines that
    end it (RFC 8216, sections 4.3.3.2 and 5.2). */
module MediaSequence {
  import opened Prelude
  import opened HlsKeys
  import opened HlsPlaylist

  const SEQUENCE := "#EXT-X-MEDIA-SEQUENCE:"

  function DecimalText(n: nat): (r: string)
    ensures r != "" && forall c | c in r :: Decimal(c)
  {
    if n < 10 then [DigitText(n)] else DecimalText(n / 10) + [DigitText(n % 10)]
  }

  function DigitText(n: nat): (c: char)
    requires n < 10
    ensures Decimal(c) && DigitOf(c) == n
  {
    '0' + n as char
  }

  function SignedText(n: int): string {
    if n < 0 then "-" + DecimalText(-n) else DecimalText(n)
  }

  lemma {:induction false} DecimalReadBack(n: nat)
    ensures DecimalValue(DecimalText(n)) == n
  {
    if n >= 10 {
      DecimalReadBack(n / 10);
      assert DecimalText(n)[..|DecimalText(n)| - 1] == DecimalText(n / 10);
    } else {
      assert DecimalText(n)[..0] == "";
    }
  }

  lemma DigitsReadBack(pre: string, n: nat)
    ensures Digits(pre + DecimalText(n), |pre|) == Some(n)
  {
    var text := pre + DecimalText(n);
    assert text[|pre|..|pre| + |DecimalText(n)|] == DecimalText(n);
    StretchIs(text, |pre|, Decimal, DecimalText(n));
    DecimalReadBack(n);
  }

  lemma ParsesDigits(text: string)
    requires text != "" && Decimal(text[0])
    ensures ParseInt(text) == Digits(text, 0)
  {
    assert !White(text[0]) && text[0] != '-' && text[0] != '+';
  }

  lemma ParsesMinus(text: string)
    requires text != "" && text[0] == '-'
    ensures ParseInt(text) == Negated(Digits(text, 1))
  {
    assert !White('-');
  }

  /** White space in front of a number and a plus sign do not matter; without digits there is none. */
  lemma {:induction false} NumberForms(w: string, n: nat)
    requires forall c | c in w :: White(c)
    ensures ParseInt(w + DecimalText(n)) == Some(n) && ParseInt(w + ("+" + DecimalText(n))) == Some(n) && ParseInt(w) == None
    decreases |w|
  {
    if w == "" {
      NumberReadBack(n);
      DigitsReadBack("+", n);
      assert w + DecimalText(n) == DecimalText(n) && w + ("+" + DecimalText(n)) == "+" + DecimalText(n);
      ParsesPlus("+" + DecimalText(n));
    } else {
      assert w[0] in w;
      SkipsWhite(w, DecimalText(n));
      SkipsWhite(w, "+" + DecimalText(n));
      SkipsWhite(w, "");
      assert w + "" == w && w[1..] + "" == w[1..];
      NumberForms(w[1..], n);
    }
  }

  lemma SkipsWhite(w: string, text: string)
    requires w != "" && White(w[0])
    ensures ParseInt(w + text) == ParseInt(w[1..] + text)
  {
    assert (w + text)[0] == w[0] && (w + text)[1..] == w[1..] + text;
  }

  lemma ParsesPlus(text: string)
    requires text != "" && text[0] == '+'
    ensures ParseInt(text) == Digits(text, 1)
  {
    assert !White('+');
  }

  /** A number written out is read back, its sign included. */
  lemma NumberReadBack(n: int)
    ensures ParseInt(SignedText(n)) == Some(n)
  {
    if n < 0 {
      DigitsReadBack("-", -n);
      ParsesMinus("-" + DecimalText(-n));
    } else {
      var text := DecimalText(n);
      DigitsReadBack("", n);
      assert "" + text == text && text[0] in text;
      ParsesDigits(text);
    }
  }

  lemma ReadsSequence(n: int)
    ensures ReadLine(SEQUENCE + SignedText(n)) == Sequence(Some(n))
  {
    var line := SEQUENCE + SignedText(n);
    assert line[0..22] == SEQUENCE && line[22..] == SignedText(n);
    NumberReadBack(n);
  }

  /** Which line is what: an address is any line that is neither empty nor a comment, and of the comments
      only three tags matter. */
  lemma LineKinds(line: string)
    ensures ReadLine(line).Uri? <==> line != "" && line[0] != '#'
    ensures ReadLine(line).Uri? ==> ReadLine(line).text == line
    ensures ReadLine(line).Sequence? <==> SEQUENCE <= line
    ensures ReadLine(line).SessionKey? <==> "#EXT-X-SESSION-KEY:" <= line
    ensures ReadLine(line).KeyTag? <==> "#EXT-X-KEY:" <= line
  {
    StartsIsPrefix(line, SEQUENCE);
    StartsIsPrefix(line, "#EXT-X-SESSION-KEY:");
    StartsIsPrefix(line, "#EXT-X-KEY:");
    if |line| > 7 {
      assert SEQUENCE[7] == 'M' && "#EXT-X-SESSION-KEY:"[7] == 'S' && "#EXT-X-KEY:"[7] == 'K';
    }
  }

  lemma StartsIsPrefix(line: string, word: string)
    ensures Starts(line, word) <==> word <= line
  {
    if word <= line {
      assert line[0..0 + |word|] == word;
    }
    if Starts(line, word) {
      assert line[..|word|] == word;
    }
  }

  // Lines that change no segment.

  /** Neither an address nor a key. */
  predicate Neutral(l: Line) {
    l.Sequence? || l.Ignored?
  }

  lemma {:induction false} KeySkips(a: seq<Line>, l: Line, b: seq<Line>, n: nat, p: Property)
    requires n <= |b| && !p(l)
    ensures LatestKey(a + [l] + b, |a| + 1 + n, p) == LatestKey(a + b, |a| + n, p)
  {
    var w, v := a + [l] + b, a + b;
    if n == 0 {
      assert w == a + ([l] + b);
      LatestInPrefix(a, [l] + b, |a|, p);
      LatestInPrefix(a, b, |a|, p);
      assert w[|a|] == l;
    } else {
      assert w[|a| + n] == b[n - 1] && v[|a| + n - 1] == b[n - 1];
      KeySkips(a, l, b, n - 1, p);
    }
  }

  lemma {:induction false} SegmentsSkip(a: seq<Line>, l: Line, b: seq<Line>, n: nat)
    requires n <= |b| && Neutral(l)
    ensures Segments(a + [l] + b, |a| + 1 + n) == Segments(a + b, |a| + n)
  {
    var w, v := a + [l] + b, a + b;
    if n == 0 {
      assert w == a + ([l] + b);
      SegmentsInPrefix(a, [l] + b, |a|);
      SegmentsInPrefix(a, b, |a|);
      assert w[|a|] == l;
    } else {
      assert w[|a| + n] == b[n - 1] && v[|a| + n - 1] == b[n - 1];
      SegmentsSkip(a, l, b, n - 1);
      KeySkips(a, l, b, n - 1, IsKey);
      KeySkips(a, l, b, n - 1, IsSession);
    }
  }

  /** A comment without a key, wherever it stands, changes no segment and no segment's key. */
  lemma NeutralLine(a: seq<Line>, l: Line, b: seq<Line>)
    requires Neutral(l)
    ensures Segments(a + [l] + b, |a + [l] + b|) == Segments(a + b, |a + b|)
  {
    SegmentsSkip(a, l, b, |b|);
  }

  // The sequence number.

  lemma {:induction false} NoNumberBehind(lines: seq<Line>, n: nat, m: nat)
    requires m <= n <= |lines| && forall k | m <= k < n :: !HasNumber(lines[k])
    ensures SequenceAt(lines, n) == SequenceAt(lines, m)
    decreases n - m
  {
    if m < n {
      NoNumberBehind(lines, n - 1, m);
    }
  }

  /** Of several numbers the last counts. */
  lemma LastNumberCounts(a: seq<Line>, n: int, b: seq<Line>)
    requires forall l | l in b :: !HasNumber(l)
    ensures var lines := a + [Sequence(Some(n))] + b; SequenceAt(lines, |lines|) == n
  {
    var lines := a + [Sequence(Some(n))] + b;
    assert lines[|a|] == Sequence(Some(n));
    assert forall k | |a| < k < |lines| :: lines[k] == b[k - |a| - 1] && lines[k] in b;
    NoNumberBehind(lines, |lines|, |a| + 1);
  }

  lemma NoNumberIsZero(lines: seq<Line>)
    requires forall l | l in lines :: !HasNumber(l)
    ensures SequenceAt(lines, |lines|) == 0
  {
    assert forall k | 0 <= k < |lines| :: lines[k] in lines;
    NoNumberBehind(lines, |lines|, 0);
  }

  lemma {:induction false} NumberSkips(a: seq<Line>, l: Line, b: seq<Line>, n: nat)
    requires n <= |b| && !HasNumber(l)
    ensures SequenceAt(a + [l] + b, |a| + 1 + n) == SequenceAt(a + b, |a| + n)
  {
    var w, v := a + [l] + b, a + b;
    if n == 0 {
      assert w == a + ([l] + b);
      LatestInPrefix(a, [l] + b, |a|, HasNumber);
      LatestInPrefix(a, b, |a|, HasNumber);
      assert w[|a|] == l;
      assert forall k | 0 <= k < |a| :: w[k] == v[k];
    } else {
      assert w[|a| + n] == b[n - 1] && v[|a| + n - 1] == b[n - 1];
      NumberSkips(a, l, b, n - 1);
    }
  }

  /** A line without a number, an unreadable sequence tag included, changes nothing. */
  lemma UnreadableChangesNothing(a: seq<Line>, l: Line, b: seq<Line>)
    requires !HasNumber(l)
    ensures SequenceAt(a + [l] + b, |a + [l] + b|) == SequenceAt(a + b, |a + b|)
  {
    NumberSkips(a, l, b, |b|);
  }

  // A playlist written out with its number.

  function NumberedLines(segments: seq<Segment>, n: int): seq<string> {
    [SEQUENCE + SignedText(n)] + RenderedLines(segments)
  }

  lemma ReadNumbered(segments: seq<Segment>, n: int)
    requires forall i | 0 <= i < |segments| :: Renderable(segments[i])
    ensures ReadLines(NumberedLines(segments, n)) == [Sequence(Some(n))] + TaggedLines(segments)
  {
    ReadsSequence(n);
    RenderedIsTagged(segments);
    ReadCons(SEQUENCE + SignedText(n), RenderedLines(segments));
  }

  lemma ReadCons(line: string, lines: seq<string>)
    ensures ReadLines([line] + lines) == [ReadLine(line)] + ReadLines(lines)
  {
  }

  lemma NoneBad(lines: seq<Line>)
    requires forall l | l in lines :: !Bad(l)
    ensures Walked(lines) == Ok(Playlist(Segments(lines, |lines|), SequenceAt(lines, |lines|)))
  {
    assert forall i | 0 <= i < |lines| :: lines[i] in lines;
  }

  lemma InFront(l: Line, lines: seq<Line>)
    requires Neutral(l)
    ensures Segments([l] + lines, |[l] + lines|) == Segments(lines, |lines|)
  {
    assert [] + [l] + lines == [l] + lines && [] + lines == lines;
    NeutralLine([], l, lines);
  }

  lemma NumberInFront(n: int, lines: seq<Line>)
    requires forall l | l in lines :: !HasNumber(l)
    ensures SequenceAt([Sequence(Some(n))] + lines, |[Sequence(Some(n))] + lines|) == n
  {
    assert [] + [Sequence(Some(n))] + lines == [Sequence(Some(n))] + lines;
    LastNumberCounts([], n, lines);
  }

  lemma WalksNumbered(n: int, tagged: seq<Line>, segments: seq<Segment>)
    requires forall l | l in tagged :: l.Uri? || (l.KeyTag? && l.parsed.Ok?)
    requires Segments(tagged, |tagged|) == segments
    ensures Walked([Sequence(Some(n))] + tagged) == Ok(Playlist(segments, n))
  {
    InFront(Sequence(Some(n)), tagged);
    NumberInFront(n, tagged);
    NoneBad([Sequence(Some(n))] + tagged);
  }

  /** Any list of segments and any number are what the walk makes of the playlist written for them. */
  lemma NumberedReadBack(segments: seq<Segment>, n: int)
    requires forall i | 0 <= i < |segments| :: Renderable(segments[i])
    ensures Walked(ReadLines(NumberedLines(segments, n))) == Ok(Playlist(segments, n))
  {
    ReadNumbered(segments, n);
    TaggedSegments(segments);
    WalksNumbered(n, TaggedLines(segments), segments);
  }

  /** So the `i`-th segment, under a key without a vector of its own, is decrypted with the sixteen bytes
      of the number plus `i`. */
  lemma DefaultVectorCounts(segments: seq<Segment>, n: int, i: nat)
    requires forall k | 0 <= k < |segments| :: Renderable(segments[k])
    requires i < |segments| && segments[i].key.Some? && segments[i].key.value.ivHex == None && 0 <= n + i < Pow(2, 128)
    ensures var p := Walked(ReadLines(NumberedLines(segments, n)));
      && p.Ok? && p.value.segments == segments
      && |IvOf(p.value, i)| == 16 && BigEndian(IvOf(p.value, i)) == n + i
  {
    NumberedReadBack(segments, n);
    IvIsRight(Playlist(segments, n), i);
  }

  // Keys that cannot be used.

  /** The first unusable key ends the walk, with its own error; without one the walk succeeds. */
  lemma BadKeyEnds(a: seq<Line>, l: Line, b: seq<Line>)
    requires (forall k | k in a :: !Bad(k)) && Bad(l)
    ensures Walked(a + [l] + b) == Err(l.parsed.error)
  {
    var lines := a + [l] + b;
    assert lines[|a|] == l;
    assert forall i | 0 <= i < |a| :: lines[i] == a[i] && lines[i] in a;
  }
}
