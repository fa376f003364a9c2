/** From a manifest's address to its segments: the best variant of a master playlist (RFC 8216, section
    4.3.4.2) and the bounded recursion into it. What the network answers, which addresses are allowed
    and the DRM gate are parameters. */
module HlsFallback {
  import opened Prelude
  import opened HlsKeys
  import opened HlsPlaylist

  const MAX_DEPTH := 5

  // Texts to lines.

  function TrimStart(s: string): string {
    if s != "" && White(s[0]) then TrimStart(s[1..]) else s
  }

  function TrimEnd(s: string): string {
    if s != "" && White(s[|s| - 1]) then TrimEnd(s[..|s| - 1]) else s
  }

  function Lines(text: string): (r: seq<string>)
    ensures |r| > 0
  {
    if text == "" then [""]
    else
      var rest := Lines(text[1..]);
      if text[0] == '\n' then [""] + rest else [[text[0]] + rest[0]] + rest[1..]
  }

  function Trimmed(lines: seq<string>): seq<string> {
    seq(|lines|, i requires 0 <= i < |lines| => TrimEnd(TrimStart(lines[i])))
  }

  /** Splitting loses nothing: the lines joined by newlines are the text. */
  lemma {:induction false} LinesJoin(text: string)
    ensures Joined(Lines(text)) == text
    ensures forall i | 0 <= i < |Lines(text)| :: '\n' !in Lines(text)[i]
  {
    if text != "" {
      LinesJoin(text[1..]);
      var rest := Lines(text[1..]);
      if text[0] != '\n' {
        assert Lines(text)[1..] == rest[1..];
        assert Lines(text)[0] == [text[0]] + rest[0];
      } else {
        assert Lines(text)[1..] == rest;
      }
    }
  }

  function Joined(lines: seq<string>): string {
    if lines == [] then "" else if |lines| == 1 then lines[0] else lines[0] + "\n" + Joined(lines[1..])
  }

  // Master playlists.

  /** BANDWIDTH=(\d+), anywhere on the line. */
  function BandwidthAt(s: string, i: nat): Option<string> {
    if At(s, i, "BANDWIDTH=") then NonEmpty(Stretch(s, i + 10, Decimal)) else None
  }

  /** What captured digits stand for; a line without a match counts as zero. */
  function Number(digits: Option<string>): nat {
    if digits.Some? && forall c | c in digits.value :: Decimal(c) then DecimalValue(digits.value) else 0
  }

  function Bandwidth(line: string): nat {
    Number(Leftmost(line, BandwidthAt, 0))
  }

  /** The attribute proper stands behind the tag's colon or a comma. */
  function AttributeAt(s: string, i: nat): Option<string> {
    if 0 < i <= |s| && s[i - 1] in {':', ','} then BandwidthAt(s, i) else None
  }

  function Attribute(line: string): Option<nat> {
    var digits := Leftmost(line, AttributeAt, 0);
    if digits.Some? then Some(Number(digits)) else None
  }

  /** `m` is where pattern `p` first matches, and `narrow` does not match there. */
  ghost predicate Poses(s: string, p: Pattern, narrow: Pattern, m: nat) {
    m < |s| && p(s, m).Some? && (forall k | 0 <= k < m :: p(s, k).None?) && narrow(s, m).None?
  }

  /** The first `BANDWIDTH=` with digits is not the attribute, as in AVERAGE-BANDWIDTH, and stands for
      another number. */
  ghost predicate Shadowed(line: string) {
    exists m: nat :: Poses(line, BandwidthAt, AttributeAt, m) && Attribute(line) != Some(Number(BandwidthAt(line, m)))
  }

  /** A pattern and a narrower one find the same unless something poses in front. */
  lemma SameUnlessPosing(s: string, p: Pattern, narrow: Pattern)
    requires forall i :: narrow(s, i).Some? ==> narrow(s, i) == p(s, i)
    requires Leftmost(s, narrow, 0).Some?
    ensures Leftmost(s, p, 0).Some?
    ensures (forall m: nat :: !Poses(s, p, narrow, m)) ==> Leftmost(s, p, 0) == Leftmost(s, narrow, 0)
    ensures forall m: nat | Poses(s, p, narrow, m) :: Leftmost(s, p, 0) == p(s, m)
  {
    var a: nat :| a < |s| && narrow(s, a) == Leftmost(s, narrow, 0) && forall k | 0 <= k < a :: narrow(s, k).None?;
    assert p(s, a).Some?;
    assert Leftmost(s, p, 0).Some?;
    var m: nat :| m < |s| && p(s, m) == Leftmost(s, p, 0) && forall k | 0 <= k < m :: p(s, k).None?;
    assert p(s, m).Some? && m <= a;
    assert m < a ==> narrow(s, m).None?;
    assert narrow(s, m).None? ==> Poses(s, p, narrow, m);
    forall n: nat | Poses(s, p, narrow, n) ensures n == m {
    }
  }

  /** The search is not anchored. On a line with a BANDWIDTH attribute it reads that attribute if nothing
      in front poses as one, and the number of what poses otherwise; so it reads the attribute exactly
      when nothing with another number poses. */
  lemma BandwidthIsAttribute(line: string)
    requires Attribute(line).Some?
    ensures (forall m: nat :: !Poses(line, BandwidthAt, AttributeAt, m)) ==> Some(Bandwidth(line)) == Attribute(line)
    ensures forall m: nat | Poses(line, BandwidthAt, AttributeAt, m) :: Bandwidth(line) == Number(BandwidthAt(line, m))
    ensures Attribute(line) == Some(Bandwidth(line)) <==> !Shadowed(line)
  {
    SameUnlessPosing(line, BandwidthAt, AttributeAt);
  }

  lemma ReadsBandwidth(pre: string, digits: string, rest: string)
    requires 'B' !in pre && digits != "" && (forall c | c in digits :: Decimal(c)) && (rest == "" || !Decimal(rest[0]))
    ensures Bandwidth(pre + "BANDWIDTH=" + digits + rest) == DecimalValue(digits)
  {
    var s := pre + "BANDWIDTH=" + digits + rest;
    var n := |pre|;
    CapturesDigits(pre, digits, rest);
    forall m | 0 <= m < n ensures BandwidthAt(s, m).None? {
      assert s[m] == pre[m] && pre[m] in pre;
      NotHere(s, m, "BANDWIDTH=");
    }
    LeftmostIs(s, BandwidthAt, 0, n);
  }

  lemma CapturesDigits(pre: string, digits: string, rest: string)
    requires digits != "" && (forall c | c in digits :: Decimal(c)) && (rest == "" || !Decimal(rest[0]))
    ensures BandwidthAt(pre + "BANDWIDTH=" + digits + rest, |pre|) == Some(digits)
  {
    var s := pre + "BANDWIDTH=" + digits + rest;
    var n := |pre|;
    assert s[n..n + 10] == "BANDWIDTH=" && s[n + 10..n + 10 + |digits|] == digits;
    StretchIs(s, n + 10, Decimal, digits);
  }

  /** The attribute of a line whose only other `B` is that of AVERAGE-BANDWIDTH. */
  lemma ReadsAttribute(pre: string, digits: string, rest: string, average: nat)
    requires pre != "" && pre[|pre| - 1] in {':', ','} && (forall m | 0 <= m < |pre| :: pre[m] == 'B' ==> m == average)
    requires 0 < average < |pre| ==> pre[average - 1] !in {':', ','}
    requires average > 0 && digits != "" && (forall c | c in digits :: Decimal(c)) && (rest == "" || !Decimal(rest[0]))
    ensures Attribute(pre + "BANDWIDTH=" + digits + rest) == Some(DecimalValue(digits))
  {
    var s := pre + "BANDWIDTH=" + digits + rest;
    var n := |pre|;
    CapturesDigits(pre, digits, rest);
    assert s[n - 1] == pre[n - 1];
    forall m | 0 <= m < n ensures AttributeAt(s, m).None? {
      assert s[m] == pre[m];
      if m == average {
        assert s[m - 1] == pre[m - 1];
      } else {
        NotHere(s, m, "BANDWIDTH=");
      }
    }
    LeftmostIs(s, AttributeAt, 0, n);
  }

  datatype MasterLine = Stream(bandwidth: nat) | Plain(text: string) | Other

  function ReadMasterLine(line: string): MasterLine {
    if line == "" then Other
    else if line[0] != '#' then Plain(line)
    else if Starts(line, "#EXT-X-STREAM-INF") then Stream(Bandwidth(line))
    else Other
  }

  type Resolver = string -> Option<string>

  /** A stream line whose own next line is an address that resolves and is allowed. */
  predicate Candidate(lines: seq<MasterLine>, resolve: Resolver, i: nat) {
    && i + 1 < |lines| && lines[i].Stream? && lines[i + 1].Plain? && resolve(lines[i + 1].text).Some?
  }

  /** No candidate before line `n` beats line `i`, and none before it equals it. */
  ghost predicate Best(lines: seq<MasterLine>, resolve: Resolver, n: nat, i: nat) {
    && i < n && Candidate(lines, resolve, i)
    && (forall k | 0 <= k < n && Candidate(lines, resolve, k) :: lines[k].bandwidth <= lines[i].bandwidth)
    && (forall k | 0 <= k < i && Candidate(lines, resolve, k) :: lines[k].bandwidth < lines[i].bandwidth)
  }

  /** The first candidate of the highest bandwidth among the first `n` lines; none only if there is none. */
  function BestVariant(lines: seq<MasterLine>, resolve: Resolver, n: nat): (r: Option<nat>)
    requires n <= |lines|
    ensures r.Some? ==> Best(lines, resolve, n, r.value)
    ensures r.None? ==> forall k | 0 <= k < n :: !Candidate(lines, resolve, k)
  {
    if n == 0 then None
    else
      var best := BestVariant(lines, resolve, n - 1);
      if Candidate(lines, resolve, n - 1) && (best.None? || lines[n - 1].bandwidth > lines[best.value].bandwidth)
      then Some(n - 1) else best
  }

  function VariantUrl(lines: seq<MasterLine>, resolve: Resolver): Option<string> {
    match BestVariant(lines, resolve, |lines|)
    case Some(i) => resolve(lines[i + 1].text)
    case None => None
  }

  method PickVariantUrl(lines: seq<MasterLine>, resolve: Resolver) returns (url: Option<string>)
    ensures url == VariantUrl(lines, resolve)
    ensures url.None? <==> forall i | 0 <= i < |lines| :: !Candidate(lines, resolve, i)
    ensures url.Some? ==> exists i | 0 <= i < |lines| - 1 ::
              Best(lines, resolve, |lines|, i) && lines[i + 1].Plain? && url == resolve(lines[i + 1].text)
  {
    url := None;
    var bandwidth := 0;
    for i := 0 to |lines|
      invariant var best := BestVariant(lines, resolve, i);
        if best.None? then url.None? else url == resolve(lines[best.value + 1].text) && bandwidth == lines[best.value].bandwidth
    {
      if lines[i].Stream? && i + 1 < |lines| && lines[i + 1].Plain? {
        var href := resolve(lines[i + 1].text);
        if href.Some? && (url.None? || lines[i].bandwidth > bandwidth) {
          url, bandwidth := href, lines[i].bandwidth;
        }
      }
    }
  }

  function ReadMaster(lines: seq<string>): seq<MasterLine> {
    seq(|lines|, i requires 0 <= i < |lines| => ReadMasterLine(lines[i]))
  }

  /** If no line's bandwidth is shadowed, the chosen variant has the highest BANDWIDTH attribute, the first
      such one. */
  lemma HighestAttributeChosen(lines: seq<string>, resolve: Resolver)
    requires forall i | 0 <= i < |lines| && ReadMasterLine(lines[i]).Stream? :: Attribute(lines[i]).Some? && !Shadowed(lines[i])
    ensures match BestVariant(ReadMaster(lines), resolve, |lines|)
      case None => forall k | 0 <= k < |lines| :: !Candidate(ReadMaster(lines), resolve, k)
      case Some(i) =>
        forall k | 0 <= k < |lines| && Candidate(ReadMaster(lines), resolve, k) ::
          && Attribute(lines[k]).Some? && Attribute(lines[i]).Some?
          && Attribute(lines[k]).value <= Attribute(lines[i]).value
          && (k < i ==> Attribute(lines[k]).value < Attribute(lines[i]).value)
  {
    forall i | 0 <= i < |lines| && ReadMasterLine(lines[i]).Stream?
      ensures Attribute(lines[i]) == Some(ReadMaster(lines)[i].bandwidth)
    {
      BandwidthIsAttribute(lines[i]);
      StreamBandwidth(lines[i]);
    }
  }

  /** The lines of a master playlist: an address is what does not begin with `#`; of the others only the
      stream lines count. */
  lemma MasterLineKinds(line: string)
    ensures ReadMasterLine(line).Stream? <==> "#EXT-X-STREAM-INF" <= line
    ensures ReadMasterLine(line).Plain? <==> line != "" && line[0] != '#'
    ensures ReadMasterLine(line).Plain? ==> ReadMasterLine(line).text == line
  {
    PrefixIsStart(line, "#EXT-X-STREAM-INF");
  }

  /** A stream line that states no bandwidth is the last choice. */
  lemma NoBandwidthIsZero(line: string)
    requires forall i | 0 <= i < |line| :: !At(line, i, "BANDWIDTH=")
    ensures Bandwidth(line) == 0
  {
  }

  lemma StreamBandwidth(line: string)
    requires ReadMasterLine(line).Stream?
    ensures ReadMasterLine(line).bandwidth == Bandwidth(line)
  {
  }

  // The recursion.

  datatype Web = Web(
    fetch: string -> Option<string>,
    resolve: string -> Resolver,          // against a base address, with the address check
    drm: string -> bool)

  datatype Document = NoPlaylist | Protected | Master(master: seq<MasterLine>) | Endless | Media(media: seq<Line>)

  predicate Within(s: string, word: string) {
    exists i | 0 <= i <= |s| :: At(s, i, word)
  }

  /** The checks on a fetched text, in their order. */
  function Recognized(text: string, drm: string -> bool): Document {
    var lines := Trimmed(Lines(text));
    if !Starts(TrimStart(text), "#EXTM3U") then NoPlaylist
    else if drm(text) then Protected
    else if Within(text, "#EXT-X-STREAM-INF") then Master(ReadMaster(lines))
    else if !Within(text, "#EXT-X-ENDLIST") then Endless
    else Media(ReadLines(lines))
  }

  /** What a fetched address leads to: an end, or another address. */
  datatype Found = Ends(result: Result<Playlist, Error>) | Continues(url: string)

  function Checked(p: Result<Playlist, Error>): Result<Playlist, Error> {
    if p.Ok? && p.value.segments == [] then Err(NetworkError) else p
  }

  function Examined(web: Web, url: string, document: Document): Found {
    match document
    case NoPlaylist => Ends(Err(NoMediaFound))
    case Protected => Ends(Err(DrmDetected))
    case Endless => Ends(Err(NoMediaFound))
    case Media(lines) => Ends(Checked(Walked(lines)))
    case Master(lines) =>
      match VariantUrl(lines, web.resolve(url))
      case Some(next) => Continues(next)
      case None => Ends(Err(NetworkError))
  }

  function Visited(web: Web, url: string): Found {
    match web.fetch(url)
    case None => Ends(Err(NetworkError))
    case Some(text) => Examined(web, url, Recognized(text, web.drm))
  }

  datatype Download = Download(result: Result<Playlist, Error>, fetched: seq<string>)

  type Visit = string -> Found

  function Chase(visit: Visit, url: string, depth: nat): Download
    decreases MAX_DEPTH + 1 - depth
  {
    if depth > MAX_DEPTH then Download(Err(NetworkError), [])
    else match visit(url)
      case Ends(result) => Download(result, [url])
      case Continues(next) =>
        var rest := Chase(visit, next, depth + 1);
        Download(rest.result, [url] + rest.fetched)
  }

  function VisitOf(web: Web): Visit {
    url => Visited(web, url)
  }

  method DownloadManifest(web: Web, url: string, depth: nat) returns (r: Result<Playlist, Error>, fetched: seq<string>)
    ensures Download(r, fetched) == Chase(VisitOf(web), url, depth)
    decreases MAX_DEPTH + 1 - depth
  {
    if depth > MAX_DEPTH {
      return Err(NetworkError), [];
    }
    fetched := [url];
    var text := web.fetch(url);
    if text.None? {
      return Err(NetworkError), fetched;
    }
    var document := Recognized(text.value, web.drm);
    match document
    case NoPlaylist => r := Err(NoMediaFound);
    case Protected => r := Err(DrmDetected);
    case Endless => r := Err(NoMediaFound);
    case Media(lines) =>
      r := WalkPlaylist(lines);
      if r.Ok? && r.value.segments == [] {
        r := Err(NetworkError);
      }
    case Master(lines) =>
      var next := PickVariantUrl(lines, web.resolve(url));
      if next.None? {
        return Err(NetworkError), fetched;
      }
      var more: seq<string>;
      r, more := DownloadManifest(web, next.value, depth + 1);
      fetched := fetched + more;
  }

  /** Every address after the first is the best variant of the playlist before it; there are at most
      six; and a result other than "too deep" is what the last address says. */
  lemma {:induction false} FollowsBestVariants(visit: Visit, url: string, depth: nat)
    requires depth <= MAX_DEPTH
    ensures var d := Chase(visit, url, depth);
      && 1 <= |d.fetched| <= MAX_DEPTH + 1 - depth && d.fetched[0] == url
      && (forall i | 0 <= i < |d.fetched| - 1 :: visit(d.fetched[i]) == Continues(d.fetched[i + 1]))
      && (match visit(d.fetched[|d.fetched| - 1])
          case Ends(result) => d.result == result
          case Continues(_) => |d.fetched| == MAX_DEPTH + 1 - depth && d.result == Err(NetworkError))
    decreases MAX_DEPTH - depth
  {
    match visit(url)
    case Ends(_) =>
    case Continues(next) =>
      if depth < MAX_DEPTH {
        FollowsBestVariants(visit, next, depth + 1);
        var rest := Chase(visit, next, depth + 1).fetched;
        var all := Chase(visit, url, depth).fetched;
        assert all == [url] + rest;
        assert forall i | 0 < i < |all| :: all[i] == rest[i - 1];
      } else {
        assert Chase(visit, next, depth + 1).fetched == [];
      }
  }

  /** A download that succeeds gives the walk of a media playlist with at least one segment. */
  lemma SuccessIsAWalk(web: Web, url: string, depth: nat)
    requires Chase(VisitOf(web), url, depth).result.Ok?
    ensures var d := Chase(VisitOf(web), url, depth);
      && d.fetched != [] && d.result.value.segments != []
      && IsWalkOf(web, d.fetched[|d.fetched| - 1], d.result)
  {
    FollowsBestVariants(VisitOf(web), url, depth);
    var d := Chase(VisitOf(web), url, depth);
    EndsInAWalk(web, d.fetched[|d.fetched| - 1], d.result);
  }

  /** What a fetched text says about its download, in the order in which the checks are made. */
  lemma TextDecides(web: Web, url: string, text: string)
    requires web.fetch(url) == Some(text)
    ensures var found := Visited(web, url); var playlist := "#EXTM3U" <= TrimStart(text);
      && (!playlist ==> found == Ends(Err(NoMediaFound)))
      && (playlist && web.drm(text) ==> found == Ends(Err(DrmDetected)))
      && (playlist && !web.drm(text) && !Within(text, "#EXT-X-STREAM-INF") && !Within(text, "#EXT-X-ENDLIST") ==>
            found == Ends(Err(NoMediaFound)))
      && (playlist && !web.drm(text) && Within(text, "#EXT-X-STREAM-INF") ==>
            found == match VariantUrl(ReadMaster(Trimmed(Lines(text))), web.resolve(url))
                     case Some(next) => Continues(next)
                     case None => Ends(Err(NetworkError)))
      && (found.Continues? ==> playlist && !web.drm(text) && Within(text, "#EXT-X-STREAM-INF"))
      && (found.Ends? && found.result.Ok? ==>
            playlist && !web.drm(text) && !Within(text, "#EXT-X-STREAM-INF") && Within(text, "#EXT-X-ENDLIST"))
  {
    PrefixIsStart(TrimStart(text), "#EXTM3U");
  }

  lemma PrefixIsStart(line: string, word: string)
    ensures Starts(line, word) <==> word <= line
  {
    if word <= line {
      assert line[0..0 + |word|] == word;
    }
    if Starts(line, word) {
      assert line[..|word|] == word;
    }
  }

  /** White space around a text goes, and nothing else. */
  lemma {:induction false} TrimsStart(w: string, text: string)
    requires (forall c | c in w :: White(c)) && (text == "" || !White(text[0]))
    ensures TrimStart(w + text) == text
  {
    if w == "" {
      assert w + text == text;
    } else {
      assert (w + text)[0] == w[0] && w[0] in w && (w + text)[1..] == w[1..] + text;
      TrimsStart(w[1..], text);
    }
  }

  /** A line of a text is looked at without the white space around it. */
  lemma LineIsTrimmed(a: string, line: string, b: string)
    requires (forall c | c in a + b :: White(c)) && (line == "" || (!White(line[0]) && !White(line[|line| - 1])))
    ensures Trimmed([a + line + b]) == [line]
  {
    assert forall c | c in a :: c in a + b;
    assert forall c | c in b :: c in a + b;
    assert a + line + b == a + (line + b);
    if line != "" {
      TrimsStart(a, line + b);
      TrimsEnd(line, b);
    } else {
      assert a + line + b == (a + b) + "";
      TrimsStart(a + b, "");
      TrimsEnd("", "");
    }
  }

  lemma TrimEndStep(text: string)
    ensures text != "" && White(text[|text| - 1]) ==> TrimEnd(text) == TrimEnd(text[..|text| - 1])
    ensures text == "" || !White(text[|text| - 1]) ==> TrimEnd(text) == text
  {
  }

  lemma {:induction false} TrimsEnd(text: string, w: string)
    requires (forall c | c in w :: White(c)) && (text == "" || !White(text[|text| - 1]))
    ensures TrimEnd(text + w) == text
  {
    TrimEndStep(text + w);
    if w == "" {
      assert text + w == text;
    } else {
      assert w[|w| - 1] in w;
      assert (text + w)[..|text + w| - 1] == text + w[..|w| - 1];
      TrimsEnd(text, w[..|w| - 1]);
    }
  }

  /** What does not end in a playlist: an address that cannot be fetched, a master playlist without a
      usable variant, and a media playlist without segments are network errors; an unusable key ends with
      its own error. */
  lemma OtherEnds(web: Web, url: string)
    ensures web.fetch(url) == None ==> Visited(web, url) == Ends(Err(NetworkError))
    ensures web.fetch(url).Some? ==>
      match Recognized(web.fetch(url).value, web.drm)
      case Master(lines) =>
        (Visited(web, url).Continues? <==> exists i | 0 <= i < |lines| :: Candidate(lines, web.resolve(url), i))
        && (Visited(web, url).Ends? ==> Visited(web, url) == Ends(Err(NetworkError)))
      case Media(lines) =>
        (match Walked(lines)
         case Err(e) => Visited(web, url) == Ends(Err(e))
         case Ok(p) => Visited(web, url) == Ends(if p.segments == [] then Err(NetworkError) else Ok(p)))
      case _ => true
  {
  }

  /** On the way to a success each address leads on, and the last one ends it. */
  ghost predicate LeadsToSuccess(visit: Visit, fetched: seq<string>, i: nat) {
    && i < |fetched| <= 6
    && (if i < |fetched| - 1 then visit(fetched[i]).Continues? else visit(fetched[i]).Ends? && visit(fetched[i]).result.Ok?)
  }

  lemma EachVisit(visit: Visit, url: string, depth: nat, i: nat)
    requires depth <= MAX_DEPTH && Chase(visit, url, depth).result.Ok? && i < |Chase(visit, url, depth).fetched|
    ensures LeadsToSuccess(visit, Chase(visit, url, depth).fetched, i)
  {
    FollowsBestVariants(visit, url, depth);
    var d := Chase(visit, url, depth);
    assert i < |d.fetched| - 1 ==> visit(d.fetched[i]) == Continues(d.fetched[i + 1]);
  }

  lemma VisitSees(web: Web, url: string)
    requires Visited(web, url).Continues? || Visited(web, url).result.Ok?
    ensures web.fetch(url).Some?
    ensures var text := web.fetch(url).value;
      && "#EXTM3U" <= TrimStart(text) && !web.drm(text)
      && (Within(text, "#EXT-X-STREAM-INF") <==> Visited(web, url).Continues?)
      && (Visited(web, url).Ends? ==> Within(text, "#EXT-X-ENDLIST"))
  {
    if web.fetch(url).Some? {
      TextDecides(web, url, web.fetch(url).value);
    }
  }

  /** A download fetches at most six texts, and none of a successful one was rejected by the gate; the last
      is a finished media playlist and all before it are master playlists. */
  lemma GateHolds(web: Web, url: string, i: nat)
    requires Chase(VisitOf(web), url, 0).result.Ok? && i < |Chase(VisitOf(web), url, 0).fetched|
    ensures var fetched := Chase(VisitOf(web), url, 0).fetched;
      && |fetched| <= 6 && web.fetch(fetched[i]).Some?
      && var text := web.fetch(fetched[i]).value;
         && "#EXTM3U" <= TrimStart(text) && !web.drm(text)
         && (Within(text, "#EXT-X-STREAM-INF") <==> i < |fetched| - 1)
         && (i == |fetched| - 1 ==> Within(text, "#EXT-X-ENDLIST"))
  {
    EachVisit(VisitOf(web), url, 0, i);
    VisitSees(web, Chase(VisitOf(web), url, 0).fetched[i]);
  }

  /** A text that the gate rejects ends the download with that answer wherever it is met. */
  lemma {:induction false} GateReports(web: Web, url: string, depth: nat)
    requires depth <= MAX_DEPTH
    ensures var d := Chase(VisitOf(web), url, depth); var last := d.fetched[|d.fetched| - 1];
      d.fetched != [] &&
      (web.fetch(last).Some? && "#EXTM3U" <= TrimStart(web.fetch(last).value) && web.drm(web.fetch(last).value) ==>
         d.result == Err(DrmDetected))
  {
    FollowsBestVariants(VisitOf(web), url, depth);
    var d := Chase(VisitOf(web), url, depth);
    var last := d.fetched[|d.fetched| - 1];
    if web.fetch(last).Some? {
      TextDecides(web, last, web.fetch(last).value);
    }
  }

  /** The address holds a media playlist and `result` is its walk. */
  ghost predicate IsWalkOf(web: Web, url: string, result: Result<Playlist, Error>) {
    && web.fetch(url).Some?
    && Recognized(web.fetch(url).value, web.drm).Media?
    && result == Walked(Recognized(web.fetch(url).value, web.drm).media)
  }

  lemma EndsInAWalk(web: Web, url: string, result: Result<Playlist, Error>)
    requires Visited(web, url) == Ends(result) && result.Ok?
    ensures IsWalkOf(web, url, result) && result.value.segments != []
  {
  }

  /** A master playlist that is its own best variant is fetched six times and then given up. */
  lemma {:induction false} SelfReferenceEnds(visit: Visit, url: string, depth: nat)
    requires depth <= MAX_DEPTH + 1 && visit(url) == Continues(url)
    ensures Chase(visit, url, depth) == Download(Err(NetworkError), seq(6 - depth, _ => url))
    decreases MAX_DEPTH + 1 - depth
  {
    if depth <= MAX_DEPTH {
      SelfReferenceEnds(visit, url, depth + 1);
    }
  }
}
