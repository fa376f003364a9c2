/** A master playlist on which the variant of the lesser bandwidth is chosen. */
module LesserVariant {
  import opened Prelude
  import opened HlsKeys
  import opened HlsPlaylist
  import opened HlsFallback

  const TAG := "#EXT-X-STREAM-INF:"
  const AVERAGED := TAG + "AVERAGE-"
  const HIGH := AVERAGED + "BANDWIDTH=" + "1" + ",BANDWIDTH=9"
  const LOW := TAG + "BANDWIDTH=" + "5" + ""

  lemma TagFacts()
    ensures 'B' !in TAG && 'B' !in AVERAGED && TAG[|TAG| - 1] == ':' && |TAG| == 18 && |AVERAGED| == 26
    ensures TAG[..17] == "#EXT-X-STREAM-INF"
  {
  }

  lemma ReadsStream(line: string, rest: string)
    requires line == TAG + rest
    ensures ReadMasterLine(line) == Stream(Bandwidth(line))
  {
    TagFacts();
    assert line[0..17] == TAG[..17];
    assert line[0] == TAG[0];
  }

  /** An average in front is read for the bandwidth, whatever follows. */
  lemma AverageIsRead(average: string, rest: string)
    requires average != "" && (forall c | c in average :: Decimal(c)) && rest != "" && !Decimal(rest[0])
    ensures ReadMasterLine(AVERAGED + "BANDWIDTH=" + average + rest) == Stream(DecimalValue(average))
  {
    TagFacts();
    var line := AVERAGED + "BANDWIDTH=" + average + rest;
    ReadsBandwidth(AVERAGED, average, rest);
    assert line[..18] == TAG;
    ReadsStream(line, line[18..]);
  }

  lemma HighReadLow()
    ensures ReadMasterLine(HIGH) == Stream(1)
  {
    AverageIsRead("1", ",BANDWIDTH=9");
    assert DecimalValue("1") == 1;
  }

  lemma LowRead()
    ensures ReadMasterLine(LOW) == Stream(5)
  {
    TagFacts();
    ReadsBandwidth(TAG, "5", "");
    assert LOW[..18] == TAG;
    ReadsStream(LOW, LOW[18..]);
    assert DecimalValue("5") == 5;
  }

  lemma LowAttribute()
    ensures Attribute(LOW) == Some(5)
  {
    TagFacts();
    ReadsAttribute(TAG, "5", "", 18);
    assert DecimalValue("5") == 5;
  }

  lemma HighAttribute()
    ensures Attribute(HIGH) == Some(9)
  {
    TagFacts();
    var pre := AVERAGED + "BANDWIDTH=" + "1" + ",";
    assert pre[25] == '-';
    assert HIGH == pre + "BANDWIDTH=" + "9" + "";
    forall m | 0 <= m < |pre| && m != 26 ensures pre[m] != 'B' {
      assert m < 26 ==> pre[m] == AVERAGED[m];
    }
    ReadsAttribute(pre, "9", "", 26);
    assert DecimalValue("9") == 9;
  }

  /** A playlist on which the lesser variant is taken: the better one states its average first. */
  lemma LesserVariantIsChosen(better: string, lesser: string)
    requires better != "" && better[0] != '#' && lesser != "" && lesser[0] != '#'
    ensures VariantUrl(ReadMaster([HIGH, better, LOW, lesser]), url => Some(url)) == Some(lesser)
    ensures Attribute(HIGH) == Some(9) && Attribute(LOW) == Some(5)
  {
    HighReadLow();
    LowRead();
    HighAttribute();
    LowAttribute();
    TakesSecond(HIGH, better, LOW, lesser);
  }

  lemma TakesSecond(first: string, a: string, second: string, b: string)
    requires ReadMasterLine(first) == Stream(1) && ReadMasterLine(second) == Stream(5)
    requires ReadMasterLine(a) == Plain(a) && ReadMasterLine(b) == Plain(b)
    ensures VariantUrl(ReadMaster([first, a, second, b]), url => Some(url)) == Some(b)
  {
    assert ReadMaster([first, a, second, b]) == [Stream(1), Plain(a), Stream(5), Plain(b)];
    SecondWins([Stream(1), Plain(a), Stream(5), Plain(b)], url => Some(url), b);
  }

  lemma SecondWins(lines: seq<MasterLine>, resolve: Resolver, b: string)
    requires |lines| == 4 && lines[0] == Stream(1) && lines[1].Plain? && lines[2] == Stream(5) && lines[3] == Plain(b)
    requires forall url :: resolve(url) == Some(url)
    ensures VariantUrl(lines, resolve) == Some(b)
  {
    var i := BestVariant(lines, resolve, 4);
    assert Candidate(lines, resolve, 2);
    assert i.Some? && Best(lines, resolve, 4, i.value);
  }
}
