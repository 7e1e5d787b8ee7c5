/** Chart file naming and selection. A chart is saved as `{timestamp}-{timeframe}.png`;
    the latest chart of a timeframe is the greatest matching file name. The directory
    is given as the list of the names it holds, and the current time as the timestamp
    text the clock would give. */
module Chart {
  import opened Wrappers
  import opened Text

  /** The timeframes looked for when none are given. */
  const DefaultTimeframes: seq<string> := ["1h", "30m", "15m", "5m"]

  /** What follows the timestamp in a chart's file name. */
  function Suffix(timeframe: string): string {
    "-" + timeframe + ".png"
  }

  /** The glob `*-{timeframe}.png`, for a timeframe without glob metacharacters: the
      name ends with the suffix, whatever precedes it. */
  predicate Matches(name: string, timeframe: string) {
    EndsWith(name, Suffix(timeframe))
  }

  /** `get_chart_filename`: the given timestamp, or the clock's when none is given,
      followed by the timeframe's suffix. */
  function ChartFilename(timeframe: string, timestamp: Option<string>, clock: string): (r: string)
    ensures var ts := timestamp.GetOr(clock);
      && |r| == |ts| + |timeframe| + 5
      && r[..|ts|] == ts
      && Matches(r, timeframe)
  {
    var ts := timestamp.GetOr(clock);
    ts + "-" + timeframe + ".png"
  }

  /** The timestamp part of a chart name: what precedes the suffix. */
  function TimestampOf(name: string, timeframe: string): string
    requires Matches(name, timeframe)
  {
    name[..|name| - |Suffix(timeframe)|]
  }

  /** Naming and selection agree: a name built for a timeframe is matched by that
      timeframe's pattern, and its timestamp can be read back from it. */
  lemma NamingRoundTrip(timeframe: string, timestamp: string, clock: string)
    ensures Matches(ChartFilename(timeframe, Some(timestamp), clock), timeframe)
    ensures TimestampOf(ChartFilename(timeframe, Some(timestamp), clock), timeframe) == timestamp
  {
  }

  /** A name that matches a timeframe is rebuilt from its timestamp part. */
  lemma NameFromParts(name: string, timeframe: string, clock: string)
    requires Matches(name, timeframe)
    ensures ChartFilename(timeframe, Some(TimestampOf(name, timeframe)), clock) == name
  {
    var ts := TimestampOf(name, timeframe);
    assert name == ts + name[|ts|..];
  }

  /** Two timeframes without a dash never match the same name, so the patterns of the
      default timeframes pick disjoint sets of files. */
  lemma TimeframesDoNotCollide(name: string, tf1: string, tf2: string)
    requires '-' !in tf1 && '-' !in tf2
    requires Matches(name, tf1) && Matches(name, tf2)
    ensures tf1 == tf2
  {
    if |tf1| < |tf2| {
      SuffixHasDash(name, tf1, tf2);
    } else if |tf2| < |tf1| {
      SuffixHasDash(name, tf2, tf1);
    } else {
      var n := |name|;
      assert name[n - |Suffix(tf1)|..] == Suffix(tf1) && name[n - |Suffix(tf2)|..] == Suffix(tf2);
      assert Suffix(tf1) == Suffix(tf2);
      assert tf1 == Suffix(tf1)[1..|tf1| + 1] && tf2 == Suffix(tf2)[1..|tf2| + 1];
    }
  }

  /** When a shorter suffix and a longer suffix both end a name, the longer timeframe
      holds the shorter suffix's dash. */
  lemma SuffixHasDash(name: string, short: string, long: string)
    requires |short| < |long|
    requires Matches(name, short) && Matches(name, long)
    ensures '-' in long
  {
    var n := |name|;
    var p := n - |Suffix(short)|;
    assert name[p] == Suffix(short)[0] == '-';
    var q := n - |Suffix(long)|;
    assert name[q..][p - q] == name[p];
    assert Suffix(long)[p - q] == '-';
    assert 1 <= p - q <= |long|;
    assert long[p - q - 1] == Suffix(long)[p - q];
  }

  /** For example, a 15-minute chart is never taken for a 5-minute one. */
  lemma FifteenIsNotFive(timestamp: string, clock: string)
    ensures !Matches(ChartFilename("15m", Some(timestamp), clock), "5m")
  {
    var name := ChartFilename("15m", Some(timestamp), clock);
    if Matches(name, "5m") {
      assert '-' !in "15m" && '-' !in "5m";
      TimeframesDoNotCollide(name, "15m", "5m");
    }
  }

  /** The files of the directory that match a timeframe, in directory order. */
  function MatchingFiles(files: seq<string>, timeframe: string): (r: seq<string>)
    ensures |r| <= |files|
    ensures forall f :: f in r <==> f in files && Matches(f, timeframe)
  {
    if files == [] then []
    else
      var init := MatchingFiles(files[..|files| - 1], timeframe);
      var last := files[|files| - 1];
      assert files == files[..|files| - 1] + [last];
      if Matches(last, timeframe) then init + [last] else init
  }

  /** The first element of the names sorted in descending order. */
  function Greatest(names: seq<string>): (r: string)
    requires names != []
    ensures r in names
  {
    if |names| == 1 then names[0]
    else
      var m := Greatest(names[..|names| - 1]);
      var last := names[|names| - 1];
      if LexLe(m, last) then last else m
  }

  /** Greatest is the maximum of the names in Python's string order. */
  lemma {:induction false} GreatestIsMax(names: seq<string>)
    requires names != []
    ensures forall f :: f in names ==> LexLe(f, Greatest(names))
  {
    if |names| == 1 {
      LexLeReflexive(names[0]);
    } else {
      var init := names[..|names| - 1];
      var m := Greatest(init);
      var last := names[|names| - 1];
      GreatestIsMax(init);
      LexLeTotal(m, last);
      LexLeReflexive(last);
      LexLeReflexive(m);
      assert names == init + [last];
      forall f | f in names
        ensures LexLe(f, Greatest(names))
      {
        if f in init && LexLe(m, last) {
          LexLeTransitive(f, m, last);
        }
      }
    }
  }

  /** No other name is the maximum: the chosen file does not depend on the order of
      the directory listing. */
  lemma GreatestUnique(names: seq<string>, r: string)
    requires names != [] && r in names
    requires forall f :: f in names ==> LexLe(f, r)
    ensures r == Greatest(names)
  {
    GreatestIsMax(names);
    LexLeAntisymmetric(r, Greatest(names));
  }

  /** Among charts of one timeframe whose timestamps have the same length, as all
      timestamps of the `YYYY-MM-DD_HH-MM-SS` format do, the name order is the
      timestamp order. */
  lemma NameOrderIsTimestampOrder(timeframe: string, ts1: string, ts2: string, clock: string)
    requires |ts1| == |ts2|
    ensures LexLe(ChartFilename(timeframe, Some(ts1), clock), ChartFilename(timeframe, Some(ts2), clock))
            <==> LexLe(ts1, ts2)
  {
    assert ts1 + "-" + timeframe + ".png" == ts1 + Suffix(timeframe);
    assert ts2 + "-" + timeframe + ".png" == ts2 + Suffix(timeframe);
    LexLeCommonSuffix(ts1, ts2, Suffix(timeframe));
  }

  /** `get_latest_charts` over the names of the chart directory: each requested
      timeframe with at least one matching file is mapped to the greatest of them; the
      default timeframes are used when none are given. */
  method GetLatestCharts(files: seq<string>, timeframes: Option<seq<string>>) returns (result: map<string, string>)
    ensures var tfs := timeframes.GetOr(DefaultTimeframes);
      forall tf :: tf in result <==> tf in tfs && exists f :: f in files && Matches(f, tf)
    ensures forall tf :: tf in result ==> result[tf] == Greatest(MatchingFiles(files, tf))
    ensures forall tf :: tf in result ==>
      && result[tf] in files && Matches(result[tf], tf)
      && forall f :: f in files && Matches(f, tf) ==> LexLe(f, result[tf])
  {
    var tfs := if timeframes.None? then DefaultTimeframes else timeframes.value;
    result := map[];
    for i := 0 to |tfs|
      invariant forall tf :: tf in result <==> tf in tfs[..i] && exists f :: f in files && Matches(f, tf)
      invariant forall tf :: tf in result ==> result[tf] == Greatest(MatchingFiles(files, tf))
      invariant forall tf :: tf in result ==>
        && result[tf] in files && Matches(result[tf], tf)
        && forall f :: f in files && Matches(f, tf) ==> LexLe(f, result[tf])
    {
      var timeframe := tfs[i];
      var matching := MatchingFiles(files, timeframe);
      assert tfs[..i + 1] == tfs[..i] + [timeframe];
      if matching != [] {
        GreatestIsMax(matching);
        result := result[timeframe := Greatest(matching)];
      } else {
        assert forall f :: f in files ==> !Matches(f, timeframe);
      }
    }
    assert tfs[..|tfs|] == tfs;
  }

  /** A chart saved under a requested timeframe is found, and the chart chosen for that
      timeframe is no older than it. */
  lemma SavedChartIsFound(files: seq<string>, timeframe: string, timestamp: string, clock: string)
    requires ChartFilename(timeframe, Some(timestamp), clock) in files
    ensures MatchingFiles(files, timeframe) != []
    ensures LexLe(ChartFilename(timeframe, Some(timestamp), clock), Greatest(MatchingFiles(files, timeframe)))
  {
    var name := ChartFilename(timeframe, Some(timestamp), clock);
    assert name in MatchingFiles(files, timeframe);
    GreatestIsMax(MatchingFiles(files, timeframe));
  }
}
