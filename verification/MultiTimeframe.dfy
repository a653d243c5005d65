/**
 Higher candles built from a never-ending minute stream: after every base bar the
 stream has yielded exactly the finished buckets a batch grouping of the delivered
 minutes contains, in order, each once. Times are whole minutes since the epoch.
 */
module MultiTimeframe {
  import opened Common

  datatype Timeframe = M1 | M5 | H1 | H4 | D1 | Untracked(tag: string)

  datatype Bar = Bar(ts: int, open: real, high: real, low: real, close: real, volume: real, timeframe: Timeframe,
                     warmup: bool, complete: bool, evidenceGap: bool)

  predicate Supported(tf: Timeframe) { tf in {M5, H1, H4, D1} }

  // ---- bucket arithmetic ----

  function Width(tf: Timeframe): int {
    match tf
    case M5 => 5
    case H1 => 60
    case H4 => 240
    case D1 => 1440
    case _ => 1
  }

  function MinuteOf(ts: int): int { ts % 60 }

  function HourOf(ts: int): int { (ts / 60) % 24 }

  /** Replace the clock fields below the timeframe, as a calendar does. */
  function BucketStart(ts: int, tf: Timeframe): int {
    match tf
    case D1 => ts - HourOf(ts) * 60 - MinuteOf(ts)
    case M5 => ts - MinuteOf(ts) % 5
    case H1 => ts - MinuteOf(ts)
    case H4 => ts - (HourOf(ts) % 4) * 60 - MinuteOf(ts)
    case _ => ts
  }

  function BucketEnd(start: int, tf: Timeframe): int { start + Width(tf) }

  predicate ClosesBucket(bar: Bar, start: int, tf: Timeframe) { bar.ts + 1 == BucketEnd(start, tf) }

  /** The calendar fields agree with one grid of the timeframe's width. */
  lemma BucketStartIsGrid(ts: int, tf: Timeframe)
    ensures BucketStart(ts, tf) == ts - ts % Width(tf)
  {
    match tf
    case D1 => DayGrid(ts);
    case H4 => FourHourGrid(ts);
    case M5 => FiveMinuteGrid(ts);
    case _ =>
  }

  lemma DayGrid(ts: int)
    ensures HourOf(ts) * 60 + MinuteOf(ts) == ts % 1440
  {
    var days := ts / 60 / 24;
    assert ts == days * 1440 + (HourOf(ts) * 60 + MinuteOf(ts));
    RemainderIs(ts, 1440, days, HourOf(ts) * 60 + MinuteOf(ts));
  }

  lemma FourHourGrid(ts: int)
    ensures (HourOf(ts) % 4) * 60 + MinuteOf(ts) == ts % 240
  {
    var days, inDay := ts / 60 / 24, HourOf(ts);
    assert inDay == (inDay / 4) * 4 + inDay % 4;
    assert ts == days * 1440 + inDay * 60 + MinuteOf(ts);
    RemainderIs(ts, 240, days * 6 + inDay / 4, (inDay % 4) * 60 + MinuteOf(ts));
  }

  lemma FiveMinuteGrid(ts: int)
    ensures MinuteOf(ts) % 5 == ts % 5
  {
    var minute := MinuteOf(ts);
    assert minute == (minute / 5) * 5 + minute % 5;
    RemainderIs(ts, 5, ts / 60 * 12 + minute / 5, minute % 5);
  }

  lemma RemainderIs(ts: int, width: int, quotient: int, rest: int)
    requires width in {5, 240, 1440} && ts == quotient * width + rest && 0 <= rest < width
    ensures ts % width == rest
  {
  }

  lemma Grid(a: int, b: int, tf: Timeframe)
    requires Supported(tf) && a <= b
    ensures BucketStart(a, tf) <= a < BucketStart(a, tf) + Width(tf)
    ensures BucketStart(b, tf) <= b < BucketStart(b, tf) + Width(tf)
    ensures BucketStart(a, tf) == BucketStart(b, tf) || BucketStart(a, tf) + Width(tf) <= BucketStart(b, tf)
  {
    hide BucketStart;
    BucketStartIsGrid(a, tf);
    BucketStartIsGrid(b, tf);
  }

  // ---- the minutes that count ----

  predicate Increasing(ms: seq<Bar>) {
    forall i, j :: 0 <= i < j < |ms| ==> ms[i].ts < ms[j].ts
  }

  function LastOf(ms: seq<Bar>): Bar
    requires ms != []
  {
    ms[|ms| - 1]
  }

  predicate Admitted(ms: seq<Bar>, bar: Bar) {
    bar.timeframe == M1 && (ms == [] || bar.ts > LastOf(ms).ts)
  }

  /** A minute that does not follow its predecessor carries the gap. */
  function Marked(ms: seq<Bar>, bar: Bar): Bar {
    if ms != [] && bar.ts != LastOf(ms).ts + 1 then bar.(evidenceGap := true) else bar
  }

  /** The delivered minutes of a stream: page overlap never counts twice. */
  function Delivered(stream: seq<Bar>): (ms: seq<Bar>)
    ensures Increasing(ms)
  {
    if stream == [] then []
    else
      var ms := Delivered(stream[..|stream| - 1]);
      var bar := LastOf(stream);
      if Admitted(ms, bar) then ms + [Marked(ms, bar)] else ms
  }

  // ---- batch grouping ----

  /** The minutes of one bucket, in order. */
  function InBucket(ms: seq<Bar>, tf: Timeframe, start: int): seq<Bar> {
    if ms == [] then []
    else InBucket(ms[..|ms| - 1], tf, start) + if BucketStart(LastOf(ms).ts, tf) == start then [LastOf(ms)] else []
  }

  /** The non-empty buckets, in order of appearance. */
  function Starts(ms: seq<Bar>, tf: Timeframe): (ss: seq<int>)
    ensures ss == [] <==> ms == []
    ensures ms != [] ==> ss[|ss| - 1] == BucketStart(LastOf(ms).ts, tf) && ss[0] == BucketStart(ms[0].ts, tf)
    ensures forall s :: s in ss ==> InBucket(ms, tf, s) != []
  {
    if ms == [] then []
    else
      var before := Starts(ms[..|ms| - 1], tf);
      var s := BucketStart(LastOf(ms).ts, tf);
      if before != [] && before[|before| - 1] == s then before else before + [s]
  }

  function Highest(bars: seq<Bar>): (high: real)
    requires bars != []
    ensures forall b :: b in bars ==> b.high <= high
    ensures exists b :: b in bars && b.high == high
  {
    if |bars| == 1 then bars[0].high
    else
      var init := bars[..|bars| - 1];
      assert bars == init + [LastOf(bars)];
      assert LastOf(bars) in bars;
      Max(Highest(init), LastOf(bars).high)
  }

  function Lowest(bars: seq<Bar>): (low: real)
    requires bars != []
    ensures forall b :: b in bars ==> low <= b.low
    ensures exists b :: b in bars && b.low == low
  {
    if |bars| == 1 then bars[0].low
    else
      var init := bars[..|bars| - 1];
      assert bars == init + [LastOf(bars)];
      assert LastOf(bars) in bars;
      Min(Lowest(init), LastOf(bars).low)
  }

  function Traded(bars: seq<Bar>): real {
    if bars == [] then 0.0 else Traded(bars[..|bars| - 1]) + LastOf(bars).volume
  }

  predicate BucketIsComplete(bars: seq<Bar>, tf: Timeframe, start: int)
    requires bars != []
  {
    && |bars| == Width(tf)
    && bars[0].ts == start
    && LastOf(bars).ts == start + Width(tf) - 1
    && forall i :: 0 < i < |bars| ==> bars[i].ts - bars[i - 1].ts == 1
  }

  /** One candle for a bucket, labelled with the bucket's right edge. */
  function Aggregate(bars: seq<Bar>, tf: Timeframe, start: int): Bar
    requires bars != []
  {
    Bar(BucketEnd(start, tf), bars[0].open, Highest(bars), Lowest(bars), LastOf(bars).close, Traded(bars), tf,
        forall b :: b in bars ==> b.warmup, BucketIsComplete(bars, tf, start), false)
  }

  /** The batch candles of a list of buckets. */
  function Candles(ms: seq<Bar>, tf: Timeframe, ss: seq<int>): seq<Bar>
    requires forall s :: s in ss ==> InBucket(ms, tf, s) != []
  {
    seq(|ss|, i requires 0 <= i < |ss| => Aggregate(InBucket(ms, tf, ss[i]), tf, ss[i]))
  }

  /** The newest bucket still waits for minutes. */
  predicate Unfinished(ms: seq<Bar>, tf: Timeframe) {
    ms != [] && LastOf(ms).ts + 1 < BucketEnd(BucketStart(LastOf(ms).ts, tf), tf)
  }

  /** The stream began inside its first bucket. */
  predicate StartsInside(ms: seq<Bar>, tf: Timeframe) {
    ms != [] && ms[0].ts != BucketStart(ms[0].ts, tf)
  }

  function Trim(ss: seq<int>, inside: bool, unfinished: bool): (due: seq<int>)
    ensures forall s :: s in due ==> s in ss
  {
    var lo := if inside then 1 else 0;
    var hi := if unfinished then |ss| - 1 else |ss|;
    if lo <= hi then ss[lo..hi] else []
  }

  /** Every bucket but a first one the stream began inside and a last one it has not reached the end of. */
  function DueStarts(ms: seq<Bar>, tf: Timeframe): (due: seq<int>)
    ensures forall s :: s in due ==> s in Starts(ms, tf)
  {
    Trim(Starts(ms, tf), StartsInside(ms, tf), Unfinished(ms, tf))
  }

  function DueCandles(ms: seq<Bar>, tf: Timeframe): seq<Bar> { Candles(ms, tf, DueStarts(ms, tf)) }

  lemma TrimFinished(ss: seq<int>, inside: bool)
    requires ss != []
    ensures Trim(ss, inside, false) ==
            Trim(ss, inside, true) + if |ss| > 1 || !inside then [ss[|ss| - 1]] else []
  {
  }

  lemma TrimBound(ss: seq<int>, inside: bool)
    requires ss != [] && forall i, j :: 0 <= i < j < |ss| ==> ss[i] < ss[j]
    ensures ss[|ss| - 1] !in Trim(ss, inside, true)
  {
  }

  lemma TrimNext(ss: seq<int>, inside: bool, s: int)
    requires ss != []
    ensures Trim(ss + [s], inside, true) == Trim(ss, inside, false)
  {
  }

  // ---- one more minute ----

  lemma Appended(ms: seq<Bar>, b: Bar, tf: Timeframe, s: int)
    ensures InBucket(ms + [b], tf, s) == InBucket(ms, tf, s) + if BucketStart(b.ts, tf) == s then [b] else []
    ensures Starts(ms + [b], tf) ==
            if ms != [] && BucketStart(LastOf(ms).ts, tf) == BucketStart(b.ts, tf) then Starts(ms, tf)
            else Starts(ms, tf) + [BucketStart(b.ts, tf)]
  {
    hide BucketStart;
    assert (ms + [b])[..|ms|] == ms;
    assert LastOf(ms + [b]) == b;
  }

  lemma {:induction false} NothingLater(ms: seq<Bar>, tf: Timeframe, s: int)
    requires Supported(tf) && Increasing(ms)
    requires ms != [] ==> BucketStart(LastOf(ms).ts, tf) < s
    ensures InBucket(ms, tf, s) == []
  {
    hide BucketStart;
    if ms != [] {
      var init := ms[..|ms| - 1];
      if init != [] {
        Grid(LastOf(init).ts, LastOf(ms).ts, tf);
      }
      NothingLater(init, tf, s);
    }
  }

  /** Bucket starts appear in increasing order, the first bucket only ever first. */
  lemma {:induction false} StartsIncrease(ms: seq<Bar>, tf: Timeframe)
    requires Supported(tf) && Increasing(ms)
    ensures forall i, j :: 0 <= i < j < |Starts(ms, tf)| ==> Starts(ms, tf)[i] < Starts(ms, tf)[j]
  {
    hide BucketStart;
    if ms != [] {
      var init := ms[..|ms| - 1];
      StartsIncrease(init, tf);
      if init != [] {
        Grid(LastOf(init).ts, LastOf(ms).ts, tf);
      }
    }
  }

  /** While there is one bucket, it holds every minute so far. */
  lemma {:induction false} SingleBucket(ms: seq<Bar>, tf: Timeframe)
    requires |Starts(ms, tf)| == 1
    ensures InBucket(ms, tf, Starts(ms, tf)[0]) == ms
  {
    hide BucketStart;
    var init := ms[..|ms| - 1];
    assert init + [LastOf(ms)] == ms;
    if init != [] {
      SingleBucket(init, tf);
    }
  }

  /** The candles due for one timeframe when a minute arrives. */
  function Fresh(ms: seq<Bar>, b: Bar, tf: Timeframe): seq<Bar> {
    var before := |DueCandles(ms, tf)|;
    var after := DueCandles(ms + [b], tf);
    if before <= |after| then after[before..] else []
  }

  predicate Newer(ms: seq<Bar>, b: Bar) { Increasing(ms) && (ms == [] || LastOf(ms).ts < b.ts) }

  /** Candles of buckets that later minutes do not touch stay as they were. */
  lemma CandlesKept(ms: seq<Bar>, b: Bar, tf: Timeframe, ss: seq<int>)
    requires forall s :: s in ss ==> InBucket(ms, tf, s) != [] && s != BucketStart(b.ts, tf)
    ensures forall s :: s in ss ==> InBucket(ms + [b], tf, s) == InBucket(ms, tf, s)
    ensures Candles(ms + [b], tf, ss) == Candles(ms, tf, ss)
  {
    hide BucketStart, InBucket, Aggregate;
    forall s | s in ss ensures InBucket(ms + [b], tf, s) == InBucket(ms, tf, s) {
      Appended(ms, b, tf, s);
    }
  }

  lemma CandlesAppend(ms: seq<Bar>, tf: Timeframe, ss: seq<int>, more: seq<int>)
    requires forall s :: s in ss + more ==> InBucket(ms, tf, s) != []
    ensures forall s :: s in ss || s in more ==> s in ss + more
    ensures Candles(ms, tf, ss + more) == Candles(ms, tf, ss) + Candles(ms, tf, more)
  {
    hide BucketStart, InBucket, Aggregate;
    forall s | s in ss || s in more ensures s in ss + more {}
    assert forall i :: 0 <= i < |ss| ==> (ss + more)[i] == ss[i];
    assert forall i :: 0 <= i < |more| ==> (ss + more)[|ss| + i] == more[i];
  }

  /** The due buckets after a minute inside the open bucket. */
  lemma SameBucketStarts(ms: seq<Bar>, b: Bar, tf: Timeframe)
    requires Supported(tf) && Newer(ms, b) && ms != []
    requires BucketStart(LastOf(ms).ts, tf) == BucketStart(b.ts, tf)
    ensures Unfinished(ms, tf)
    ensures BucketStart(b.ts, tf) !in DueStarts(ms, tf)
    ensures DueStarts(ms + [b], tf) == DueStarts(ms, tf) +
            if ClosesBucket(b, BucketStart(b.ts, tf), tf) && (|Starts(ms, tf)| > 1 || !StartsInside(ms, tf))
            then [BucketStart(b.ts, tf)] else []
  {
    hide BucketStart, InBucket, Starts, Trim;
    var ss := Starts(ms, tf);
    Grid(LastOf(ms).ts, b.ts, tf);
    StartsIncrease(ms, tf);
    Appended(ms, b, tf, 0);
    assert (ms + [b])[0] == ms[0] && LastOf(ms + [b]) == b;
    TrimFinished(ss, StartsInside(ms, tf));
    TrimBound(ss, StartsInside(ms, tf));
  }

  /** The due buckets after a minute of a later bucket. */
  lemma NextBucketStarts(ms: seq<Bar>, b: Bar, tf: Timeframe)
    requires Supported(tf) && Newer(ms, b) && ms != []
    requires BucketStart(LastOf(ms).ts, tf) != BucketStart(b.ts, tf)
    ensures BucketStart(b.ts, tf) !in DueStarts(ms, tf)
    ensures DueStarts(ms + [b], tf) == DueStarts(ms, tf)
            + (if Unfinished(ms, tf) && (|Starts(ms, tf)| > 1 || !StartsInside(ms, tf))
               then [BucketStart(LastOf(ms).ts, tf)] else [])
            + (if ClosesBucket(b, BucketStart(b.ts, tf), tf) then [BucketStart(b.ts, tf)] else [])
  {
    hide BucketStart, InBucket, Starts, Trim;
    var ss, inside := Starts(ms, tf), StartsInside(ms, tf);
    Grid(LastOf(ms).ts, b.ts, tf);
    StartsIncrease(ms, tf);
    Appended(ms, b, tf, 0);
    assert (ms + [b])[0] == ms[0] && LastOf(ms + [b]) == b;
    TrimFinished(ss, inside);
    TrimNext(ss, inside, BucketStart(b.ts, tf));
    TrimFinished(ss + [BucketStart(b.ts, tf)], inside);
  }

  function Maybe(emit: bool, bars: seq<Bar>, tf: Timeframe, start: int): seq<Bar> {
    if emit && bars != [] then [Aggregate(bars, tf, start)] else []
  }

  lemma MaybeCandle(ms: seq<Bar>, tf: Timeframe, emit: bool, s: int)
    requires InBucket(ms, tf, s) != []
    ensures Candles(ms, tf, if emit then [s] else []) == Maybe(emit, InBucket(ms, tf, s), tf, s)
  {
    hide BucketStart, InBucket, Aggregate;
  }

  /** A minute inside the open bucket yields that bucket exactly when it is the bucket's last. */
  lemma SameBucket(ms: seq<Bar>, b: Bar, tf: Timeframe)
    requires Supported(tf) && Newer(ms, b) && ms != []
    requires BucketStart(LastOf(ms).ts, tf) == BucketStart(b.ts, tf)
    ensures DueCandles(ms + [b], tf) == DueCandles(ms, tf) + Maybe(
            ClosesBucket(b, BucketStart(b.ts, tf), tf) && (|Starts(ms, tf)| > 1 || !StartsInside(ms, tf)),
            InBucket(ms + [b], tf, BucketStart(b.ts, tf)), tf, BucketStart(b.ts, tf))
  {
    hide BucketStart, InBucket, Aggregate, DueStarts, StartsInside, ClosesBucket, Unfinished, Candles;
    var s := BucketStart(b.ts, tf);
    SameBucketStarts(ms, b, tf);
    CandlesKept(ms, b, tf, DueStarts(ms, tf));
    Appended(ms, b, tf, s);
    var closes := ClosesBucket(b, s, tf) && (|Starts(ms, tf)| > 1 || !StartsInside(ms, tf));
    CandlesAppend(ms + [b], tf, DueStarts(ms, tf), if closes then [s] else []);
    MaybeCandle(ms + [b], tf, closes, s);
  }

  /** A minute of a later bucket yields the bucket it ends, if that was still open, and its own if it closes it. */
  lemma NextBucket(ms: seq<Bar>, b: Bar, tf: Timeframe)
    requires Supported(tf) && Newer(ms, b) && ms != []
    requires BucketStart(LastOf(ms).ts, tf) != BucketStart(b.ts, tf)
    ensures InBucket(ms + [b], tf, BucketStart(b.ts, tf)) == [b]
    ensures DueCandles(ms + [b], tf) == DueCandles(ms, tf)
            + Maybe(Unfinished(ms, tf) && (|Starts(ms, tf)| > 1 || !StartsInside(ms, tf)),
                    InBucket(ms, tf, BucketStart(LastOf(ms).ts, tf)), tf, BucketStart(LastOf(ms).ts, tf))
            + Maybe(ClosesBucket(b, BucketStart(b.ts, tf), tf), [b], tf, BucketStart(b.ts, tf))
  {
    hide BucketStart, InBucket, Aggregate, DueStarts, StartsInside, ClosesBucket, Unfinished, Candles, Maybe, Starts;
    var s, previous := BucketStart(b.ts, tf), BucketStart(LastOf(ms).ts, tf);
    NextBucketStarts(ms, b, tf);
    var due := DueStarts(ms, tf);
    CandlesKept(ms, b, tf, due);
    Grid(LastOf(ms).ts, b.ts, tf);
    NothingLater(ms, tf, s);
    Appended(ms, b, tf, s);
    Appended(ms, b, tf, previous);
    assert InBucket(ms, tf, previous) != [] by { assert previous in Starts(ms, tf); }
    var ends, closes := Unfinished(ms, tf) && (|Starts(ms, tf)| > 1 || !StartsInside(ms, tf)), ClosesBucket(b, s, tf);
    var ended := if ends then [previous] else [];
    var closed := if closes then [s] else [];
    assert InBucket(ms + [b], tf, s) == [b];
    assert InBucket(ms + [b], tf, previous) == InBucket(ms, tf, previous);
    CandlesAppend(ms + [b], tf, due + ended, closed);
    CandlesAppend(ms + [b], tf, due, ended);
    MaybeCandle(ms + [b], tf, ends, previous);
    MaybeCandle(ms + [b], tf, closes, s);
  }

  /** A first minute never yields a candle: no bucket is one minute wide. */
  lemma FirstMinute(b: Bar, tf: Timeframe)
    requires Supported(tf)
    ensures DueCandles([b], tf) == DueCandles([], tf) == []
    ensures InBucket([b], tf, BucketStart(b.ts, tf)) == [b] && Starts([b], tf) == [BucketStart(b.ts, tf)]
    ensures Unfinished([b], tf) <==> !ClosesBucket(b, BucketStart(b.ts, tf), tf)
    ensures ClosesBucket(b, BucketStart(b.ts, tf), tf) ==> StartsInside([b], tf)
  {
    hide BucketStart;
    Grid(b.ts, b.ts, tf);
    Appended([], b, tf, BucketStart(b.ts, tf));
    assert [] + [b] == [b];
  }

  // ---- the stream ----

  /** What one timeframe holds after the delivered minutes: the open bucket only. */
  ghost predicate Tracks(ms: seq<Bar>, tf: Timeframe, start: Option<int>, bars: seq<Bar>, first: bool) {
    && start == (if ms == [] then None else Some(BucketStart(LastOf(ms).ts, tf)))
    && bars == (if Unfinished(ms, tf) then InBucket(ms, tf, BucketStart(LastOf(ms).ts, tf)) else [])
    && (first <==> ms == [] || (|Starts(ms, tf)| == 1 && Unfinished(ms, tf)))
  }

  /** The open bucket of a first timeframe holds every minute, so its first minute is the stream's. */
  lemma OpenBucket(ms: seq<Bar>, tf: Timeframe)
    requires ms != []
    ensures var bars := InBucket(ms, tf, BucketStart(LastOf(ms).ts, tf));
            bars != [] && (|Starts(ms, tf)| == 1 ==> bars == ms)
    ensures BucketStart(ms[0].ts, tf) == Starts(ms, tf)[0]
  {
    hide BucketStart, InBucket;
    if |Starts(ms, tf)| == 1 {
      SingleBucket(ms, tf);
    }
  }

  lemma FreshIs(ms: seq<Bar>, b: Bar, tf: Timeframe, more: seq<Bar>)
    requires DueCandles(ms + [b], tf) == DueCandles(ms, tf) + more
    ensures Fresh(ms, b, tf) == more
  {
    hide DueCandles;
  }

  /** One minute for one timeframe. */
  method TakeMinute(tf: Timeframe, b: Bar, start: Option<int>, bars: seq<Bar>, first: bool, ghost ms: seq<Bar>)
    returns (start': Option<int>, bars': seq<Bar>, first': bool, completed: seq<Bar>)
    requires Supported(tf) && Newer(ms, b) && Tracks(ms, tf, start, bars, first)
    ensures Tracks(ms + [b], tf, start', bars', first')
    ensures completed == Fresh(ms, b, tf)
    ensures start'.Some? && (first' ==> first)
  {
    hide BucketStart, InBucket, Aggregate, DueCandles, Fresh, Starts;
    start', bars', first', completed := start, bars, first, [];
    var s := BucketStart(b.ts, tf);
    assert LastOf(ms + [b]) == b;
    Appended(ms, b, tf, s);
    Grid(b.ts, b.ts, tf);
    if ms == [] {
      assert ms + [b] == [b];
      FirstMinute(b, tf);
    } else {
      OpenBucket(ms, tf);
      assert (ms + [b])[0] == ms[0];
      Grid(LastOf(ms).ts, b.ts, tf);
      if start == Some(s) { SameBucket(ms, b, tf); } else { NextBucket(ms, b, tf); }
    }
    OpenBucket(ms + [b], tf);
    if start.Some? && s != start.value && bars != [] {
      if !first || bars[0].ts == start.value {
        completed := completed + [Aggregate(bars, tf, start.value)];
      }
      first' := false;
      bars' := [];
    }
    start' := Some(s);
    bars' := bars' + [b];
    assert bars' == InBucket(ms + [b], tf, s);
    if ClosesBucket(b, s, tf) {
      if !first' || bars'[0].ts == s {
        completed := completed + [Aggregate(bars', tf, s)];
      }
      first' := false;
      bars' := [];
    }
    FreshIs(ms, b, tf, completed);
  }

  function FreshAll(ms: seq<Bar>, b: Bar, tfs: seq<Timeframe>): seq<Bar> {
    if tfs == [] then [] else FreshAll(ms, b, tfs[..|tfs| - 1]) + Fresh(ms, b, tfs[|tfs| - 1])
  }

  /** The bars yielded for one base bar: the minute first, then the candles it made due. */
  function Yielded(ms: seq<Bar>, bar: Bar, tfs: seq<Timeframe>): seq<Bar> {
    if bar.timeframe != M1 then [bar]
    else if !Admitted(ms, bar) then []
    else [Marked(ms, bar)] + FreshAll(ms, Marked(ms, bar), tfs)
  }

  predicate Configured(tfs: seq<Timeframe>) {
    && (forall tf :: tf in tfs ==> Supported(tf))
    && forall i, j :: 0 <= i < j < |tfs| ==> tfs[i] != tfs[j]
  }

  function Get<K, V>(m: map<K, V>, key: K): Option<V> { if key in m then Some(m[key]) else None }

  ghost predicate TracksAll(ms: seq<Bar>, tfs: seq<Timeframe>, starts: map<Timeframe, int>,
                            bars: map<Timeframe, seq<Bar>>, first: set<Timeframe>) {
    forall tf :: tf in tfs ==> tf in bars && Tracks(ms, tf, Get(starts, tf), bars[tf], tf in first)
  }

  /** Aggregate a never-ending minute stream without preloading it; out[i] is what base bar i makes it yield. */
  method StreamIncremental(stream: seq<Bar>, tfs: seq<Timeframe>) returns (out: seq<seq<Bar>>)
    requires Configured(tfs)
    ensures |out| == |stream|
    ensures forall i :: 0 <= i < |out| ==> out[i] == Yielded(Delivered(stream[..i]), stream[i], tfs)
  {
    hide Tracks, Fresh, FreshAll, TracksAll, Delivered, Increasing;
    var starts: map<Timeframe, int> := map[];
    var bars := map tf | tf in tfs :: [];
    var first := set tf | tf in tfs;
    var last: Option<int> := None;
    ghost var ms: seq<Bar> := Delivered([]);
    NothingTracked(tfs, bars, first);
    out := [];
    var i := 0;
    while i < |stream|
      invariant 0 <= i <= |stream| && |out| == i
      invariant ms == Delivered(stream[..i])
      invariant last == if ms == [] then None else Some(LastOf(ms).ts)
      invariant TracksAll(ms, tfs, starts, bars, first)
      invariant forall k :: 0 <= k < i ==> out[k] == Yielded(Delivered(stream[..k]), stream[k], tfs)
    {
      var bar := stream[i];
      DeliveredNext(stream, i);
      i := i + 1;
      if bar.timeframe != M1 {
        out := out + [[bar]];
        continue;
      }
      if last.Some? && bar.ts <= last.value {
        out := out + [[]];
        continue;
      }
      if last.Some? && bar.ts != last.value + 1 {
        bar := bar.(evidenceGap := true);
      }
      last := Some(bar.ts);
      var completed: seq<Bar>;
      starts, bars, first, completed := TakeAll(tfs, bar, starts, bars, first, ms);
      ms := ms + [bar];
      out := out + [[bar] + completed];
    }
  }

  lemma DeliveredNext(stream: seq<Bar>, i: nat)
    requires i < |stream|
    ensures var ms := Delivered(stream[..i]);
            && Increasing(ms)
            && Delivered(stream[..i + 1]) == if Admitted(ms, stream[i]) then ms + [Marked(ms, stream[i])] else ms
  {
    assert stream[..i + 1][..i] == stream[..i] && LastOf(stream[..i + 1]) == stream[i];
  }

  lemma NothingTracked(tfs: seq<Timeframe>, bars: map<Timeframe, seq<Bar>>, first: set<Timeframe>)
    requires forall tf :: tf in tfs ==> tf in bars && bars[tf] == [] && tf in first
    ensures Delivered([]) == [] && TracksAll([], tfs, map[], bars, first)
  {
  }

  /** One minute for every timeframe, in the configured order. */
  method TakeAll(tfs: seq<Timeframe>, bar: Bar, starts: map<Timeframe, int>, bars: map<Timeframe, seq<Bar>>,
                 first: set<Timeframe>, ghost ms: seq<Bar>)
    returns (starts': map<Timeframe, int>, bars': map<Timeframe, seq<Bar>>, first': set<Timeframe>, completed: seq<Bar>)
    requires Configured(tfs) && Newer(ms, bar) && TracksAll(ms, tfs, starts, bars, first)
    ensures TracksAll(ms + [bar], tfs, starts', bars', first')
    ensures completed == FreshAll(ms, bar, tfs)
  {
    hide Tracks, Fresh, Newer;
    starts', bars', first', completed := starts, bars, first, [];
    var j := 0;
    while j < |tfs|
      invariant 0 <= j <= |tfs|
      invariant TracksAll(ms + [bar], tfs[..j], starts', bars', first')
      invariant TracksAll(ms, tfs[j..], starts', bars', first')
      invariant completed == FreshAll(ms, bar, tfs[..j])
    {
      var tf := tfs[j];
      assert tf in tfs[j..];
      var start, open, isFirst, done := TakeMinute(tf, bar, Get(starts', tf), bars'[tf], tf in first', ms);
      starts' := starts'[tf := start.value];
      bars' := bars'[tf := open];
      if !isFirst {
        first' := first' - {tf};
      }
      completed := completed + done;
      assert tfs[..j + 1][..j] == tfs[..j] && tfs[..j + 1][j] == tf;
      assert forall other :: other in tfs[j + 1..] ==> other != tf && other in tfs[j..];
      assert forall other :: other in tfs[..j + 1] ==> other == tf || (other in tfs[..j] && other != tf);
      j := j + 1;
    }
    assert tfs[..j] == tfs;
  }

  // ---- streaming equals batch ----

  function Of(bars: seq<Bar>, tf: Timeframe): seq<Bar> {
    if bars == [] then [] else Of(bars[..|bars| - 1], tf) + if LastOf(bars).timeframe == tf then [LastOf(bars)] else []
  }

  /** Every candle of one timeframe the minutes of a stream made it yield. */
  function Emitted(stream: seq<Bar>, tfs: seq<Timeframe>, tf: Timeframe): seq<Bar> {
    if stream == [] then []
    else
      var before, bar := stream[..|stream| - 1], LastOf(stream);
      Emitted(before, tfs, tf) + if bar.timeframe == M1 then Of(Yielded(Delivered(before), bar, tfs), tf) else []
  }

  lemma {:induction false} OfConcat(a: seq<Bar>, b: seq<Bar>, tf: Timeframe)
    ensures Of(a + b, tf) == Of(a, tf) + Of(b, tf)
    decreases |b|
  {
    if b == [] {
      assert a + b == a;
    } else {
      assert (a + b)[..|a + b| - 1] == a + b[..|b| - 1];
      OfConcat(a, b[..|b| - 1], tf);
    }
  }

  lemma {:induction false} OfUniform(bars: seq<Bar>, of: Timeframe, tf: Timeframe)
    requires forall b :: b in bars ==> b.timeframe == of
    ensures Of(bars, tf) == if of == tf then bars else []
  {
    if bars != [] {
      OfUniform(bars[..|bars| - 1], of, tf);
    }
  }

  lemma FreshTimeframe(ms: seq<Bar>, b: Bar, tf: Timeframe)
    ensures forall c :: c in Fresh(ms, b, tf) ==> c.timeframe == tf
  {
    hide InBucket, Starts, DueStarts;
  }

  lemma {:induction false} OfFreshAll(ms: seq<Bar>, b: Bar, tfs: seq<Timeframe>, tf: Timeframe)
    requires Configured(tfs)
    ensures Of(FreshAll(ms, b, tfs), tf) == if tf in tfs then Fresh(ms, b, tf) else []
  {
    hide Fresh, Of, Configured;
    if tfs == [] {
      OfUniform([], tf, tf);
    } else {
      var init, last := tfs[..|tfs| - 1], tfs[|tfs| - 1];
      ConfiguredInit(tfs);
      OfFreshAll(ms, b, init, tf);
      OfConcat(FreshAll(ms, b, init), Fresh(ms, b, last), tf);
      FreshTimeframe(ms, b, last);
      OfUniform(Fresh(ms, b, last), last, tf);
      assert tfs == init + [last];
    }
  }

  lemma ConfiguredInit(tfs: seq<Timeframe>)
    requires Configured(tfs) && tfs != []
    ensures Configured(tfs[..|tfs| - 1]) && tfs[|tfs| - 1] !in tfs[..|tfs| - 1]
  {
  }

  lemma DueGrows(ms: seq<Bar>, b: Bar, tf: Timeframe)
    requires Supported(tf) && Newer(ms, b)
    ensures DueCandles(ms + [b], tf) == DueCandles(ms, tf) + Fresh(ms, b, tf)
  {
    hide BucketStart, InBucket, DueCandles, Starts, ClosesBucket, Unfinished, StartsInside, Maybe;
    if ms == [] {
      assert ms + [b] == [b];
      FirstMinute(b, tf);
    } else if BucketStart(LastOf(ms).ts, tf) == BucketStart(b.ts, tf) {
      SameBucket(ms, b, tf);
    } else {
      NextBucket(ms, b, tf);
    }
  }

  lemma NothingDue(tf: Timeframe)
    ensures DueCandles([], tf) == []
  {
  }

  /** One base bar adds exactly the candles that became due. */
  lemma YieldedIsDue(ms: seq<Bar>, bar: Bar, tfs: seq<Timeframe>, tf: Timeframe)
    requires Configured(tfs) && tf in tfs && Increasing(ms) && Admitted(ms, bar)
    ensures DueCandles(ms + [Marked(ms, bar)], tf) == DueCandles(ms, tf) + Of(Yielded(ms, bar, tfs), tf)
  {
    hide DueCandles, Fresh, FreshAll, Of;
    var b := Marked(ms, bar);
    DueGrows(ms, b, tf);
    OfFreshAll(ms, b, tfs, tf);
    OfConcat([b], FreshAll(ms, b, tfs), tf);
    OfUniform([b], M1, tf);
  }

  /**
   After every prefix of every stream, with any overlaps, gaps and jumps, a timeframe's candles
   are the batch candles of the delivered minutes that are due.
   */
  lemma {:induction false} StreamingIsBatch(stream: seq<Bar>, tfs: seq<Timeframe>, tf: Timeframe)
    requires Configured(tfs) && tf in tfs
    ensures Emitted(stream, tfs, tf) == DueCandles(Delivered(stream), tf)
  {
    hide DueCandles, Of, Increasing, Delivered, Marked, Configured, Admitted, FreshAll;
    if stream == [] {
      NothingDue(tf);
      NothingTracked([], map[], {});
    } else {
      var before, bar := stream[..|stream| - 1], LastOf(stream);
      var ms := Delivered(before);
      StreamingIsBatch(before, tfs, tf);
      DeliveredNext(stream, |before|);
      assert stream[..|before| + 1] == stream;
      OnlyMinutes(ms, bar);
      if Admitted(ms, bar) {
        YieldedIsDue(ms, bar, tfs, tf);
      } else {
        OfUniform([], M1, tf);
      }
    }
  }

  lemma OnlyMinutes(ms: seq<Bar>, bar: Bar)
    ensures Admitted(ms, bar) ==> bar.timeframe == M1
  {
  }

  /** What is due is the whole batch but at most its first and its last candle. */
  lemma DueIsBatchTrimmed(ms: seq<Bar>, tf: Timeframe)
    ensures var batch := Candles(ms, tf, Starts(ms, tf));
            var lo := if StartsInside(ms, tf) then 1 else 0;
            var hi := if Unfinished(ms, tf) then |batch| - 1 else |batch|;
            DueCandles(ms, tf) == if lo <= hi then batch[lo..hi] else []
  {
    hide BucketStart, InBucket, Starts, Aggregate, Unfinished, StartsInside;
  }

  /** Each bucket at most once, in order of time. */
  lemma CandlesInOrder(ms: seq<Bar>, tf: Timeframe)
    requires Supported(tf) && Increasing(ms)
    ensures Increasing(DueCandles(ms, tf))
  {
    hide BucketStart, InBucket, Starts, Unfinished, StartsInside;
    StartsIncrease(ms, tf);
    var due := DueStarts(ms, tf);
    assert forall i, j :: 0 <= i < j < |due| ==> due[i] < due[j];
  }

  /** A bucket's bars are the delivered minutes inside it, no more and no fewer, in order. */
  lemma {:induction false} BucketIsExact(ms: seq<Bar>, tf: Timeframe, s: int)
    requires Increasing(ms)
    ensures forall b :: b in InBucket(ms, tf, s) <==> b in ms && BucketStart(b.ts, tf) == s
    ensures Increasing(InBucket(ms, tf, s))
  {
    hide BucketStart, InBucket;
    if ms == [] {
      EmptyBucket(tf, s);
    } else {
      var init, last := ms[..|ms| - 1], LastOf(ms);
      BucketIsExact(init, tf, s);
      assert ms == init + [last];
      Appended(init, last, tf, s);
      forall b | b in init ensures b.ts < last.ts {
        var i :| 0 <= i < |init| && init[i] == b;
        assert ms[i] == b;
      }
      IncreasingAppend(InBucket(init, tf, s), last);
    }
  }

  lemma EmptyBucket(tf: Timeframe, s: int)
    ensures InBucket([], tf, s) == []
  {
  }

  lemma IncreasingAppend(ms: seq<Bar>, b: Bar)
    requires Increasing(ms) && forall m :: m in ms ==> m.ts < b.ts
    ensures Increasing(ms + [b]) && ms + [] == ms
  {
  }

  predicate Reached(ms: seq<Bar>, ts: int) { exists b :: b in ms && b.ts >= ts }

  predicate Has(ms: seq<Bar>, ts: int) { exists b :: b in ms && b.ts == ts }

  lemma {:induction false} StartsAreExact(ms: seq<Bar>, tf: Timeframe, s: int)
    ensures s in Starts(ms, tf) <==> exists b :: b in ms && BucketStart(b.ts, tf) == s
  {
    hide BucketStart, InBucket;
    if ms != [] {
      StartsAreExact(ms[..|ms| - 1], tf, s);
      assert ms == ms[..|ms| - 1] + [LastOf(ms)];
      assert LastOf(ms) in ms;
    }
  }

  lemma LastReached(ms: seq<Bar>, ts: int)
    requires Increasing(ms) && ms != []
    ensures Reached(ms, ts) <==> LastOf(ms).ts >= ts
  {
    assert LastOf(ms) in ms;
    if Reached(ms, ts) {
      var b :| b in ms && b.ts >= ts;
      var i :| 0 <= i < |ms| && ms[i] == b;
      assert i == |ms| - 1 || ms[i].ts < ms[|ms| - 1].ts;
    }
  }

  /**
   A bucket is due exactly when a minute of it was delivered, its end was reached, and the
   stream did not begin inside it.
   */
  lemma DueExactly(ms: seq<Bar>, tf: Timeframe, s: int)
    requires Supported(tf) && Increasing(ms) && ms != []
    ensures s in DueStarts(ms, tf) <==>
            && (exists b :: b in ms && BucketStart(b.ts, tf) == s)
            && Reached(ms, BucketEnd(s, tf) - 1)
            && (BucketStart(ms[0].ts, tf) == s ==> ms[0].ts == s)
  {
    hide BucketStart, InBucket, Reached, Starts;
    var ss := Starts(ms, tf);
    StartsAreExact(ms, tf, s);
    LastReached(ms, BucketEnd(s, tf) - 1);
    StartsIncrease(ms, tf);
    Grid(LastOf(ms).ts, LastOf(ms).ts, tf);
    if s in ss {
      var i :| 0 <= i < |ss| && ss[i] == s;
      StartWithin(ms, tf, i);
      DueIndex(ms, tf, i);
    }
  }

  /** An earlier bucket ends before the newest minute. */
  lemma StartWithin(ms: seq<Bar>, tf: Timeframe, i: nat)
    requires Supported(tf) && Increasing(ms) && i < |Starts(ms, tf)|
    ensures i < |Starts(ms, tf)| - 1 ==> BucketEnd(Starts(ms, tf)[i], tf) <= LastOf(ms).ts
  {
    hide BucketStart, InBucket, Starts;
    var ss := Starts(ms, tf);
    StartsIncrease(ms, tf);
    StartsAreExact(ms, tf, ss[i]);
    var b :| b in ms && BucketStart(b.ts, tf) == ss[i];
    LastReached(ms, b.ts);
    assert Reached(ms, b.ts);
    Grid(b.ts, LastOf(ms).ts, tf);
  }

  lemma DueIndex(ms: seq<Bar>, tf: Timeframe, i: nat)
    requires Supported(tf) && Increasing(ms) && i < |Starts(ms, tf)|
    ensures Starts(ms, tf)[i] in DueStarts(ms, tf) <==>
            (i > 0 || !StartsInside(ms, tf)) && (i < |Starts(ms, tf)| - 1 || !Unfinished(ms, tf))
  {
    hide BucketStart, InBucket, Starts, Unfinished, StartsInside;
    var ss, due := Starts(ms, tf), DueStarts(ms, tf);
    StartsIncrease(ms, tf);
    var lo := if StartsInside(ms, tf) then 1 else 0;
    if lo <= i && (i < |ss| - 1 || !Unfinished(ms, tf)) {
      assert due[i - lo] == ss[i];
    }
  }

  lemma {:induction false} Spread(bars: seq<Bar>, i: nat)
    requires Increasing(bars) && i < |bars|
    ensures bars[i].ts >= bars[0].ts + i
  {
    if i > 0 {
      Spread(bars, i - 1);
    }
  }

  lemma {:induction false} FilledTo(bars: seq<Bar>, start: int, k: nat)
    requires Increasing(bars)
    requires forall b :: b in bars ==> start <= b.ts
    requires forall t :: start <= t <= start + k ==> Has(bars, t)
    ensures k < |bars| && bars[k].ts == start + k
  {
    if k > 0 {
      FilledTo(bars, start, k - 1);
    }
    assert Has(bars, start + k);
    var b :| b in bars && b.ts == start + k;
    var j :| 0 <= j < |bars| && bars[j] == b;
    Spread(bars, j);
    assert bars[0] in bars;
  }

  lemma {:induction false} PairsFill(bars: seq<Bar>, i: nat)
    requires forall k :: 0 < k < |bars| ==> bars[k].ts - bars[k - 1].ts == 1
    requires i < |bars|
    ensures bars[i].ts == bars[0].ts + i
  {
    if i > 0 {
      PairsFill(bars, i - 1);
    }
  }

  /** A candle is complete exactly when every minute of its bucket was delivered. */
  lemma CompleteExactly(ms: seq<Bar>, tf: Timeframe, s: int)
    requires Supported(tf) && Increasing(ms) && InBucket(ms, tf, s) != []
    ensures BucketIsComplete(InBucket(ms, tf, s), tf, s) <==> forall t :: s <= t < BucketEnd(s, tf) ==> Has(ms, t)
  {
    hide BucketStart, InBucket, Has;
    var bars := InBucket(ms, tf, s);
    BucketIsExact(ms, tf, s);
    forall b | b in bars ensures s <= b.ts < BucketEnd(s, tf) { Grid(b.ts, b.ts, tf); }
    if BucketIsComplete(bars, tf, s) {
      forall t | s <= t < BucketEnd(s, tf) ensures Has(ms, t) {
        PairsFill(bars, t - s);
        assert bars[t - s] in bars;
        HasIs(ms, bars[t - s]);
      }
    }
    if forall t :: s <= t < BucketEnd(s, tf) ==> Has(ms, t) {
      forall t | s <= t < BucketEnd(s, tf) ensures Has(bars, t) {
        var b := Witness(ms, t);
        InGrid(b.ts, s, tf, bars[0].ts);
        HasIs(bars, b);
      }
      FilledIsComplete(bars, tf, s);
    }
  }

  lemma HasIs(ms: seq<Bar>, b: Bar)
    requires b in ms
    ensures Has(ms, b.ts)
  {
  }

  lemma Witness(ms: seq<Bar>, t: int) returns (b: Bar)
    requires Has(ms, t)
    ensures b in ms && b.ts == t
  {
    b :| b in ms && b.ts == t;
  }

  lemma FilledIsComplete(bars: seq<Bar>, tf: Timeframe, s: int)
    requires Supported(tf) && Increasing(bars) && bars != []
    requires forall b :: b in bars ==> s <= b.ts < BucketEnd(s, tf)
    requires forall t :: s <= t < BucketEnd(s, tf) ==> Has(bars, t)
    ensures BucketIsComplete(bars, tf, s)
  {
    hide Has;
    forall k: nat | k < Width(tf) ensures k < |bars| && bars[k].ts == s + k {
      FilledTo(bars, s, k);
    }
    FilledTo(bars, s, Width(tf) - 1);
    Spread(bars, |bars| - 1);
    assert LastOf(bars) in bars && bars[0] in bars;
    assert forall i :: 0 <= i < |bars| ==> bars[i].ts == s + i;
  }

  /** A minute inside a bucket belongs to it. */
  lemma InGrid(t: int, s: int, tf: Timeframe, inside: int)
    requires Supported(tf) && BucketStart(inside, tf) == s && s <= t < BucketEnd(s, tf)
    ensures BucketStart(t, tf) == s
  {
    hide BucketStart;
    if t <= inside {
      Grid(t, inside, tf);
    } else {
      Grid(inside, t, tf);
    }
  }

  // ---- gaps are reported ----

  lemma {:induction false} GapsAreMarked(stream: seq<Bar>)
    ensures var ms := Delivered(stream);
            forall i :: 0 < i < |ms| && ms[i].ts != ms[i - 1].ts + 1 ==> ms[i].evidenceGap
  {
    if stream != [] {
      var before := stream[..|stream| - 1];
      GapsAreMarked(before);
      DeliveredNext(stream, |before|);
      assert stream[..|before| + 1] == stream;
    }
  }

  lemma {:induction false} FirstAfter(ms: seq<Bar>, t: int, n: nat) returns (i: nat)
    requires Increasing(ms) && n < |ms| && ms[0].ts < t < ms[n].ts && !Has(ms, t)
    ensures 0 < i <= n && ms[i - 1].ts < t < ms[i].ts
    decreases n
  {
    assert ms[n - 1] in ms;
    if ms[n - 1].ts < t {
      i := n;
    } else {
      i := FirstAfter(ms, t, n - 1);
    }
  }

  /** No hole is silent: behind an incomplete candle is a delivered minute that carries the gap. */
  lemma IncompleteWasReported(stream: seq<Bar>, tf: Timeframe, s: int)
    requires Supported(tf) && s in DueStarts(Delivered(stream), tf)
    requires !BucketIsComplete(InBucket(Delivered(stream), tf, s), tf, s)
    ensures exists b :: b in Delivered(stream) && b.evidenceGap && b.ts > s
  {
    hide BucketEnd;
    hide BucketStart, InBucket, DueStarts, Starts, BucketIsComplete;
    var ms := Delivered(stream);
    CompleteExactly(ms, tf, s);
    var t :| s <= t < BucketEnd(s, tf) && !Has(ms, t);
    StartsAreExact(ms, tf, s);
    assert s in Starts(ms, tf);
    assert ms != [];
    DueExactly(ms, tf, s);
    LastReached(ms, BucketEnd(s, tf) - 1);
    assert LastOf(ms) in ms && ms[0] in ms;
    assert ms[0].ts < t by {
      var b :| b in ms && BucketStart(b.ts, tf) == s;
      LastReached([ms[0]], b.ts);
      FirstIsLeast(ms, b);
      Grid(ms[0].ts, b.ts, tf);
    }
    var i := FirstAfter(ms, t, |ms| - 1);
    GapsAreMarked(stream);
    assert ms[i] in ms && ms[i].evidenceGap;
  }

  lemma FirstIsLeast(ms: seq<Bar>, b: Bar)
    requires Increasing(ms) && b in ms
    ensures ms[0].ts <= b.ts
  {
    var i :| 0 <= i < |ms| && ms[i] == b;
  }
}
