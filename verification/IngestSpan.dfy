/** What one ingest job fetches, folds and stores, and when that is the whole published span. */
module IngestSpan {
  import opened Common
  import opened Calendar
  import opened CandleFold

  /** A job's key; `start` is the start of its span. */
  datatype JobKey = JobKey(symbol: string, resolution: string, start: nat)

  /** A day's file, never changed once it appears at time `at`. */
  datatype File = File(at: int, candles: seq<Candle>)

  /** The archive, by folder and day start. */
  type Archive = (string, int) -> Option<File>

  type Instruments = map<string, string>

  const PUBLISH_SAFETY_MARGIN_MS: int := 6 * 60 * 60 * 1000

  function TargetSeconds(resolution: string): Option<int> {
    if resolution == "1m" then Some(60) else if resolution == "1h" then Some(3600)
    else if resolution == "1d" then Some(86400) else None
  }

  predicate Known(folders: Instruments, k: JobKey) {
    k.symbol in folders && TargetSeconds(k.resolution).Some?
  }

  function Published(f: Option<File>): Option<seq<Candle>> {
    match f case None => None case Some(file) => Some(file.candles)
  }

  /** What a fetch answered at time `t` returns. */
  function Fetched(archive: Archive, folder: string, day: int, t: int): Option<seq<Candle>> {
    match archive(folder, day)
    case None => None
    case Some(file) => if file.at <= t then Some(file.candles) else None
  }

  function SpanEnd(k: JobKey): int {
    if k.resolution == "1h" then NextMonthStartMs(k.start) else NextYearStartMs(k.start)
  }

  function SpanDays(k: JobKey): seq<int> {
    DayStarts(k.start, SpanEnd(k))
  }

  function Minutes(days: seq<Option<seq<Candle>>>): seq<seq<Candle>> {
    seq(|days|, i requires 0 <= i < |days| => if days[i].Some? then days[i].value else [])
  }

  function PublishedDays(archive: Archive, folder: string, days: seq<int>): seq<Option<seq<Candle>>> {
    seq(|days|, i requires 0 <= i < |days| => Published(archive(folder, days[i])))
  }

  /** The chunk the span should have once the archive is final. */
  function Expected(archive: Archive, folders: Instruments, k: JobKey): seq<Candle>
    requires Known(folders, k)
  {
    if k.resolution == "1m" then Minutes([Published(archive(folders[k.symbol], k.start))])[0]
    else
      Fold(Flatten(Minutes(PublishedDays(archive, folders[k.symbol], SpanDays(k)))),
           Buckets(TargetSeconds(k.resolution).value * 1000))
  }

  datatype Outcome = Chunk(candles: seq<Candle>) | NotPublished | Unsupported | Threw

  /** When the clock was read, when each fetch was answered, and whether one threw. */
  datatype Timing = Timing(checkedAt: int, fetchedAt: seq<int>, threw: bool)

  /** A minute job fetches and then looks at the clock; a span job looks at the clock first. */
  predicate Ordered(k: JobKey, t: Timing) {
    if k.resolution == "1m" then |t.fetchedAt| == 1 && t.fetchedAt[0] <= t.checkedAt
    else |t.fetchedAt| == |SpanDays(k)| && forall i :: 0 <= i < |t.fetchedAt| ==> t.checkedAt <= t.fetchedAt[i]
  }

  function FetchedDays(archive: Archive, folder: string, days: seq<int>, at: seq<int>): seq<Option<seq<Candle>>>
    requires |days| == |at|
  {
    seq(|days|, i requires 0 <= i < |days| => Fetched(archive, folder, days[i], at[i]))
  }

  function Ingest(archive: Archive, folders: Instruments, k: JobKey, t: Timing): Outcome
    requires Ordered(k, t)
  {
    if !Known(folders, k) then Unsupported
    else if k.resolution == "1m" then
      if t.threw then Threw
      else match Fetched(archive, folders[k.symbol], k.start, t.fetchedAt[0])
        case Some(candles) => Chunk(candles)
        case None => if t.checkedAt - (k.start + 86_400_000) < PUBLISH_SAFETY_MARGIN_MS then NotPublished else Chunk([])
    else if t.checkedAt - SpanEnd(k) < PUBLISH_SAFETY_MARGIN_MS then NotPublished
    else if t.threw then Threw
    else
      Chunk(Fold(Flatten(Minutes(FetchedDays(archive, folders[k.symbol], SpanDays(k), t.fetchedAt))),
                 Buckets(TargetSeconds(k.resolution).value * 1000)))
  }

  /** Every day's file is there by the end of its day plus the margin, or never. */
  ghost predicate Final(archive: Archive) {
    forall folder, day :: archive(folder, day).Some? ==>
        archive(folder, day).value.at <= day + 86_400_000 + PUBLISH_SAFETY_MARGIN_MS
  }

  /** The file of a minute job appeared after its fetch was answered, and by the time the clock was read. */
  predicate Overtaken(archive: Archive, folders: Instruments, k: JobKey, t: Timing)
    requires Ordered(k, t) && Known(folders, k)
  {
    && k.resolution == "1m"
    && archive(folders[k.symbol], k.start).Some? && archive(folders[k.symbol], k.start).value.candles != []
    && t.fetchedAt[0] < archive(folders[k.symbol], k.start).value.at <= t.checkedAt
  }

  /** No listed day reaches past the end of its span. */
  lemma DaysEndInSpan(k: JobKey, i: nat)
    requires k.resolution != "1m" && i < |SpanDays(k)|
    ensures SpanDays(k)[i] + 86_400_000 <= SpanEnd(k)
  {
    var last := SpanEndDay(k);
    DayStartsAre(Day(k.start), Ms(last));
    assert DaysEnd(Ms(last)) == last;
  }

  lemma SpanEndDay(k: JobKey) returns (day: int)
    ensures SpanEnd(k) == Ms(day)
  {
    var y, m := YearFromTime(k.start), MonthFromTime(k.start);
    if k.resolution == "1h" {
      InItsMonth(k.start);
      day := StartDay(y, m + 1);
    } else {
      YearStartIs(y + 1);
      day := DayFromYear(y + 1);
    }
  }

  /** A span fetched after the margin is complete. */
  lemma SpanComplete(archive: Archive, folder: string, k: JobKey, at: seq<int>, i: nat)
    requires Final(archive) && k.resolution != "1m" && |at| == |SpanDays(k)| && i < |at|
    requires at[i] >= SpanEnd(k) + PUBLISH_SAFETY_MARGIN_MS
    ensures Fetched(archive, folder, SpanDays(k)[i], at[i]) == Published(archive(folder, SpanDays(k)[i]))
  {
    DaysEndInSpan(k, i);
  }

  /**
   * A job is refused exactly for an unknown symbol or a resolution other than the minute, the hour and the day; and
   * a month's or a year's chunk is folded to hours or days.
   */
  lemma RefusedExactly(archive: Archive, folders: Instruments, k: JobKey, t: Timing)
    requires Ordered(k, t)
    ensures Ingest(archive, folders, k, t).Unsupported? <==>
              k.symbol !in folders || (k.resolution != "1m" && k.resolution != "1h" && k.resolution != "1d")
    ensures Known(folders, k) && k.resolution != "1m" ==>
      Expected(archive, folders, k) ==
        Fold(Flatten(Minutes(PublishedDays(archive, folders[k.symbol], SpanDays(k)))),
             Buckets(if k.resolution == "1h" then 3_600_000 else 86_400_000))
    ensures Known(folders, k) && k.resolution == "1m" ==>
      Expected(archive, folders, k) ==
        match archive(folders[k.symbol], k.start) case Some(file) => file.candles case None => []
  {
  }

  /**
   * What a job stores is exactly the fold of every published day of its span, but for one race: a minute
   * job whose file appears between the answer to its fetch and its look at the clock stores an empty day.
   */
  lemma StoredIsExpected(archive: Archive, folders: Instruments, k: JobKey, t: Timing)
    requires Final(archive) && Ordered(k, t) && Known(folders, k) && Ingest(archive, folders, k, t).Chunk?
    ensures Ingest(archive, folders, k, t).candles == Expected(archive, folders, k) <==>
        !Overtaken(archive, folders, k, t)
  {
    if k.resolution != "1m" {
      SpanStored(archive, folders, k, t);
    }
  }

  /** A file that appears just as the margin ends. */
  function LastMoment(candle: Candle): Archive {
    (folder: string, day: int) =>
      if day == 0 then Some(File(86_400_000 + PUBLISH_SAFETY_MARGIN_MS, [candle])) else None
  }

  /** The race is real: the fetch misses the file by a millisecond, the clock then says the day is settled. */
  lemma OvertakenDayIsEmpty(candle: Candle)
    ensures var k, folders := JobKey("X", "1m", 0), map["X" := "x"];
      var end := 86_400_000 + PUBLISH_SAFETY_MARGIN_MS;
      var t := Timing(end, [end - 1], false);
      && Final(LastMoment(candle)) && Ordered(k, t) && Known(folders, k)
      && Ingest(LastMoment(candle), folders, k, t) == Chunk([])
      && Expected(LastMoment(candle), folders, k) == [candle]
  {
    var k, folders := JobKey("X", "1m", 0), map["X" := "x"];
    var end := 86_400_000 + PUBLISH_SAFETY_MARGIN_MS;
    assert LastMoment(candle)("x", 0) == Some(File(end, [candle]));
  }

  lemma SpanStored(archive: Archive, folders: Instruments, k: JobKey, t: Timing)
    requires k.resolution != "1m"
    requires Final(archive) && Ordered(k, t) && Known(folders, k) && Ingest(archive, folders, k, t).Chunk?
    ensures Ingest(archive, folders, k, t).candles == Expected(archive, folders, k)
  {
    var folder, days := folders[k.symbol], SpanDays(k);
    var published := PublishedDays(archive, folder, days);
    forall i | 0 <= i < |days| ensures Fetched(archive, folder, days[i], t.fetchedAt[i]) == published[i] {
      SpanComplete(archive, folder, k, t.fetchedAt, i);
    }
    assert FetchedDays(archive, folder, days, t.fetchedAt) == published;
  }

  /** When the archive has published a span for certain. */
  function MarginEnd(k: JobKey): int {
    PUBLISH_SAFETY_MARGIN_MS + (if k.resolution == "1m" then k.start + 86_400_000 else SpanEnd(k))
  }

  /** A job is told to wait only while its span is younger than the margin. */
  lemma WaitsOnlyForTheMargin(archive: Archive, folders: Instruments, k: JobKey, t: Timing)
    requires Ordered(k, t) && Ingest(archive, folders, k, t).NotPublished?
    ensures t.checkedAt < MarginEnd(k)
  {
  }

  /** And exactly then it is: while it is younger, and for a minute job while its fetch finds no file. */
  lemma WaitsExactly(archive: Archive, folders: Instruments, k: JobKey, t: Timing)
    requires Ordered(k, t)
    ensures Ingest(archive, folders, k, t).NotPublished? <==>
      && Known(folders, k) && t.checkedAt < MarginEnd(k)
      && (k.resolution == "1m" ==>
            !t.threw && (archive(folders[k.symbol], k.start).None?
                         || archive(folders[k.symbol], k.start).value.at > t.fetchedAt[0]))
    ensures Ingest(archive, folders, k, t).Threw? <==>
      Known(folders, k) && t.threw && (k.resolution == "1m" || t.checkedAt >= MarginEnd(k))
  {
  }

  /** The candles of each file lie in its own day. */
  ghost predicate FilesHoldTheirDay(archive: Archive) {
    forall folder, day, i :: archive(folder, day).Some? && 0 <= i < |archive(folder, day).value.candles| ==>
      Bucket(archive(folder, day).value.candles[i].t, 86_400_000) == day
  }

  lemma DaysApart(from: int, to: int)
    ensures forall i, j :: 0 <= i < j < |DayStarts(from, to)| ==> DayStarts(from, to)[i] != DayStarts(from, to)[j]
  {
    DayStartsAre(Day(from), to);
  }

  lemma FilesDayByDay(archive: Archive, folder: string, days: seq<int>)
    requires FilesHoldTheirDay(archive) && forall i, j :: 0 <= i < j < |days| ==> days[i] != days[j]
    ensures DayByDay(Minutes(PublishedDays(archive, folder, days)), days, Buckets(86_400_000))
  {
    var minutes: seq<seq<Candle>> := Minutes(PublishedDays(archive, folder, days));
    forall i: nat, k: nat | i < |days| && k < |minutes[i]| ensures Buckets(86_400_000)(minutes[i][k].t) == days[i] {
      var file := archive(folder, days[i]);
      assert minutes[i] == match file { case Some(f) => f.candles case None => [] };
      assert Bucket(archive(folder, days[i]).value.candles[k].t, 86_400_000) == days[i];
    }
  }

  /** A month's or year's chunk is the concatenation of the folds of its days. */
  lemma ChunkIsDayFolds(archive: Archive, folders: Instruments, k: JobKey)
    requires Known(folders, k) && k.resolution != "1m" && FilesHoldTheirDay(archive)
    ensures var minutes := Minutes(PublishedDays(archive, folders[k.symbol], SpanDays(k)));
      Expected(archive, folders, k) == Flatten(FoldEach(minutes, Buckets(TargetSeconds(k.resolution).value * 1000)))
  {
    DaysApart(k.start, SpanEnd(k));
    SpanDivides(k.resolution);
    DayFolds(archive, folders[k.symbol], SpanDays(k), TargetSeconds(k.resolution).value * 1000);
  }

  lemma SpanDivides(resolution: string)
    ensures TargetSeconds(resolution).Some? ==> Divides(TargetSeconds(resolution).value * 1000, 86_400_000)
  {
  }

  lemma DayFolds(archive: Archive, folder: string, days: seq<int>, span: int)
    requires FilesHoldTheirDay(archive) && Divides(span, 86_400_000)
    requires forall i, j :: 0 <= i < j < |days| ==> days[i] != days[j]
    ensures var minutes := Minutes(PublishedDays(archive, folder, days));
      Fold(Flatten(minutes), Buckets(span)) == Flatten(FoldEach(minutes, Buckets(span)))
  {
    SpansCut(span, 86_400_000);
    FilesDayByDay(archive, folder, days);
    FoldByDay(Minutes(PublishedDays(archive, folder, days)), days, Buckets(span), Buckets(86_400_000));
  }

  /** The ingest of one job, given what its fetches answered. */
  method IngestJob(archive: Archive, folders: Instruments, k: JobKey, t: Timing) returns (r: Outcome)
    requires Ordered(k, t)
    ensures r == Ingest(archive, folders, k, t)
  {
    if k.symbol !in folders || TargetSeconds(k.resolution).None? { return Unsupported; }
    var folder := folders[k.symbol];
    if k.resolution == "1m" {
      if t.threw { return Threw; }
      var candles := Fetched(archive, folder, k.start, t.fetchedAt[0]);
      if candles.Some? { return Chunk(candles.value); }
      if t.checkedAt - (k.start + 86_400_000) < PUBLISH_SAFETY_MARGIN_MS { return NotPublished; }
      return Chunk([]);
    }
    var spanEnd := if k.resolution == "1h" then NextMonthStartMs(k.start) else NextYearStartMs(k.start);
    if t.checkedAt - spanEnd < PUBLISH_SAFETY_MARGIN_MS { return NotPublished; }
    var days := DayStartsIn(k.start, spanEnd);
    if t.threw { return Threw; }
    var perDay := FetchedDays(archive, folder, days, t.fetchedAt);
    var minutes: seq<Candle> := [];
    for i := 0 to |perDay|
      invariant minutes == Flatten(Minutes(perDay)[..i])
    {
      assert Minutes(perDay)[..i + 1][..i] == Minutes(perDay)[..i];
      if perDay[i].Some? { minutes := minutes + perDay[i].value; }
    }
    assert Minutes(perDay)[..|perDay|] == Minutes(perDay);
    var candles := AggregateCandles(minutes, TargetSeconds(k.resolution).value);
    r := Chunk(candles);
  }
}
