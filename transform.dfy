/**
 * The row-level transform of the loader: the typed input records (one line of
 * a song document, one event of a log document), the five table rows, the
 * "NextSong" filter, the column projections and the time-dimension row.
 */
module Transform {
  import opened Wrappers
  import opened Calendar

  /** An IEEE-754 double carried as its bit pattern; the loader does no arithmetic on it. */
  datatype Double = Double(bits: bv64)

  /** One record of a song document. */
  datatype SongRecord = SongRecord(
    songId: string,
    title: string,
    artistId: string,
    year: int,
    duration: Double,
    artistName: string,
    artistLocation: Option<string>,
    artistLatitude: Option<Double>,
    artistLongitude: Option<Double>)

  /** One event of a log document (the columns the loader reads). */
  datatype Event = Event(
    artist: Option<string>,
    firstName: Option<string>,
    gender: Option<string>,
    lastName: Option<string>,
    length: Option<Double>,
    level: string,
    location: Option<string>,
    page: string,
    sessionId: int,
    song: Option<string>,
    ts: int,
    userAgent: Option<string>,
    userId: string)

  /** A converted timestamp: a count of milliseconds since 1970-01-01T00:00:00Z. */
  datatype Timestamp = Timestamp(epochMillis: int)

  datatype SongRow = SongRow(songId: string, title: string, artistId: string, year: int, duration: Double)

  datatype ArtistRow = ArtistRow(
    artistId: string, name: string, location: Option<string>, latitude: Option<Double>, longitude: Option<Double>)

  datatype TimeRow = TimeRow(
    startTime: Timestamp, hour: int, day: int, week: int, month: int, year: int, weekday: int)

  datatype UserRow = UserRow(
    userId: string, firstName: Option<string>, lastName: Option<string>, gender: Option<string>, level: string)

  /** The parameters of the song/artist lookup. */
  datatype LookupKey = LookupKey(song: Option<string>, artist: Option<string>, length: Option<Double>)

  /** The row the lookup returns. */
  datatype SongKeys = SongKeys(songId: string, artistId: string)

  datatype SongplayRow = SongplayRow(
    startTime: Timestamp,
    userId: string,
    level: string,
    songId: Option<string>,
    artistId: Option<string>,
    sessionId: int,
    location: Option<string>,
    userAgent: Option<string>)

  datatype EtlError =
    | EmptySongDocument     // a song document without lines has none of the selected columns
    | EmptyLogDocument      // a log document without lines has no `page` column to filter on
    | TimestampOutOfBounds  // a millisecond value outside the nanosecond timestamp range

  /* ---------------- Song documents ---------------- */

  /** The song row of a catalog record: song_id, title, artist_id, year, duration. */
  function SongRowOf(rec: SongRecord): (r: SongRow)
    ensures r.songId == rec.songId && r.title == rec.title && r.artistId == rec.artistId
    ensures r.year == rec.year && r.duration == rec.duration
  {
    SongRow(rec.songId, rec.title, rec.artistId, rec.year, rec.duration)
  }

  /** The artist row of a catalog record: artist_id, artist_name, artist_location, artist_latitude, artist_longitude. */
  function ArtistRowOf(rec: SongRecord): (r: ArtistRow)
    ensures r.artistId == rec.artistId && r.name == rec.artistName && r.location == rec.artistLocation
    ensures r.latitude == rec.artistLatitude && r.longitude == rec.artistLongitude
  {
    ArtistRow(rec.artistId, rec.artistName, rec.artistLocation, rec.artistLatitude, rec.artistLongitude)
  }

  /**
   * The song row and the artist row of a song document, both taken from its
   * first record; a document without records raises.
   */
  function CatalogEntry(doc: seq<SongRecord>): (r: Result<(SongRow, ArtistRow), EtlError>)
    ensures r.Success? <==> |doc| > 0
    ensures r.Failure? ==> r.error == EmptySongDocument
    ensures r.Success? ==> r.value.0.artistId == r.value.1.artistId
    ensures r.Success? ==> r.value == (SongRowOf(doc[0]), ArtistRowOf(doc[0]))
  {
    if |doc| == 0 then Failure(EmptySongDocument) else Success((SongRowOf(doc[0]), ArtistRowOf(doc[0])))
  }

  /** Records after the first never reach the tables. */
  lemma CatalogEntryUsesFirstRecord(doc: seq<SongRecord>, other: seq<SongRecord>)
    requires |doc| > 0 && |other| > 0 && doc[0] == other[0]
    ensures CatalogEntry(doc) == CatalogEntry(other)
  {
  }

  /* ---------------- Log documents: the NextSong filter ---------------- */

  /** An event that records a song being played. */
  predicate IsSongPlay(e: Event) {
    e.page == "NextSong"
  }

  /**
   * The events of a log document whose page is "NextSong", in document order,
   * duplicates kept: every other event is dropped.
   */
  function SongPlays(events: seq<Event>): (r: seq<Event>)
    ensures |r| <= |events|
    ensures forall i :: 0 <= i < |r| ==> IsSongPlay(r[i])
  {
    if |events| == 0 then []
    else if IsSongPlay(events[0]) then [events[0]] + SongPlays(events[1..])
    else SongPlays(events[1..])
  }

  /** Each NextSong event is kept as often as it occurs; every other event is dropped. */
  lemma {:induction false} SongPlaysCounts(events: seq<Event>, e: Event)
    ensures multiset(SongPlays(events))[e] == if IsSongPlay(e) then multiset(events)[e] else 0
    decreases |events|
  {
    if |events| > 0 {
      SongPlaysCounts(events[1..], e);
      assert events == [events[0]] + events[1..];
    }
  }

  /** The filter keeps document order: it distributes over concatenation. */
  lemma {:induction false} SongPlaysAppend(a: seq<Event>, b: seq<Event>)
    ensures SongPlays(a + b) == SongPlays(a) + SongPlays(b)
    decreases |a|
  {
    if |a| == 0 {
      assert a + b == b;
    } else {
      assert (a + b)[0] == a[0];
      assert (a + b)[1..] == a[1..] + b;
      SongPlaysAppend(a[1..], b);
    }
  }

  /** Filtering twice is filtering once. */
  lemma {:induction false} SongPlaysIdempotent(events: seq<Event>)
    ensures SongPlays(SongPlays(events)) == SongPlays(events)
    decreases |events|
  {
    if |events| > 0 {
      SongPlaysIdempotent(events[1..]);
      var rest := SongPlays(events[1..]);
      if IsSongPlay(events[0]) {
        assert ([events[0]] + rest)[1..] == rest;
      }
    }
  }

  /** A document without NextSong events keeps nothing. */
  lemma {:induction false} NoSongPlays(events: seq<Event>)
    requires forall i :: 0 <= i < |events| ==> !IsSongPlay(events[i])
    ensures SongPlays(events) == []
    decreases |events|
  {
    if |events| > 0 {
      NoSongPlays(events[1..]);
    }
  }

  /* ---------------- Log documents: timestamps and the time row ---------------- */

  /** Largest magnitude of a nanosecond timestamp (the int64 range without its NaT sentinel). */
  const MaxNanos: int := 0x7FFF_FFFF_FFFF_FFFF

  /**
   * Millisecond values whose conversion to a nanosecond timestamp does not
   * overflow: |ms| <= 9223372036854, from 1677-09-21T00:12:43.146Z to
   * 2262-04-11T23:47:16.854Z.
   */
  predicate InTimestampRange(ms: int): (b: bool)
    ensures b <==> -9_223_372_036_854 <= ms <= 9_223_372_036_854
  {
    NanosecondRange(ms);
    -MaxNanos <= ms * 1_000_000 <= MaxNanos
  }

  /** The nanosecond range, read back in milliseconds. */
  lemma {:induction false} NanosecondRange(ms: int)
    ensures -MaxNanos <= ms * 1_000_000 <= MaxNanos <==> -9_223_372_036_854 <= ms <= 9_223_372_036_854
  {
    if ms > 9_223_372_036_854 {
      assert ms * 1_000_000 >= 9_223_372_036_855 * 1_000_000;
    } else if ms < -9_223_372_036_854 {
      assert ms * 1_000_000 <= -9_223_372_036_855 * 1_000_000;
    }
  }

  /**
   * The conversion of the kept events' `ts` column to timestamps, which raises
   * when any value lies outside the representable range.
   */
  function StartTimes(plays: seq<Event>): (r: Result<seq<Timestamp>, EtlError>)
    ensures r.Success? <==> forall i :: 0 <= i < |plays| ==> InTimestampRange(plays[i].ts)
    ensures r.Failure? ==> r.error == TimestampOutOfBounds
    ensures r.Success? ==> |r.value| == |plays|
    ensures r.Success? ==> forall i :: 0 <= i < |plays| ==> r.value[i].epochMillis == plays[i].ts
  {
    if forall i :: 0 <= i < |plays| ==> InTimestampRange(plays[i].ts) then
      Success(seq(|plays|, i requires 0 <= i < |plays| => Timestamp(plays[i].ts)))
    else
      Failure(TimestampOutOfBounds)
  }

  /**
   * The time-dimension row of a timestamp: its UTC hour, day of month, ISO 8601
   * week number, month, year, and day of the week with Monday = 0.
   */
  function TimeRowOf(t: Timestamp): (r: TimeRow)
    ensures r.startTime == t
  {
    var dt := FromMillis(t.epochMillis);
    var z := t.epochMillis / MillisPerDay;
    TimeRow(t, dt.hour, dt.date.day, IsoWeek(z), dt.date.month, dt.date.year, Weekday(z))
  }

  /**
   * The fields of a time row name the calendar date and the hour that hold its
   * timestamp, the weekday of that date (Monday = 0) and its ISO 8601 week.
   */
  lemma TimeRowFields(t: Timestamp)
    ensures var r := TimeRowOf(t); var d := Date(r.year, r.month, r.day);
      && 0 <= r.hour <= 23 && 1 <= r.day <= 31 && 1 <= r.month <= 12
      && 0 <= r.weekday <= 6 && 1 <= r.week <= 53
      && ValidDate(d)
      && DayNumber(d) == t.epochMillis / MillisPerDay
      && DayNumber(d) * MillisPerDay + r.hour * MillisPerHour <= t.epochMillis
      && t.epochMillis < DayNumber(d) * MillisPerDay + (r.hour + 1) * MillisPerHour
      && r.weekday == Weekday(DayNumber(d))
      && r.week == IsoWeekDate(DayNumber(d)).1
  {
  }

  /** The date and hour fields of the time row at 1541106106796 ms. */
  lemma TimeRowDateAt(t: Timestamp)
    requires t.epochMillis == 1541106106796
    ensures var r := TimeRowOf(t); r.hour == 21 && r.day == 1 && r.month == 11 && r.year == 2018
  {
    NovemberFirst2018(t.epochMillis);
  }

  /** The week fields of the time row at 1541106106796 ms, a Thursday of ISO week 44. */
  lemma TimeRowWeekAt(t: Timestamp)
    requires t.epochMillis == 1541106106796
    ensures var r := TimeRowOf(t); r.week == 44 && r.weekday == 3
  {
    NovemberFirst2018Week(t.epochMillis / MillisPerDay);
  }

  /**
   * The time row of a timestamp given by its milliseconds. The timestamp is a
   * parameter rather than a literal so that the calendar functions are not
   * unfolded eagerly on it.
   */
  lemma TimeRowAt(t: Timestamp)
    requires t.epochMillis == 1541106106796
    ensures TimeRowOf(t) == TimeRow(t, 21, 1, 44, 11, 2018, 3)
  {
    TimeRowDateAt(t);
    TimeRowWeekAt(t);
  }

  /** ts = 1541106106796 (2018-11-01T21:01:46.796Z) gives hour 21, day 1, week 44, month 11, year 2018, weekday 3. */
  lemma TimeRowExample()
    ensures TimeRowOf(Timestamp(1541106106796)) == TimeRow(Timestamp(1541106106796), 21, 1, 44, 11, 2018, 3)
  {
    TimeRowAt(Timestamp(1541106106796));
  }

  /* ---------------- Log documents: user and songplay rows ---------------- */

  /** The user row of an event: userId, firstName, lastName, gender, level. */
  function UserRowOf(e: Event): (r: UserRow)
    ensures r.userId == e.userId && r.firstName == e.firstName && r.lastName == e.lastName
    ensures r.gender == e.gender && r.level == e.level
  {
    UserRow(e.userId, e.firstName, e.lastName, e.gender, e.level)
  }

  /** The lookup parameters of an event: song, artist, length. */
  function LookupKeyOf(e: Event): (k: LookupKey)
    ensures k.song == e.song && k.artist == e.artist && k.length == e.length
  {
    LookupKey(e.song, e.artist, e.length)
  }

  /**
   * The songplay row of an event: the lookup's song and artist ids when it found
   * a row, both null when it found none; the other columns copied from the event.
   */
  function SongplayRowOf(e: Event, start: Timestamp, found: Option<SongKeys>): (r: SongplayRow)
    ensures found.None? ==> r.songId.None? && r.artistId.None?
    ensures found.Some? ==> r.songId == Some(found.value.songId) && r.artistId == Some(found.value.artistId)
    ensures r.startTime == start && r.userId == e.userId && r.level == e.level
    ensures r.sessionId == e.sessionId && r.location == e.location && r.userAgent == e.userAgent
  {
    match found
    case Some(keys) => SongplayRow(start, e.userId, e.level, Some(keys.songId), Some(keys.artistId), e.sessionId, e.location, e.userAgent)
    case None => SongplayRow(start, e.userId, e.level, None, None, e.sessionId, e.location, e.userAgent)
  }

  /* ---------------- Log documents: the whole batch ---------------- */

  /** The time rows of the converted start times, one per song play. */
  function TimeRowsOf(starts: seq<Timestamp>): seq<TimeRow> {
    seq(|starts|, i requires 0 <= i < |starts| => TimeRowOf(starts[i]))
  }

  /** The user rows of the song plays, one per song play. */
  function UserRowsOf(plays: seq<Event>): seq<UserRow> {
    seq(|plays|, i requires 0 <= i < |plays| => UserRowOf(plays[i]))
  }

  /** The rows a log document yields, and the lookups that resolve its songplays. */
  datatype LogBatch = LogBatch(
    times: seq<TimeRow>, users: seq<UserRow>, lookups: seq<LookupKey>, songplays: seq<SongplayRow>)

  /**
   * The rows of a log document: for every NextSong event, in document order, one
   * time row, one user row and one songplay row resolved through `lookup`. A
   * document without lines raises before the filter, and so does a start time
   * out of range.
   */
  function ExtractLogBatch(events: seq<Event>, lookup: LookupKey -> Option<SongKeys>): (r: Result<LogBatch, EtlError>)
    ensures r.Success? <==> |events| > 0 && StartTimes(SongPlays(events)).Success?
    ensures r.Failure? ==> r.error == if |events| == 0 then EmptyLogDocument else TimestampOutOfBounds
    ensures r.Success? ==>
      var plays, b := SongPlays(events), r.value;
      && |b.times| == |b.users| == |b.lookups| == |b.songplays| == |plays|
      && forall i :: 0 <= i < |plays| ==>
           && b.times[i] == TimeRowOf(Timestamp(plays[i].ts))
           && b.users[i] == UserRowOf(plays[i])
           && b.lookups[i] == LookupKeyOf(plays[i])
           && b.songplays[i] == SongplayRowOf(plays[i], Timestamp(plays[i].ts), lookup(LookupKeyOf(plays[i])))
  {
    if |events| == 0 then Failure(EmptyLogDocument) else
    var plays := SongPlays(events);
    match StartTimes(plays)
    case Failure(e) => Failure(e)
    case Success(starts) =>
      Success(LogBatch(
        TimeRowsOf(starts),
        UserRowsOf(plays),
        seq(|plays|, i requires 0 <= i < |plays| => LookupKeyOf(plays[i])),
        seq(|plays|, i requires 0 <= i < |plays| => SongplayRowOf(plays[i], starts[i], lookup(LookupKeyOf(plays[i]))))))
  }

  /** The i-th songplay row carries the same start_time as the i-th time row. */
  lemma SongplayStartMatchesTime(events: seq<Event>, lookup: LookupKey -> Option<SongKeys>, i: int)
    requires ExtractLogBatch(events, lookup).Success?
    requires 0 <= i < |SongPlays(events)|
    ensures ExtractLogBatch(events, lookup).value.songplays[i].startTime
         == ExtractLogBatch(events, lookup).value.times[i].startTime
  {
  }
}
