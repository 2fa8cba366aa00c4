/**
 * The loader itself: processing one song document, processing one log
 * document, and the driver that collects a directory tree's documents and
 * processes them one by one with a commit after each.
 */
module Etl {
  import opened Wrappers
  import opened Transform
  import opened Database

  type Path = string

  /** The statements a file issues when it succeeds; a failing file raises before its first insert. */
  function Issued(r: Result<seq<Statement>, EtlError>): seq<Statement> {
    if r.Success? then r.value else []
  }

  function OutcomeOf(r: Result<seq<Statement>, EtlError>): Outcome<EtlError> {
    if r.Success? then Pass else Fail(r.error)
  }

  /* ---------------- Song documents ---------------- */

  /** The statements of a song document: its song row, then its artist row. */
  function SongFileStatements(doc: seq<SongRecord>): (r: Result<seq<Statement>, EtlError>)
    ensures r.Success? <==> |doc| > 0
    ensures r.Failure? ==> r.error == EmptySongDocument
    ensures r.Success? ==> |r.value| == 2 && r.value[0].InsertSong? && r.value[1].InsertArtist?
    ensures r.Success? ==> r.value[0].song.artistId == r.value[1].artist.artistId
    ensures r.Success? ==> r.value == [InsertSong(SongRowOf(doc[0])), InsertArtist(ArtistRowOf(doc[0]))]
  {
    match CatalogEntry(doc)
    case Failure(e) => Failure(e)
    case Success(rows) => Success([InsertSong(rows.0), InsertArtist(rows.1)])
  }

  method ProcessSongFile(session: Session, doc: seq<SongRecord>) returns (r: Outcome<EtlError>)
    modifies session`log
    ensures r == OutcomeOf(SongFileStatements(doc))
    ensures session.log == old(session.log) + Issued(SongFileStatements(doc))
  {
    if |doc| == 0 {
      return Fail(EmptySongDocument);
    }
    session.Execute(InsertSong(SongRowOf(doc[0])));
    session.Execute(InsertArtist(ArtistRowOf(doc[0])));
    return Pass;
  }

  /* ---------------- Log documents ---------------- */

  function TimeInserts(rows: seq<TimeRow>): seq<Statement> {
    seq(|rows|, i requires 0 <= i < |rows| => InsertTime(rows[i]))
  }

  function UserInserts(rows: seq<UserRow>): seq<Statement> {
    seq(|rows|, i requires 0 <= i < |rows| => InsertUser(rows[i]))
  }

  /** Each songplay insert preceded by the lookup that resolved it. */
  function SongplaySteps(keys: seq<LookupKey>, rows: seq<SongplayRow>): (r: seq<Statement>)
    requires |keys| == |rows|
    ensures |r| == 2 * |rows|
    decreases |rows|
  {
    if |rows| == 0 then []
    else
      var n := |rows| - 1;
      SongplaySteps(keys[..n], rows[..n]) + [SelectSong(keys[n]), InsertSongplay(rows[n])]
  }

  /** One more song play appends its lookup and then its insert. */
  lemma SongplayStepsSnoc(keys: seq<LookupKey>, rows: seq<SongplayRow>, key: LookupKey, row: SongplayRow)
    requires |keys| == |rows|
    ensures SongplaySteps(keys + [key], rows + [row]) == SongplaySteps(keys, rows) + [SelectSong(key), InsertSongplay(row)]
  {
    assert (keys + [key])[..|keys|] == keys && (rows + [row])[..|rows|] == rows;
  }

  lemma {:induction false} SongplayStepsAt(keys: seq<LookupKey>, rows: seq<SongplayRow>, i: int)
    requires |keys| == |rows| && 0 <= i < |rows|
    ensures SongplaySteps(keys, rows)[2 * i] == SelectSong(keys[i])
    ensures SongplaySteps(keys, rows)[2 * i + 1] == InsertSongplay(rows[i])
    decreases |rows|
  {
    var n := |rows| - 1;
    if i < n {
      SongplayStepsAt(keys[..n], rows[..n], i);
    }
  }

  /**
   * The statements of a log document: all time inserts, then all user inserts,
   * then for each songplay its lookup followed by its insert. A document without
   * lines, or with a start time out of range, raises and issues nothing.
   */
  function LogFileStatements(events: seq<Event>, lookup: LookupKey -> Option<SongKeys>): (r: Result<seq<Statement>, EtlError>)
    ensures r.Success? <==> |events| > 0 && StartTimes(SongPlays(events)).Success?
    ensures r.Success? <==>
      |events| > 0 && forall i :: 0 <= i < |SongPlays(events)| ==> InTimestampRange(SongPlays(events)[i].ts)
    ensures |events| == 0 ==> r == Failure(EmptyLogDocument)
    ensures |events| > 0 && r.Failure? ==> r.error == TimestampOutOfBounds
    ensures r.Success? ==> |r.value| == 4 * |SongPlays(events)|
  {
    match ExtractLogBatch(events, lookup)
    case Failure(e) => Failure(e)
    case Success(b) => Success(BatchStatements(b))
  }

  /** The songplay steps placed after any prefix `x`: the i-th pair sits at |x| + 2i and |x| + 2i + 1. */
  lemma SongplayStepsAfter(x: seq<Statement>, keys: seq<LookupKey>, rows: seq<SongplayRow>, i: int)
    requires |keys| == |rows| && 0 <= i < |rows|
    ensures (x + SongplaySteps(keys, rows))[|x| + 2 * i] == SelectSong(keys[i])
    ensures (x + SongplaySteps(keys, rows))[|x| + 2 * i + 1] == InsertSongplay(rows[i])
  {
    SongplayStepsAt(keys, rows, i);
  }

  /** The statements a batch of k NextSong events yields. */
  function BatchStatements(b: LogBatch): seq<Statement>
    requires |b.lookups| == |b.songplays|
  {
    TimeInserts(b.times) + UserInserts(b.users) + SongplaySteps(b.lookups, b.songplays)
  }

  /**
   * The layout of a log document's statements: with k NextSong events, k time
   * inserts, k user inserts, then k lookup/songplay pairs, each group in
   * document order, so the i-th event's rows land at i, k + i, 2k + 2i and 2k + 2i + 1.
   */
  lemma BatchLayout(b: LogBatch, i: int)
    requires |b.times| == |b.users| == |b.lookups| == |b.songplays|
    requires 0 <= i < |b.times|
    ensures var s, k := BatchStatements(b), |b.times|;
      && |s| == 4 * k
      && s[i] == InsertTime(b.times[i])
      && s[k + i] == InsertUser(b.users[i])
      && s[2 * k + 2 * i] == SelectSong(b.lookups[i])
      && s[2 * k + 2 * i + 1] == InsertSongplay(b.songplays[i])
  {
    SongplayStepsAfter(TimeInserts(b.times) + UserInserts(b.users), b.lookups, b.songplays, i);
  }

  /**
   * The layout read on a log document itself: its i-th NextSong event's time
   * insert, user insert, lookup and songplay insert sit at i, k + i, 2k + 2i and
   * 2k + 2i + 1 of its statements.
   */
  lemma LogFileLayout(events: seq<Event>, lookup: LookupKey -> Option<SongKeys>, i: int)
    requires LogFileStatements(events, lookup).Success?
    requires 0 <= i < |SongPlays(events)|
    ensures var s, plays, k := LogFileStatements(events, lookup).value, SongPlays(events), |SongPlays(events)|;
      var start := Timestamp(plays[i].ts);
      && |s| == 4 * k
      && s[i] == InsertTime(TimeRowOf(start))
      && s[k + i] == InsertUser(UserRowOf(plays[i]))
      && s[2 * k + 2 * i] == SelectSong(LookupKeyOf(plays[i]))
      && s[2 * k + 2 * i + 1] == InsertSongplay(SongplayRowOf(plays[i], start, lookup(LookupKeyOf(plays[i]))))
  {
    var b := ExtractLogBatch(events, lookup).value;
    assert LogFileStatements(events, lookup).value == BatchStatements(b);
    var e := SongPlays(events)[i];
    assert b.times[i] == TimeRowOf(Timestamp(e.ts)) && b.users[i] == UserRowOf(e);
    assert b.lookups[i] == LookupKeyOf(e);
    assert b.songplays[i] == SongplayRowOf(e, Timestamp(e.ts), lookup(LookupKeyOf(e)));
    BatchLayout(b, i);
  }

  /**
   * A log document with lines but no NextSong event passes and issues no
   * statement; one without lines raises.
   */
  lemma LogFileWithoutSongPlays(events: seq<Event>, lookup: LookupKey -> Option<SongKeys>)
    requires forall i :: 0 <= i < |events| ==> !IsSongPlay(events[i])
    ensures LogFileStatements(events, lookup) == if |events| == 0 then Failure(EmptyLogDocument) else Success([])
  {
    if |events| > 0 {
      NoSongPlays(events);
      var b := ExtractLogBatch(events, lookup).value;
      assert BatchStatements(b) == [];
    }
  }

  /**
   * An event that is not NextSong (a Login, say) changes nothing wherever it
   * stands, except that it alone makes a document with lines out of one without.
   */
  lemma OtherEventsIgnored(before: seq<Event>, e: Event, after: seq<Event>, lookup: LookupKey -> Option<SongKeys>)
    requires !IsSongPlay(e)
    ensures LogFileStatements(before + [e] + after, lookup)
         == if |before + after| == 0 then Success([]) else LogFileStatements(before + after, lookup)
  {
    SongPlaysAppend(before + [e], after);
    SongPlaysAppend(before, [e]);
    SongPlaysAppend(before, after);
    assert SongPlays([e]) == [];
    assert SongPlays(before + [e] + after) == SongPlays(before + after);
    SameSongPlaysSameStatements(before + [e] + after, before + after, lookup);
  }

  /** The statements of a log document depend on its NextSong events alone, once it has lines. */
  lemma SameSongPlaysSameStatements(a: seq<Event>, b: seq<Event>, lookup: LookupKey -> Option<SongKeys>)
    requires SongPlays(a) == SongPlays(b)
    ensures (|a| == 0) == (|b| == 0) ==> LogFileStatements(a, lookup) == LogFileStatements(b, lookup)
  {
    if |a| > 0 && |b| > 0 {
      assert ExtractLogBatch(a, lookup) == ExtractLogBatch(b, lookup);
    }
  }

  /** Rows built event by event, as the loader's loops build them, are the rows of the document's batch. */
  lemma LoopRowsAreBatch(events: seq<Event>, lookup: LookupKey -> Option<SongKeys>, starts: seq<Timestamp>,
                         times: seq<TimeRow>, users: seq<UserRow>, keys: seq<LookupKey>, rows: seq<SongplayRow>)
    requires |events| > 0 && StartTimes(SongPlays(events)) == Success(starts)
    requires var plays := SongPlays(events);
      && times == TimeRowsOf(starts) && users == UserRowsOf(plays)
      && |keys| == |rows| == |plays|
      && (forall i :: 0 <= i < |plays| ==> keys[i] == LookupKeyOf(plays[i]))
      && (forall i :: 0 <= i < |plays| ==> rows[i] == SongplayRowOf(plays[i], starts[i], lookup(keys[i])))
    ensures LogFileStatements(events, lookup) == Success(TimeInserts(times) + UserInserts(users) + SongplaySteps(keys, rows))
  {
    var b := ExtractLogBatch(events, lookup).value;
    assert b == LogBatch(times, users, keys, rows);
  }

  /** Insert every time row, in order. */
  method InsertTimes(session: Session, times: seq<TimeRow>)
    modifies session`log
    ensures session.log == old(session.log) + TimeInserts(times)
  {
    ghost var base := session.log;
    for i := 0 to |times|
      invariant session.log == base + TimeInserts(times[..i])
    {
      assert TimeInserts(times[..i + 1]) == TimeInserts(times[..i]) + [InsertTime(times[i])];
      session.Execute(InsertTime(times[i]));
    }
    assert times[..|times|] == times;
  }

  /** Insert every user row, in order. */
  method InsertUsers(session: Session, users: seq<UserRow>)
    modifies session`log
    ensures session.log == old(session.log) + UserInserts(users)
  {
    ghost var base := session.log;
    for i := 0 to |users|
      invariant session.log == base + UserInserts(users[..i])
    {
      assert UserInserts(users[..i + 1]) == UserInserts(users[..i]) + [InsertUser(users[i])];
      session.Execute(InsertUser(users[i]));
    }
    assert users[..|users|] == users;
  }

  /** One song play: look its song and artist up, then insert its row. */
  method InsertSongplayFor(session: Session, play: Event, start: Timestamp)
    returns (key: LookupKey, row: SongplayRow)
    modifies session`log
    ensures key == LookupKeyOf(play)
    ensures row == SongplayRowOf(play, start, session.lookup(key))
    ensures session.log == old(session.log) + [SelectSong(key), InsertSongplay(row)]
  {
    key := LookupKeyOf(play);
    ghost var before := session.log;
    var found := session.FetchSong(key);
    row := SongplayRowOf(play, start, found);
    session.Execute(InsertSongplay(row));
    AppendAssoc(before, [SelectSong(key)], [InsertSongplay(row)]);
  }

  /**
   * For each song play: look its song and artist up, then insert the songplay
   * row with what the lookup found, or with nulls when it found nothing.
   */
  method InsertSongplays(session: Session, plays: seq<Event>, starts: seq<Timestamp>)
    returns (ghost keys: seq<LookupKey>, ghost rows: seq<SongplayRow>)
    requires |starts| == |plays|
    modifies session`log
    ensures |keys| == |rows| == |plays|
    ensures forall j :: 0 <= j < |plays| ==> keys[j] == LookupKeyOf(plays[j])
    ensures forall j :: 0 <= j < |plays| ==> rows[j] == SongplayRowOf(plays[j], starts[j], session.lookup(keys[j]))
    ensures session.log == old(session.log) + SongplaySteps(keys, rows)
  {
    ghost var base := session.log;
    keys, rows := [], [];
    for i := 0 to |plays|
      invariant |keys| == |rows| == i
      invariant forall j :: 0 <= j < i ==> keys[j] == LookupKeyOf(plays[j])
      invariant forall j :: 0 <= j < i ==> rows[j] == SongplayRowOf(plays[j], starts[j], session.lookup(keys[j]))
      invariant session.log == base + SongplaySteps(keys, rows)
    {
      var key, row := InsertSongplayFor(session, plays[i], starts[i]);
      SongplayStepsSnoc(keys, rows, key, row);
      AppendAssoc(base, SongplaySteps(keys, rows), [SelectSong(key), InsertSongplay(row)]);
      keys, rows := keys + [key], rows + [row];
    }
  }

  method ProcessLogFile(session: Session, events: seq<Event>) returns (r: Outcome<EtlError>)
    modifies session`log
    ensures r == OutcomeOf(LogFileStatements(events, session.lookup))
    ensures session.log == old(session.log) + Issued(LogFileStatements(events, session.lookup))
  {
    // a document without lines has no page column to filter on
    if |events| == 0 {
      return Fail(EmptyLogDocument);
    }
    // keep the NextSong events, then convert their ts column
    var plays := SongPlays(events);
    var converted := StartTimes(plays);
    if converted.Failure? {
      return Fail(converted.error);
    }
    var starts := converted.value;
    var times := TimeRowsOf(starts);
    var users := UserRowsOf(plays);

    InsertTimes(session, times);
    InsertUsers(session, users);
    ghost var keys, rows := InsertSongplays(session, plays, starts);

    assert session.log == old(session.log) + (TimeInserts(times) + UserInserts(users) + SongplaySteps(keys, rows));
    LoopRowsAreBatch(events, session.lookup, starts, times, users, keys, rows);
    return Pass;
  }

  /* ---------------- The driver ---------------- */

  /** The per-file function the driver is given, with the parser that reads each file. */
  datatype Extractor =
    | SongFiles(readSongs: Path -> seq<SongRecord>)
    | LogFiles(readEvents: Path -> seq<Event>)

  /** What one file yields: its song or log statements, or the error it raises. */
  function FileStatements(x: Extractor, path: Path, lookup: LookupKey -> Option<SongKeys>): (r: Result<seq<Statement>, EtlError>)
    ensures x.SongFiles? ==> (r.Failure? ==> r.error == EmptySongDocument) && (r.Success? ==> |r.value| == 2)
    ensures x.LogFiles? && r.Failure? ==>
      r.error == if |x.readEvents(path)| == 0 then EmptyLogDocument else TimestampOutOfBounds
    ensures x.LogFiles? && |x.readEvents(path)| == 0 ==> r == Failure(EmptyLogDocument)
  {
    match x
    case SongFiles(read) => SongFileStatements(read(path))
    case LogFiles(read) => LogFileStatements(read(path), lookup)
  }

  method ProcessFile(session: Session, x: Extractor, path: Path) returns (r: Outcome<EtlError>)
    modifies session`log
    ensures r == OutcomeOf(FileStatements(x, path, session.lookup))
    ensures session.log == old(session.log) + Issued(FileStatements(x, path, session.lookup))
  {
    match x
    case SongFiles(read) =>
      r := ProcessSongFile(session, read(path));
    case LogFiles(read) =>
      r := ProcessLogFile(session, read(path));
  }

  /** What processing one file yields: its statements, or the error it raises. */
  type FileStep = Path -> Result<seq<Statement>, EtlError>

  /** The driver's step for an extractor: read the file, then extract it. */
  function StepOf(x: Extractor, lookup: LookupKey -> Option<SongKeys>): FileStep {
    path => FileStatements(x, path, lookup)
  }

  /**
   * `step` is the per-file function of extractor `x`: it agrees with
   * FileStatements on every path. The driver methods take their step as a ghost
   * parameter meeting this predicate, so that their proofs look inside a file's
   * statements only where a file is processed.
   */
  ghost predicate StepFor(step: FileStep, x: Extractor, lookup: LookupKey -> Option<SongKeys>) {
    forall path {:trigger FileStatements(x, path, lookup)} :: step(path) == FileStatements(x, path, lookup)
  }

  /** StepOf is the step of its extractor, so the driver methods can always be called. */
  lemma StepOfIsStepFor(x: Extractor, lookup: LookupKey -> Option<SongKeys>)
    ensures StepFor(StepOf(x, lookup), x, lookup)
  {
  }

  /**
   * The statements of a run over `files`: each file's statements followed by a
   * commit, in list order, up to the first file that raises.
   */
  function RunStatements(step: FileStep, files: seq<Path>): (r: seq<Statement>)
    ensures r == [] <==> FilesCommitted(step, files) == 0
    ensures r != [] ==> r[|r| - 1] == Commit
    decreases |files|
  {
    if |files| == 0 then []
    else match step(files[0])
      case Failure(_) => []
      case Success(st) => st + [Commit] + RunStatements(step, files[1..])
  }

  /** How many files a run over `files` processes and commits. */
  function FilesCommitted(step: FileStep, files: seq<Path>): (n: nat)
    ensures n <= |files|
    decreases |files|
  {
    if |files| == 0 then 0
    else match step(files[0])
      case Failure(_) => 0
      case Success(_) => 1 + FilesCommitted(step, files[1..])
  }

  /** The outcome of a run: the error of the first file that raises, if any. */
  function RunOutcome(step: FileStep, files: seq<Path>): (r: Outcome<EtlError>)
    ensures r.Pass? <==> FilesCommitted(step, files) == |files|
    decreases |files|
  {
    if |files| == 0 then Pass
    else match step(files[0])
      case Failure(e) => Fail(e)
      case Success(_) => RunOutcome(step, files[1..])
  }

  /** The progress lines after `done` files of `total`: "1 of total", ..., "done of total". */
  function Progress(done: nat, total: nat): (r: seq<Report>)
    ensures |r| == done && forall j :: 0 <= j < done ==> r[j] == FilesProcessed(j + 1, total)
  {
    seq(done, j requires 0 <= j < done => FilesProcessed(j + 1, total))
  }

  /** The console lines of a run over `files`: the files found, then one progress line per file committed. */
  function RunReport(step: FileStep, files: seq<Path>): (r: seq<Report>)
    ensures |r| == 1 + FilesCommitted(step, files) && r[0] == FilesFound(|files|)
    ensures forall j :: 1 <= j < |r| ==> r[j] == FilesProcessed(j, |files|)
  {
    [FilesFound(|files|)] + Progress(FilesCommitted(step, files), |files|)
  }

  /** The progress counter of a run counts 1, 2, ... up to the files processed, and never past the files found. */
  lemma ProgressBounded(step: FileStep, files: seq<Path>)
    ensures var p := Progress(FilesCommitted(step, files), |files|);
      forall j :: 0 <= j < |p| ==> p[j] == FilesProcessed(j + 1, |files|) && 1 <= p[j].done <= |files|
  {
  }

  /** A run over `done + rest`, where every file of `done` commits, is the run over `done` and then the run over `rest`. */
  lemma {:induction false} RunAppend(step: FileStep, done: seq<Path>, rest: seq<Path>)
    requires FilesCommitted(step, done) == |done|
    ensures RunStatements(step, done + rest) == RunStatements(step, done) + RunStatements(step, rest)
    ensures FilesCommitted(step, done + rest) == |done| + FilesCommitted(step, rest)
    ensures RunOutcome(step, done + rest) == RunOutcome(step, rest)
    decreases |done|
  {
    if |done| == 0 {
      assert done + rest == rest;
    } else {
      assert (done + rest)[0] == done[0];
      assert (done + rest)[1..] == done[1..] + rest;
      RunAppend(step, done[1..], rest);
    }
  }

  function CountCommits(log: seq<Statement>): (n: nat)
    ensures n <= |log|
  {
    if |log| == 0 then 0 else (if log[0] == Commit then 1 else 0) + CountCommits(log[1..])
  }

  lemma {:induction false} CountCommitsAppend(a: seq<Statement>, b: seq<Statement>)
    ensures CountCommits(a + b) == CountCommits(a) + CountCommits(b)
    decreases |a|
  {
    if |a| == 0 {
      assert a + b == b;
    } else {
      assert (a + b)[1..] == a[1..] + b;
      CountCommitsAppend(a[1..], b);
    }
  }

  lemma {:induction false} SongplayStepsCommitFree(keys: seq<LookupKey>, rows: seq<SongplayRow>)
    requires |keys| == |rows|
    ensures CountCommits(SongplaySteps(keys, rows)) == 0
    decreases |rows|
  {
    if |rows| > 0 {
      var n := |rows| - 1;
      SongplayStepsCommitFree(keys[..n], rows[..n]);
      CountCommitsAppend(SongplaySteps(keys[..n], rows[..n]), [SelectSong(keys[n]), InsertSongplay(rows[n])]);
    }
  }

  lemma {:induction false} InsertsCommitFree(s: seq<Statement>)
    requires forall i :: 0 <= i < |s| ==> s[i] != Commit
    ensures CountCommits(s) == 0
    decreases |s|
  {
    if |s| > 0 {
      InsertsCommitFree(s[1..]);
    }
  }

  /** No extractor commits on its own: the driver's commits are the only ones. */
  lemma FileStatementsCommitFree(x: Extractor, path: Path, lookup: LookupKey -> Option<SongKeys>)
    requires FileStatements(x, path, lookup).Success?
    ensures CountCommits(FileStatements(x, path, lookup).value) == 0
  {
    match x
    case SongFiles(read) =>
      InsertsCommitFree(FileStatements(x, path, lookup).value);
    case LogFiles(read) =>
      var b := ExtractLogBatch(read(path), lookup).value;
      InsertsCommitFree(TimeInserts(b.times));
      InsertsCommitFree(UserInserts(b.users));
      SongplayStepsCommitFree(b.lookups, b.songplays);
      CountCommitsAppend(TimeInserts(b.times), UserInserts(b.users));
      CountCommitsAppend(TimeInserts(b.times) + UserInserts(b.users), SongplaySteps(b.lookups, b.songplays));
  }

  /** With a step that never commits, a run commits exactly once per file it processes. */
  lemma {:induction false} OneCommitPerFile(step: FileStep, files: seq<Path>)
    requires forall path :: step(path).Success? ==> CountCommits(step(path).value) == 0
    ensures CountCommits(RunStatements(step, files)) == FilesCommitted(step, files)
    decreases |files|
  {
    if |files| > 0 && step(files[0]).Success? {
      var st := step(files[0]).value;
      OneCommitPerFile(step, files[1..]);
      CountCommitsAppend(st, [Commit]);
      CountCommitsAppend(st + [Commit], RunStatements(step, files[1..]));
    }
  }

  /** The loader commits exactly once per song or log file it processes. */
  lemma DriverCommitsOncePerFile(x: Extractor, files: seq<Path>, lookup: LookupKey -> Option<SongKeys>)
    ensures CountCommits(RunStatements(StepOf(x, lookup), files)) == FilesCommitted(StepOf(x, lookup), files)
  {
    forall path | StepOf(x, lookup)(path).Success?
      ensures CountCommits(StepOf(x, lookup)(path).value) == 0
    {
      FileStatementsCommitFree(x, path, lookup);
    }
    OneCommitPerFile(StepOf(x, lookup), files);
  }

  /* ---------------- File discovery ---------------- */

  /**
   * The absolute paths of the matching files of each directory of a walk, the
   * directories in walk order and each directory's matches in glob order.
   */
  function DiscoveredFiles(walk: seq<seq<Path>>, abs: Path -> Path): (r: seq<Path>)
    ensures |r| == MatchCount(walk)
    decreases |walk|
  {
    if |walk| == 0 then []
    else
      var last := walk[|walk| - 1];
      DiscoveredFiles(walk[..|walk| - 1], abs) + seq(|last|, j requires 0 <= j < |last| => abs(last[j]))
  }

  /** The number of matches over all directories of a walk. */
  function MatchCount(walk: seq<seq<Path>>): nat
    decreases |walk|
  {
    if |walk| == 0 then 0 else MatchCount(walk[..|walk| - 1]) + |walk[|walk| - 1]|
  }

  /** A path is discovered exactly when it is the absolute path of some match of some directory. */
  lemma {:induction false} DiscoveredFilesMembership(walk: seq<seq<Path>>, abs: Path -> Path, p: Path)
    ensures p in DiscoveredFiles(walk, abs)
        <==> exists i, j :: 0 <= i < |walk| && 0 <= j < |walk[i]| && abs(walk[i][j]) == p
    decreases |walk|
  {
    if |walk| > 0 {
      var n := |walk| - 1;
      DiscoveredFilesMembership(walk[..n], abs, p);
      var tail := seq(|walk[n]|, j requires 0 <= j < |walk[n]| => abs(walk[n][j]));
      if p in DiscoveredFiles(walk, abs) {
        if p in tail {
          var j :| 0 <= j < |tail| && tail[j] == p;
          assert abs(walk[n][j]) == p;
        } else {
          assert p in DiscoveredFiles(walk[..n], abs);
          var i, j :| 0 <= i < n && 0 <= j < |walk[..n][i]| && abs(walk[..n][i][j]) == p;
          assert abs(walk[i][j]) == p;
        }
      } else {
        forall i, j | 0 <= i < |walk| && 0 <= j < |walk[i]|
          ensures abs(walk[i][j]) != p
        {
          if i < n {
            assert walk[..n][i] == walk[i];
          } else {
            assert tail[j] == abs(walk[i][j]);
          }
        }
      }
    }
  }

  /** The nested loop that appends every match of every directory of the walk. */
  method CollectFiles(walk: seq<seq<Path>>, abs: Path -> Path) returns (all: seq<Path>)
    ensures all == DiscoveredFiles(walk, abs)
  {
    all := [];
    for i := 0 to |walk|
      invariant all == DiscoveredFiles(walk[..i], abs)
    {
      var files := walk[i];
      ghost var before := all;
      for j := 0 to |files|
        invariant all == before + seq(j, k requires 0 <= k < j => abs(files[k]))
      {
        all := all + [abs(files[j])];
      }
      assert walk[..i + 1][..i] == walk[..i];
    }
    assert walk[..|walk|] == walk;
  }

  /** A run whose first i files all committed ends with the error of file i when that file raises. */
  lemma RunStopsAt(step: FileStep, files: seq<Path>, i: int)
    requires 0 <= i < |files| && FilesCommitted(step, files[..i]) == i
    requires step(files[i]).Failure?
    ensures RunStatements(step, files) == RunStatements(step, files[..i])
    ensures FilesCommitted(step, files) == i
    ensures RunOutcome(step, files) == Fail(step(files[i]).error)
  {
    RunAppend(step, files[..i], files[i..]);
    assert files[..i] + files[i..] == files;
    RunFrom(step, files[i..]);
  }

  /** A run whose first i files all committed extends by file i, and a commit, when that file succeeds. */
  lemma RunExtends(step: FileStep, files: seq<Path>, i: int)
    requires 0 <= i < |files| && FilesCommitted(step, files[..i]) == i
    requires step(files[i]).Success?
    ensures FilesCommitted(step, files[..i + 1]) == i + 1
    ensures RunStatements(step, files[..i + 1]) == RunStatements(step, files[..i]) + step(files[i]).value + [Commit]
  {
    RunAppend(step, files[..i], [files[i]]);
    assert files[..i] + [files[i]] == files[..i + 1];
    RunFrom(step, [files[i]]);
  }

  /** The run over a non-empty list as its first file decides it. */
  lemma RunFrom(step: FileStep, files: seq<Path>)
    requires |files| > 0
    ensures step(files[0]).Failure? ==>
      && RunStatements(step, files) == []
      && FilesCommitted(step, files) == 0
      && RunOutcome(step, files) == Fail(step(files[0]).error)
    ensures step(files[0]).Success? && |files| == 1 ==>
      && FilesCommitted(step, files) == 1
      && RunStatements(step, files) == step(files[0]).value + [Commit]
  {
    if |files| == 1 {
      assert files[1..] == [];
    }
  }

  /** Appending three pieces one after another appends their concatenation. */
  lemma AppendThree<T>(a: seq<T>, b: seq<T>, c: seq<T>, d: seq<T>)
    ensures a + b + c + d == a + (b + c + d)
  {
  }

  /** Concatenation regrouped. */
  lemma AppendAssoc<T>(a: seq<T>, b: seq<T>, c: seq<T>)
    ensures a + b + c == a + (b + c)
  {
  }

  /** A sequence extended twice is the original followed by both extensions. */
  lemma AppendAfter<T>(s0: seq<T>, x: seq<T>, y: seq<T>, s1: seq<T>, s2: seq<T>)
    requires s1 == s0 + x && s2 == s1 + y
    ensures s2 == s0 + x + y
  {
  }

  /** One more progress line extends the progress report. */
  lemma ProgressStep(before: seq<Report>, done: nat, total: nat)
    ensures before + Progress(done, total) + [FilesProcessed(done + 1, total)] == before + Progress(done + 1, total)
  {
    assert Progress(done + 1, total) == Progress(done, total) + [FilesProcessed(done + 1, total)];
  }

  /**
   * Process `files` in list order, committing and reporting progress after
   * each one; the first file that raises ends the run.
   */
  method RunFiles(session: Session, x: Extractor, files: seq<Path>, ghost step: FileStep) returns (r: Outcome<EtlError>)
    requires StepFor(step, x, session.lookup)
    modifies session`log, session`console
    ensures r == RunOutcome(step, files)
    ensures session.log == old(session.log) + RunStatements(step, files)
    ensures session.console == old(session.console) + Progress(FilesCommitted(step, files), |files|)
  {
    ghost var log0, console0 := session.log, session.console;
    var numFiles := |files|;
    var i := 0;
    while i < numFiles
      invariant 0 <= i <= numFiles
      invariant FilesCommitted(step, files[..i]) == i
      invariant session.log == log0 + RunStatements(step, files[..i])
      invariant session.console == console0 + Progress(i, numFiles)
    {
      var outcome := ProcessFile(session, x, files[i]);
      assert step(files[i]) == FileStatements(x, files[i], session.lookup);
      if outcome.Fail? {
        RunStopsAt(step, files, i);
        return outcome;
      }
      RunExtends(step, files, i);
      ghost var done := RunStatements(step, files[..i]);
      ghost var st := step(files[i]).value;
      assert session.log == log0 + done + st;
      session.CommitWork();
      AppendThree(log0, done, st, [Commit]);
      session.WriteProgress(FilesProcessed(i + 1, numFiles));
      ProgressStep(console0, i, numFiles);
      i := i + 1;
    }
    assert files[..numFiles] == files;
    return Pass;
  }

  /**
   * Collect the files of the walk, report how many were found, then process
   * them in list order, committing and reporting after each one; the first
   * file that raises ends the run.
   */
  method ProcessData(session: Session, walk: seq<seq<Path>>, abs: Path -> Path, x: Extractor, ghost step: FileStep)
    returns (r: Outcome<EtlError>)
    requires StepFor(step, x, session.lookup)
    modifies session`log, session`console
    ensures var files := DiscoveredFiles(walk, abs);
      && r == RunOutcome(step, files)
      && session.log == old(session.log) + RunStatements(step, files)
      && session.console == old(session.console) + [FilesFound(|files|)] + Progress(FilesCommitted(step, files), |files|)
  {
    var allFiles := CollectFiles(walk, abs);
    session.WriteProgress(FilesFound(|allFiles|));
    r := RunFiles(session, x, allFiles, step);
  }

  /** Load the song documents, then the log documents; a song file that raises ends the whole load. */
  method LoadAll(session: Session, songWalk: seq<seq<Path>>, logWalk: seq<seq<Path>>, abs: Path -> Path,
                 readSongs: Path -> seq<SongRecord>, readEvents: Path -> seq<Event>,
                 ghost songStep: FileStep, ghost logStep: FileStep)
    returns (r: Outcome<EtlError>)
    requires StepFor(songStep, SongFiles(readSongs), session.lookup)
    requires StepFor(logStep, LogFiles(readEvents), session.lookup)
    modifies session`log, session`console
    ensures var songs, logs := DiscoveredFiles(songWalk, abs), DiscoveredFiles(logWalk, abs);
      var songRun := RunOutcome(songStep, songs);
      && r == (if songRun.Pass? then RunOutcome(logStep, logs) else songRun)
      && session.log == old(session.log) + RunStatements(songStep, songs)
                        + (if songRun.Pass? then RunStatements(logStep, logs) else [])
      && session.console == old(session.console) + RunReport(songStep, songs)
                            + (if songRun.Pass? then RunReport(logStep, logs) else [])
  {
    ghost var log0, console0 := session.log, session.console;
    r := ProcessData(session, songWalk, abs, SongFiles(readSongs), songStep);
    ghost var songs := DiscoveredFiles(songWalk, abs);
    ghost var songLines := RunReport(songStep, songs);
    AppendAssoc(console0, [FilesFound(|songs|)], Progress(FilesCommitted(songStep, songs), |songs|));
    if r.Pass? {
      ghost var log1, console1 := session.log, session.console;
      r := ProcessData(session, logWalk, abs, LogFiles(readEvents), logStep);
      ghost var logs := DiscoveredFiles(logWalk, abs);
      AppendAssoc(console1, [FilesFound(|logs|)], Progress(FilesCommitted(logStep, logs), |logs|));
      AppendAfter(console0, songLines, RunReport(logStep, logs), console1, session.console);
      AppendAfter(log0, RunStatements(songStep, songs), RunStatements(logStep, logs), log1, session.log);
    } else {
      AppendAssoc(console0, songLines, []);
      AppendAssoc(log0, RunStatements(songStep, songs), []);
    }
  }
}
