# Sparkify ETL loader — a verified Dafny model

This project models `etl.py`, the loader of the Sparkify star schema. The loader reads two kinds of JSON-lines documents and writes five tables through one database cursor:

- **Song documents.** The first record of each document gives one `songs` row and one `artists` row.
- **Log documents.** Each event whose page is `NextSong` gives:
  - one `time` row, derived from the event's millisecond timestamp;
  - one `users` row;
  - one `songplays` row, whose song and artist ids come from a lookup on the event's song, artist and length.
- **The driver.** It walks a directory tree, collects every `*.json` file and processes the files one by one. After each file it commits and reports progress. It runs over the song tree first, then over the log tree.

The model has five modules:

- `Wrappers` (`wrappers.dfy`): `Option`, `Result` and `Outcome`.
- `Calendar` (`calendar.dfy`): the proleptic Gregorian calendar in UTC on integer day numbers and epoch milliseconds. It covers the date of a day number and its inverse, the hour, minute, second and millisecond of a millisecond value, the weekday with Monday = 0, and the ISO 8601 week date. These are the timestamp accessors the loader reads: `hour`, `day`, `weekofyear`, `month`, `year` and `weekday`.
- `Transform` (`transform.dfy`): the pure part of the loader. It holds the typed input records, the five row types, the `NextSong` filter, the conversion of `ts` to timestamps (which raises when a value is out of range), the column projections, and the rows a log document yields (`ExtractLogBatch`).
- `Database` (`database.dfy`): a `Session` class that stands for the cursor and its connection. It keeps the sequence of statements executed and commits issued, plus the progress lines written. The song/artist lookup is a function fixed for the session.
- `Etl` (`etl.dfy`): the loader's methods.
  - `ProcessSongFile` and `ProcessLogFile`. `ProcessLogFile` runs three insert loops: time rows, then user rows, then a lookup and a songplay insert per event.
  - `CollectFiles`, the nested loop that collects the files.
  - `ProcessData`, the per-file loop with a commit and a progress line after each file.
  - `LoadAll`, the song run followed by the log run.

Each method is proved against a function that specifies it: `SongFileStatements`, `LogFileStatements`, `DiscoveredFiles`, `RunStatements`, `FilesCommitted`, `RunOutcome` and `Progress`. The properties are proved about those functions. The driver methods take the per-file function as a ghost parameter `step`, required to agree with `FileStatements` on every path (`StepFor`); `StepOf` builds one for every extractor.

`etl.py` has no exception handler. A file that raises therefore ends the whole run: its own statements are not issued, nothing after it is processed, and it is not committed. In the model, three conditions raise:

- a song document with no record: the column selection of etl.py:20 finds none of its columns (a `KeyError`);
- a log document with no record: the `page` filter of etl.py:41 finds no such column (a `KeyError`);
- a kept `ts` value whose conversion to a nanosecond timestamp overflows.

## Model

| member | source | states |
|---|---|---|
| Transform.SongRowOf | etl.py:20 | the song row carries song_id, title, artist_id, year and duration of its record unchanged |
| Transform.ArtistRowOf | etl.py:24 | the artist row carries artist_id, artist_name, artist_location, artist_latitude and artist_longitude of its record unchanged |
| Transform.CatalogEntry | etl.py:17-26 | a song document yields its rows exactly when it has a record, and then the song row and the artist row are those of its first record, sharing its artist_id; an empty document raises EmptySongDocument |
| Transform.CatalogEntryUsesFirstRecord | etl.py:20-24 | two documents with the same first record yield the same rows: later records never reach the tables |
| Etl.SongFileStatements | etl.py:19-26 | a song document issues exactly two statements, the song insert and then the artist insert, both of its first record and with equal artist_id; without a record it raises and issues nothing |
| Etl.ProcessSongFile | etl.py:8-26 | the method appends exactly the statements of SongFileStatements to the session log and reports its outcome |
| Transform.SongPlays | etl.py:41 | the filter keeps at most every event, and everything it keeps has page NextSong |
| Transform.SongPlaysCounts | etl.py:41 | each NextSong event is kept exactly as often as it occurs and every other event is dropped, so there is no deduplication |
| Transform.SongPlaysAppend | etl.py:41 | the filter distributes over concatenation, so it keeps document order |
| Transform.SongPlaysIdempotent | etl.py:41 | filtering twice equals filtering once |
| Transform.NoSongPlays | etl.py:41 | a document with no NextSong event keeps nothing |
| Transform.InTimestampRange | etl.py:44 | a millisecond value converts to a nanosecond timestamp without overflow exactly when its magnitude is at most 9223372036854 |
| Transform.StartTimes | etl.py:44 | conversion succeeds exactly when every kept ts fits the nanosecond range, gives one timestamp per event with the same milliseconds in order, and otherwise raises |
| Calendar.FromMillis | etl.py:44-45 | the breakdown of a millisecond value is a valid date and time whose day is the floor of ms by a day's milliseconds, and which maps back to the same millisecond value |
| Calendar.ToFromMillis | etl.py:44-45 | FromMillis and ToMillis are mutually inverse on valid date-times |
| Calendar.MillisSplit | etl.py:44-45 | a millisecond value splits into whole days, then hour 0..23, minute 0..59, second 0..59 and millisecond 0..999 |
| Calendar.DateOfDay | etl.py:48 | the date of a day number is a valid calendar date whose day number is that number |
| Calendar.DateOfDayNumber | etl.py:48 | DateOfDay inverts DayNumber, so each valid date has exactly one day number |
| Calendar.YearOfDay | etl.py:48 | the year of a day number is the one whose days contain it |
| Calendar.YearOfDayUnique | etl.py:48 | only one year contains a given day number |
| Calendar.DaysBeforeYearClosedForm | etl.py:48 | the day number of January 1st equals 365 days a year since 1970 plus one per Gregorian leap year |
| Calendar.LeapYearsBeforeStep | etl.py:48 | the leap-year count rises by one exactly across a Gregorian leap year |
| Calendar.DaysBeforeYearMonotone | etl.py:48 | a year ends no later than any later year starts |
| Calendar.Weekday | etl.py:48 | the weekday of a day is in 0..6, Monday = 0 |
| Calendar.WeekdayNext | etl.py:48 | 1970-01-01 (day 0) is a Thursday (3), and each day's weekday follows the previous day's, Sunday (6) wrapping to Monday (0) |
| Calendar.IsoWeekOneMonday | etl.py:48 | ISO week 1 of a year starts on a Monday, and its Thursday is one of the first seven days of the year |
| Calendar.IsoYearLength | etl.py:48 | an ISO year has 52 or 53 weeks |
| Calendar.IsoWeekDate | etl.py:48 | a day lies in its ISO year, between that year's week-1 Monday and the next year's, and its week number 1..53 names the seven days that contain it |
| Calendar.NovemberFirst2018 | etl.py:44-48 | 1541106106796 ms is 2018-11-01 21:01:46.796 UTC |
| Calendar.NovemberFirst2018Week | etl.py:48 | day 17836 (2018-11-01) is a Thursday of ISO week 44 of 2018 |
| Transform.TimeRowOf | etl.py:44-50 | the time row's start_time is its timestamp; its other columns are stated by TimeRowFields |
| Transform.TimeRowFields | etl.py:44-50 | hour 0..23, day 1..31, month 1..12, weekday 0..6, week 1..53; the row names the valid date and the hour that contain the timestamp, that date's weekday with Monday = 0, and its ISO week |
| Transform.TimeRowDateAt | etl.py:48 | at 1541106106796 ms the hour is 21, the day 1, the month 11 and the year 2018 |
| Transform.TimeRowWeekAt | etl.py:48 | at 1541106106796 ms the week is 44 and the weekday 3 |
| Transform.TimeRowAt | etl.py:44-50 | the whole time row at 1541106106796 ms |
| Transform.TimeRowExample | etl.py:44-50 | ts = 1541106106796 gives hour 21, day 1, week 44, month 11, year 2018, weekday 3 |
| Transform.UserRowOf | etl.py:56 | the user row carries userId, firstName, lastName, gender and level of its event unchanged |
| Transform.LookupKeyOf | etl.py:66 | the lookup is made on the event's song, artist and length |
| Transform.SongplayRowOf | etl.py:66-75 | when the lookup finds nothing, song_id and artist_id are both null; otherwise they are exactly the pair found; start_time, userId, level, sessionId, location and userAgent are copied |
| Transform.ExtractLogBatch | etl.py:41-76 | the batch exists exactly when the document has lines and the timestamp conversion succeeds; a document without lines raises EmptyLogDocument, an out-of-range ts TimestampOutOfBounds; with k NextSong events it has k time, k user, k lookup and k songplay entries, the i-th of each built from the i-th kept event |
| Transform.SongplayStartMatchesTime | etl.py:44-75 | the i-th songplay row's start_time equals the i-th time row's start_time |
| Etl.SongplayStepsAt | etl.py:63-76 | in the songplay phase the i-th lookup sits at 2i and the i-th songplay insert right after it, at 2i + 1 |
| Etl.SongplayStepsAfter | etl.py:63-76 | after any prefix, the i-th lookup/insert pair sits 2i places past the prefix |
| Etl.BatchLayout | etl.py:52-76 | with k events a log document issues 4k statements: time inserts at 0..k-1, user inserts at k..2k-1, the i-th lookup at 2k + 2i and its songplay insert at 2k + 2i + 1 |
| Etl.LogFileStatements | etl.py:29-76 | a log document passes exactly when it has lines and every kept ts is in range; without lines it raises EmptyLogDocument, otherwise its only error is TimestampOutOfBounds; a passing document issues four statements per NextSong event |
| Etl.LogFileLayout | etl.py:41-76 | on a passing log document with k NextSong events, the i-th event's time insert sits at i, its user insert at k + i, its lookup at 2k + 2i and its songplay insert, built from what the lookup returned, at 2k + 2i + 1 |
| Etl.LogFileWithoutSongPlays | etl.py:41-76 | a log document with lines but no NextSong event passes and issues no statement; one without lines raises EmptyLogDocument |
| Etl.OtherEventsIgnored | etl.py:41 | inserting or removing a non-NextSong event (a Login, say) anywhere leaves the document's statements unchanged, except that a document made of that one event passes with no statement where the empty document raises |
| Etl.SameSongPlaysSameStatements | etl.py:41-76 | two log documents with the same NextSong events, both with lines or both without, issue the same statements |
| Etl.LoopRowsAreBatch | etl.py:44-76 | the rows the three loops build are exactly the document's batch, so they issue LogFileStatements |
| Etl.InsertTimes | etl.py:52-53 | the loop appends one time insert per row, in order |
| Etl.InsertUsers | etl.py:59-60 | the loop appends one user insert per row, in order |
| Etl.InsertSongplayFor | etl.py:66-76 | one song play issues its lookup and then the insert of the row built from what the lookup returned |
| Etl.InsertSongplays | etl.py:63-76 | for each event in order the loop appends its lookup and then its songplay insert, built from what the lookup returned |
| Etl.ProcessLogFile | etl.py:29-76 | the method appends exactly the statements of LogFileStatements to the session log and reports its outcome; a document without lines, or with a timestamp out of range, raises before any statement |
| Etl.FileStatements | etl.py:107 | a song file fails only with EmptySongDocument and otherwise issues two statements; a log file without lines fails with EmptyLogDocument, and a log file with lines fails only with TimestampOutOfBounds |
| Etl.StepOfIsStepFor | etl.py:107 | the step that reads and extracts each path agrees with FileStatements, so the driver can always be given one |
| Etl.ProcessFile | etl.py:107 | the extractor call appends exactly that file's statements and reports its outcome |
| Etl.RunStatements | etl.py:106-109 | a run issues nothing exactly when it commits no file, and a run that issues anything ends with a commit |
| Etl.FilesCommitted | etl.py:106-109 | a run commits at most as many files as it was given |
| Etl.RunOutcome | etl.py:106-109 | a run passes exactly when every file was processed and committed |
| Etl.RunAppend | etl.py:106-109 | when every file of a prefix commits, the run is the prefix's run followed by the rest's run |
| Etl.RunFrom | etl.py:106-109 | a run whose first file raises issues nothing and fails with that error; a one-file run that succeeds issues the file's statements and then a commit |
| Etl.RunStopsAt | etl.py:106-109 | a file that raises after i committed files ends the run there, with its error |
| Etl.RunExtends | etl.py:106-109 | a file that succeeds after i committed files extends the run by its statements and one commit |
| Etl.CountCommitsAppend | etl.py:108 | the commits of a concatenated log add up |
| Etl.FileStatementsCommitFree | etl.py:20-76 | neither extractor issues a commit of its own |
| Etl.OneCommitPerFile | etl.py:106-109 | with a step that never commits, a run commits exactly once per file processed |
| Etl.DriverCommitsOncePerFile | etl.py:106-109 | the loader commits exactly once per song or log file it processes |
| Etl.Progress | etl.py:109 | after n files of a total the progress lines are "1 of total" up to "n of total", in order |
| Etl.RunReport | etl.py:103-109 | a run's console lines are the number of files found, then the progress lines 1, 2, … up to the files committed, each against that number |
| Etl.ProgressBounded | etl.py:106-109 | the progress counter counts 1, 2, … in order and never exceeds the number of files found |
| Etl.ProgressStep | etl.py:109 | one more progress line extends the report by the next count |
| Etl.DiscoveredFiles | etl.py:95-102 | the collected list has one entry per match of every directory of the walk, so num_files counts every match |
| Etl.DiscoveredFilesMembership | etl.py:95-99 | a path is collected exactly when it is the absolute path of a match of some directory of the walk |
| Etl.CollectFiles | etl.py:95-99 | the nested loop collects exactly DiscoveredFiles: directories in walk order, matches in glob order |
| Etl.RunFiles | etl.py:106-109 | for any step agreeing with FileStatements, the loop's outcome, statements and progress lines are those of RunOutcome, RunStatements and Progress |
| Etl.ProcessData | etl.py:79-109 | for any step agreeing with FileStatements: reports the number of files found, then processes the files once each in list order with a commit and a progress line after each; stops at the first file that raises; the log, the console lines and the outcome are those of the run functions |
| Etl.LoadAll | etl.py:126-127 | the song run comes first and the log run follows only when the song run passed, in the outcome, the statement log and the console lines alike |
| Database.Session.constructor | etl.py:123-124 | a new session has an empty log and no progress lines |
| Database.Session.Execute | etl.py:21 | executing a statement appends it to the log |
| Database.Session.FetchSong | etl.py:66-67 | the lookup appends its select to the log and returns the session's lookup result |
| Database.Session.CommitWork | etl.py:108 | a commit appends a commit marker to the log |
| Database.Session.WriteProgress | etl.py:109 | a progress line is appended to the console |

## Left out

- `create_tables.py` is not part of this model. It only issues fixed DDL statements through psycopg2.
- `sql_queries.py` is not part of this model. Statements are logged as values rather than executed. Upsert and ON CONFLICT behaviour and the SQL of the song/artist join are not modelled. The lookup is a function fixed for the session, so it does not see rows inserted earlier in the same run.
- `pd.read_json` parsing and DataFrame mechanics are not modelled. A document arrives as a sequence of typed records, and columns the loader never reads are dropped.
- `os.walk`, `glob.glob` and `os.path.abspath` are not modelled. The walk is given as a sequence of directories, each holding its `*.json` matches in glob order, and the absolute path as a function parameter.
- Database errors raised by `cur.execute` or `conn.commit` (etl.py:21, 26, 53, 60, 66, 76, 108) are not modelled. `Session.Execute`, `Session.FetchSong` and `Session.CommitWork` always succeed, so a statement failing partway through a file is not captured.
- psycopg2 is not modelled: the connection, the cursor object, `conn.close()` and the hard-coded credentials in `main` are left out. The session log stands for the cursor and the connection together.
- The text of the two printed messages is not modelled. Each message is a `Report` value carrying its numbers.
- Floating-point values (`duration`, `length`, latitude, longitude) are carried as 64-bit patterns. No arithmetic is done on them.
- The NaT sentinel is not modelled. A timestamp that pandas would read as not-a-time is treated as out of range (the range is symmetric, ±(2^63 − 1) ns).
- Non-integer or missing `ts` values are not modelled. `ts` is an integer in the model.
- The pandas 1.x `Series.dt.weekofyear` accessor is modelled by its documented meaning, the ISO 8601 week number. Its removal in later pandas versions is not modelled.
