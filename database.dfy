/**
 * The database session the loader writes through: one cursor and its
 * connection, seen as the sequence of statements they were given, plus the
 * progress lines the loader reports.
 */
module Database {
  import opened Wrappers
  import opened Transform

  /** A statement executed on the cursor, or a commit on the connection. */
  datatype Statement =
    | InsertSong(song: SongRow)
    | InsertArtist(artist: ArtistRow)
    | InsertTime(time: TimeRow)
    | InsertUser(user: UserRow)
    | InsertSongplay(songplay: SongplayRow)
    | SelectSong(key: LookupKey)
    | Commit

  /** A progress line on the console: files found, and files processed so far out of all found. */
  datatype Report = FilesFound(total: nat) | FilesProcessed(done: nat, total: nat)

  class Session {
    /** What the song/artist lookup returns for each key, fixed for the session. */
    const lookup: LookupKey -> Option<SongKeys>
    /** Every statement executed and every commit, in order. */
    var log: seq<Statement>
    /** Every progress line reported, in order. */
    var console: seq<Report>

    constructor (lookup: LookupKey -> Option<SongKeys>)
      ensures this.lookup == lookup && log == [] && console == []
    {
      this.lookup := lookup;
      log := [];
      console := [];
    }

    /** Execute one statement on the cursor. */
    method Execute(st: Statement)
      modifies this`log
      ensures log == old(log) + [st]
    {
      log := log + [st];
    }

    /** Execute the song/artist lookup and fetch its first row, if any. */
    method FetchSong(key: LookupKey) returns (found: Option<SongKeys>)
      modifies this`log
      ensures found == lookup(key)
      ensures log == old(log) + [SelectSong(key)]
    {
      log := log + [SelectSong(key)];
      found := lookup(key);
    }

    /** Commit the connection's unit of work. */
    method CommitWork()
      modifies this`log
      ensures log == old(log) + [Commit]
    {
      log := log + [Commit];
    }

    /** Write one progress line. */
    method WriteProgress(r: Report)
      modifies this`console
      ensures console == old(console) + [r]
    {
      console := console + [r];
    }
  }
}
