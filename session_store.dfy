/**
 * The durable store as one student's session view sees it: the `notes` row,
 * the `class_sessions` row and the append-only `notes_archive` table.
 * Timestamps are milliseconds since the epoch.
 */
module SessionStore {
  import opened Wrappers

  /** A `class_sessions` row. */
  datatype SessionRow = SessionRow(isActive: bool, startedAt: Option<int>, endedAt: Option<int>)

  /** A `notes_archive` row. */
  datatype ArchiveEntry = ArchiveEntry(content: string, classStartedAt: int, classEndedAt: int)

  /** A write the session view issues against the store. */
  datatype Write =
    | NotesUpsert(content: string)
    | SessionUpsert(row: SessionRow)
    | ArchiveInsert(entry: ArchiveEntry)

  /** The entries that the archive inserts in `log` add, in order. */
  function Archived(log: seq<Write>): (r: seq<ArchiveEntry>)
    ensures |r| <= |log|
  {
    if log == [] then []
    else Archived(log[..|log| - 1]) + (match log[|log| - 1]
                                       case ArchiveInsert(e) => [e]
                                       case _ => [])
  }

  class Store {
    var notes: Option<string>       // content of the notes row; None when there is no row
    var session: Option<SessionRow> // the class_sessions row; None when there is no row
    var archive: seq<ArchiveEntry>  // notes_archive rows, in insertion order
    var log: seq<Write>             // every write the store accepted, in order
    ghost var initialArchive: seq<ArchiveEntry>

    /** The archive only ever grows by the inserts recorded in the log. */
    ghost predicate Valid()
      reads this
    {
      archive == initialArchive + Archived(log)
    }

    constructor (notes0: Option<string>, session0: Option<SessionRow>, archive0: seq<ArchiveEntry>)
      ensures Valid()
      ensures notes == notes0 && session == session0 && archive == archive0 && log == []
    {
      notes, session, archive, log := notes0, session0, archive0, [];
      initialArchive := archive0;
    }

    /** Attempts one write; `ok` is whether the store accepted it. A rejected write changes nothing. */
    method Perform(w: Write, ok: bool)
      requires Valid()
      modifies this
      ensures Valid() && initialArchive == old(initialArchive)
      ensures log == old(log) + (if ok then [w] else [])
      ensures notes == (if ok && w.NotesUpsert? then Some(w.content) else old(notes))
      ensures session == (if ok && w.SessionUpsert? then Some(w.row) else old(session))
      ensures archive == old(archive) + (if ok && w.ArchiveInsert? then [w.entry] else [])
    {
      if ok {
        match w {
          case NotesUpsert(c) => notes := Some(c);
          case SessionUpsert(row) => session := Some(row);
          case ArchiveInsert(e) => archive := archive + [e];
        }
        log := log + [w];
        assert log[..|log| - 1] == old(log);
      }
    }
  }
}
