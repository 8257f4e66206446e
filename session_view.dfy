/**
 * One browser's session view of a student's class: the notes editor kept in
 * sync through a broadcast channel (fast path) and the notes table (durable
 * path), the class-session state, typing presence, and the admin's start and
 * end operations. Every handler takes the clock reading `now` (milliseconds)
 * at which it runs; timers are deadlines that a later handler call fires.
 */
module SessionView {
  import opened Wrappers
  import opened SessionStore
  import SessionPresence

  /** Idle time after the last change of `notes` before it is persisted. */
  const DebounceMs: int := 500
  /** After a successful local save, notes-table changes are ignored for this long. */
  const GraceMs: int := 800
  /** Idle time after the last keystroke before the typing flag is withdrawn. */
  const TypingIdleMs: int := 1200

  datatype SaveStatus = Idle | Saving | Saved

  /** The payload of a `note` broadcast. */
  datatype NoteMsg = NoteMsg(content: string, from: string, ts: int)

  /** The pending debounce timer: at `due` it saves `content`. */
  datatype PendingSave = PendingSave(due: int, content: string)

  /** A column of a realtime row: absent, null (or not of the column's type), or a value. */
  datatype Field<T> = Missing | Null | Value(v: T)

  datatype NotesRow = NotesRow(content: Field<string>)
  datatype SessionChangeRow = SessionChangeRow(isActive: Field<bool>, startedAt: Field<int>)

  /** A row-change payload with its `new` and `old` rows. */
  datatype Change<R> = Change(newRow: Option<R>, oldRow: Option<R>)

  /** `payload.new ?? payload.old` */
  function ChangedRow<R>(c: Change<R>): Option<R> {
    if c.newRow.Some? then c.newRow else c.oldRow
  }

  /** The string content a notes-table change carries, if it carries one. */
  function ChangedContent(c: Change<NotesRow>): (r: Option<string>)
    ensures r.Some? <==> ChangedRow(c).Some? && ChangedRow(c).value.content.Value?
    ensures r.Some? ==> r.value == ChangedRow(c).value.content.v
  {
    var row := ChangedRow(c);
    if row.Some? && row.value.content.Value? then Some(row.value.content.v) else None
  }

  /** A broadcast is applied when it is not this client's echo and is strictly newer than the high-water mark. */
  predicate BroadcastApplies(m: NoteMsg, self: string, highWater: int) {
    m.from != self && m.ts > highWater
  }

  /** A notes-table change at `now` falls inside the grace window of the last local save. */
  predicate JustSaved(now: int, lastLocalSaveAt: int) {
    now - lastLocalSaveAt < GraceMs
  }

  /**
   * The debounce effect. It re-runs only when `notes` or `active` changed; a
   * re-run cancels the pending save and, while active, schedules one that
   * fires DebounceMs later with the current notes.
   */
  function Rescheduled(changed: bool, active: bool, notes: string, pending: Option<PendingSave>, now: int): (r: Option<PendingSave>)
    ensures !changed ==> r == pending
    ensures changed ==> (r.Some? <==> active)
    ensures changed && r.Some? ==> r.value.due == now + DebounceMs && r.value.content == notes
  {
    if !changed then pending
    else if active then Some(PendingSave(now + DebounceMs, notes))
    else None
  }

  /** `active` after a class_sessions change: set from `!!is_active` when the column is present. */
  function ActiveAfter(row: Option<SessionChangeRow>, active: bool): (r: bool)
    ensures row.None? || row.value.isActive.Missing? ==> r == active
    ensures row.Some? && row.value.isActive.Value? ==> r == row.value.isActive.v
    ensures row.Some? && row.value.isActive.Null? ==> !r
  {
    if row.None? then active
    else match row.value.isActive
      case Value(b) => b
      case Null => false
      case Missing => active
  }

  /** `startedAt` after a class_sessions change: set when the column is present, null clearing it. */
  function StartedAtAfter(row: Option<SessionChangeRow>, startedAt: Option<int>): (r: Option<int>)
    ensures row.None? || row.value.startedAt.Missing? ==> r == startedAt
    ensures row.Some? && row.value.startedAt.Null? ==> r == None
    ensures row.Some? && row.value.startedAt.Value? ==> r == Some(row.value.startedAt.v)
  {
    if row.None? then startedAt
    else match row.value.startedAt
      case Value(t) => Some(t)
      case Null => None
      case Missing => startedAt
  }

  /** A write kept in the store's log when it succeeded. */
  function Kept(w: Write, ok: bool): seq<Write> {
    if ok then [w] else []
  }

  class Client {
    const clientId: string
    const store: Store
    var notes: string
    var saving: SaveStatus
    var active: bool
    var startedAt: Option<int>
    var lastLocalSaveAt: int
    var lastRemoteAt: int
    var peersTyping: nat
    var typing: bool                    // the presence payload this client tracks
    var typingOffAt: Option<int>        // the typing-off timer
    var pendingSave: Option<PendingSave>
    var sent: seq<NoteMsg>              // broadcasts sent, in order
    ghost var clock: int                // the time of the last event handled

    /**
     * A save is pending only while the class is active and always carries the
     * latest notes; the typing flag is up exactly while its timer runs.
     */
    ghost predicate Valid()
      reads this, store
    {
      store.Valid() &&
      (pendingSave.Some? ==> active && pendingSave.value.content == notes) &&
      (typing <==> typingOffAt.Some?)
    }

    /**
     * No timer is past its deadline at `now`: a timer fires before any event
     * that comes after its deadline.
     */
    ghost predicate NothingOverdue(now: int)
      reads this
    {
      (pendingSave.Some? ==> now <= pendingSave.value.due) &&
      (typingOffAt.Some? ==> now <= typingOffAt.value)
    }

    /** An event at `now` may be handled next: the clock does not run back and no timer is overdue. */
    ghost predicate CanHandle(now: int)
      reads this
    {
      clock <= now && NothingOverdue(now)
    }

    constructor (clientId: string, store: Store)
      requires store.Valid()
      ensures Valid() && this.clientId == clientId && this.store == store
      ensures notes == "" && saving == Idle && !active && startedAt == None
      ensures lastLocalSaveAt == 0 && lastRemoteAt == 0 && peersTyping == 0
      ensures !typing && typingOffAt == None && pendingSave == None && sent == []
      ensures clock == 0
    {
      this.clientId, this.store := clientId, store;
      notes, saving, active, startedAt := "", Idle, false, None;
      lastLocalSaveAt, lastRemoteAt, peersTyping := 0, 0, 0;
      typing, typingOffAt, pendingSave, sent := false, None, None, [];
      clock := 0;
    }

    /** One batch of state updates followed by the debounce effect. */
    method Commit(newNotes: string, newActive: bool, now: int)
      requires Valid()
      modifies this`notes, this`active, this`pendingSave
      ensures Valid()
      ensures notes == newNotes && active == newActive
      ensures pendingSave == Rescheduled(newNotes != old(notes) || newActive != old(active), newActive, newNotes, old(pendingSave), now)
    {
      var changed := newNotes != notes || newActive != active;
      notes, active := newNotes, newActive;
      pendingSave := Rescheduled(changed, active, notes, pendingSave, now);
    }

    /** `setNotes(v)` followed by the debounce effect. */
    method SetNotes(v: string, now: int)
      requires Valid()
      modifies this`notes, this`pendingSave
      ensures Valid()
      ensures notes == v
      ensures pendingSave == Rescheduled(v != old(notes), active, v, old(pendingSave), now)
    {
      var changed := v != notes;
      notes := v;
      pendingSave := Rescheduled(changed, active, notes, pendingSave, now);
    }

    /** `setActive(b)` followed by the debounce effect. */
    method SetActive(b: bool, now: int)
      requires Valid()
      modifies this`active, this`pendingSave
      ensures Valid()
      ensures active == b
      ensures pendingSave == Rescheduled(b != old(active), b, notes, old(pendingSave), now)
    {
      var changed := b != active;
      active := b;
      pendingSave := Rescheduled(changed, active, notes, pendingSave, now);
    }

    /** The mount-time load of the notes row and the class_sessions row; a failed read yields no row. */
    method Load(now: int, notesOk: bool, sessionOk: bool)
      requires Valid() && CanHandle(now)
      modifies this`notes, this`active, this`startedAt, this`pendingSave, this`clock
      ensures Valid() && clock == now
      ensures notes == (if notesOk then store.notes.GetOr("") else "")
      ensures active == (sessionOk && store.session.Some? && store.session.value.isActive)
      ensures startedAt == (if sessionOk && store.session.Some? then store.session.value.startedAt else None)
      ensures pendingSave == Rescheduled(notes != old(notes) || active != old(active), active, notes, old(pendingSave), now)
    {
      var n := if notesOk then store.notes else None;
      var s := if sessionOk then store.session else None;
      Commit(n.GetOr(""), s.Some? && s.value.isActive, now);
      startedAt := if s.Some? then s.value.startedAt else None;
      clock := now;
    }

    /**
     * A keystroke in the editor (`onChangeNotes`). The editor is read-only
     * while the class is inactive, so keystrokes arrive only while active.
     */
    method OnLocalEdit(v: string, now: int)
      requires Valid() && CanHandle(now) && active
      modifies this`notes, this`pendingSave, this`sent, this`typing, this`typingOffAt, this`clock
      ensures Valid() && clock == now
      ensures notes == v
      ensures sent == old(sent) + [NoteMsg(v, clientId, now)]
      ensures typing && typingOffAt == Some(now + TypingIdleMs)
      ensures v != old(notes) ==> pendingSave == Some(PendingSave(now + DebounceMs, v))
      ensures pendingSave == Rescheduled(v != old(notes), active, v, old(pendingSave), now)
    {
      SetNotes(v, now);
      sent := sent + [NoteMsg(v, clientId, now)];
      typing := true;
      typingOffAt := Some(now + TypingIdleMs);
      clock := now;
    }

    /** The typing-off timer fires. */
    method OnTypingIdle(now: int)
      requires Valid() && typingOffAt.Some? && clock <= now && typingOffAt.value <= now
      requires pendingSave.Some? ==> typingOffAt.value <= pendingSave.value.due
      modifies this`typing, this`typingOffAt, this`clock
      ensures Valid() && !typing && typingOffAt == None && clock == now
    {
      typing, typingOffAt := false, None;
      clock := now;
    }

    /** A `note` broadcast arrives. */
    method OnBroadcast(m: NoteMsg, now: int)
      requires Valid() && CanHandle(now)
      modifies this`notes, this`lastRemoteAt, this`pendingSave, this`clock
      ensures Valid() && clock == now
      ensures lastRemoteAt == (if BroadcastApplies(m, clientId, old(lastRemoteAt)) then m.ts else old(lastRemoteAt))
      ensures notes == (if BroadcastApplies(m, clientId, old(lastRemoteAt)) then m.content else old(notes))
      ensures lastRemoteAt >= old(lastRemoteAt)
      ensures m.from == clientId || m.ts <= old(lastRemoteAt) ==> notes == old(notes) && lastRemoteAt == old(lastRemoteAt)
      ensures pendingSave == Rescheduled(notes != old(notes), active, notes, old(pendingSave), now)
    {
      clock := now;
      if m.from == clientId {
        return;
      }
      if m.ts > lastRemoteAt {
        lastRemoteAt := m.ts;
        SetNotes(m.content, now);
      }
    }

    /** A change of the student's notes row arrives. */
    method OnNotesChange(c: Change<NotesRow>, now: int)
      requires Valid() && CanHandle(now)
      modifies this`notes, this`pendingSave, this`clock
      ensures Valid() && clock == now
      ensures notes == (if ChangedContent(c).Some? && !JustSaved(now, lastLocalSaveAt) then ChangedContent(c).value else old(notes))
      ensures pendingSave == Rescheduled(notes != old(notes), active, notes, old(pendingSave), now)
    {
      clock := now;
      var content := ChangedContent(c);
      if content.None? {
        return;
      }
      if !JustSaved(now, lastLocalSaveAt) {
        SetNotes(content.value, now);
      }
    }

    /** A change of the student's class_sessions row arrives. */
    method OnSessionChange(c: Change<SessionChangeRow>, now: int)
      requires Valid() && CanHandle(now)
      modifies this`active, this`startedAt, this`pendingSave, this`clock
      ensures Valid() && clock == now
      ensures active == ActiveAfter(ChangedRow(c), old(active))
      ensures startedAt == StartedAtAfter(ChangedRow(c), old(startedAt))
      ensures pendingSave == Rescheduled(active != old(active), active, notes, old(pendingSave), now)
    {
      var row := ChangedRow(c);
      var newActive := ActiveAfter(row, active);
      if newActive != active {
        SetActive(newActive, now);
      }
      startedAt := StartedAtAfter(row, startedAt);
      clock := now;
    }

    /** A presence sync: count the peers that are typing. */
    method OnPresenceSync(state: SessionPresence.PresenceState)
      modifies this`peersTyping
      ensures peersTyping == SessionPresence.TypingPerPeer(state, clientId)
    {
      peersTyping := SessionPresence.PeersTyping(state, clientId);
    }

    /** `save(content)`, run by the debounce timer: persists while active; `ok` is whether the upsert succeeded, `now` when it returned. */
    method Save(content: string, now: int, ok: bool)
      requires Valid()
      modifies this`lastLocalSaveAt, this`saving, store
      ensures Valid()
      ensures !active ==> saving == old(saving) && lastLocalSaveAt == old(lastLocalSaveAt) && unchanged(store)
      ensures active ==> store.log == old(store.log) + Kept(NotesUpsert(content), ok)
      ensures active ==> store.notes == (if ok then Some(content) else old(store.notes))
      ensures active ==> store.session == old(store.session) && store.archive == old(store.archive)
      ensures active ==> lastLocalSaveAt == (if ok then now else old(lastLocalSaveAt))
      ensures active ==> saving == (if ok then Saved else Idle)
    {
      if !active {
        return;
      }
      saving := Saving;
      store.Perform(NotesUpsert(content), ok);
      if ok {
        lastLocalSaveAt := now;
      }
      saving := if ok then Saved else Idle;
    }

    /** The debounce timer fires and saves the notes it carries, which are the current notes. */
    method OnDebounceDue(now: int, ok: bool)
      requires Valid() && pendingSave.Some? && clock <= now && pendingSave.value.due <= now
      requires typingOffAt.Some? ==> pendingSave.value.due <= typingOffAt.value
      modifies this`pendingSave, this`lastLocalSaveAt, this`saving, this`clock, store
      ensures Valid() && pendingSave == None && clock == now
      ensures store.log == old(store.log) + Kept(NotesUpsert(notes), ok)
      ensures store.notes == (if ok then Some(notes) else old(store.notes))
      ensures store.session == old(store.session) && store.archive == old(store.archive)
      ensures lastLocalSaveAt == (if ok then now else old(lastLocalSaveAt))
      ensures saving == (if ok then Saved else Idle)
    {
      var content := pendingSave.value.content;
      pendingSave := None;
      Save(content, now, ok);
      clock := now;
    }

    /**
     * `startClass`, clocked at `now` for the session row and at `resumedAt`
     * once both writes returned; write errors are not checked.
     */
    method StartClass(now: int, resumedAt: int, sessionOk: bool, notesOk: bool)
      requires Valid() && clock <= now <= resumedAt && NothingOverdue(resumedAt)
      modifies this`notes, this`active, this`startedAt, this`pendingSave, this`clock, store
      ensures Valid() && clock == resumedAt
      ensures store.log == old(store.log) + Kept(SessionUpsert(SessionRow(true, Some(now), None)), sessionOk) + Kept(NotesUpsert(""), notesOk)
      ensures store.session == (if sessionOk then Some(SessionRow(true, Some(now), None)) else old(store.session))
      ensures store.notes == (if notesOk then Some("") else old(store.notes))
      ensures store.archive == old(store.archive)
      ensures notes == "" && active && startedAt == Some(resumedAt)
      ensures pendingSave == Rescheduled(old(notes) != "" || !old(active), true, "", old(pendingSave), resumedAt)
    {
      WriteStart(SessionRow(true, Some(now), None), sessionOk, notesOk);
      Commit("", true, resumedAt);
      startedAt := Some(resumedAt);
      clock := resumedAt;
    }

    /**
     * `endClass`: reads the stored notes, archives them, marks the session
     * ended, clears the stored notes, in that order. `ended` is the clock at
     * entry, `insertClock` the fresh reading used when no start time is known,
     * `resumedAt` the clock once the writes returned; write errors are not checked.
     */
    method EndClass(ended: int, insertClock: int, resumedAt: int, readOk: bool, archiveOk: bool, sessionOk: bool, notesOk: bool)
      requires Valid() && clock <= ended <= insertClock <= resumedAt && NothingOverdue(resumedAt)
      modifies this`active, this`startedAt, this`pendingSave, this`clock, store
      ensures Valid() && clock == resumedAt
      ensures store.log == old(store.log)
        + Kept(ArchiveInsert(ArchiveEntry(if readOk then old(store.notes).GetOr("") else "", old(startedAt).GetOr(insertClock), ended)), archiveOk)
        + Kept(SessionUpsert(SessionRow(false, old(startedAt), Some(ended))), sessionOk)
        + Kept(NotesUpsert(""), notesOk)
      ensures store.archive == old(store.archive)
        + (if archiveOk then [ArchiveEntry(if readOk then old(store.notes).GetOr("") else "", old(startedAt).GetOr(insertClock), ended)] else [])
      ensures store.session == (if sessionOk then Some(SessionRow(false, old(startedAt), Some(ended))) else old(store.session))
      ensures store.notes == (if notesOk then Some("") else old(store.notes))
      ensures !active && startedAt == None && notes == old(notes)
      ensures pendingSave == None
    {
      var cur := if readOk then store.notes else None;
      var entry := ArchiveEntry(cur.GetOr(""), startedAt.GetOr(insertClock), ended);
      WriteEnd(entry, SessionRow(false, startedAt, Some(ended)), archiveOk, sessionOk, notesOk);
      SetActive(false, resumedAt);
      startedAt := None;
      clock := resumedAt;
    }

    /** The two writes of `startClass`, in order: session upsert, notes clear. */
    method WriteStart(row: SessionRow, sessionOk: bool, notesOk: bool)
      requires store.Valid()
      modifies store
      ensures store.Valid()
      ensures store.log == old(store.log) + Kept(SessionUpsert(row), sessionOk) + Kept(NotesUpsert(""), notesOk)
      ensures store.archive == old(store.archive)
      ensures store.session == (if sessionOk then Some(row) else old(store.session))
      ensures store.notes == (if notesOk then Some("") else old(store.notes))
    {
      store.Perform(SessionUpsert(row), sessionOk);
      store.Perform(NotesUpsert(""), notesOk);
    }

    /** The three writes of `endClass`, in order: archive insert, session upsert, notes clear. */
    method WriteEnd(entry: ArchiveEntry, row: SessionRow, archiveOk: bool, sessionOk: bool, notesOk: bool)
      requires store.Valid()
      modifies store
      ensures store.Valid()
      ensures store.log == old(store.log) + Kept(ArchiveInsert(entry), archiveOk) + Kept(SessionUpsert(row), sessionOk) + Kept(NotesUpsert(""), notesOk)
      ensures store.archive == old(store.archive) + (if archiveOk then [entry] else [])
      ensures store.session == (if sessionOk then Some(row) else old(store.session))
      ensures store.notes == (if notesOk then Some("") else old(store.notes))
    {
      store.Perform(ArchiveInsert(entry), archiveOk);
      store.Perform(SessionUpsert(row), sessionOk);
      store.Perform(NotesUpsert(""), notesOk);
    }
  }
}
