/**
 * Runs of the session view's handlers on fresh clients sharing one store:
 * the class lifecycle end to end, and two runs where the code's merge rules
 * keep a state that a single shared timestamp order would not.
 */
module SessionScenarios {
  import opened Wrappers
  import opened SessionStore
  import opened SessionView

  /**
   * An admin starts the class; the student learns of it through the
   * class_sessions change and types "Scale practice", which replaces the save
   * the change scheduled; the admin's own timer fires, the student's debounce
   * saves the text, and the admin ends the class: the archive gains exactly
   * that content.
   */
  method ClassLifecycle() returns (archive: seq<ArchiveEntry>, storedNotes: Option<string>, studentText: string, adminActive: bool)
    ensures archive == [ArchiveEntry("Scale practice", 1000, 5000)]
    ensures storedNotes == Some("")
    ensures studentText == "Scale practice"
    ensures !adminActive
  {
    var store := new Store(None, None, []);
    var admin := new Client("admin", store);
    var student := new Client("student", store);
    admin.StartClass(1000, 1000, true, true);
    assert store.archive == [];
    student.OnSessionChange(Change(Some(SessionChangeRow(Value(true), Value(1000))), None), 1010);
    student.OnLocalEdit("Scale practice", 1200);
    assert student.pendingSave == Some(PendingSave(1700, "Scale practice"));
    admin.OnDebounceDue(1500, true);
    student.OnDebounceDue(1700, true);
    assert store.notes == Some("Scale practice") && store.archive == [];
    assert admin.startedAt == Some(1000);
    admin.EndClass(5000, 5000, 5001, true, true, true, true);
    archive, storedNotes, studentText, adminActive := store.archive, store.notes, student.notes, admin.active;
  }

  /**
   * While the class is active, a burst of keystrokes each less than the
   * debounce interval apart is persisted once, with the last text: every
   * keystroke replaces the pending save before it comes due.
   */
  method DebounceCoalesces() returns (log: seq<Write>, text: string)
    ensures log == [NotesUpsert("abc")]
    ensures text == "abc"
  {
    var store := new Store(Some(""), Some(SessionRow(true, Some(0), None)), []);
    var c := new Client("C", store);
    c.Load(0, true, true);
    c.OnLocalEdit("a", 100);
    c.OnLocalEdit("ab", 300);
    c.OnLocalEdit("abc", 700);
    assert c.pendingSave == Some(PendingSave(1200, "abc"));
    c.OnDebounceDue(1200, true);
    log, text := store.log, c.notes;
  }

  /**
   * In an active class, two clients edit at times 1 and 2 and each receives
   * the other's broadcast. A local edit does not raise the editor's own
   * high-water mark, so the later client adopts the earlier text: the two
   * end apart.
   */
  method CrossedBroadcasts() returns (textA: string, textB: string)
    ensures textA == "y" && textB == "x"
  {
    var store := new Store(Some(""), Some(SessionRow(true, Some(0), None)), []);
    var a := new Client("A", store);
    var b := new Client("B", store);
    a.Load(0, true, true);
    b.Load(0, true, true);
    a.OnLocalEdit("x", 1);
    b.OnLocalEdit("y", 2);
    a.OnBroadcast(NoteMsg("y", "B", 2), 3);
    b.OnBroadcast(NoteMsg("x", "A", 1), 3);
    textA, textB := a.notes, b.notes;
  }

  /**
   * Within the grace window after its own save, a client drops a notes-table
   * change even when it carries another writer's content.
   */
  method GraceWindowDropsForeignContent() returns (text: string)
    ensures text == "mine"
  {
    var store := new Store(Some(""), Some(SessionRow(true, Some(0), None)), []);
    var c := new Client("C", store);
    c.Load(0, true, true);
    c.OnLocalEdit("mine", 500);
    c.OnDebounceDue(1000, true);
    c.OnNotesChange(Change(Some(NotesRow(Value("theirs"))), None), 1500);
    text := c.notes;
  }
}
