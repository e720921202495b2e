/**
  The note-list and new-note-form state machine as a function of events.

  The application's whole state is the five signals of the main component
  plus the file on disk. Each user action in the window is one event, and
  `Step` gives the state that the action's handler leaves behind. `Run`
  replays a sequence of events, so that properties of whole sessions can be
  proved by induction. `NotepadApp` in module Notepad implements each
  handler in place and is proved to agree with `Step`.
 */
module Session {
  import opened NoteStore

  datatype AppState = AppState(
    notes: seq<Note>,
    showPopup: bool,
    newTitle: string,
    newContent: string,
    showError: bool,
    persisted: NotesFile)

  /** The actions the window offers, one per event handler. */
  datatype Event =
    | NewNoteClicked             // either "New note" button
    | CloseRequested             // the popup asks to be closed
    | TitleChanged(text: string) // the title input changed
    | ContentChanged(text: string) // the content input changed
    | AddClicked                 // "Add new note"
    | RemoveClicked(position: nat) // "Remove" on the note at `position`

  /** The notes on screen are the notes a restart would load. */
  ghost predicate Synced(s: AppState) {
    LoadNotes(s.persisted) == s.notes
  }

  /**
    The state right after start-up: the notes come from the file, the popup
    is hidden, the drafts are empty and no error is shown.
   */
  function Initial(file: NotesFile): (s: AppState)
    ensures Synced(s) && s.persisted == file
    ensures !s.showPopup && !s.showError
    ensures s.newTitle == [] && s.newContent == []
  {
    AppState(LoadNotes(file), false, [], [], false, file)
  }

  /** A remove names a position the list has; any other event is always possible. */
  predicate Enabled(s: AppState, e: Event) {
    e.RemoveClicked? ==> e.position < |s.notes|
  }

  /** The events whose handlers change the note list and write the file. */
  predicate Mutates(e: Event) {
    e.AddClicked? || e.RemoveClicked?
  }

  /**
    The state after one event. No event clears the error flag; every
    change to the note list is written through to the file; and the file
    and the list stay in agreement.
   */
  function Step(s: AppState, e: Event): (r: AppState)
    requires Enabled(s, e)
    ensures s.showError ==> r.showError
    ensures (r.notes == s.notes && r.persisted == s.persisted) || r.persisted == SaveNotes(r.notes)
    ensures Synced(s) ==> Synced(r)
    ensures !Mutates(e) ==> r.notes == s.notes && r.persisted == s.persisted
  {
    match e
    case NewNoteClicked => s.(showPopup := true)
    case CloseRequested => s.(showPopup := false)
    case TitleChanged(text) => s.(newTitle := text)
    case ContentChanged(text) => s.(newContent := text)
    case AddClicked =>
      if s.newTitle == [] then s.(showError := true)
      else if s.newContent == [] then s.(showError := true)
      else
        var notes := Append(s.notes, Note(s.newTitle, s.newContent));
        s.(notes := notes, persisted := SaveNotes(notes),
           newTitle := [], newContent := [], showPopup := false)
    case RemoveClicked(position) =>
      var notes := RemoveAt(s.notes, position);
      s.(notes := notes, persisted := SaveNotes(notes))
  }

  /** How a sequence of events ends. */
  datatype RunResult =
    | Finished(state: AppState)
    | Panicked // a remove named a position past the end of the list

  function Run(s: AppState, events: seq<Event>): RunResult
    decreases |events|
  {
    if events == [] then Finished(s)
    else if !Enabled(s, events[0]) then Panicked
    else Run(Step(s, events[0]), events[1..])
  }

  /** Once the error message is shown, it is shown for the rest of the session. */
  lemma {:induction false} ErrorFlagSticky(s: AppState, events: seq<Event>)
    requires s.showError
    ensures Run(s, events).Finished? ==> Run(s, events).state.showError
    decreases |events|
  {
    if events != [] && Enabled(s, events[0]) {
      ErrorFlagSticky(Step(s, events[0]), events[1..]);
    }
  }

  /**
    Write-through over a whole session: either nothing in the note list and
    the file has changed, or the file holds exactly the current list.
   */
  lemma {:induction false} RunWritesThrough(s: AppState, events: seq<Event>)
    ensures Run(s, events).Finished? ==>
      var t := Run(s, events).state;
      (t.notes == s.notes && t.persisted == s.persisted) || t.persisted == SaveNotes(t.notes)
    decreases |events|
  {
    if events != [] && Enabled(s, events[0]) {
      RunWritesThrough(Step(s, events[0]), events[1..]);
    }
  }

  /** At every point of a session, a restart would load the notes on screen. */
  lemma {:induction false} RunStaysSynced(s: AppState, events: seq<Event>)
    requires Synced(s)
    ensures Run(s, events).Finished? ==> Synced(Run(s, events).state)
    decreases |events|
  {
    if events != [] && Enabled(s, events[0]) {
      RunStaysSynced(Step(s, events[0]), events[1..]);
    }
  }

  /**
    Opening and closing the popup and typing never change the note list or
    the file, and never make the program panic.
   */
  lemma {:induction false} ViewEventsKeepStore(s: AppState, events: seq<Event>)
    requires forall i :: 0 <= i < |events| ==> !Mutates(events[i])
    ensures Run(s, events).Finished?
    ensures Run(s, events).state.notes == s.notes
    ensures Run(s, events).state.persisted == s.persisted
    decreases |events|
  {
    if events != [] {
      ViewEventsKeepStore(Step(s, events[0]), events[1..]);
    }
  }

  /** Every session that starts from the program's launch keeps the file and the list in agreement. */
  lemma SessionStaysSynced(file: NotesFile, events: seq<Event>)
    ensures Run(Initial(file), events).Finished? ==> Synced(Run(Initial(file), events).state)
    ensures
      (Run(Initial(file), events).Finished? && file.Malformed? && Run(Initial(file), events).state.persisted == file)
      ==> Run(Initial(file), events).state.notes == []
  {
    RunStaysSynced(Initial(file), events);
  }
}
