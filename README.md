# Notepad: the note list and the new-note form

This project models the core of a small desktop notepad written in Rust with the Freya GUI toolkit. The window shows a list of notes. Each note is a title and a content. A popup form creates a new note, and a "Remove" button deletes a note. The list is kept in one JSON file (`notas.json`).

The model has three modules:

- `NoteStore` (`note_store.dfy`) holds the `Note` record and the ordered note list. It has `Append` (the `Vec::push` of the add handler) and `RemoveAt` (the `Vec::remove` of the remove handler). It also models the file abstractly, as a `NotesFile`: missing, well-formed, or present but malformed. `LoadNotes` and `SaveNotes` stand for `load_notes` and `save_notes`.
- `Notepad` (`notepad.dfy`) holds the class `NotepadApp`. Its fields are the five signals of the `app` component: `notes`, `showPopup`, `newTitle`, `newContent` and `showError`. It also has a ghost field `persisted`, which is the file on disk. There is one method per event handler, and the methods update the fields in place, in the handlers' own order, with the same early returns. `Save` writes the whole list over `persisted`. The class invariant `Valid` says that loading `persisted` gives exactly `notes`. So a restart at any moment would show the same notes. It holds from start-up even when the file was malformed, because start-up loads the empty list and leaves the file alone until the first write.
- `Session` (`session.dfy`) gives the same handlers as a function `Step` from a state and an event to the next state. The six handler methods of `NotepadApp` (`OpenPopup`, `ClosePopup`, `SetTitle`, `SetContent`, `Submit` and `Remove`) are each proved to leave the state that `Step` gives for their event, and the constructor is proved to give `Initial`. `Run` replays a sequence of events. The lemmas about `Run` are proved by induction. They cover whole sessions: the error flag is sticky, every change to the list is written through, the file and the list stay in agreement, and view-only events leave the store alone.

Three behaviours of the handlers that a reader might expect to be otherwise, all kept by the model:

- Opening the form does not clear the drafts or the error flag.
- Closing the form does not discard the drafts.
- A successful add does not clear the error flag. In the code `show_error` starts false and is only ever set to true.

## Model

| member | source | states |
|---|---|---|
| `NoteStore.LoadNotes` | src/main.rs:20-25 | Loading never fails. A well-formed file gives its notes; a missing file and a malformed file both give the empty list. |
| `NoteStore.SaveNotes` | src/main.rs:28-32 | After the list is written, loading the file gives the same list back, field for field and in order. |
| `NoteStore.Append` | src/main.rs:197 | Push: the length grows by one, all earlier notes keep their positions, and the new note is last. |
| `NoteStore.RemoveAt` | src/main.rs:112 | `Vec::remove(position)`, only for `position < len`: the length drops by one. Notes before `position` stay where they are, later notes move down by one, and exactly the removed note leaves the multiset. |
| `Session.Initial` | src/main.rs:46-50 | The start-up state: notes loaded from the file, file unchanged, popup hidden, drafts empty, no error shown, and list and file in agreement. |
| `Session.Step` | src/main.rs:111-203 | For every enabled event: no event clears the error flag; the list and file are either both unchanged or the file holds the new list; agreement between file and list is kept; events other than add and remove change neither. |
| `Session.ErrorFlagSticky` | src/main.rs:180-189 | Once `show_error` is true it stays true for the rest of any session, because the handlers only ever set it to true. |
| `Session.RunWritesThrough` | src/main.rs:111-198 | After any sequence of events, either the list and the file are both as they were at the start, or the file holds exactly the current list. |
| `Session.RunStaysSynced` | src/main.rs:20-32 | If loading the file gives the list on screen, that stays true after any sequence of events. |
| `Session.ViewEventsKeepStore` | src/main.rs:142-168 | A session of only open, close and typing events never panics and leaves both the list and the file as they were. |
| `Session.SessionStaysSynced` | src/main.rs:20-25 | From launch, every session keeps the file and the list in agreement. A malformed file that has not yet been overwritten goes with an empty list. |
| `Notepad.NotepadApp.constructor` | src/main.rs:46-50 | Signals start as `load_notes()`, false, empty, empty and false. The file is not touched, and the state equals `Session.Initial`. |
| `Notepad.NotepadApp.Save` | src/main.rs:28-32 | Only the file changes, and it then holds the current list. |
| `Notepad.NotepadApp.ShowsWelcome` | src/main.rs:55 | The welcome screen is shown if and only if the list is empty. |
| `Notepad.NotepadApp.OpenPopup` | src/main.rs:71 | Both "New note" buttons (lines 71 and 130) set only `show_popup` to true. Stale drafts and a stale error flag survive. The state equals `Step` of `NewNoteClicked`. |
| `Notepad.NotepadApp.ClosePopup` | src/main.rs:142 | The close request sets only `show_popup` to false. The drafts are kept. |
| `Notepad.NotepadApp.SetTitle` | src/main.rs:156-158 | Only the title draft changes, to the typed text, with no validation. |
| `Notepad.NotepadApp.SetContent` | src/main.rs:166-168 | Only the content draft changes, to the typed text, with no validation. |
| `Notepad.NotepadApp.Submit` | src/main.rs:180-204 | Empty title: only the error flag is set. Non-empty title with empty content: likewise. Otherwise one note (title, content) is appended, the list is written through, the drafts are emptied, the popup is hidden and the error flag is untouched. The state equals `Step` of `AddClicked`. |
| `Notepad.NotepadApp.Remove` | src/main.rs:111-114 | Needs `position < len`. The list becomes `RemoveAt` of the old list, the file then holds it, and nothing else changes. |
| `Notepad.FirstNoteScenario` | src/main.rs:180-204 | With no file, opening the form, typing "A" and "B" and adding gives the list `[("A","B")]`. The file holds that list, and the form is hidden and empty. |
| `Notepad.RemoveFirstScenario` | src/main.rs:111-114 | Removing note 0 of `[("X","Y"),("P","Q")]` leaves `[("P","Q")]`, in memory and in the file. |
| `Notepad.StaleDraftScenario` | src/main.rs:71-189 | Start with a malformed file, so the list is empty and the welcome screen's "New note" button (line 71) opens the form. Add with only a title, then close (line 142) and reopen the form. The title draft and the error message are still there, no note exists, and the malformed file is still on disk. |

## Left out

- The `rsx!` rendering tree: layout, styling, labels, the scroll view and the popup widget. Only the welcome-screen condition is kept, as `ShowsWelcome`.
- Window launch configuration in `main`. It is framework set-up.
- The file system and serde_json. The file is the abstract `NotesFile`, and no JSON encoding or decoding is modelled, so there is no byte-level round trip.
- `NoteStore.SaveNotes`: it does not model a failed serialisation or a failed `fs::write`, which `save_notes` silently ignores. With such a failure the file would differ from the list, and `Valid` and `Session.Synced` would no longer hold.
- Freya's signal reactivity and re-rendering. Reads and writes of signals are plain field accesses.
- `Session.Step` does not require the popup to be visible for the add and typing events, and the handlers do not check it either. The window only offers those controls while the popup is shown.
- A `Remove` past the end of the list, which would make `Vec::remove` panic. `NotepadApp.Remove` requires a valid position, because the window only offers displayed positions. `Session.Run` reports such an event as `Panicked`.
- The commented-out block at the end of the file and the unused `Duration` import.
