/**
  The main component of the notepad window: five signals updated in place by
  the click and change handlers, and the notes file that the handlers write.

  Reading and writing a signal is plain field access here. The file is the
  ghost field `persisted`; `Save` stands for writing the serialised list
  over it. `Valid` is the invariant that ties the two together: a restart
  at any moment would load exactly the notes on screen.
 */
module Notepad {
  import opened NoteStore
  import opened Session

  class NotepadApp {
    var notes: seq<Note>
    var showPopup: bool
    var newTitle: string
    var newContent: string
    var showError: bool
    ghost var persisted: NotesFile

    ghost predicate Valid()
      reads this
    {
      LoadNotes(persisted) == notes
    }

    /** The whole state, as the event semantics of module Session sees it. */
    ghost function State(): AppState
      reads this
    {
      AppState(notes, showPopup, newTitle, newContent, showError, persisted)
    }

    /** Start-up: the list is loaded from the file, which is left as it was. */
    constructor (file: NotesFile)
      ensures Valid()
      ensures notes == LoadNotes(file) && persisted == file
      ensures !showPopup && newTitle == [] && newContent == [] && !showError
      ensures State() == Initial(file)
    {
      notes := LoadNotes(file);
      showPopup := false;
      newTitle := [];
      newContent := [];
      showError := false;
      persisted := file;
    }

    /** Writes the whole list over the file. */
    method Save()
      modifies this`persisted
      ensures persisted == SaveNotes(notes)
      ensures Valid()
    {
      persisted := SaveNotes(notes);
    }

    /** The welcome screen is what the window shows when there are no notes. */
    method ShowsWelcome() returns (welcome: bool)
      ensures welcome <==> |notes| == 0
    {
      welcome := notes == [];
    }

    /**
      Either "New note" button. Only the popup flag changes: the drafts and
      the error flag of an earlier visit are still there.
     */
    method OpenPopup()
      requires Valid()
      modifies this`showPopup
      ensures Valid() && showPopup
      ensures State() == Step(old(State()), NewNoteClicked)
    {
      showPopup := true;
    }

    /** The popup's close request hides it and keeps the drafts. */
    method ClosePopup()
      requires Valid()
      modifies this`showPopup
      ensures Valid() && !showPopup
      ensures State() == Step(old(State()), CloseRequested)
    {
      showPopup := false;
    }

    /** Typing in the title field replaces the title draft, without validation. */
    method SetTitle(text: string)
      requires Valid()
      modifies this`newTitle
      ensures Valid() && newTitle == text
      ensures State() == Step(old(State()), TitleChanged(text))
    {
      newTitle := text;
    }

    /** Typing in the content field replaces the content draft, without validation. */
    method SetContent(text: string)
      requires Valid()
      modifies this`newContent
      ensures Valid() && newContent == text
      ensures State() == Step(old(State()), ContentChanged(text))
    {
      newContent := text;
    }

    /**
      "Add new note". An empty title, and then an empty content, each only
      raise the error flag and return. Otherwise the draft becomes one note at
      the end of the list, the list is written out, the drafts are emptied and
      the popup is hidden; the error flag is left as it was.
     */
    method Submit()
      requires Valid()
      modifies this
      ensures Valid()
      ensures old(newTitle) == [] ==>
        showError && notes == old(notes) && persisted == old(persisted) &&
        newTitle == old(newTitle) && newContent == old(newContent) && showPopup == old(showPopup)
      ensures old(newTitle) != [] && old(newContent) == [] ==>
        showError && notes == old(notes) && persisted == old(persisted) &&
        newTitle == old(newTitle) && newContent == old(newContent) && showPopup == old(showPopup)
      ensures old(newTitle) != [] && old(newContent) != [] ==>
        notes == Append(old(notes), Note(old(newTitle), old(newContent))) &&
        persisted == SaveNotes(notes) &&
        newTitle == [] && newContent == [] && !showPopup && showError == old(showError)
      ensures State() == Step(old(State()), AddClicked)
    {
      if newTitle == [] {
        showError := true;
        return;
      }
      if newContent == [] {
        showError := true;
        return;
      }
      var note := Note(newTitle, newContent);
      notes := Append(notes, note);
      Save();
      newTitle := [];
      newContent := [];
      showPopup := false;
    }

    /** "Remove" on the note at `position`: it leaves the list and the list is written out. */
    method Remove(position: nat)
      requires Valid()
      requires position < |notes|
      modifies this`notes, this`persisted
      ensures Valid()
      ensures notes == RemoveAt(old(notes), position)
      ensures persisted == SaveNotes(notes)
      ensures State() == Step(old(State()), RemoveClicked(position))
    {
      notes := RemoveAt(notes, position);
      Save();
    }
  }

  /**
    First run: with no file, open the popup, type "A" and "B" and add the
    note. The list is that one note, the file holds it, and the form is
    hidden and empty.
   */
  method FirstNoteScenario() returns (notes: seq<Note>, popupShown: bool, title: string, content: string)
    ensures notes == [Note("A", "B")]
    ensures !popupShown && title == [] && content == []
  {
    var app := new NotepadApp(Missing);
    app.OpenPopup();
    app.SetTitle("A");
    app.SetContent("B");
    app.Submit();
    assert app.persisted == WellFormed([Note("A", "B")]);
    notes, popupShown, title, content := app.notes, app.showPopup, app.newTitle, app.newContent;
  }

  /** Removing the first of two notes leaves the second, and the file follows. */
  method RemoveFirstScenario() returns (notes: seq<Note>)
    ensures notes == [Note("P", "Q")]
  {
    var app := new NotepadApp(WellFormed([Note("X", "Y"), Note("P", "Q")]));
    app.Remove(0);
    assert app.persisted == WellFormed([Note("P", "Q")]);
    notes := app.notes;
  }

  /**
    A failed add followed by closing and reopening the popup: the draft title
    and the error message are both still there, and no note was added.
   */
  method StaleDraftScenario() returns (notes: seq<Note>, title: string, errorShown: bool)
    ensures notes == [] && title == "A" && errorShown
  {
    var app := new NotepadApp(Malformed("not json"));
    app.OpenPopup();
    app.SetTitle("A");
    app.Submit();
    app.ClosePopup();
    app.OpenPopup();
    assert app.persisted == Malformed("not json");
    notes, title, errorShown := app.notes, app.newTitle, app.showError;
  }
}
