/**
  The note list and the file it is kept in.

  A note is a title/content pair with no identifier of its own: a note is
  known by its position in the list, and the list's order is the order of
  creation, of display and of the file. The file itself is modelled
  abstractly, by what reading it back would give: it is missing, it holds a
  well-formed array of notes, or it holds text that does not parse as one.
 */
module NoteStore {

  datatype Note = Note(title: string, content: string)

  /** The state of the notes file on disk, as seen by the program. */
  datatype NotesFile =
    | Missing                      // no file yet (first run)
    | WellFormed(notes: seq<Note>) // a JSON array of {title, content} objects
    | Malformed(text: string)      // present, but not such an array

  /**
    Reading the file at start-up never fails: a missing file and a file that
    does not parse both give the empty list.
   */
  function LoadNotes(file: NotesFile): (notes: seq<Note>)
    ensures file.WellFormed? ==> notes == file.notes
    ensures file.Missing? ==> notes == []
    ensures file.Malformed? ==> notes == []
  {
    match file
    case WellFormed(list) => list
    case Missing => []
    case Malformed(_) => []
  }

  /**
    The file as it is after the whole list has been written over it. Reading
    it back gives the same notes, field for field and in the same order.
   */
  function SaveNotes(notes: seq<Note>): (file: NotesFile)
    ensures LoadNotes(file) == notes
  {
    WellFormed(notes)
  }

  /** Adding a note puts it at the end and keeps every earlier note in place. */
  function Append(list: seq<Note>, note: Note): (r: seq<Note>)
    ensures |r| == |list| + 1
    ensures r[..|list|] == list
    ensures r[|list|] == note
  {
    list + [note]
  }

  /**
    Removing the note at `position` closes the gap: the notes before it keep
    their indices, the notes after it move down by one, and exactly that one
    note leaves the list.
   */
  function RemoveAt(list: seq<Note>, position: nat): (r: seq<Note>)
    requires position < |list|
    ensures |r| == |list| - 1
    ensures forall k :: 0 <= k < position ==> r[k] == list[k]
    ensures forall k :: position <= k < |r| ==> r[k] == list[k + 1]
    ensures multiset(r) + multiset{list[position]} == multiset(list)
  {
    assert list == list[..position] + [list[position]] + list[position + 1..];
    list[..position] + list[position + 1..]
  }
}
