/** The note-taking tools: a title-to-content dictionary that `save_note`
    writes and `get_note` reads. */
module Notes {
  import opened Wrappers
  import PyText

  const SavedPrefix: string := "Saved note with title: "
  const NotFoundPrefix: string := "No note found with title: "

  /** The notes dictionary, shared by every call of the tools. */
  class NotesDb {
    var notes: map<string, string>

    /** The dictionary starts empty. */
    constructor ()
      ensures notes == map[]
    {
      notes := map[];
    }

    /** The note filed under `title`; when there is none, a message that names
        the title as Python's `repr` prints it. */
    function GetNote(title: string): (r: string)
      reads this
      ensures title in notes ==> r == notes[title]
      ensures title !in notes ==> |NotFoundPrefix| <= |r| && r[..|NotFoundPrefix|] == NotFoundPrefix
      ensures title !in notes ==> PyText.Unrepr(r[|NotFoundPrefix|..]) == Some(title)
    {
      if title in notes then notes[title]
      else
        var r := NotFoundPrefix + PyText.PyRepr(title);
        assert r[|NotFoundPrefix|..] == PyText.PyRepr(title);
        PyText.PyReprRoundTrip(title);
        r
    }

    /** Files `content` under `title`, replacing any earlier note of that title
        and leaving every other title as it was. */
    method SaveNote(title: string, content: string) returns (reply: string)
      modifies this
      ensures notes == old(notes)[title := content]
      ensures reply == SavedPrefix + title
      ensures GetNote(title) == content
      ensures forall t :: t != title ==> GetNote(t) == old(GetNote(t))
    {
      notes := notes[title := content];
      reply := SavedPrefix + title;
    }
  }
}
