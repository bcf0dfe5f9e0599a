/**
 * The notes store: a process-wide ordered list of `{id, text}` records behind the
 * GET, POST, PATCH and DELETE `/notes` handlers.
 */
module Notes {
  import opened Wrappers
  import opened Http
  import Seqs
  import Text

  datatype Note = Note(id: string, text: string)

  /** Length bounds the request schemas put on a note's text and on a search query. */
  const MinTextLength := 6
  const MaxTextLength := 300
  const MinQueryLength := 4
  const MaxQueryLength := 100

  /** The text the store is seeded with at start-up. */
  const SeedText := "First note"

  predicate ValidText(text: string)
  {
    MinTextLength <= |text| <= MaxTextLength
  }

  predicate ValidQuery(query: string)
  {
    MinQueryLength <= |query| <= MaxQueryLength
  }

  /** The reply to a PATCH or DELETE whose id names no note. */
  const NotFound: Reply<Note> := Failure(NotFoundStatus, "NotFound")

  function IdOf(n: Note): string
  {
    n.id
  }

  function WithId(id: string): Note -> bool
  {
    (n: Note) => n.id == id
  }

  function WithoutId(id: string): Note -> bool
  {
    Seqs.WithoutKey(IdOf, id)
  }

  function TextMatches(query: string): Note -> bool
  {
    (n: Note) => Text.IncludesIgnoringCase(n.text, query)
  }

  predicate IdUnused(notes: seq<Note>, id: string)
  {
    forall i :: 0 <= i < |notes| ==> notes[i].id != id
  }

  ghost predicate UniqueIds(notes: seq<Note>)
  {
    Seqs.DistinctKeys(notes, IdOf)
  }

  ghost predicate ValidTexts(notes: seq<Note>)
  {
    forall i :: 0 <= i < |notes| ==> ValidText(notes[i].text)
  }

  /**
   * Listing after a create: the earlier listing, followed by the new note exactly
   * when the new note matches the query.
   */
  lemma {:induction false} ListAfterCreate(notes: seq<Note>, note: Note, query: string)
    ensures Seqs.Filter(notes + [note], TextMatches(query))
         == Seqs.Filter(notes, TextMatches(query))
            + (if Text.IncludesIgnoringCase(note.text, query) then [note] else [])
  {
    Seqs.FilterConcat(notes, [note], TextMatches(query));
    assert [note][1..] == [];
  }

  class NoteStore {
    var notes: seq<Note>

    /** Ids are unique and every stored text satisfies the schema's length bounds. */
    ghost predicate Valid()
      reads this
    {
      UniqueIds(notes) && ValidTexts(notes)
    }

    /** The store as seeded at start-up: one note, with an id chosen by the caller. */
    constructor (seedId: string)
      ensures Valid()
      ensures notes == [Note(seedId, SeedText)]
    {
      notes := [Note(seedId, SeedText)];
    }

    /**
     * GET /notes: without a query, every note as stored; with one, the notes whose
     * text contains it ignoring case, in stored order.
     */
    function List(query: Option<string>): (r: seq<Note>)
      reads this
      requires query.Some? ==> ValidQuery(query.value)
      ensures query.None? ==> r == notes
      ensures query.Some? ==> forall i :: 0 <= i < |r| ==> r[i] in notes && Text.IncludesIgnoringCase(r[i].text, query.value)
      ensures query.Some? ==> forall i :: 0 <= i < |notes| && Text.IncludesIgnoringCase(notes[i].text, query.value) ==> notes[i] in r
      ensures Seqs.IsSubsequence(r, notes)
    {
      if query.None? || query.value == "" then
        Seqs.SubsequenceOfItself(notes);
        notes
      else
        Seqs.FilterMembers(notes, TextMatches(query.value));
        Seqs.Filter(notes, TextMatches(query.value))
    }

    /** POST /notes: appends a note with the given fresh id and returns it. */
    method Create(id: string, text: string) returns (r: Reply<Note>)
      requires Valid()
      requires ValidText(text)
      requires IdUnused(notes, id)
      modifies this
      ensures Valid()
      ensures notes == old(notes) + [Note(id, text)]
      ensures r == Success(OkStatus, Note(id, text))
    {
      var note := Note(id, text);
      notes := notes + [note];
      r := Success(OkStatus, note);
    }

    /**
     * PATCH /notes/:id: overwrites the text of the first note with that id, in place,
     * and returns the note as updated; an unknown id is a 404.
     */
    method Update(id: string, text: string) returns (r: Reply<Note>)
      requires Valid()
      requires ValidText(text)
      modifies this
      ensures Valid()
      ensures r.Failure? <==> IdUnused(old(notes), id)
      ensures match Seqs.FirstIndex(old(notes), WithId(id))
        case None => r == NotFound && notes == old(notes)
        case Some(i) => notes == old(notes)[i := Note(id, text)] && r == Success(OkStatus, notes[i])
    {
      var found := Seqs.FirstIndex(notes, WithId(id));
      match found
      case None =>
        r := NotFound;
      case Some(i) =>
        notes := notes[i := notes[i].(text := text)];
        r := Success(OkStatus, notes[i]);
    }

    /**
     * DELETE /notes/:id: removes every note with that id and returns the one found;
     * an unknown id is a 404.
     */
    method Delete(id: string) returns (r: Reply<Note>)
      requires Valid()
      modifies this
      ensures Valid()
      ensures IdUnused(notes, id)
      ensures r.Failure? <==> IdUnused(old(notes), id)
      ensures match Seqs.FirstIndex(old(notes), WithId(id))
        case None => r == NotFound && notes == old(notes)
        case Some(i) =>
          && r == Success(OkStatus, old(notes)[i])
          && notes == Seqs.Filter(old(notes), WithoutId(id))
          && notes == old(notes)[..i] + old(notes)[i + 1..]
    {
      var found := Seqs.FirstIndex(notes, WithId(id));
      match found
      case None =>
        r := NotFound;
      case Some(i) =>
        var note := notes[i];
        Seqs.FilterOutKey(notes, IdOf, id, i);
        Seqs.FilterMembers(notes, WithoutId(id));
        notes := Seqs.Filter(notes, WithoutId(id));
        r := Success(OkStatus, note);
    }
  }
}
