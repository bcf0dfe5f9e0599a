/**
 * The score store: a process-wide ordered list of `{id, note, score}` records behind
 * the GET, POST, PATCH and DELETE handlers mounted under `/score`.
 */
module Scores {
  import opened Wrappers
  import opened Http
  import Seqs
  import Text

  datatype Score = Score(id: string, note: string, score: int)

  /** Bounds the request schemas put on a note, a score and a search query. */
  const MinNoteLength := 4
  const MaxNoteLength := 100
  const MinScore := 1
  const MaxScore := 12
  const MinQueryLength := 4
  const MaxQueryLength := 100

  /** How many entries the store is seeded with at start-up. */
  const SeedSize := 20

  predicate ValidEntry(note: string, score: int)
  {
    MinNoteLength <= |note| <= MaxNoteLength && MinScore <= score <= MaxScore
  }

  predicate ValidQuery(query: string)
  {
    MinQueryLength <= |query| <= MaxQueryLength
  }

  /** The reply to a PATCH or DELETE whose id names no entry. */
  const DoesNotExist: Reply<Score> := Failure(BadRequestStatus, "Score does not exist")

  function IdOf(s: Score): string
  {
    s.id
  }

  function WithId(id: string): Score -> bool
  {
    (s: Score) => s.id == id
  }

  function WithoutId(id: string): Score -> bool
  {
    Seqs.WithoutKey(IdOf, id)
  }

  function NoteMatches(query: string): Score -> bool
  {
    (s: Score) => Text.IncludesIgnoringCase(s.note, query)
  }

  /** The callback of the update's `map`: entries with the id get the new note and score. */
  function Revise(id: string, note: string, score: int): Score -> Score
  {
    (s: Score) => if s.id != id then s else s.(note := note, score := score)
  }

  predicate IdUnused(scores: seq<Score>, id: string)
  {
    forall i :: 0 <= i < |scores| ==> scores[i].id != id
  }

  ghost predicate UniqueIds(scores: seq<Score>)
  {
    Seqs.DistinctKeys(scores, IdOf)
  }

  ghost predicate WellFormed(scores: seq<Score>)
  {
    forall i :: 0 <= i < |scores| ==> ValidEntry(scores[i].note, scores[i].score)
  }

  /**
   * The update's `map` keeps every id in its position and touches only the entries
   * with the given id; with unique ids it replaces exactly the entry found.
   */
  lemma UpdateRevisesOne(scores: seq<Score>, id: string, note: string, score: int, i: nat)
    requires UniqueIds(scores)
    requires i < |scores| && scores[i].id == id
    ensures Seqs.Map(scores, Revise(id, note, score)) == scores[i := Score(id, note, score)]
  {
    var revised, expected := Seqs.Map(scores, Revise(id, note, score)), scores[i := Score(id, note, score)];
    forall k | 0 <= k < |scores|
      ensures revised[k] == expected[k]
    {
      if k != i {
        var a, b := if k < i then k else i, if k < i then i else k;
        assert IdOf(scores[a]) != IdOf(scores[b]);
      }
    }
    assert |revised| == |expected|;
  }

  /**
   * Listing after a create: the earlier listing, followed by the new entry exactly
   * when its note matches the query.
   */
  lemma {:induction false} ListAfterCreate(scores: seq<Score>, entry: Score, query: string)
    ensures Seqs.Filter(scores + [entry], NoteMatches(query))
         == Seqs.Filter(scores, NoteMatches(query))
            + (if Text.IncludesIgnoringCase(entry.note, query) then [entry] else [])
  {
    Seqs.FilterConcat(scores, [entry], NoteMatches(query));
    assert [entry][1..] == [];
  }

  class ScoreStore {
    var scores: seq<Score>

    /** Ids are unique and every entry satisfies the schema's bounds. */
    ghost predicate Valid()
      reads this
    {
      UniqueIds(scores) && WellFormed(scores)
    }

    /** The store as seeded at start-up, from twenty well-formed entries. */
    constructor (seed: seq<Score>)
      requires |seed| == SeedSize
      requires UniqueIds(seed) && WellFormed(seed)
      ensures Valid()
      ensures scores == seed
    {
      scores := seed;
    }

    /**
     * GET /score: without a query, every entry as stored; with one, the entries whose
     * note contains it ignoring case, in stored order.
     */
    function List(query: Option<string>): (r: seq<Score>)
      reads this
      requires query.Some? ==> ValidQuery(query.value)
      ensures query.None? ==> r == scores
      ensures query.Some? ==> forall i :: 0 <= i < |r| ==> r[i] in scores && Text.IncludesIgnoringCase(r[i].note, query.value)
      ensures query.Some? ==> forall i :: 0 <= i < |scores| && Text.IncludesIgnoringCase(scores[i].note, query.value) ==> scores[i] in r
      ensures Seqs.IsSubsequence(r, scores)
    {
      if query.None? || query.value == "" then
        Seqs.SubsequenceOfItself(scores);
        scores
      else
        Seqs.FilterMembers(scores, NoteMatches(query.value));
        Seqs.Filter(scores, NoteMatches(query.value))
    }

    /** POST /score: appends an entry with the given fresh id and replies 201 with it. */
    method Create(id: string, note: string, score: int) returns (r: Reply<Score>)
      requires Valid()
      requires ValidEntry(note, score)
      requires IdUnused(scores, id)
      modifies this
      ensures Valid()
      ensures scores == old(scores) + [Score(id, note, score)]
      ensures r == Success(CreatedStatus, Score(id, note, score))
    {
      var entry := Score(id, note, score);
      scores := scores + [entry];
      r := Success(CreatedStatus, entry);
    }

    /**
     * PATCH /score/:id: gives every entry with that id the new note and score, and
     * returns the entry found as it was BEFORE the update; an unknown id is a 400.
     */
    method Update(id: string, note: string, score: int) returns (r: Reply<Score>)
      requires Valid()
      requires ValidEntry(note, score)
      modifies this
      ensures Valid()
      ensures r.Failure? <==> IdUnused(old(scores), id)
      ensures match Seqs.FirstIndex(old(scores), WithId(id))
        case None => r == DoesNotExist && scores == old(scores)
        case Some(i) =>
          && r == Success(OkStatus, old(scores)[i])
          && scores == Seqs.Map(old(scores), Revise(id, note, score))
          && scores == old(scores)[i := Score(id, note, score)]
    {
      var found := Seqs.FirstIndex(scores, WithId(id));
      match found
      case None =>
        r := DoesNotExist;
      case Some(i) =>
        var previous := scores[i];
        UpdateRevisesOne(scores, id, note, score, i);
        scores := Seqs.Map(scores, Revise(id, note, score));
        r := Success(OkStatus, previous);
    }

    /**
     * DELETE /score/:id: removes every entry with that id and returns the one found;
     * an unknown id is a 400.
     */
    method Delete(id: string) returns (r: Reply<Score>)
      requires Valid()
      modifies this
      ensures Valid()
      ensures IdUnused(scores, id)
      ensures r.Failure? <==> IdUnused(old(scores), id)
      ensures match Seqs.FirstIndex(old(scores), WithId(id))
        case None => r == DoesNotExist && scores == old(scores)
        case Some(i) =>
          && r == Success(OkStatus, old(scores)[i])
          && scores == Seqs.Filter(old(scores), WithoutId(id))
          && scores == old(scores)[..i] + old(scores)[i + 1..]
    {
      var found := Seqs.FirstIndex(scores, WithId(id));
      match found
      case None =>
        r := DoesNotExist;
      case Some(i) =>
        var entry := scores[i];
        Seqs.FilterOutKey(scores, IdOf, id, i);
        Seqs.FilterMembers(scores, WithoutId(id));
        scores := Seqs.Filter(scores, WithoutId(id));
        r := Success(OkStatus, entry);
    }
  }
}
