/**
 * Request sequences against freshly seeded stores, each with the replies and listings
 * the two services promise for it.
 */
module Scenarios {
  import opened Wrappers
  import opened Http
  import Seqs
  import Text
  import Notes
  import Scores

  /** "hello" occurs, ignoring case, at the start of "Hello world". */
  lemma HelloWorldMatchesHello()
    ensures Text.IncludesIgnoringCase("Hello world", "hello")
  {
  }

  /** POST a note "Hello world", then GET with query "hello": the new note is listed. */
  method CreateThenSearchNote() returns (created: Reply<Notes.Note>, listed: seq<Notes.Note>)
    ensures created == Success(OkStatus, Notes.Note("note-2", "Hello world"))
    ensures created.value in listed
  {
    var store := new Notes.NoteStore("note-1");
    created := store.Create("note-2", "Hello world");
    HelloWorldMatchesHello();
    listed := store.List(Some("hello"));
    assert store.notes[1] == created.value;
  }

  /** PATCH and DELETE of a note id that was never issued both reply 404 "NotFound". */
  method UnknownNote() returns (updated: Reply<Notes.Note>, deleted: Reply<Notes.Note>, listed: seq<Notes.Note>)
    ensures updated == Failure(NotFoundStatus, "NotFound")
    ensures deleted == Failure(NotFoundStatus, "NotFound")
    ensures listed == [Notes.Note("note-1", Notes.SeedText)]
  {
    var store := new Notes.NoteStore("note-1");
    updated := store.Update("unknown", "whatever");
    deleted := store.Delete("unknown");
    listed := store.List(None);
  }

  /** A well-formed seed of twenty entries with distinct ids. */
  function Seed(): (seed: seq<Scores.Score>)
    ensures |seed| == Scores.SeedSize
    ensures Scores.UniqueIds(seed) && Scores.WellFormed(seed)
  {
    seq(Scores.SeedSize, (k: int) requires 0 <= k < Scores.SeedSize => Scores.Score([(65 + k) as char], "Pasta", 10))
  }

  /** POST a score {"Soup", 5}: 201 with the new entry, and a search for "soup" lists it. */
  method CreateThenSearchScore() returns (created: Reply<Scores.Score>, listed: seq<Scores.Score>)
    ensures created == Success(CreatedStatus, Scores.Score("new", "Soup", 5))
    ensures created.value in listed
  {
    var store := new Scores.ScoreStore(Seed());
    created := store.Create("new", "Soup", 5);
    Text.IncludesItself("Soup");
    Text.QueryCaseIrrelevant("Soup", "soup");
    Text.QueryCaseIrrelevant("Soup", "Soup");
    assert Text.Lower("soup") == Text.Lower("Soup");
    listed := store.List(Some("soup"));
    assert store.scores[Scores.SeedSize] == created.value;
  }

  /**
   * PATCH a score, then GET: the PATCH reply carries the entry as it was before the
   * update, while the listing shows the new note and score.
   */
  method UpdateRepliesWithPreviousEntry() returns (updated: Reply<Scores.Score>, listed: seq<Scores.Score>)
    ensures updated == Success(OkStatus, Scores.Score("A", "Pasta", 10))
    ensures |listed| == Scores.SeedSize && listed[0] == Scores.Score("A", "Risotto", 3)
    ensures updated.value != listed[0]
  {
    var seed := Seed();
    assert seed[0] == Scores.Score("A", "Pasta", 10);
    assert Seqs.FirstIndex(seed, Scores.WithId("A")) == Some(0);
    var store := new Scores.ScoreStore(seed);
    updated := store.Update("A", "Risotto", 3);
    assert store.scores == seed[0 := Scores.Score("A", "Risotto", 3)];
    listed := store.List(None);
  }

  /** DELETE of a score id that was never issued replies 400 "Score does not exist". */
  method UnknownScore() returns (deleted: Reply<Scores.Score>, listed: seq<Scores.Score>)
    ensures deleted == Failure(BadRequestStatus, "Score does not exist")
    ensures listed == Seed()
  {
    var store := new Scores.ScoreStore(Seed());
    deleted := store.Delete("unknown");
    listed := store.List(None);
  }
}
