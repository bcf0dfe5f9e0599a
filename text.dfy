/**
 * The case-insensitive substring test both stores search with:
 * `text.toLowerCase().includes(query.toLowerCase())`.
 */
module Text {
  import Seqs

  /** Lower-cases one character; only the ASCII letters A-Z are mapped. */
  function LowerChar(c: char): char
  {
    if 'A' <= c <= 'Z' then (c as int + 32) as char else c
  }

  /** `toLowerCase`, character by character. */
  function Lower(s: string): string
  {
    Seqs.Map(s, LowerChar)
  }

  /** Lower-casing twice is lower-casing once. */
  lemma LowerIdempotent(s: string)
    ensures Lower(Lower(s)) == Lower(s)
  {
  }

  /** `needle` occurs in `hay` starting at position `k`. */
  ghost predicate OccursAt(hay: string, needle: string, k: nat)
  {
    k + |needle| <= |hay| && hay[k..k + |needle|] == needle
  }

  /** `includes`: whether `needle` occurs anywhere in `hay`, scanning from the left. */
  function Contains(hay: string, needle: string): bool
  {
    if |needle| <= |hay| && hay[..|needle|] == needle then true
    else if hay == [] then false
    else Contains(hay[1..], needle)
  }

  /** The scan finds exactly the positions at which the needle occurs. */
  lemma {:induction false} ContainsIff(hay: string, needle: string)
    ensures Contains(hay, needle) <==> exists k: nat :: OccursAt(hay, needle, k)
  {
    if |needle| <= |hay| && hay[..|needle|] == needle {
      assert OccursAt(hay, needle, 0);
    } else if hay == [] {
      forall k: nat
        ensures !OccursAt(hay, needle, k)
      {
      }
    } else {
      ContainsIff(hay[1..], needle);
      if Contains(hay, needle) {
        var k: nat :| OccursAt(hay[1..], needle, k);
        assert hay[k + 1..k + 1 + |needle|] == hay[1..][k..k + |needle|];
        assert OccursAt(hay, needle, k + 1);
      } else {
        forall k: nat | OccursAt(hay, needle, k)
          ensures false
        {
          assert k != 0;
          assert hay[1..][k - 1..k - 1 + |needle|] == hay[k..k + |needle|];
          assert OccursAt(hay[1..], needle, k - 1);
        }
      }
    }
  }

  /** The search test of both stores: `query` occurs in `text`, ignoring case. */
  predicate IncludesIgnoringCase(text: string, query: string)
  {
    Contains(Lower(text), Lower(query))
  }

  /** A query matches exactly when its lower-cased form matches. */
  lemma QueryCaseIrrelevant(text: string, query: string)
    ensures IncludesIgnoringCase(text, query) == IncludesIgnoringCase(text, Lower(query))
  {
    LowerIdempotent(query);
  }

  /** Every text matches a query equal to itself. */
  lemma IncludesItself(text: string)
    ensures IncludesIgnoringCase(text, text)
  {
  }
}
