/**
 * The agent's claim store: an append-only list of claim records (kept by the
 * source in a JSON file, here in a field), a record constructor that puts a
 * fresh id and the creation time in front of the submitted fields, and a
 * case-insensitive substring search over the stored records.
 */
module Storage {

  import opened Base
  import opened Dicts

  /** `{"id": id, "createdAt": now, **payload}`: the payload is spread last, so its keys win. */
  function NewRecord(id: string, now: string, payload: Dict): Dict
  {
    Merge([Entry("id", id), Entry("createdAt", now)], payload)
  }

  /**
   * Every payload field reaches the record unchanged; `id` and `createdAt`
   * hold the fresh id and the time unless the payload itself carries them;
   * the record has no other key.
   */
  lemma NewRecordFields(id: string, now: string, payload: Dict, k: string, default: string)
    requires UniqueKeys(payload)
    ensures Get(NewRecord(id, now, payload), k, default)
      == if HasKey(payload, k) then Get(payload, k, default)
         else if k == "id" then id
         else if k == "createdAt" then now
         else default
    ensures HasKey(NewRecord(id, now, payload), k) <==> k == "id" || k == "createdAt" || HasKey(payload, k)
  {
    GetMerge([Entry("id", id), Entry("createdAt", now)], payload, k, default);
    HasKeyMerge([Entry("id", id), Entry("createdAt", now)], payload, k);
    assert Keys([Entry("id", id), Entry("createdAt", now)]) == ["id", "createdAt"];
  }

  /**
   * Two records built from the same payload with different fresh ids differ,
   * so storing the same payload twice yields two claims.
   */
  lemma NewRecordsDistinct(a: nat, b: nat, now1: string, now2: string, payload: Dict)
    requires a != b && UniqueKeys(payload) && !HasKey(payload, "id")
    ensures NewRecord(IdFor(a), now1, payload) != NewRecord(IdFor(b), now2, payload)
  {
    IdForFresh(a, b);
    NewRecordFields(IdFor(a), now1, payload, "id", "");
    NewRecordFields(IdFor(b), now2, payload, "id", "");
  }

  /** The values of a claim the search looks at: every field but `id` and `createdAt`, in order. */
  function SearchedValues(claim: Dict): (vs: seq<string>)
    ensures |vs| <= |claim|
    decreases |claim|
  {
    if claim == [] then []
    else if claim[0].key in {"id", "createdAt"} then SearchedValues(claim[1..])
    else [claim[0].value] + SearchedValues(claim[1..])
  }

  /** `" ".join(str(value) for key, value in claim.items() if key not in {"id", "createdAt"})`. */
  function Haystack(claim: Dict): string
  {
    Join(" ", SearchedValues(claim))
  }

  /** A claim matches a lowered query when its lowered haystack contains it. */
  predicate Matches(claim: Dict, lowered: string, lower: string -> string)
  {
    Contains(lower(Haystack(claim)), lowered)
  }

  /** The claims that match, in stored order. */
  function Matching(claims: seq<Dict>, lowered: string, lower: string -> string): (r: seq<Dict>)
    ensures |r| <= |claims|
    decreases |claims|
  {
    if claims == [] then []
    else if Matches(claims[0], lowered, lower) then [claims[0]] + Matching(claims[1..], lowered, lower)
    else Matching(claims[1..], lowered, lower)
  }

  /** What `search_claims(query)` returns: everything for an empty query, the matches otherwise. */
  function Found(claims: seq<Dict>, query: string, lower: string -> string): seq<Dict>
  {
    if query == "" then claims else Matching(claims, lower(query), lower)
  }

  /** The matches keep the stored order. */
  lemma {:induction false} MatchingSubsequence(claims: seq<Dict>, lowered: string, lower: string -> string)
    ensures Subsequence(Matching(claims, lowered, lower), claims)
    decreases |claims|
  {
    if claims != [] {
      MatchingSubsequence(claims[1..], lowered, lower);
      var r := Matching(claims, lowered, lower);
      if Matches(claims[0], lowered, lower) {
        assert r[1..] == Matching(claims[1..], lowered, lower);
      }
    }
  }

  /** A claim is found exactly when it is stored and matches. */
  lemma {:induction false} MatchingMembers(claims: seq<Dict>, lowered: string, lower: string -> string, c: Dict)
    ensures c in Matching(claims, lowered, lower) <==> c in claims && Matches(c, lowered, lower)
    decreases |claims|
  {
    if claims != [] {
      MatchingMembers(claims[1..], lowered, lower, c);
      assert claims == [claims[0]] + claims[1..];
    }
  }

  /** For a non-empty query the search returns the stored claims that match, and only those, in order. */
  lemma FoundSound(claims: seq<Dict>, query: string, lower: string -> string, c: Dict)
    requires query != ""
    ensures c in Found(claims, query, lower) <==> c in claims && Contains(lower(Haystack(c)), lower(query))
    ensures Subsequence(Found(claims, query, lower), claims)
  {
    MatchingMembers(claims, lower(query), lower, c);
    MatchingSubsequence(claims, lower(query), lower);
  }

  class ClaimStore {

    /** The records of the claims file, in the order they were stored. */
    var claims: seq<Dict>
    /** How many ids the store has requested so far. */
    var issued: nat

    /** A store whose file does not exist yet reads as the empty list. */
    constructor ()
      ensures claims == [] && issued == 0
    {
      claims := [];
      issued := 0;
    }

    /**
     * `add_claim(payload)`: builds the record with a fresh id and the time
     * `now`, appends it after every earlier claim and returns it.
     */
    method AddClaim(payload: Dict, now: string) returns (record: Dict)
      modifies this
      ensures record == NewRecord(IdFor(old(issued)), now, payload)
      ensures claims == old(claims) + [record]
      ensures issued == old(issued) + 1
    {
      var id := IdFor(issued);
      issued := issued + 1;
      record := NewRecord(id, now, payload);
      claims := claims + [record];
    }

    /**
     * `search_claims(query)`: an empty query returns every claim; otherwise
     * the claims are scanned in order and kept when they match. The store
     * is not changed.
     */
    method SearchClaims(query: string, lower: string -> string) returns (results: seq<Dict>)
      ensures results == Found(claims, query, lower)
      ensures query == "" ==> results == claims
    {
      if query == "" {
        return claims;
      }
      var lowered := lower(query);
      results := [];
      var i := 0;
      while i < |claims|
        invariant 0 <= i <= |claims|
        invariant results + Matching(claims[i..], lowered, lower) == Matching(claims, lowered, lower)
      {
        assert claims[i..][1..] == claims[i + 1..];
        if Contains(lower(Haystack(claims[i])), lowered) {
          results := results + [claims[i]];
        }
        i := i + 1;
      }
    }
  }
}
