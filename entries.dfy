/**
 * The entries payload the agent serves: whatever the entries file holds is
 * normalised into an object with exactly the keys `entries` and `layout`.
 */
module Entries {

  import opened Base

  /** A JSON value as `json.loads` produces it; numbers keep their literal text. */
  datatype Json =
    | Null
    | Bool(b: bool)
    | Number(literal: string)
    | Str(s: string)
    | Array(items: seq<Json>)
    | Object(members: seq<(string, Json)>)

  /**
   * `obj.get(key, default)` on the dictionary `json.loads` builds from the
   * members: a repeated key keeps its last value.
   */
  function Member(members: seq<(string, Json)>, key: string, default: Json): (v: Json)
    ensures (forall i :: 0 <= i < |members| ==> members[i].0 != key) ==> v == default
    decreases |members|
  {
    if members == [] then default
    else if members[|members| - 1].0 == key then members[|members| - 1].1
    else Member(members[..|members| - 1], key, default)
  }

  const EmptyEntries := Array([])
  const EmptyLayout := Object([])

  function Normalised(entries: Json, layout: Json): Json
  {
    Object([("entries", entries), ("layout", layout)])
  }

  /**
   * `load_entries()`, with the file's content as `Some(value)` and a missing
   * file as `None`: a list becomes the entries, an object contributes its
   * `entries` and `layout` members, and anything else (or no file) gives
   * the empty defaults.
   */
  function LoadEntries(file: Option<Json>): (r: Json)
    ensures r.Object? && |r.members| == 2
    ensures r.members[0].0 == "entries" && r.members[1].0 == "layout"
    ensures file.None? ==> r == Normalised(EmptyEntries, EmptyLayout)
    ensures file.Some? && file.value.Array? ==> r == Normalised(file.value, EmptyLayout)
    ensures file.Some? && file.value.Object? ==>
      r == Normalised(Member(file.value.members, "entries", EmptyEntries),
                      Member(file.value.members, "layout", EmptyLayout))
    ensures file.Some? && !file.value.Array? && !file.value.Object? ==> r == Normalised(EmptyEntries, EmptyLayout)
  {
    match file
    case None => Normalised(EmptyEntries, EmptyLayout)
    case Some(payload) =>
      match payload
      case Array(_) => Normalised(payload, EmptyLayout)
      case Object(members) =>
        Normalised(Member(members, "entries", EmptyEntries), Member(members, "layout", EmptyLayout))
      case _ => Normalised(EmptyEntries, EmptyLayout)
  }

  /** A member whose key is not the one looked up makes no difference, wherever it stands. */
  lemma {:induction false} MemberIgnoresOthers(m1: seq<(string, Json)>, m2: seq<(string, Json)>,
                                               k: string, v: Json, key: string, default: Json)
    requires k != key
    ensures Member(m1 + [(k, v)] + m2, key, default) == Member(m1 + m2, key, default)
    decreases |m2|
  {
    var a, b := m1 + [(k, v)] + m2, m1 + m2;
    if m2 == [] {
      assert a[..|a| - 1] == b;
    } else {
      var m2' := m2[..|m2| - 1];
      assert a[|a| - 1] == b[|b| - 1] == m2[|m2| - 1];
      assert a[..|a| - 1] == m1 + [(k, v)] + m2';
      assert b[..|b| - 1] == m1 + m2';
      MemberIgnoresOthers(m1, m2', k, v, key, default);
    }
  }

  /** Keys other than `entries` and `layout` are dropped: adding one anywhere changes nothing. */
  lemma OtherKeysDropped(m1: seq<(string, Json)>, m2: seq<(string, Json)>, k: string, v: Json)
    requires k != "entries" && k != "layout"
    ensures LoadEntries(Some(Object(m1 + [(k, v)] + m2))) == LoadEntries(Some(Object(m1 + m2)))
  {
    MemberIgnoresOthers(m1, m2, k, v, "entries", EmptyEntries);
    MemberIgnoresOthers(m1, m2, k, v, "layout", EmptyLayout);
  }

  /** Normalising a normalised payload changes nothing. */
  lemma LoadEntriesIdempotent(file: Option<Json>)
    ensures LoadEntries(Some(LoadEntries(file))) == LoadEntries(file)
  {
    var r := LoadEntries(file);
    var m := r.members;
    assert m[..1][..0] == [];
    assert Member(m, "entries", EmptyEntries) == m[0].1;
    assert Member(m, "layout", EmptyLayout) == m[1].1;
  }
}
