/**
 * Python dictionaries with string keys and string values, as the agent uses
 * them for drafts, action contexts and claim records. A dictionary keeps its
 * keys in insertion order (the order `dict.items()` yields), so it is an
 * association list; a dictionary Python builds never repeats a key.
 */
module Dicts {

  datatype Entry = Entry(key: string, value: string)

  type Dict = seq<Entry>

  function Keys(d: Dict): (ks: seq<string>)
    ensures |ks| == |d|
    ensures forall i :: 0 <= i < |d| ==> ks[i] == d[i].key
  {
    seq(|d|, i requires 0 <= i < |d| => d[i].key)
  }

  predicate HasKey(d: Dict, k: string)
  {
    k in Keys(d)
  }

  predicate UniqueKeys(d: Dict)
  {
    forall i, j :: 0 <= i < j < |d| ==> d[i].key != d[j].key
  }

  /** `d.get(k, default)`. */
  function Get(d: Dict, k: string, default: string): (v: string)
    ensures !HasKey(d, k) ==> v == default
    decreases |d|
  {
    if d == [] then default
    else if d[0].key == k then d[0].value
    else (assert Keys(d) == [d[0].key] + Keys(d[1..]); Get(d[1..], k, default))
  }

  /** A present key yields the value of its first (in a Python dict, its only) entry. */
  lemma {:induction false} GetFirst(d: Dict, k: string, default: string, i: nat)
    requires i < |d| && d[i].key == k
    requires forall j :: 0 <= j < i ==> d[j].key != k
    ensures Get(d, k, default) == d[i].value
    decreases i
  {
    if i > 0 {
      GetFirst(d[1..], k, default, i - 1);
    }
  }

  /** In a dictionary with unique keys, every entry is what its key looks up. */
  lemma GetUnique(d: Dict, i: nat, default: string)
    requires UniqueKeys(d) && i < |d|
    ensures Get(d, d[i].key, default) == d[i].value
  {
    GetFirst(d, d[i].key, default, i);
  }

  /** `d[k] = v`: an existing key keeps its position, a new key goes last. */
  function Put(d: Dict, k: string, v: string): (r: Dict)
    decreases |d|
  {
    if d == [] then [Entry(k, v)]
    else if d[0].key == k then [Entry(k, v)] + d[1..]
    else [d[0]] + Put(d[1..], k, v)
  }

  /** `{**base, **over}`: the entries of `over` are stored one by one, in order. */
  function Merge(base: Dict, over: Dict): Dict
    decreases |over|
  {
    if over == [] then base else Merge(Put(base, over[0].key, over[0].value), over[1..])
  }

  lemma {:induction false} GetPut(d: Dict, k: string, v: string, k': string, default: string)
    ensures Get(Put(d, k, v), k', default) == if k' == k then v else Get(d, k', default)
    decreases |d|
  {
    if d != [] && d[0].key != k {
      assert Put(d, k, v)[1..] == Put(d[1..], k, v);
      GetPut(d[1..], k, v, k', default);
    }
  }

  lemma {:induction false} KeysPut(d: Dict, k: string, v: string)
    ensures Keys(Put(d, k, v)) == if HasKey(d, k) then Keys(d) else Keys(d) + [k]
    decreases |d|
  {
    if d != [] && d[0].key != k {
      KeysPut(d[1..], k, v);
      assert Keys(d) == [d[0].key] + Keys(d[1..]);
      assert HasKey(d, k) <==> HasKey(d[1..], k);
      assert Keys(Put(d, k, v)) == [d[0].key] + Keys(Put(d[1..], k, v));
    } else if d != [] {
      assert Keys(Put(d, k, v)) == Keys(d);
    }
  }

  /**
   * A key of `over` takes its value from `over`; any other key keeps the
   * value it had in `base`.
   */
  lemma {:induction false} GetMerge(base: Dict, over: Dict, k: string, default: string)
    requires UniqueKeys(over)
    ensures Get(Merge(base, over), k, default) == if HasKey(over, k) then Get(over, k, default) else Get(base, k, default)
    decreases |over|
  {
    if over != [] {
      var e, rest := over[0], over[1..];
      assert UniqueKeys(rest) by {
        forall i, j | 0 <= i < j < |rest| ensures rest[i].key != rest[j].key {
          assert rest[i] == over[i + 1] && rest[j] == over[j + 1];
        }
      }
      GetMerge(Put(base, e.key, e.value), rest, k, default);
      GetPut(base, e.key, e.value, k, default);
      assert HasKey(over, k) <==> k == e.key || HasKey(rest, k) by {
        assert Keys(over) == [e.key] + Keys(rest);
      }
      if k == e.key {
        assert !HasKey(rest, k) by {
          forall j | 0 <= j < |rest| ensures rest[j].key != k {
            assert over[0].key != over[j + 1].key;
          }
        }
        assert Get(over, k, default) == e.value;
      } else {
        assert Get(over, k, default) == Get(rest, k, default);
      }
    }
  }

  lemma {:induction false} HasKeyMerge(base: Dict, over: Dict, k: string)
    ensures HasKey(Merge(base, over), k) <==> HasKey(base, k) || HasKey(over, k)
    decreases |over|
  {
    if over != [] {
      var b' := Put(base, over[0].key, over[0].value);
      HasKeyMerge(b', over[1..], k);
      KeysPut(base, over[0].key, over[0].value);
      assert Keys(over) == [over[0].key] + Keys(over[1..]);
    }
  }
}
