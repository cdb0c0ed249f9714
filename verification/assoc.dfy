/**
 * Insertion-ordered association lists from names to integers: the model of a
 * JavaScript `Record<string, number>` used as an accumulator. Assigning to a
 * key that is already present keeps its position; a new key goes last.
 */
module Assoc {
  import opened Wrappers
  import opened Seqs

  type Assoc = seq<(string, int)>

  function Keys(al: Assoc): (ks: seq<string>)
    ensures |ks| == |al|
    ensures forall i :: 0 <= i < |al| ==> ks[i] == al[i].0
  {
    if |al| == 0 then [] else [al[0].0] + Keys(al[1..])
  }

  /** `record[k]`, absent keys reading as `None`. */
  function Get(al: Assoc, k: string): Option<int>
  {
    if |al| == 0 then None
    else if al[0].0 == k then Some(al[0].1)
    else Get(al[1..], k)
  }

  /** `record[k] = v`. */
  function Put(al: Assoc, k: string, v: int): Assoc
  {
    if |al| == 0 then [(k, v)]
    else if al[0].0 == k then [(k, v)] + al[1..]
    else [al[0]] + Put(al[1..], k, v)
  }

  lemma {:induction false} GetPresent(al: Assoc, k: string)
    ensures Get(al, k).Some? <==> k in Keys(al)
  {
    if |al| > 0 {
      GetPresent(al[1..], k);
      assert Keys(al) == [al[0].0] + Keys(al[1..]);
    }
  }

  /** A write keeps every existing key in place and appends a new one. */
  lemma {:induction false} PutKeys(al: Assoc, k: string, v: int)
    ensures Keys(Put(al, k, v)) == if k in Keys(al) then Keys(al) else Keys(al) + [k]
  {
    if |al| > 0 {
      PutKeys(al[1..], k, v);
      assert Keys(al) == [al[0].0] + Keys(al[1..]);
      if al[0].0 != k {
        assert Keys(Put(al, k, v)) == [al[0].0] + Keys(Put(al[1..], k, v));
      }
    }
  }

  /** A write changes the value of its own key only. */
  lemma {:induction false} PutGet(al: Assoc, k: string, v: int, k': string)
    ensures Get(Put(al, k, v), k') == if k' == k then Some(v) else Get(al, k')
  {
    if |al| > 0 && al[0].0 != k {
      PutGet(al[1..], k, v, k');
    }
  }

  /**
   * Index of the entry a stable sort by descending value puts first: the
   * earliest entry whose value is maximal.
   */
  function TopIndex(al: Assoc): (i: nat)
    requires |al| > 0
    ensures i < |al|
    ensures forall j :: 0 <= j < |al| ==> al[j].1 <= al[i].1
    ensures forall j :: 0 <= j < i ==> al[j].1 < al[i].1
  {
    if |al| == 1 then 0
    else
      var t := 1 + TopIndex(al[1..]);
      if al[0].1 >= al[t].1 then 0 else t
  }

  /** With distinct keys, reading entry `i`'s key gives entry `i`'s value. */
  lemma {:induction false} GetAt(al: Assoc, i: nat)
    requires NoDuplicates(Keys(al)) && i < |al|
    ensures Get(al, al[i].0) == Some(al[i].1)
  {
    if i > 0 {
      assert Keys(al)[0] != Keys(al)[i];
      forall a, b | 0 <= a < b < |al| - 1
        ensures Keys(al[1..])[a] != Keys(al[1..])[b]
      {
        assert Keys(al)[a + 1] != Keys(al)[b + 1];
      }
      GetAt(al[1..], i - 1);
    }
  }

  /** The sum of all values. */
  function SumValues(al: Assoc): int
  {
    if |al| == 0 then 0 else al[0].1 + SumValues(al[1..])
  }

  /** `record[k] = (record[k] || 0) + v` adds exactly `v` to the sum of the values. */
  lemma {:induction false} AddToSum(al: Assoc, k: string, v: int)
    ensures SumValues(Put(al, k, Get(al, k).GetOr(0) + v)) == SumValues(al) + v
  {
    if |al| > 0 && al[0].0 != k {
      AddToSum(al[1..], k, v);
      assert Put(al, k, Get(al, k).GetOr(0) + v)[1..] == Put(al[1..], k, Get(al[1..], k).GetOr(0) + v);
    }
  }
}
