/** The insertion-ordered dictionary that carries one request's inputs from
    the form to the encoder. Assigning to an existing key replaces its value
    where it stands; reading the values gives them in insertion order. */
module FeatureDict {
  import opened Encoding

  /** A dictionary value: a slider reading, a selectbox label, or (after
      encoding) an integer code, which numpy turns into a float. */
  datatype Value = Num(x: real) | Text(s: string)

  type Entry = (string, Value)

  function Keys(e: seq<Entry>): (ks: seq<string>)
    ensures |ks| == |e| && forall i :: 0 <= i < |e| ==> ks[i] == e[i].0
  {
    seq(|e|, i requires 0 <= i < |e| => e[i].0)
  }

  ghost predicate DistinctKeys(e: seq<Entry>) {
    forall i, j :: 0 <= i < j < |e| ==> e[i].0 != e[j].0
  }

  /** The position of key `k`, or -1 when the key is absent. */
  function IndexOf(e: seq<Entry>, k: string): (i: int)
    ensures -1 <= i < |e|
    ensures i >= 0 ==> e[i].0 == k
    ensures i == -1 <==> k !in Keys(e)
    ensures i >= 0 && DistinctKeys(e) ==> forall j :: 0 <= j < |e| && e[j].0 == k ==> j == i
  {
    if e == [] then -1
    else if e[|e| - 1].0 == k then |e| - 1
    else
      var i := IndexOf(e[..|e| - 1], k);
      assert Keys(e[..|e| - 1]) == Keys(e)[..|e| - 1];
      i
  }

  /** `list(d.values())` once every value is a number. */
  function Values(e: seq<Entry>): (row: seq<real>)
    requires forall i :: 0 <= i < |e| ==> e[i].1.Num?
    ensures |row| == |e| && forall i :: 0 <= i < |e| ==> row[i] == e[i].1.x
  {
    seq(|e|, i requires 0 <= i < |e| => e[i].1.x)
  }

  class Dict {
    var entries: seq<Entry>

    ghost predicate Valid()
      reads this
    {
      DistinctKeys(entries)
    }

    /** A dictionary literal: the entries in the order they are written. */
    constructor (e: seq<Entry>)
      requires DistinctKeys(e)
      ensures Valid() && entries == e
    {
      entries := e;
    }

    /** `d[k]`: the value stored under `k`, or the missing-key error. */
    function Get(k: string): (r: Result<Value>)
      reads this
      requires Valid()
      ensures r.Ok? <==> k in Keys(entries)
      ensures r.Ok? ==> exists i :: 0 <= i < |entries| && entries[i] == (k, r.value)
      ensures r.Err? ==> r.error == KeyError(k)
    {
      var i := IndexOf(entries, k);
      if i >= 0 then Ok(entries[i].1) else Err(KeyError(k))
    }

    /** `d[k] = v`: an existing key keeps its position and takes the new
        value; a new key is added at the end. */
    method Put(k: string, v: Value)
      requires Valid()
      modifies this
      ensures Valid()
      ensures k in old(Keys(entries)) ==> Keys(entries) == old(Keys(entries))
      ensures k !in old(Keys(entries)) ==> Keys(entries) == old(Keys(entries)) + [k]
      ensures forall i :: 0 <= i < |old(entries)| ==>
        entries[i] == if old(entries)[i].0 == k then (k, v) else old(entries)[i]
      ensures Get(k) == Ok(v)
    {
      var i := IndexOf(entries, k);
      if i >= 0 {
        entries := entries[i := (k, v)];
        assert Keys(entries) == old(Keys(entries));
      } else {
        entries := entries + [(k, v)];
        assert Keys(entries) == old(Keys(entries)) + [k];
      }
      assert entries[IndexOf(entries, k)] == (k, v);
    }
  }
}
