/** A plain JavaScript object used as a dictionary (`{ [key: string]: V }`):
    its own properties as key/value pairs in insertion order. Every key the
    application uses ('q1', 'interests', ...) is not an array index, so
    insertion order is also the order `Object.values` reports. */
module JsObject {
  import opened Wrappers
  import Seqs

  type Obj<V> = seq<(string, V)>

  function Keys<V>(o: Obj<V>): (r: seq<string>)
    ensures |r| == |o|
    ensures forall i :: 0 <= i < |o| ==> r[i] == o[i].0
  {
    seq(|o|, i requires 0 <= i < |o| => o[i].0)
  }

  /** `Object.values(o)`. */
  function Values<V>(o: Obj<V>): (r: seq<V>)
    ensures |r| == |o|
    ensures forall i :: 0 <= i < |o| ==> r[i] == o[i].1
  {
    seq(|o|, i requires 0 <= i < |o| => o[i].1)
  }

  /** A property list with each key at most once, as every object has. */
  predicate WellFormed<V>(o: Obj<V>) {
    Seqs.NoDup(Keys(o))
  }

  /** `o[k]`, `None` standing for `undefined`. */
  function Get<V>(o: Obj<V>, k: string): (r: Option<V>)
    ensures r.None? <==> k !in Keys(o)
    ensures r.Some? ==> (k, r.value) in o
  {
    if |o| == 0 then None
    else if o[0].0 == k then Some(o[0].1)
    else
      assert Keys(o) == [o[0].0] + Keys(o[1..]);
      Get(o[1..], k)
  }

  /** In a well-formed object the value stored at position `i` is what a lookup
      of the key at position `i` returns. */
  lemma {:induction false} GetAt<V>(o: Obj<V>, i: nat)
    requires WellFormed(o) && i < |o|
    ensures Get(o, o[i].0) == Some(o[i].1)
  {
    if i > 0 {
      assert Keys(o)[0] != Keys(o)[i];
      assert Keys(o[1..]) == Keys(o)[1..];
      GetAt(o[1..], i - 1);
    }
  }

  /** `{ ...o, [k]: v }`: an existing key keeps its position and takes the new
      value; a new key is appended. */
  function Set<V>(o: Obj<V>, k: string, v: V): (r: Obj<V>)
    ensures k in Keys(o) ==> Keys(r) == Keys(o)
    ensures k !in Keys(o) ==> Keys(r) == Keys(o) + [k]
  {
    if |o| == 0 then [(k, v)]
    else
      KeysCons(o[0], o[1..]);
      assert [o[0]] + o[1..] == o;
      if o[0].0 == k then
        KeysCons((k, v), o[1..]);
        [(k, v)] + o[1..]
      else
        var rest := Set(o[1..], k, v);
        KeysCons(o[0], rest);
        [o[0]] + rest
  }

  /** The keys of a property list with one more pair in front. */
  lemma KeysCons<V>(p: (string, V), o: Obj<V>)
    ensures Keys([p] + o) == [p.0] + Keys(o)
  {
  }

  /** After `Set`, the key reads back the new value and every other key reads
      what it read before. */
  lemma {:induction false} SetGet<V>(o: Obj<V>, k: string, v: V, k': string)
    ensures Get(Set(o, k, v), k') == if k' == k then Some(v) else Get(o, k')
  {
    if |o| > 0 && o[0].0 != k {
      SetGet(o[1..], k, v, k');
    }
  }

  /** `SetGet` for every key at once. */
  lemma SetGetAll<V>(o: Obj<V>, k: string, v: V)
    ensures Get(Set(o, k, v), k) == Some(v)
    ensures forall k' :: k' != k ==> Get(Set(o, k, v), k') == Get(o, k')
  {
    forall k' {
      SetGet(o, k, v, k');
    }
  }

  /** Setting a property keeps every key unique. */
  lemma SetWellFormed<V>(o: Obj<V>, k: string, v: V)
    requires WellFormed(o)
    ensures WellFormed(Set(o, k, v))
  {
  }
}
