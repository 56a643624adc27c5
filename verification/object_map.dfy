/** A JavaScript object literal with string keys, as the list of its own
    properties in insertion order. None of the keys in the probe catalog is
    an integer-like string, so insertion order is also the order in which
    JavaScript enumerates them. */
module ObjectMap {
  import opened Wrappers
  import opened Distinct

  type Object<T> = seq<(string, T)>

  /** `Object.keys(o)`: the property names in order. */
  function Keys<T>(o: Object<T>): (ks: seq<string>)
    ensures |ks| == |o|
    ensures forall i :: 0 <= i < |o| ==> ks[i] == o[i].0
  {
    if |o| == 0 then [] else [o[0].0] + Keys(o[1..])
  }

  /** Own-property access `o[key]`: the value stored under `key`, or `None`
      where the object has no own property `key`. Names inherited from
      `Object.prototype` (`toString`, `constructor`, ...) are not modelled.
      TypeScript rejects an object literal that repeats a key, so which of
      two equal keys wins never arises for the declared objects. */
  function Get<T>(o: Object<T>, key: string): (r: Option<T>)
    ensures r.None? <==> key !in Keys(o)
    ensures r.Some? ==> exists i :: 0 <= i < |o| && o[i] == (key, r.value)
  {
    if |o| == 0 then None
    else if o[0].0 == key then Some(o[0].1)
    else Get(o[1..], key)
  }

  /** An object literal cannot hold the same property twice. */
  ghost predicate UniqueKeys<T>(o: Object<T>)
  {
    PairwiseDistinct(Keys(o))
  }

  /** With unique keys, reading a property yields the value declared under
      it, whichever position it was declared at. */
  lemma {:induction false} GetDeclared<T>(o: Object<T>, i: nat)
    requires UniqueKeys(o)
    requires i < |o|
    ensures Get(o, o[i].0) == Some(o[i].1)
  {
    if i > 0 {
      assert Keys(o)[0] == o[0].0 && Keys(o)[i] == o[i].0;
      assert Keys(o[1..]) == Keys(o)[1..];
      assert o[1..][i - 1] == o[i];
      GetDeclared(o[1..], i - 1);
    }
  }
}
