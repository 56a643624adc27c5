/** A TypeScript numeric enum declared without initialisers, given by its
    member names in declaration order: the member at position `n` is
    numbered `n`, and the enum object maps each name to its number and each
    number back to its name. */
module NumericEnum {
  import opened Wrappers
  import opened Distinct

  /** Forward lookup `E[name]` among the member-name keys: the number of
      the member called `name`. The compiled enum object also has the
      reverse keys '0'..'n-1', which `NameOf` reads, and inherits the
      `Object.prototype` names; neither is a member name, and this lookup
      gives `None` for them. TypeScript rejects an enum that repeats a
      member name, so the member found is the only one with that name. */
  function ValueOf(members: seq<string>, name: string): (r: Option<nat>)
    ensures r.None? <==> name !in members
    ensures r.Some? ==> r.value < |members| && members[r.value] == name
    ensures r.Some? ==> forall k :: 0 <= k < r.value ==> members[k] != name
  {
    if |members| == 0 then None
    else if members[0] == name then Some(0)
    else
      match ValueOf(members[1..], name)
      case None => None
      case Some(n) => Some(n + 1)
  }

  /** Reverse lookup `E[n]`: the name of the member numbered `n`. */
  function NameOf(members: seq<string>, n: int): (r: Option<string>)
    ensures r.Some? <==> 0 <= n < |members|
    ensures r.Some? ==> ValueOf(members, r.value).Some?
  {
    if 0 <= n < |members| then Some(members[n]) else None
  }

  /** Numbering a member and naming the number gives the member back, and,
      since a TypeScript enum cannot declare a name twice, naming a number
      and numbering the name gives the number back. */
  lemma {:induction false} EnumRoundTrip(members: seq<string>, n: nat)
    requires PairwiseDistinct(members)
    requires n < |members|
    ensures ValueOf(members, members[n]) == Some(n)
    ensures NameOf(members, ValueOf(members, members[n]).value) == Some(members[n])
  {
  }
}
