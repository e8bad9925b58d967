/**
  JSON values as encoding/json produces them for the client's request structs:
  an object is its members in struct field order.
 */
module Json {
  import opened Wrappers

  datatype Value =
    | Null
    | Bool(b: bool)
    | Number(n: int)
    | String(s: string)
    | Array(items: seq<Value>)
    | Object(members: seq<(string, Value)>)

  /** A []string as a JSON array of strings. */
  function Strings(xs: seq<string>): (v: Value)
    ensures v.Array? && |v.items| == |xs|
    ensures forall i :: 0 <= i < |xs| ==> v.items[i] == String(xs[i])
  {
    Array(seq(|xs|, i requires 0 <= i < |xs| => String(xs[i])))
  }

  /** The keys of an object's members, in the order they are written. */
  function Keys(members: seq<(string, Value)>): (ks: seq<string>)
    ensures |ks| == |members|
  {
    if members == [] then [] else [members[0].0] + Keys(members[1..])
  }

  /** The value written under key k, if any (the first one). */
  function Lookup(members: seq<(string, Value)>, k: string): (r: Option<Value>)
    ensures r.Some? <==> k in Keys(members)
  {
    if members == [] then None
    else if members[0].0 == k then Some(members[0].1)
    else Lookup(members[1..], k)
  }

  lemma {:induction false} KeysAppend(a: seq<(string, Value)>, b: seq<(string, Value)>)
    ensures Keys(a + b) == Keys(a) + Keys(b)
  {
    if a == [] {
      assert a + b == b;
    } else {
      assert (a + b)[0] == a[0] && (a + b)[1..] == a[1..] + b;
      KeysAppend(a[1..], b);
    }
  }

  /** Looking a key up in two runs of members written one after the other. */
  lemma {:induction false} LookupAppend(a: seq<(string, Value)>, b: seq<(string, Value)>, k: string)
    ensures Lookup(a + b, k) == if Lookup(a, k).Some? then Lookup(a, k) else Lookup(b, k)
  {
    if a == [] {
      assert a + b == b;
    } else {
      assert (a + b)[0] == a[0] && (a + b)[1..] == a[1..] + b;
      LookupAppend(a[1..], b, k);
    }
  }

  lemma LookupAppend3(a: seq<(string, Value)>, b: seq<(string, Value)>, c: seq<(string, Value)>, k: string)
    ensures Lookup(a + b + c, k) == Lookup(a, k).Or(Lookup(b, k)).Or(Lookup(c, k))
  {
    LookupAppend(a, b, k);
    LookupAppend(a + b, c, k);
  }

  /** Reads back a []string written by Strings. */
  function AsStrings(items: seq<Value>): (r: Option<seq<string>>)
    ensures r.Some? ==> |r.value| == |items|
  {
    if items == [] then Some([])
    else if !items[0].String? then None
    else match AsStrings(items[1..])
      case None => None
      case Some(rest) => Some([items[0].s] + rest)
  }

  lemma {:induction false} StringsRoundTrip(xs: seq<string>)
    ensures AsStrings(Strings(xs).items) == Some(xs)
  {
    if xs != [] {
      assert Strings(xs).items[1..] == Strings(xs[1..]).items;
      StringsRoundTrip(xs[1..]);
      assert xs == [xs[0]] + xs[1..];
    }
  }
}
