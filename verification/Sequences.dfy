/** Sequences: prefixes, and how many bytes a list of texts has. */
module Sequences {

  lemma PrefixTransitive<T>(a: seq<T>, b: seq<T>, c: seq<T>)
    requires a <= b <= c
    ensures a <= c
  {
    assert a == b[..|a|] == c[..|a|];
  }

  function Bytes(items: seq<string>): nat {
    if items == [] then 0 else |items[0]| + Bytes(items[1..])
  }
}
