/**
 * The HTTP header multimap (`http::HeaderMap`) as a sequence of
 * (lower-cased name, value) entries. Only the order of the values under one
 * name is observable through the operations the handler uses (`get` reads
 * the first, `insert` replaces all, `remove` deletes all, `append` adds one
 * more), so that is the order the model keeps.
 */
module Headers {
  import opened Wrappers
  import opened Ascii

  datatype Header = Header(name: string, value: string)

  predicate Has(es: seq<Header>, name: string) {
    exists i :: 0 <= i < |es| && es[i].name == name
  }

  /** Every value stored under `name`, in order (`HeaderMap::get_all`). */
  function ValuesOf(es: seq<Header>, name: string): (r: seq<string>)
    ensures r == [] <==> !Has(es, name)
  {
    if es == [] then []
    else
      assert forall i :: 1 <= i < |es| ==> es[i] == es[1..][i - 1];
      (if es[0].name == name then [es[0].value] else []) + ValuesOf(es[1..], name)
  }

  lemma {:induction false} ValuesOfAppend(a: seq<Header>, b: seq<Header>, name: string)
    ensures ValuesOf(a + b, name) == ValuesOf(a, name) + ValuesOf(b, name)
    decreases |a|
  {
    if a != [] {
      assert (a + b)[1..] == a[1..] + b;
      ValuesOfAppend(a[1..], b, name);
    } else {
      assert a + b == b;
    }
  }

  /** `HeaderMap::get`: the first value stored under `name`. */
  function First(es: seq<Header>, name: string): (r: Option<string>)
    ensures r == if ValuesOf(es, name) == [] then None else Some(ValuesOf(es, name)[0])
  {
    if es == [] then None
    else if es[0].name == name then Some(es[0].value)
    else First(es[1..], name)
  }

  /** All values of the map are ones a `HeaderValue` can hold. */
  predicate AllValid(es: seq<Header>) {
    forall e :: e in es ==> IsValidValue(e.value)
  }

  lemma {:induction false} FirstIsStored(es: seq<Header>, name: string)
    requires First(es, name).Some?
    ensures Header(name, First(es, name).value) in es
  {
    if es[0].name != name {
      FirstIsStored(es[1..], name);
    }
  }

  /** The entries whose names are not in `drop`, in their original order. */
  function Filter(es: seq<Header>, drop: set<string>): (r: seq<Header>)
    ensures forall e :: e in r <==> e in es && e.name !in drop
  {
    if es == [] then []
    else (if es[0].name in drop then [] else [es[0]]) + Filter(es[1..], drop)
  }

  lemma {:induction false} FilterValues(es: seq<Header>, drop: set<string>, n: string)
    ensures ValuesOf(Filter(es, drop), n) == if n in drop then [] else ValuesOf(es, n)
  {
    if es != [] {
      FilterValues(es[1..], drop, n);
      ValuesOfAppend(if es[0].name in drop then [] else [es[0]], Filter(es[1..], drop), n);
    }
  }

  lemma {:induction false} FilterNothing(es: seq<Header>)
    ensures Filter(es, {}) == es
  {
    if es != [] {
      FilterNothing(es[1..]);
      assert [es[0]] + es[1..] == es;
    }
  }

  lemma {:induction false} FilterFilter(es: seq<Header>, a: set<string>, b: set<string>)
    ensures Filter(Filter(es, a), b) == Filter(es, a + b)
  {
    if es != [] {
      FilterFilter(es[1..], a, b);
      var head := if es[0].name in a then [] else [es[0]];
      var rest := Filter(es[1..], a);
      assert Filter(es, a) == head + rest;
      FilterAppend(head, rest, b);
    }
  }

  lemma {:induction false} FilterAppend(x: seq<Header>, y: seq<Header>, drop: set<string>)
    ensures Filter(x + y, drop) == Filter(x, drop) + Filter(y, drop)
    decreases |x|
  {
    if x == [] {
      assert x + y == y;
    } else {
      assert (x + y)[1..] == x[1..] + y;
      FilterAppend(x[1..], y, drop);
    }
  }

  /** `HeaderMap::remove`: every entry under `name` is gone. */
  function Without(es: seq<Header>, name: string): seq<Header> {
    Filter(es, {name})
  }

  /** `HeaderMap::insert`: `value` becomes the only value under `name`. */
  function Replaced(es: seq<Header>, name: string, value: string): (r: seq<Header>)
    ensures forall e :: e in r <==> (e in es && e.name != name) || e == Header(name, value)
  {
    Without(es, name) + [Header(name, value)]
  }

  lemma ReplacedValues(es: seq<Header>, name: string, value: string, n: string)
    ensures ValuesOf(Replaced(es, name, value), n) == if n == name then [value] else ValuesOf(es, n)
  {
    ValuesOfAppend(Without(es, name), [Header(name, value)], n);
    FilterValues(es, {name}, n);
  }

  /** Assigning through `HeaderMap::get_mut`: only the first value under `name` changes. */
  function WithFirst(es: seq<Header>, name: string, value: string): (r: seq<Header>)
    ensures forall e :: e in r ==> e in es || e == Header(name, value)
  {
    if es == [] then []
    else if es[0].name == name then [Header(name, value)] + es[1..]
    else [es[0]] + WithFirst(es[1..], name, value)
  }

  lemma {:induction false} WithFirstValues(es: seq<Header>, name: string, value: string, n: string)
    ensures ValuesOf(WithFirst(es, name, value), n) ==
      if n != name then ValuesOf(es, n)
      else if ValuesOf(es, n) == [] then []
      else [value] + ValuesOf(es, n)[1..]
  {
    if es != [] {
      var r := WithFirst(es, name, value);
      if es[0].name == name {
        assert r[1..] == es[1..];
      } else {
        WithFirstValues(es[1..], name, value, n);
        assert r[1..] == WithFirst(es[1..], name, value);
      }
    }
  }

  /**
   * A header map whose contents the handler changes in place. Names passed to
   * its methods are header names, already lower-cased: the conversion of a
   * `&str` or `String` key into a name happens at the call site.
   */
  class HeaderMap {
    var entries: seq<Header>

    constructor ()
      ensures entries == []
    {
      entries := [];
    }

    /** The map a request or response already carries. */
    constructor FromEntries(es: seq<Header>)
      ensures entries == es
    {
      entries := es;
    }

    function Get(name: string): Option<string>
      reads this
    {
      First(entries, name)
    }

    function ContainsKey(name: string): bool
      reads this
    {
      Has(entries, name)
    }

    method Append(name: string, value: string)
      requires IsValidValue(value)
      modifies this
      ensures entries == old(entries) + [Header(name, value)]
    {
      entries := entries + [Header(name, value)];
    }

    method Insert(name: string, value: string)
      requires IsValidValue(value)
      modifies this
      ensures entries == Replaced(old(entries), name, value)
    {
      entries := Replaced(entries, name, value);
    }

    method Remove(name: string)
      modifies this
      ensures entries == Without(old(entries), name)
    {
      entries := Without(entries, name);
    }

    /** Overwrites the first value stored under `name`; the name must be present, or the source's unwrap panics. */
    method SetFirst(name: string, value: string)
      requires ContainsKey(name) && IsValidValue(value)
      modifies this
      ensures entries == WithFirst(old(entries), name, value)
    {
      entries := WithFirst(entries, name, value);
    }
  }
}
