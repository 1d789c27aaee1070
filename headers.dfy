/**
 * Vert.x's case-insensitive `MultiMap` as an ordered list of name/value
 * entries. Names are compared ignoring the case of ASCII letters; entries keep
 * their insertion order and their multiplicity.
 */
module Headers {
  import opened Wrappers

  datatype Header = Header(name: string, value: string)

  // Header names as the forwarding code spells them (Netty's constants are lower case).
  const CACHE_CONTROL := "cache-control"
  const CONTENT_LENGTH := "content-length"
  const CONTENT_TYPE := "content-type"
  const DATE := "date"
  const ETAG := "etag"
  const EXPIRES := "expires"
  const TRANSFER_ENCODING := "transfer-encoding"
  const WARNING := "warning"

  function LowerAscii(c: char): char {
    if 'A' <= c <= 'Z' then (c as int + 32) as char else c
  }

  function FoldCase(s: string): seq<char> {
    seq(|s|, i requires 0 <= i < |s| => LowerAscii(s[i]))
  }

  /** Equality of header names ignoring case (`equalsIgnoreCase` on ASCII). */
  predicate SameName(a: string, b: string) {
    FoldCase(a) == FoldCase(b)
  }

  /** `getAll(name)`: every value stored under `name`, in insertion order. */
  function ValuesOf(hs: seq<Header>, name: string): seq<string> {
    if hs == [] then []
    else (if SameName(hs[0].name, name) then [hs[0].value] else []) + ValuesOf(hs[1..], name)
  }

  /** `get(name)`: the first value stored under `name`, or null. */
  function Get(hs: seq<Header>, name: string): Option<string> {
    var vs := ValuesOf(hs, name);
    if vs == [] then None else Some(vs[0])
  }

  /** Entry `i` is the first one stored under `name`. */
  predicate FirstEntry(hs: seq<Header>, name: string, i: int) {
    0 <= i < |hs| && SameName(hs[i].name, name)
    && forall j :: 0 <= j < i ==> !SameName(hs[j].name, name)
  }

  /**
   * `get(name)` finds a value exactly when some entry is stored under `name`
   * (ignoring case), and the value is that of the first such entry.
   */
  lemma {:induction false} GetFirstEntry(hs: seq<Header>, name: string)
    ensures Get(hs, name).Some? <==> exists i :: 0 <= i < |hs| && SameName(hs[i].name, name)
    ensures Get(hs, name).Some? ==> exists i :: FirstEntry(hs, name, i) && Get(hs, name).value == hs[i].value
  {
    if hs != [] {
      if SameName(hs[0].name, name) {
        assert FirstEntry(hs, name, 0);
      } else {
        GetFirstEntry(hs[1..], name);
        assert Get(hs, name) == Get(hs[1..], name);
        if Get(hs, name).Some? {
          var i :| FirstEntry(hs[1..], name, i) && Get(hs[1..], name).value == hs[1..][i].value;
          assert FirstEntry(hs, name, i + 1);
        }
        forall i | 0 <= i < |hs| && SameName(hs[i].name, name)
          ensures exists k :: 0 <= k < |hs[1..]| && SameName(hs[1..][k].name, name)
        {
          assert hs[1..][i - 1] == hs[i];
        }
      }
    }
  }

  /** `contains(name)`. */
  predicate Contains(hs: seq<Header>, name: string) {
    ValuesOf(hs, name) != []
  }

  /** `remove(name)`: drops every entry stored under `name`. */
  function RemoveAll(hs: seq<Header>, name: string): seq<Header> {
    if hs == [] then []
    else (if SameName(hs[0].name, name) then [] else [hs[0]]) + RemoveAll(hs[1..], name)
  }

  /** Entries for `name`, one per value, in order. */
  function Entries(name: string, values: seq<string>): seq<Header> {
    if values == [] then [] else [Header(name, values[0])] + Entries(name, values[1..])
  }

  /** `set(name, value)`: remove every entry under `name`, then append one. */
  function Set(hs: seq<Header>, name: string, value: string): seq<Header> {
    RemoveAll(hs, name) + [Header(name, value)]
  }

  /** `set(name, values)`: remove every entry under `name`, then append one per value. */
  function SetAll(hs: seq<Header>, name: string, values: seq<string>): seq<Header> {
    RemoveAll(hs, name) + Entries(name, values)
  }

  /** `add(name, value)`: append one entry. */
  function Add(hs: seq<Header>, name: string, value: string): seq<Header> {
    hs + [Header(name, value)]
  }

  /** Looking a name up in two runs of entries is looking it up in each, in order. */
  lemma {:induction false} ValuesOfConcat(a: seq<Header>, b: seq<Header>, name: string)
    ensures ValuesOf(a + b, name) == ValuesOf(a, name) + ValuesOf(b, name)
  {
    if a != [] {
      var head := if SameName(a[0].name, name) then [a[0].value] else [];
      assert (a + b)[0] == a[0];
      assert (a + b)[1..] == a[1..] + b;
      ValuesOfConcat(a[1..], b, name);
      assert ValuesOf(a + b, name) == head + (ValuesOf(a[1..], name) + ValuesOf(b, name));
      assert ValuesOf(a, name) == head + ValuesOf(a[1..], name);
    } else {
      assert a + b == b;
    }
  }

  /** `remove(name)` empties `name` and leaves every other name's values as they were. */
  lemma {:induction false} RemoveAllValues(hs: seq<Header>, name: string, other: string)
    ensures ValuesOf(RemoveAll(hs, name), other)
         == if SameName(other, name) then [] else ValuesOf(hs, other)
  {
    if hs != [] {
      var head := if SameName(hs[0].name, name) then [] else [hs[0]];
      ValuesOfConcat(head, RemoveAll(hs[1..], name), other);
      RemoveAllValues(hs[1..], name, other);
    }
  }

  lemma {:induction false} EntriesValues(name: string, values: seq<string>, other: string)
    ensures ValuesOf(Entries(name, values), other) == if SameName(other, name) then values else []
  {
    if values != [] {
      ValuesOfConcat([Header(name, values[0])], Entries(name, values[1..]), other);
      EntriesValues(name, values[1..], other);
    }
  }

  /** After `set(name, value)`, `name` holds exactly `value`; other names are untouched. */
  lemma SetValues(hs: seq<Header>, name: string, value: string, other: string)
    ensures ValuesOf(Set(hs, name, value), other)
         == if SameName(other, name) then [value] else ValuesOf(hs, other)
  {
    RemoveAllValues(hs, name, other);
    ValuesOfConcat(RemoveAll(hs, name), [Header(name, value)], other);
  }

  /** After `set(name, values)`, `name` holds exactly `values`; other names are untouched. */
  lemma SetAllValues(hs: seq<Header>, name: string, values: seq<string>, other: string)
    ensures ValuesOf(SetAll(hs, name, values), other)
         == if SameName(other, name) then values else ValuesOf(hs, other)
  {
    RemoveAllValues(hs, name, other);
    EntriesValues(name, values, other);
    ValuesOfConcat(RemoveAll(hs, name), Entries(name, values), other);
  }

  /** `add(name, value)` appends `value` to `name`'s values; other names are untouched. */
  lemma AddValues(hs: seq<Header>, name: string, value: string, other: string)
    ensures ValuesOf(Add(hs, name, value), other)
         == ValuesOf(hs, other) + (if SameName(other, name) then [value] else [])
  {
    ValuesOfConcat(hs, [Header(name, value)], other);
  }
}
