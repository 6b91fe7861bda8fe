/** JSON-like values and records shared by the client components and the
    server handlers. A record is a key-value map; an object spread
    `{...base, ...top}` is the union of two records in which the later
    operand wins on every key both define. */
module Values {

  datatype Option<T> = None | Some(value: T)

  /** The JSON values the application stores and sends. */
  datatype Value = Str(s: string) | Num(n: real) | Bool(b: bool) | Null

  type Record = map<string, Value>

  /** The value at `k`, or None when the key is absent (JavaScript's undefined). */
  function Get(r: Record, k: string): Option<Value>
  {
    if k in r then Some(r[k]) else None
  }

  /** JavaScript truthiness of a possibly missing value: undefined, null,
      false, 0 and the empty string are falsy, everything else is truthy. */
  predicate Truthy(v: Option<Value>) {
    match v
    case None => false
    case Some(Null) => false
    case Some(Bool(b)) => b
    case Some(Num(n)) => n != 0.0
    case Some(Str(s)) => s != ""
  }

  /** `{...base, ...top}`: every key of either record, the later one winning. */
  function Spread(base: Record, top: Record): (r: Record)
    ensures r.Keys == base.Keys + top.Keys
    ensures forall k :: k in top ==> r[k] == top[k]
    ensures forall k :: k in base && k !in top ==> r[k] == base[k]
  {
    base + top
  }

  /** Spreading undefined or null contributes no keys. */
  function SpreadOptional(base: Record, top: Option<Record>): Record
  {
    match top
    case None => base
    case Some(t) => Spread(base, t)
  }

  /** `r[k] || fallback`: the stored value when it is truthy, else the fallback. */
  function OrDefault(r: Record, k: string, fallback: Value): Value
  {
    if Truthy(Get(r, k)) then r[k] else fallback
  }

  /** `Object.entries(o).filter(([key]) => key !== k)`: the entries whose key
      is not `k`, in their original order. */
  function WithoutKey<V(==)>(entries: seq<(string, V)>, k: string): (r: seq<(string, V)>)
    ensures |r| <= |entries|
    ensures forall i :: 0 <= i < |r| ==> r[i].0 != k
    ensures forall e :: e in r ==> e in entries
    ensures forall e :: e in entries && e.0 != k ==> e in r
  {
    if entries == [] then []
    else if entries[0].0 == k then WithoutKey(entries[1..], k)
    else [entries[0]] + WithoutKey(entries[1..], k)
  }

  /** Filtering an entry list one entry at a time. */
  lemma WithoutKeyCons<V>(e: (string, V), rest: seq<(string, V)>, k: string)
    ensures WithoutKey([e] + rest, k) == if e.0 == k then WithoutKey(rest, k) else [e] + WithoutKey(rest, k)
  {
    assert ([e] + rest)[1..] == rest;
  }

  /** Filtering a concatenation filters each part. */
  lemma {:induction false} WithoutKeyAppend<V>(a: seq<(string, V)>, b: seq<(string, V)>, k: string)
    ensures WithoutKey(a + b, k) == WithoutKey(a, k) + WithoutKey(b, k)
  {
    if a != [] {
      WithoutKeyAppend(a[1..], b, k);
      assert (a + b)[1..] == a[1..] + b;
    } else {
      assert a + b == b;
    }
  }

  /** Filtering by a key no entry has changes nothing. */
  lemma {:induction false} WithoutKeyAbsent<V>(entries: seq<(string, V)>, k: string)
    requires forall i :: 0 <= i < |entries| ==> entries[i].0 != k
    ensures WithoutKey(entries, k) == entries
  {
    if entries != [] {
      WithoutKeyAbsent(entries[1..], k);
      assert [entries[0]] + entries[1..] == entries;
    }
  }

  /** The keys of a list of entries, in order. */
  function KeysOf<V>(entries: seq<(string, V)>): (ks: seq<string>)
    ensures |ks| == |entries|
    ensures forall i :: 0 <= i < |entries| ==> ks[i] == entries[i].0
  {
    if entries == [] then [] else [entries[0].0] + KeysOf(entries[1..])
  }

  /** Filtering by key keeps exactly the keys other than `k`, in their
      original order. */
  lemma {:induction false} WithoutKeyKeys<V>(entries: seq<(string, V)>, k: string)
    ensures KeysOf(WithoutKey(entries, k)) == RemoveAll(KeysOf(entries), k)
  {
    if entries != [] {
      WithoutKeyKeys(entries[1..], k);
      assert KeysOf(entries)[1..] == KeysOf(entries[1..]);
      if entries[0].0 != k {
        assert KeysOf([entries[0]] + WithoutKey(entries[1..], k))
          == [entries[0].0] + KeysOf(WithoutKey(entries[1..], k));
      }
    }
  }

  /** The sequence `s` with every occurrence of `x` removed. */
  function RemoveAll(s: seq<string>, x: string): (r: seq<string>)
    ensures x !in r
    ensures forall y :: y in s && y != x ==> y in r
  {
    if s == [] then []
    else if s[0] == x then RemoveAll(s[1..], x)
    else [s[0]] + RemoveAll(s[1..], x)
  }
}
