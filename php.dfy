/** The fragment of PHP's value model the binding relies on: ordered arrays
    with string or integer keys, `isset`/`array_key_exists`, element
    assignment `$a[$k] = $v` and append `$a[] = $v`, `empty`, string
    truthiness and string conversion. */
module Php {
  import opened Wrappers

  datatype Key = Name(name: string) | Index(index: int)

  /** A PHP value. Floats and callables are carried as opaque tokens: the
      binding never computes with them. `Resource` is a handle returned by
      `fopen($path, 'r')`. */
  datatype Value =
    | Null
    | Bool(b: bool)
    | Int(i: int)
    | Float(literal: string)
    | Str(s: string)
    | Resource(path: string)
    | Callable(id: string)
    | Arr(entries: seq<Entry>)

  datatype Entry = Entry(key: Key, value: Value)

  /** An ordered PHP array, as its sequence of entries. */
  type Array = seq<Entry>

  /** The keys of `a`, in order. */
  function Keys(a: Array): (ks: seq<Key>)
    ensures |ks| == |a|
  {
    if a == [] then [] else [a[0].key] + Keys(a[1..])
  }

  /** The value stored under `k`, if any. */
  function Lookup(a: Array, k: Key): Option<Value>
  {
    if a == [] then None
    else if a[0].key == k then Some(a[0].value)
    else Lookup(a[1..], k)
  }

  /** `array_key_exists($k, $a)`. */
  predicate KeyExists(a: Array, k: Key)
  {
    Lookup(a, k).Some?
  }

  /** `isset($a[$k])`: the key exists and its value is not null. */
  predicate IsSet(a: Array, k: Key)
  {
    Lookup(a, k).Some? && Lookup(a, k).value != Null
  }

  /** Every PHP array has pairwise distinct keys. */
  predicate WellFormed(a: Array)
  {
    a == [] || (!KeyExists(a[1..], a[0].key) && WellFormed(a[1..]))
  }

  lemma {:induction false} KeysAgreeWithLookup(a: Array, k: Key)
    ensures k in Keys(a) <==> KeyExists(a, k)
  {
    if a != [] {
      KeysAgreeWithLookup(a[1..], k);
    }
  }

  lemma {:induction false} LookupAt(a: Array, i: nat)
    requires WellFormed(a) && i < |a|
    ensures Lookup(a, a[i].key) == Some(a[i].value)
    ensures Keys(a)[i] == a[i].key
  {
    if i > 0 {
      LookupAt(a[1..], i - 1);
    }
  }

  /** Where `k` sits in `a`, when `a` has it. */
  lemma {:induction false} IndexOfKey(a: Array, k: Key) returns (i: nat)
    requires KeyExists(a, k)
    ensures i < |a| && a[i].key == k && Lookup(a, k) == Some(a[i].value)
    ensures Keys(a)[i] == k
    ensures forall j :: 0 <= j < i ==> a[j].key != k
  {
    if a[0].key == k {
      i := 0;
    } else {
      var j := IndexOfKey(a[1..], k);
      i := j + 1;
    }
  }

  /** `$a[$k] = $v`: an existing key keeps its position and takes the new
      value; a new key is appended at the end. */
  function Set(a: Array, k: Key, v: Value): (r: Array)
    ensures Lookup(r, k) == Some(v)
    ensures forall k' {:trigger Lookup(r, k')} :: k' != k ==> Lookup(r, k') == Lookup(a, k')
    ensures KeyExists(a, k) ==> Keys(r) == Keys(a)
    ensures !KeyExists(a, k) ==> r == a + [Entry(k, v)]
    ensures WellFormed(a) ==> WellFormed(r)
  {
    if a == [] then [Entry(k, v)]
    else if a[0].key == k then [Entry(k, v)] + a[1..]
    else [a[0]] + Set(a[1..], k, v)
  }

  /** The key `$a[] = $v` uses: one more than the largest integer key, or 0
      when no integer key is non-negative. */
  function NextIndex(a: Array): (n: nat)
    ensures forall m :: Lookup(a, Index(m)).Some? ==> m < n
  {
    if a == [] then 0
    else
      var rest := NextIndex(a[1..]);
      match a[0].key
      case Index(m) => if m + 1 > rest then m + 1 else rest
      case Name(_) => rest
  }

  /** `$a[] = $v`. */
  function Append(a: Array, v: Value): (r: Array)
    ensures !KeyExists(a, Index(NextIndex(a)))
    ensures r == a + [Entry(Index(NextIndex(a)), v)]
    ensures WellFormed(a) ==> WellFormed(r)
  {
    AppendFreshKey(a, Index(NextIndex(a)), v);
    a + [Entry(Index(NextIndex(a)), v)]
  }

  lemma {:induction false} AppendFreshKey(a: Array, k: Key, v: Value)
    requires !KeyExists(a, k)
    ensures WellFormed(a) ==> WellFormed(a + [Entry(k, v)])
    ensures forall k' {:trigger Lookup(a + [Entry(k, v)], k')} :: k' != k ==> Lookup(a + [Entry(k, v)], k') == Lookup(a, k')
    ensures Lookup(a + [Entry(k, v)], k) == Some(v)
  {
    if a != [] {
      AppendFreshKey(a[1..], k, v);
      assert (a + [Entry(k, v)])[1..] == a[1..] + [Entry(k, v)];
    }
  }

  /** A PHP list `[v0, v1, ...]`: the values under keys 0, 1, ... */
  function ListOf(vs: seq<Value>): Array
  {
    seq(|vs|, i requires 0 <= i < |vs| => Entry(Index(i), vs[i]))
  }

  /** PHP `empty($v)`. Floats are opaque here and count as non-empty. */
  predicate Empty(v: Value)
  {
    match v
    case Null => true
    case Bool(b) => !b
    case Int(i) => i == 0
    case Str(s) => s == "" || s == "0"
    case Arr(es) => es == []
    case _ => false
  }

  /** A string used as a condition: only "" and "0" are false. */
  predicate Truthy(s: string)
  {
    s != "" && s != "0"
  }

  /** PHP's conversion of a scalar to string (`"..." . $v`). Resources,
      callables and arrays are not converted faithfully and give "". */
  function PhpString(v: Value): string
  {
    match v
    case Null => ""
    case Bool(b) => if b then "1" else ""
    case Int(i) => IntToString(i)
    case Float(literal) => literal
    case Str(s) => s
    case _ => ""
  }

  function IntToString(i: int): string
  {
    if i < 0 then "-" + NatToString(-i) else NatToString(i)
  }

  function NatToString(n: nat): string
    decreases n
  {
    var digit := ["0123456789"[n % 10]];
    if n < 10 then digit else NatToString(n / 10) + digit
  }

  /** ASCII lower-casing of one character, as PCRE's `/i` and PSR-7 header
      names use it. */
  function LowerChar(c: char): char
  {
    if 'A' <= c <= 'Z' then (c as int + 32) as char else c
  }

  /** ASCII case-insensitive string equality. */
  predicate EqualsIgnoringCase(a: string, b: string)
  {
    |a| == |b| && forall i :: 0 <= i < |a| ==> LowerChar(a[i]) == LowerChar(b[i])
  }

  /** `implode($sep, $parts)` over strings. */
  function Join(parts: seq<string>, sep: string): string
  {
    if parts == [] then ""
    else if |parts| == 1 then parts[0]
    else parts[0] + sep + Join(parts[1..], sep)
  }

  /** No name occurs twice. */
  predicate DistinctNames(names: seq<string>)
  {
    forall i, j :: 0 <= i < j < |names| ==> names[i] != names[j]
  }

  /** The array literal `[names[0] => values[0], names[1] => values[1], ...]`. */
  function TableOf(names: seq<string>, values: seq<Value>): (t: Array)
    requires |names| == |values|
    ensures |t| == |names|
    ensures forall i :: 0 <= i < |t| ==> t[i] == Entry(Name(names[i]), values[i])
  {
    seq(|names|, i requires 0 <= i < |names| => Entry(Name(names[i]), values[i]))
  }

  /** A table with distinct names is a PHP array whose keys are the names
      in order, each holding its value, and nothing else. */
  lemma TableShape(names: seq<string>, values: seq<Value>)
    requires |names| == |values| && DistinctNames(names)
    ensures WellFormed(TableOf(names, values))
    ensures forall i :: 0 <= i < |names| ==> Keys(TableOf(names, values))[i] == Name(names[i])
    ensures forall i :: 0 <= i < |names| ==> Lookup(TableOf(names, values), Name(names[i])) == Some(values[i])
    ensures forall k :: KeyExists(TableOf(names, values), k) ==> k.Name? && k.name in names
  {
    TableKeys(names, values);
    TableWellFormed(names, values);
    KeysAt(TableOf(names, values));
    forall i | 0 <= i < |names| ensures Lookup(TableOf(names, values), Name(names[i])) == Some(values[i]) {
      LookupAt(TableOf(names, values), i);
    }
  }

  lemma {:induction false} KeysAt(a: Array)
    ensures forall i :: 0 <= i < |a| ==> Keys(a)[i] == a[i].key
  {
    if a != [] {
      KeysAt(a[1..]);
      assert forall i :: 0 < i < |a| ==> Keys(a)[i] == Keys(a[1..])[i - 1];
    }
  }

  lemma TableTail(names: seq<string>, values: seq<Value>)
    requires |names| == |values| && names != []
    ensures TableOf(names, values)[1..] == TableOf(names[1..], values[1..])
    ensures DistinctNames(names) ==> DistinctNames(names[1..])
  {
    if DistinctNames(names) {
      forall i, j | 0 <= i < j < |names[1..]| ensures names[1..][i] != names[1..][j] {
        assert names[1..][i] == names[i + 1] && names[1..][j] == names[j + 1];
      }
    }
  }

  lemma {:induction false} TableKeys(names: seq<string>, values: seq<Value>)
    requires |names| == |values|
    ensures forall k :: KeyExists(TableOf(names, values), k) ==> k.Name? && k.name in names
  {
    if names != [] {
      TableTail(names, values);
      TableKeys(names[1..], values[1..]);
      forall k | KeyExists(TableOf(names, values), k) ensures k.Name? && k.name in names {
        if k != Name(names[0]) {
          assert k.name in names[1..];
        }
      }
    }
  }

  lemma {:induction false} TableWellFormed(names: seq<string>, values: seq<Value>)
    requires |names| == |values| && DistinctNames(names)
    ensures WellFormed(TableOf(names, values))
  {
    if names != [] {
      TableTail(names, values);
      TableWellFormed(names[1..], values[1..]);
      TableKeys(names[1..], values[1..]);
      assert names[0] !in names[1..];
    }
  }
}
