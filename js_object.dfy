/** JavaScript objects as the application uses them: records whose keys keep
    their insertion order (`Object.keys`), read with `obj[key]`, written with
    `obj[key] = v`, merged with spread (`{...a, ...b}`) and cut down with rest
    destructuring (`const { k, ...rest } = obj`). Database rows and JSON
    payloads are such objects. */
module JsObject {
  import opened Wrappers

  /** A column value of a database row. */
  datatype Value = Null | Bool(b: bool) | Int(i: int) | Num(r: real) | Str(s: string)

  /** JavaScript truthiness of a row value (`!!v`). */
  predicate Truthy(v: Value) {
    match v
    case Null => false
    case Bool(b) => b
    case Int(i) => i != 0
    case Num(r) => r != 0.0
    case Str(s) => s != ""
  }

  /** A JSON value as `request.json()` produces it. */
  datatype Json = JNull | JBool(b: bool) | JNum(n: real) | JStr(s: string)
                | JArr(items: seq<Json>) | JObj(fields: seq<(string, Json)>)

  /** JavaScript truthiness of a JSON value. */
  predicate JsonTruthy(j: Json) {
    match j
    case JNull => false
    case JBool(b) => b
    case JNum(n) => n != 0.0
    case JStr(s) => s != ""
    case JArr(_) => true
    case JObj(_) => true
  }

  /** The outcome of reading `j.k`. */
  datatype Access = Throws | Undefined | Found(value: Json)

  /** `j.k`: reading a property of `null` throws a TypeError; only objects
      have the data properties read here. */
  function Prop(j: Json, k: string): (r: Access)
    ensures r.Throws? <==> j.JNull?
    ensures r.Found? ==> j.JObj? && Get(j.fields, k) == Some(r.value)
    ensures j.JObj? && Get(j.fields, k).None? ==> r.Undefined?
  {
    match j
    case JNull => Throws
    case JObj(fields) => (match Get(fields, k) case Some(v) => Found(v) case None => Undefined)
    case _ => Undefined
  }

  /** An object: its entries in key order. */
  type Obj<V> = seq<(string, V)>

  /** `Object.keys(o)`. */
  function Keys<V>(o: Obj<V>): (ks: seq<string>)
    ensures |ks| == |o|
    ensures forall i :: 0 <= i < |o| ==> ks[i] == o[i].0
  {
    seq(|o|, i requires 0 <= i < |o| => o[i].0)
  }

  /** No key appears twice: what every real JavaScript object satisfies. */
  predicate DistinctKeys<V>(o: Obj<V>) {
    forall i, j :: 0 <= i < j < |o| ==> o[i].0 != o[j].0
  }

  /** `o[k]`, with `None` for `undefined` (key absent). */
  function Get<V>(o: Obj<V>, k: string): (r: Option<V>)
    ensures r.Some? <==> k in Keys(o)
    ensures r.Some? ==> exists i :: 0 <= i < |o| && o[i] == (k, r.value)
  {
    if o == [] then None
    else if o[0].0 == k then Some(o[0].1)
    else
      var r := Get(o[1..], k);
      assert Keys(o) == [o[0].0] + Keys(o[1..]);
      if r.Some? then
        EntryInTail(o, k, r.value);
        r
      else r
  }

  /** An entry of the tail is an entry of the object. */
  lemma {:induction false} EntryInTail<V>(o: Obj<V>, k: string, v: V)
    requires o != [] && exists i :: 0 <= i < |o[1..]| && o[1..][i] == (k, v)
    ensures exists i :: 0 <= i < |o| && o[i] == (k, v)
  {
    var i :| 0 <= i < |o[1..]| && o[1..][i] == (k, v);
    assert o[i + 1] == (k, v);
  }

  /** In an object without repeated keys, the entry at position `i` is what
      reading its key gives. */
  lemma {:induction false} GetAt<V>(o: Obj<V>, i: nat)
    requires DistinctKeys(o) && i < |o|
    ensures Get(o, o[i].0) == Some(o[i].1)
  {
    if i > 0 {
      GetAt(o[1..], i - 1);
    }
  }

  /** The entry at position `i` is what reading its key gives when no
      earlier entry has that key. */
  lemma {:induction false} GetFirstAt<V>(o: Obj<V>, i: nat)
    requires i < |o| && forall j :: 0 <= j < i ==> o[j].0 != o[i].0
    ensures Get(o, o[i].0) == Some(o[i].1)
  {
    if i > 0 {
      GetFirstAt(o[1..], i - 1);
    }
  }

  /** `o[k] = v`: an existing key keeps its position, a new key goes last. */
  function Set<V>(o: Obj<V>, k: string, v: V): (r: Obj<V>)
    ensures k in Keys(o) ==> Keys(r) == Keys(o)
    ensures k !in Keys(o) ==> Keys(r) == Keys(o) + [k]
  {
    if o == [] then [(k, v)]
    else
      assert [o[0]] + o[1..] == o;
      KeysCons(o[0], o[1..]);
      if o[0].0 == k then
        KeysCons((k, v), o[1..]);
        [(k, v)] + o[1..]
      else
        var tail := Set(o[1..], k, v);
        KeysCons(o[0], tail);
        [o[0]] + tail
  }

  /** The keys of an entry followed by an object. */
  lemma {:induction false} KeysCons<V>(e: (string, V), rest: Obj<V>)
    ensures Keys([e] + rest) == [e.0] + Keys(rest)
  {
  }

  /** Reading after writing: the written key reads as the new value, every
      other key as before. */
  lemma {:induction false} GetSet<V>(o: Obj<V>, k: string, v: V, k': string)
    ensures Get(Set(o, k, v), k') == if k' == k then Some(v) else Get(o, k')
  {
    if o != [] && o[0].0 != k {
      GetSet(o[1..], k, v, k');
    }
  }

  /** Writing a new key appends its entry. */
  lemma {:induction false} SetAppends<V>(o: Obj<V>, k: string, v: V)
    requires k !in Keys(o)
    ensures Set(o, k, v) == o + [(k, v)]
  {
    if o != [] {
      assert Keys(o) == [o[0].0] + Keys(o[1..]);
      SetAppends(o[1..], k, v);
      assert o == [o[0]] + o[1..];
    }
  }

  lemma {:induction false} SetKeepsDistinct<V>(o: Obj<V>, k: string, v: V)
    requires DistinctKeys(o)
    ensures DistinctKeys(Set(o, k, v))
  {
    var r := Set(o, k, v);
    forall i, j | 0 <= i < j < |r| ensures r[i].0 != r[j].0 {
      assert Keys(r)[i] == r[i].0 && Keys(r)[j] == r[j].0;
      if k !in Keys(o) && j == |o| {
        assert Keys(o)[i] == o[i].0;
      } else {
        assert Keys(o)[i] == o[i].0 && Keys(o)[j] == o[j].0;
      }
    }
  }

  /** `{...o, ...extra}`: the entries of `extra` written onto `o` in order. */
  function Assign<V>(o: Obj<V>, extra: Obj<V>): Obj<V>
    decreases |extra|
  {
    if extra == [] then o else Assign(Set(o, extra[0].0, extra[0].1), extra[1..])
  }

  /** Spreading `extra` over `o`: a key of `extra` reads as in `extra`, any
      other key as in `o`; keys of `o` keep their order and new keys follow. */
  lemma {:induction false} AssignGet<V>(o: Obj<V>, extra: Obj<V>, k: string)
    requires DistinctKeys(extra)
    ensures Get(Assign(o, extra), k) == if k in Keys(extra) then Get(extra, k) else Get(o, k)
    decreases |extra|
  {
    if extra != [] {
      var rest := extra[1..];
      assert DistinctKeys(rest);
      assert Keys(extra) == [extra[0].0] + Keys(rest);
      AssignGet(Set(o, extra[0].0, extra[0].1), rest, k);
      GetSet(o, extra[0].0, extra[0].1, k);
    }
  }

  /** Spreading keeps every key of `o` and never loses a key of `extra`. */
  lemma {:induction false} AssignKeys<V>(o: Obj<V>, extra: Obj<V>)
    ensures forall k :: k in Keys(o) ==> k in Keys(Assign(o, extra))
    ensures forall k :: k in Keys(extra) ==> k in Keys(Assign(o, extra))
    ensures forall k :: k in Keys(Assign(o, extra)) ==> k in Keys(o) || k in Keys(extra)
    decreases |extra|
  {
    if extra != [] {
      var o' := Set(o, extra[0].0, extra[0].1);
      AssignKeys(o', extra[1..]);
      assert Keys(extra) == [extra[0].0] + Keys(extra[1..]);
    }
  }

  lemma {:induction false} AssignKeepsDistinct<V>(o: Obj<V>, extra: Obj<V>)
    requires DistinctKeys(o)
    ensures DistinctKeys(Assign(o, extra))
    decreases |extra|
  {
    if extra != [] {
      SetKeepsDistinct(o, extra[0].0, extra[0].1);
      AssignKeepsDistinct(Set(o, extra[0].0, extra[0].1), extra[1..]);
    }
  }

  /** The entries whose key is not in `drop` (rest destructuring, or
      `Object.keys(o).filter(...)` when only the keys matter). */
  function Omit<V>(o: Obj<V>, drop: set<string>): (r: Obj<V>)
    ensures forall k :: k in Keys(r) <==> k in Keys(o) && k !in drop
  {
    if o == [] then []
    else
      var rest := Omit(o[1..], drop);
      assert Keys(o) == [o[0].0] + Keys(o[1..]);
      if o[0].0 in drop then rest
      else
        assert Keys([o[0]] + rest) == [o[0].0] + Keys(rest);
        [o[0]] + rest
  }

  /** A key that is kept reads the same after the omission. */
  lemma {:induction false} OmitGet<V>(o: Obj<V>, drop: set<string>, k: string)
    requires k !in drop
    ensures Get(Omit(o, drop), k) == Get(o, k)
  {
    if o != [] {
      OmitGet(o[1..], drop, k);
      if o[0].0 !in drop {
        assert ([o[0]] + Omit(o[1..], drop))[1..] == Omit(o[1..], drop);
      }
    }
  }
}
