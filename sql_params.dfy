/** The `UPDATE ... SET` clause that the data layer builds from a partial
    record: every remaining field is written `field = $n` with positional
    parameter n, where parameter 1 is the key of the row being updated and
    field i (counting from 0) is parameter i + 2. */
module SqlParams {
  import opened Wrappers
  import opened JsText
  import opened JsObject
  import opened Seqs

  /** `WHERE column = key`: SQL never matches a NULL parameter (an
      `undefined` parameter is sent as NULL). */
  predicate Matches(row: Obj<Value>, column: string, key: Value) {
    key != Null && Get(row, column) == Some(key)
  }

  /** The rows a `SELECT * ... WHERE column = key` returns, in table order. */
  function Where(rows: seq<Obj<Value>>, column: string, key: Value): (r: seq<Obj<Value>>)
    ensures forall row :: row in r <==> row in rows && Matches(row, column, key)
  {
    Filter(rows, (row: Obj<Value>) => Matches(row, column, key))
  }

  /** The text of positional parameter `n`. */
  function Placeholder(n: nat): string {
    "$" + NatToString(n)
  }

  /** `fields.map((field, index) => `${field} = $${index + 2}`)`. */
  function Assignments(fields: seq<string>): (r: seq<string>)
    ensures |r| == |fields|
  {
    seq(|fields|, i requires 0 <= i < |fields| => fields[i] + " = " + Placeholder(i + 2))
  }

  /** The assignments joined with ", ". */
  function SetClause(fields: seq<string>): string {
    Join(Assignments(fields), ", ")
  }

  /** `[key, ...values]`. */
  function Params<V>(key: V, values: seq<V>): (r: seq<V>)
    ensures |r| == |values| + 1
  {
    [key] + values
  }

  /** The fields of an update payload: its keys in order, without the
      excluded ones. */
  function UpdateFields<V>(payload: Obj<V>, excluded: set<string>): seq<string> {
    Keys(Omit(payload, excluded))
  }

  /** The values of an update payload, one per field. */
  function UpdateValues<V>(payload: Obj<V>, excluded: set<string>): (r: seq<V>)
    ensures |r| == |UpdateFields(payload, excluded)|
  {
    var kept := Omit(payload, excluded);
    seq(|kept|, i requires 0 <= i < |kept| => kept[i].1)
  }

  /** The clause is empty exactly when there is no field to write. */
  lemma {:induction false} SetClauseEmptyIff(fields: seq<string>)
    ensures SetClause(fields) == "" <==> fields == []
  {
    var a := Assignments(fields);
    if fields != [] {
      assert a[0] == fields[0] + " = " + Placeholder(2);
      if |a| == 1 {
        assert SetClause(fields) == a[0];
      } else {
        assert SetClause(fields) == a[0] + ", " + Join(a[1..], ", ");
      }
      assert |SetClause(fields)| >= |a[0]| > 0;
    }
  }

  /** A payload with a field that is not left out has a clause to write. */
  lemma {:induction false} KeptFieldWritten<V>(payload: Obj<V>, excluded: set<string>, k: string)
    requires k in Keys(payload) && k !in excluded
    ensures SetClause(UpdateFields(payload, excluded)) != ""
  {
    assert k in UpdateFields(payload, excluded);
    SetClauseEmptyIff(UpdateFields(payload, excluded));
  }

  /** Reading the parameter number back out of assignment `i` gives i + 2,
      and that parameter (1-based) is the value of field `i`; parameter 1 is
      the row key. */
  lemma {:induction false} PlaceholderBinds<V>(fields: seq<string>, key: V, values: seq<V>, i: nat)
    requires |values| == |fields| && i < |fields|
    ensures var a := Assignments(fields)[i];
            |a| > |fields[i]| + 4
            && a[..|fields[i]| + 4] == fields[i] + " = $"
            && ParseInt(a[|fields[i]| + 4..]) == Some(i + 2)
    ensures Params(key, values)[0] == key
    ensures Params(key, values)[(i + 2) - 1] == values[i]
  {
    var p := fields[i] + " = $";
    var d := NatToString(i + 2);
    assert Assignments(fields)[i] == p + d by {
      assert Assignments(fields)[i] == fields[i] + " = " + Placeholder(i + 2);
    }
    PrefixThenRest(p, d);
    ParseIntNatToString(i + 2);
  }

  /** The text after a prefix is what followed it. */
  lemma {:induction false} PrefixThenRest(p: string, d: string)
    ensures (p + d)[..|p|] == p && (p + d)[|p|..] == d
  {
  }

  /** Leaving out keys keeps the keys distinct. */
  lemma {:induction false} OmitKeepsDistinct<V>(o: Obj<V>, drop: set<string>)
    requires DistinctKeys(o)
    ensures DistinctKeys(Omit(o, drop))
  {
    if o != [] {
      OmitKeepsDistinct(o[1..], drop);
      var rest := Omit(o[1..], drop);
      if o[0].0 !in drop {
        var r := [o[0]] + rest;
        forall j | 0 < j < |r| ensures r[0].0 != r[j].0 {
          assert Keys(rest)[j - 1] == r[j].0;
        }
      }
    }
  }

  /** Values are aligned with fields: the value at position i is what the
      payload holds under field i, and no excluded key is written. */
  lemma {:induction false} ValuesAligned<V>(payload: Obj<V>, excluded: set<string>)
    requires DistinctKeys(payload)
    ensures forall i :: 0 <= i < |UpdateFields(payload, excluded)| ==>
              UpdateFields(payload, excluded)[i] !in excluded
              && Get(payload, UpdateFields(payload, excluded)[i]) == Some(UpdateValues(payload, excluded)[i])
    ensures forall k :: k in UpdateFields(payload, excluded) <==> k in Keys(payload) && k !in excluded
  {
    var kept := Omit(payload, excluded);
    OmitKeepsDistinct(payload, excluded);
    assert UpdateFields(payload, excluded) == Keys(kept);
    forall i | 0 <= i < |kept|
      ensures kept[i].0 !in excluded && Get(payload, kept[i].0) == Some(kept[i].1)
    {
      assert Keys(kept)[i] == kept[i].0;
      GetAt(kept, i);
      OmitGet(payload, excluded, kept[i].0);
    }
  }

  /** A row after `SET f1 = $2, ..., updated_at = CURRENT_TIMESTAMP`, the
      payload's `excluded` keys left out. */
  function ApplyUpdate<V>(row: Obj<V>, payload: Obj<V>, excluded: set<string>, now: V): Obj<V> {
    Set(Assign(row, Omit(payload, excluded)), "updated_at", now)
  }

  /** The value bound to each placeholder lands in its field, `updated_at`
      is the statement's timestamp, and every other column is unchanged. */
  lemma {:induction false} ApplyUpdateColumns<V>(row: Obj<V>, payload: Obj<V>, excluded: set<string>, now: V, column: string)
    requires DistinctKeys(payload)
    ensures forall i :: 0 <= i < |UpdateFields(payload, excluded)| && UpdateFields(payload, excluded)[i] != "updated_at" ==>
              Get(ApplyUpdate(row, payload, excluded, now), UpdateFields(payload, excluded)[i])
                == Some(UpdateValues(payload, excluded)[i])
    ensures Get(ApplyUpdate(row, payload, excluded, now), "updated_at") == Some(now)
    ensures column !in UpdateFields(payload, excluded) && column != "updated_at" ==>
              Get(ApplyUpdate(row, payload, excluded, now), column) == Get(row, column)
  {
    var kept := Omit(payload, excluded);
    OmitKeepsDistinct(payload, excluded);
    ValuesAligned(payload, excluded);
    forall i | 0 <= i < |UpdateFields(payload, excluded)| && UpdateFields(payload, excluded)[i] != "updated_at"
      ensures Get(ApplyUpdate(row, payload, excluded, now), UpdateFields(payload, excluded)[i])
                == Some(UpdateValues(payload, excluded)[i])
    {
      var f := UpdateFields(payload, excluded)[i];
      GetSet(Assign(row, kept), "updated_at", now, f);
      AssignGet(row, kept, f);
    }
    GetSet(Assign(row, kept), "updated_at", now, "updated_at");
    GetSet(Assign(row, kept), "updated_at", now, column);
    AssignGet(row, kept, column);
  }

  /** The table after `UPDATE ... SET ... WHERE column = key`: each
      selected row updated, every other row as it was. */
  function UpdateRows(rows: seq<Obj<Value>>, column: string, key: Value, payload: Obj<Value>,
                      excluded: set<string>, now: Value): (r: seq<Obj<Value>>)
    ensures |r| == |rows|
  {
    seq(|rows|, i requires 0 <= i < |rows| =>
          if Matches(rows[i], column, key) then ApplyUpdate(rows[i], payload, excluded, now) else rows[i])
  }
}
