/** The `profiles` table and the data-layer functions over it: lookup by
    user, insertion with column defaults, partial update through a generated
    `SET` clause, and deletion. The table is a sequence of rows; a query's
    `WHERE column = $1` selects the rows whose column equals the parameter. */
module ProfileDb {
  import opened Wrappers
  import opened JsText
  import opened JsObject
  import opened SqlParams
  import opened Seqs

  type Row = Obj<Value>

  const ProfileNotFound := "Profile not found"
  const NoFieldsToUpdate := "No fields to update"
  /** PostgreSQL's refusal of a `SET` list that names a column twice. */
  const MultipleAssignments := "multiple assignments to same column"

  /** The columns `createProfile` inserts, in statement order. */
  const InsertColumns: seq<string> := [
    "user_id", "display_name", "username", "bio", "profile_context", "use_azure_openai",
    "has_onboarded", "image_url", "image_path", "anthropic_api_key", "azure_openai_35_turbo_id",
    "azure_openai_45_turbo_id", "azure_openai_45_vision_id", "azure_openai_api_key",
    "azure_openai_endpoint", "google_gemini_api_key", "mistral_api_key", "openai_api_key",
    "openai_organization_id", "perplexity_api_key", "groq_api_key", "openrouter_api_key"]

  /** The destructuring default of an inserted column: none (NULL) for the
      three identity columns, `false` for the two flags, `''` otherwise. */
  function InsertDefault(column: string): Value {
    if column in {"user_id", "display_name", "username"} then Null
    else if column in {"use_azure_openai", "has_onboarded"} then Bool(false)
    else Str("")
  }

  /** The row `INSERT ... RETURNING *` gives back: the generated id and the
      table's `created_at` and `updated_at` defaults, then each inserted
      column with the given value or its default. Any other field of the
      input is not stored. */
  function InsertedRow(newId: string, profile: Row, createdAt: Value, updatedAt: Value): (row: Row)
    ensures Keys(row) == ["id", "created_at", "updated_at"] + InsertColumns
  {
    [("id", Str(newId)), ("created_at", createdAt), ("updated_at", updatedAt)]
      + seq(|InsertColumns|, i requires 0 <= i < |InsertColumns| =>
              (InsertColumns[i], Get(profile, InsertColumns[i]).GetOr(InsertDefault(InsertColumns[i]))))
  }

  lemma {:induction false} InsertColumnsDistinct()
    ensures forall i, j :: 0 <= i < j < |InsertColumns| ==> InsertColumns[i] != InsertColumns[j]
  {
  }

  /** The generated id and the two timestamps are not inserted columns. */
  lemma {:induction false} InsertColumnsOmitGenerated()
    ensures "id" !in InsertColumns && "created_at" !in InsertColumns && "updated_at" !in InsertColumns
  {
    forall i | 0 <= i < |InsertColumns|
      ensures InsertColumns[i] != "id" && InsertColumns[i] != "created_at" && InsertColumns[i] != "updated_at"
    {
      // No column starts with 'c'; those starting with 'u' or 'i' differ in length.
      var c := InsertColumns[i];
      assert c[0] != 'c';
      assert c[0] == 'u' ==> |c| != 10;
      assert c[0] == 'i' ==> |c| != 2;
    }
  }

  /** Every inserted column holds the caller's value when one was given and
      its default otherwise; the id is the generated one and the two
      timestamps are the table's, whatever the input holds for them; any
      other field of the input is dropped. */
  lemma {:induction false} InsertedRowColumns(newId: string, profile: Row, createdAt: Value, updatedAt: Value,
                                              column: string)
    ensures var row := InsertedRow(newId, profile, createdAt, updatedAt);
            Get(row, "id") == Some(Str(newId)) && Get(row, "created_at") == Some(createdAt)
            && Get(row, "updated_at") == Some(updatedAt)
    ensures column in InsertColumns ==>
              Get(InsertedRow(newId, profile, createdAt, updatedAt), column)
              == Some(Get(profile, column).GetOr(InsertDefault(column)))
    ensures column !in InsertColumns && column !in {"id", "created_at", "updated_at"} ==>
              Get(InsertedRow(newId, profile, createdAt, updatedAt), column) == None
  {
    var row := InsertedRow(newId, profile, createdAt, updatedAt);
    InsertColumnsDistinct();
    InsertColumnsOmitGenerated();
    assert DistinctKeys(row) by {
      forall i, j | 0 <= i < j < |row| ensures row[i].0 != row[j].0 {
        assert Keys(row)[i] == row[i].0 && Keys(row)[j] == row[j].0;
      }
    }
    if column in InsertColumns {
      var i :| 0 <= i < |InsertColumns| && InsertColumns[i] == column;
      GetAt(row, i + 3);
    }
    GetAt(row, 1);
    GetAt(row, 2);
  }

  /** The fields `updateProfile` leaves out of its `SET` clause as written. */
  const UpdateExcludedAsWritten: set<string> := {"id", "created_at"}

  /** The fields left out once `updated_at`, which the statement always
      sets itself, is left out too. */
  const UpdateExcluded: set<string> := {"id", "created_at", "updated_at"}

  /** The columns one `UPDATE profiles SET ...` statement assigns: the
      payload's fields, then `updated_at`. */
  function AssignedColumns(payload: Row, excluded: set<string>): (cols: seq<string>)
    ensures |cols| == |UpdateFields(payload, excluded)| + 1 && cols[|cols| - 1] == "updated_at"
  {
    UpdateFields(payload, excluded) + ["updated_at"]
  }

  /** PostgreSQL rejects an `UPDATE` that assigns a column twice. */
  predicate AssignsEachOnce(cols: seq<string>) {
    forall i, j :: 0 <= i < j < |cols| ==> cols[i] != cols[j]
  }

  /** As written, a payload that carries `updated_at` (every row read with
      `SELECT *` does) makes a statement PostgreSQL rejects. */
  lemma {:induction false} AsWrittenAssignsUpdatedAtTwice(payload: Row)
    requires "updated_at" in Keys(payload)
    ensures !AssignsEachOnce(AssignedColumns(payload, UpdateExcludedAsWritten))
  {
    var fields := UpdateFields(payload, UpdateExcludedAsWritten);
    var cols := AssignedColumns(payload, UpdateExcludedAsWritten);
    assert "updated_at" in fields;
    var i :| 0 <= i < |fields| && fields[i] == "updated_at";
    assert cols[i] == cols[|cols| - 1];
  }

  /** With `updated_at` excluded, every column is assigned once. */
  lemma {:induction false} ExcludedAssignsEachOnce(payload: Row)
    requires DistinctKeys(payload)
    ensures AssignsEachOnce(AssignedColumns(payload, UpdateExcluded))
  {
    var kept := Omit(payload, UpdateExcluded);
    OmitKeepsDistinct(payload, UpdateExcluded);
    var cols := AssignedColumns(payload, UpdateExcluded);
    forall i, j | 0 <= i < j < |cols| ensures cols[i] != cols[j] {
      assert Keys(kept)[i] == kept[i].0;
      if j < |kept| {
        assert Keys(kept)[j] == kept[j].0;
      } else {
        assert cols[i] in Keys(kept);
      }
    }
  }

  /** The statement PostgreSQL runs: it has a field to set and assigns no
      column twice. */
  predicate UpdateAccepted(payload: Row, excluded: set<string>) {
    SetClause(UpdateFields(payload, excluded)) != "" && AssignsEachOnce(AssignedColumns(payload, excluded))
  }

  /** As written, a payload carrying `updated_at` is always refused. */
  lemma {:induction false} AsWrittenRefusesUpdatedAt(payload: Row)
    requires "updated_at" in Keys(payload)
    ensures SetClause(UpdateFields(payload, UpdateExcludedAsWritten)) != ""
    ensures !UpdateAccepted(payload, UpdateExcludedAsWritten)
  {
    KeptFieldWritten(payload, UpdateExcludedAsWritten, "updated_at");
    AsWrittenAssignsUpdatedAtTwice(payload);
  }

  /** A row after `SET f1 = $2, ..., updated_at = CURRENT_TIMESTAMP`, the
      fields in `excluded` left out of the list. */
  function UpdatedRow(row: Row, payload: Row, excluded: set<string>, now: Value): Row {
    ApplyUpdate(row, payload, excluded, now)
  }

  /** In a statement PostgreSQL runs, the value bound to each placeholder
      lands in its field, `updated_at` is the statement's timestamp, and
      every other column is unchanged. */
  lemma {:induction false} UpdatedRowColumns(row: Row, payload: Row, excluded: set<string>, now: Value, column: string)
    requires DistinctKeys(payload) && AssignsEachOnce(AssignedColumns(payload, excluded))
    ensures forall i :: 0 <= i < |UpdateFields(payload, excluded)| ==>
              Get(UpdatedRow(row, payload, excluded, now), UpdateFields(payload, excluded)[i])
                == Some(UpdateValues(payload, excluded)[i])
    ensures Get(UpdatedRow(row, payload, excluded, now), "updated_at") == Some(now)
    ensures column !in UpdateFields(payload, excluded) && column != "updated_at" ==>
              Get(UpdatedRow(row, payload, excluded, now), column) == Get(row, column)
  {
    ApplyUpdateColumns(row, payload, excluded, now, column);
    var fields := UpdateFields(payload, excluded);
    var cols := AssignedColumns(payload, excluded);
    forall i | 0 <= i < |fields| ensures fields[i] != "updated_at" {
      assert cols[i] == fields[i] && cols[|cols| - 1] == "updated_at";
    }
  }

  /** The `profiles` table. */
  class ProfileStore {
    var rows: seq<Row>

    constructor(initial: seq<Row>)
      ensures rows == initial
    {
      rows := initial;
    }

    /** `getProfileByUserId`: the first row of the user, or the error
        "Profile not found" when there is none. */
    function GetProfileByUserId(userId: string): (r: Result<Row>)
      reads this
      ensures r.Ok? <==> exists i :: 0 <= i < |rows| && Matches(rows[i], "user_id", Str(userId))
      ensures r.Ok? ==> r.value in rows && Get(r.value, "user_id") == Some(Str(userId))
      ensures r.Err? ==> r.message == ProfileNotFound
    {
      var found := Where(rows, "user_id", Str(userId));
      if found == [] then
        assert forall i :: 0 <= i < |rows| ==> !Matches(rows[i], "user_id", Str(userId));
        Err(ProfileNotFound)
      else
        assert found[0] in found;
        Ok(found[0])
    }

    /** `getProfilesByUserId`: every row of the user, none other. */
    function GetProfilesByUserId(userId: string): (r: seq<Row>)
      reads this
      ensures |r| <= |rows|
      ensures forall row :: row in r <==> row in rows && Get(row, "user_id") == Some(Str(userId))
    {
      Where(rows, "user_id", Str(userId))
    }

    /** `createProfile`: inserts one row built from the given fields and
        their defaults, with `newId` as the generated key and `createdAt`
        and `updatedAt` as the table's timestamp defaults, and returns it. */
    method CreateProfile(profile: Row, newId: string, createdAt: Value, updatedAt: Value) returns (row: Row)
      modifies this
      ensures row == InsertedRow(newId, profile, createdAt, updatedAt)
      ensures rows == old(rows) + [row]
    {
      row := InsertedRow(newId, profile, createdAt, updatedAt);
      rows := rows + [row];
    }

    /** `UPDATE profiles SET ..., updated_at = CURRENT_TIMESTAMP WHERE id = $1
        RETURNING *`, built from the payload's fields less `excluded`: an
        empty `SET` clause is refused before the query, a column assigned
        twice is refused by the database, and an id that selects no row is
        "Profile not found", each leaving the table unchanged; otherwise
        every selected row takes the payload's fields and the timestamp
        `now`, and the first of them is returned. The id is the value sent
        as parameter 1 (a missing id is sent as NULL and selects nothing). */
    method Update(profileId: Value, payload: Row, excluded: set<string>, now: Value) returns (r: Result<Row>)
      modifies this
      ensures SetClause(UpdateFields(payload, excluded)) == "" ==> r == Err(NoFieldsToUpdate) && rows == old(rows)
      ensures SetClause(UpdateFields(payload, excluded)) != "" && !AssignsEachOnce(AssignedColumns(payload, excluded))
              ==> r == Err(MultipleAssignments) && rows == old(rows)
      ensures UpdateAccepted(payload, excluded) && Where(old(rows), "id", profileId) == []
              ==> r == Err(ProfileNotFound) && rows == old(rows)
      ensures UpdateAccepted(payload, excluded) && Where(old(rows), "id", profileId) != []
              ==> rows == UpdateRows(old(rows), "id", profileId, payload, excluded, now)
                  && r == Ok(UpdatedRow(Where(old(rows), "id", profileId)[0], payload, excluded, now))
    {
      var fields := UpdateFields(payload, excluded);
      if SetClause(fields) == "" {
        return Err(NoFieldsToUpdate);
      }
      if !AssignsEachOnce(AssignedColumns(payload, excluded)) {
        return Err(MultipleAssignments);
      }
      var selected := Where(rows, "id", profileId);
      if selected == [] {
        return Err(ProfileNotFound);
      }
      rows := UpdateRows(rows, "id", profileId, payload, excluded, now);
      r := Ok(UpdatedRow(selected[0], payload, excluded, now));
    }

    /** `updateProfile` as written: only `id` and `created_at` are left out
        of the `SET` clause, so a payload that carries `updated_at` is
        always refused and changes nothing. */
    method UpdateProfile(profileId: Value, payload: Row, now: Value) returns (r: Result<Row>)
      modifies this
      ensures SetClause(UpdateFields(payload, UpdateExcludedAsWritten)) == ""
              ==> r == Err(NoFieldsToUpdate) && rows == old(rows)
      ensures SetClause(UpdateFields(payload, UpdateExcludedAsWritten)) != ""
              && !AssignsEachOnce(AssignedColumns(payload, UpdateExcludedAsWritten))
              ==> r == Err(MultipleAssignments) && rows == old(rows)
      ensures UpdateAccepted(payload, UpdateExcludedAsWritten) && Where(old(rows), "id", profileId) == []
              ==> r == Err(ProfileNotFound) && rows == old(rows)
      ensures UpdateAccepted(payload, UpdateExcludedAsWritten) && Where(old(rows), "id", profileId) != []
              ==> rows == UpdateRows(old(rows), "id", profileId, payload, UpdateExcludedAsWritten, now)
                  && r == Ok(UpdatedRow(Where(old(rows), "id", profileId)[0], payload, UpdateExcludedAsWritten, now))
      ensures "updated_at" in Keys(payload) ==> r == Err(MultipleAssignments) && rows == old(rows)
    {
      if "updated_at" in Keys(payload) {
        AsWrittenRefusesUpdatedAt(payload);
      }
      r := Update(profileId, payload, UpdateExcludedAsWritten, now);
    }

    /** `deleteProfile`: removes the selected rows and returns true, or
        fails with "Profile not found" when no row is selected. */
    method DeleteProfile(profileId: string) returns (r: Result<bool>)
      modifies this
      ensures Where(old(rows), "id", Str(profileId)) == [] ==> r == Err(ProfileNotFound) && rows == old(rows)
      ensures Where(old(rows), "id", Str(profileId)) != [] ==>
                r == Ok(true) && rows == Filter(old(rows), (row: Row) => !Matches(row, "id", Str(profileId)))
    {
      if Where(rows, "id", Str(profileId)) == [] {
        return Err(ProfileNotFound);
      }
      rows := Filter(rows, (row: Row) => !Matches(row, "id", Str(profileId)));
      r := Ok(true);
    }
  }

  /** An empty update is exactly an update with no field left to write:
      as written, one whose every key is `id` or `created_at`. */
  lemma {:induction false} NoFieldsIff(payload: Row, excluded: set<string>)
    ensures SetClause(UpdateFields(payload, excluded)) == ""
            <==> forall k :: k in Keys(payload) ==> k in excluded
  {
    SetClauseEmptyIff(UpdateFields(payload, excluded));
    var fields := UpdateFields(payload, excluded);
    if fields != [] {
      assert fields[0] in Keys(payload) && fields[0] !in excluded;
    }
  }

  /** After a delete no row of that id is left, and every other row is. */
  lemma {:induction false} DeleteRemovesOnlySelected(rows: seq<Row>, key: Value)
    ensures Where(Filter(rows, (row: Row) => !Matches(row, "id", key)), "id", key) == []
    ensures forall row :: row in rows && !Matches(row, "id", key) ==>
              row in Filter(rows, (row: Row) => !Matches(row, "id", key))
  {
    var rest := Filter(rows, (row: Row) => !Matches(row, "id", key));
    FilterKeepsNone(rest, (row: Row) => Matches(row, "id", key));
  }
}
