/**
 * `FranchiseSerializer` and `BranchSerializer`: a franchise row carries a nested owner
 * (a representative row), a branch row a nested representative. `create` makes the nested
 * row first and links the new parent row to it; `update` overwrites the supplied nested
 * attributes on the linked row, then the supplied attributes on the parent row.
 *
 * Each operation is planned by a function on column maps, and a method carries the plan out
 * on the rows.
 */
module FranchiseSerializers {
  import opened Wrappers
  import opened Json
  import opened ModelRows
  import opened FranchiseModels

  const NotAMapping: string := "TypeError: argument after ** must be a mapping"
  const NotADict: string := "AttributeError: object has no attribute 'items'"
  const NoLinkedRow: string := "AttributeError: 'NoneType' object has no attribute"

  function MissingKey(key: string): string
  {
    "KeyError: '" + key + "'"
  }

  // ---- create --------------------------------------------------------------------------

  /**
   * `create`: pop the nested data (required), create the nested row from it, then create the
   * parent row from the rest; the parent's id column is generated only when not given, and
   * columns not given take their defaults.
   */
  function CreatePlan(validated: map<string, Json>, key: string, idColumn: string,
                      generated: Result<string>, defaults: map<string, Json>): (r: Result<Rows>)
    requires key != idColumn
    ensures key !in validated ==> r == Err(MissingKey(key))
    ensures r.Ok? <==> key in validated && validated[key].JObj? && (idColumn in validated || generated.Ok?)
    ensures r.Ok? ==> r.value.nested == validated[key].fields
    ensures r.Ok? ==> r.value.parent.Keys == defaults.Keys + (validated.Keys - {key}) + {idColumn}
    ensures r.Ok? ==> forall k :: k in validated && k != key ==> r.value.parent[k] == validated[k]
    ensures r.Ok? && idColumn !in validated ==> r.value.parent[idColumn] == JStr(generated.value)
    ensures r.Ok? ==> forall k :: k in defaults && k !in validated && k != idColumn ==> r.value.parent[k] == defaults[k]
  {
    if key !in validated then Err(MissingKey(key))
    else if !validated[key].JObj? then Err(NotAMapping)
    else
      var given := validated - {key};
      if idColumn in validated then Ok(Rows(WithDefaults(defaults, given), validated[key].fields))
      else match generated
        case Err(e) => Err(e)
        case Ok(id) => Ok(Rows(WithDefaults(defaults, given[idColumn := JStr(id)]), validated[key].fields))
  }

  /** The rows `created` holds are the planned rows. */
  predicate Realizes(created: Linked, plan: Rows)
    reads created, created.own, created.link
  {
    created.link != null && created.own.fields == plan.parent && created.link.fields == plan.nested
  }

  /** Carry out a create plan: two new rows, the parent linked to the nested one. */
  method CreateNested(validated: map<string, Json>, key: string, idColumn: string,
                      generated: Result<string>, defaults: map<string, Json>)
    returns (outcome: Outcome, created: Linked?)
    requires key != idColumn
    ensures var plan := CreatePlan(validated, key, idColumn, generated, defaults);
            && (plan.Err? ==> outcome == Fail(plan.error) && created == null)
            && (plan.Ok? ==> outcome == Pass && created != null && fresh(created) && fresh(created.own)
                             && created.link != null && fresh(created.link)
                             && created.Valid() && Realizes(created, plan.value))
  {
    match CreatePlan(validated, key, idColumn, generated, defaults)
    case Err(e) =>
      outcome, created := Fail(e), null;
    case Ok(rows) =>
      var nested := new Row(rows.nested);
      var parent := new Row(rows.parent);
      created := new Linked(parent, nested);
      outcome := Pass;
  }

  /** `FranchiseSerializer.create`; `last` is the id of the last franchise row, if any. */
  method CreateFranchise(validated: map<string, Json>, last: Option<string>) returns (outcome: Outcome, created: Linked?)
    ensures var plan := CreatePlan(validated, "owner", "franchise_id", GenerateFranchiseId(last), FranchiseDefaults);
            && (plan.Err? ==> outcome == Fail(plan.error) && created == null)
            && (plan.Ok? ==> outcome == Pass && created != null && fresh(created) && fresh(created.own)
                             && created.link != null && fresh(created.link)
                             && created.Valid() && Realizes(created, plan.value))
  {
    outcome, created := CreateNested(validated, "owner", "franchise_id", GenerateFranchiseId(last), FranchiseDefaults);
  }

  /** `BranchSerializer.create`; `last` is the id of the last branch row, if any. */
  method CreateBranch(validated: map<string, Json>, last: Option<string>) returns (outcome: Outcome, created: Linked?)
    ensures var plan := CreatePlan(validated, "representative", "branch_id", GenerateBranchId(last), BranchDefaults);
            && (plan.Err? ==> outcome == Fail(plan.error) && created == null)
            && (plan.Ok? ==> outcome == Pass && created != null && fresh(created) && fresh(created.own)
                             && created.link != null && fresh(created.link)
                             && created.Valid() && Realizes(created, plan.value))
  {
    outcome, created := CreateNested(validated, "representative", "branch_id", GenerateBranchId(last), BranchDefaults);
  }

  /**
   * A franchise created with owner data and nothing else gets the next id, status "Active",
   * rating "0.0", and an owner row holding exactly the owner data.
   */
  lemma FranchiseCreateDefaults(owner: map<string, Json>, last: Option<string>)
    requires GenerateFranchiseId(last).Ok?
    ensures var plan := CreatePlan(map["owner" := JObj(owner)], "owner", "franchise_id", GenerateFranchiseId(last), FranchiseDefaults);
            && plan.Ok?
            && plan.value.parent == map["franchise_id" := JStr(GenerateFranchiseId(last).value),
                                        "overall_rating" := JStr("0.0"), "status" := JStr("Active")]
            && plan.value.nested == owner
  {
    var plan := CreatePlan(map["owner" := JObj(owner)], "owner", "franchise_id", GenerateFranchiseId(last), FranchiseDefaults);
    assert map["owner" := JObj(owner)] - {"owner"} == map[];
    assert plan.value.parent.Keys == {"franchise_id", "overall_rating", "status"};
  }

  // ---- update --------------------------------------------------------------------------

  /**
   * `update`: pop the nested data (default None); when it is truthy, overwrite exactly its
   * attributes on the linked row, which must exist; then overwrite exactly the remaining
   * supplied attributes on the parent row.
   */
  function UpdatePlan(s: Stored, validated: map<string, Json>, key: string): (r: Result<Stored>)
    ensures var nested := Get(validated, key);
            r.Ok? <==> !Truthy(nested) || (nested.JObj? && s.link.Some?)
    ensures r.Ok? ==> r.value.own.Keys == s.own.Keys + (validated.Keys - {key})
    ensures r.Ok? ==> forall k :: k in validated && k != key ==> r.value.own[k] == validated[k]
    ensures r.Ok? ==> forall k :: k in s.own && (k !in validated || k == key) ==> r.value.own[k] == s.own[k]
    ensures r.Ok? && !Truthy(Get(validated, key)) ==> r.value.link == s.link
    ensures r.Ok? && Truthy(Get(validated, key)) ==>
              var supplied := validated[key].fields;
              && r.value.link.Some?
              && r.value.link.value.Keys == s.link.value.Keys + supplied.Keys
              && (forall k :: k in supplied ==> r.value.link.value[k] == supplied[k])
              && (forall k :: k in s.link.value && k !in supplied ==> r.value.link.value[k] == s.link.value[k])
  {
    var nested := Get(validated, key);
    if !Truthy(nested) then Ok(Stored(s.own + (validated - {key}), s.link))
    else if !nested.JObj? then Err(NotADict)
    else if s.link.None? then Err(NoLinkedRow)
    else Ok(Stored(s.own + (validated - {key}), Some(s.link.value + nested.fields)))
  }

  /** Sending the same update again changes nothing more. */
  lemma UpdateIdempotent(s: Stored, validated: map<string, Json>, key: string)
    requires UpdatePlan(s, validated, key).Ok?
    ensures UpdatePlan(UpdatePlan(s, validated, key).value, validated, key) == UpdatePlan(s, validated, key)
  {
    var once := UpdatePlan(s, validated, key).value;
    var rest := validated - {key};
    assert once.own + rest == once.own;
    if Truthy(Get(validated, key)) {
      var supplied := validated[key].fields;
      assert once.link.value + supplied == once.link.value;
    }
  }

  /** Carry out an update plan on the stored rows; on failure nothing is written. */
  method UpdateNested(instance: Linked, validated: map<string, Json>, key: string) returns (outcome: Outcome)
    requires instance.Valid()
    modifies instance.own, instance.link
    ensures var plan := UpdatePlan(old(StoredOf(instance)), validated, key);
            && (plan.Ok? ==> outcome == Pass && StoredOf(instance) == plan.value)
            && (plan.Err? ==> outcome == Fail(plan.error) && StoredOf(instance) == old(StoredOf(instance)))
  {
    var nested := Get(validated, key);
    if Truthy(nested) {
      if !nested.JObj? {
        return Fail(NotADict);
      }
      if instance.link == null {
        return Fail(NoLinkedRow);
      }
      instance.link.SetAttributes(nested.fields);
    }
    instance.own.SetAttributes(validated - {key});
    outcome := Pass;
  }

  /** `FranchiseSerializer.update`. */
  method UpdateFranchise(instance: Linked, validated: map<string, Json>) returns (outcome: Outcome)
    requires instance.Valid()
    modifies instance.own, instance.link
    ensures var plan := UpdatePlan(old(StoredOf(instance)), validated, "owner");
            && (plan.Ok? ==> outcome == Pass && StoredOf(instance) == plan.value)
            && (plan.Err? ==> outcome == Fail(plan.error) && StoredOf(instance) == old(StoredOf(instance)))
  {
    outcome := UpdateNested(instance, validated, "owner");
  }

  /** `BranchSerializer.update`. */
  method UpdateBranch(instance: Linked, validated: map<string, Json>) returns (outcome: Outcome)
    requires instance.Valid()
    modifies instance.own, instance.link
    ensures var plan := UpdatePlan(old(StoredOf(instance)), validated, "representative");
            && (plan.Ok? ==> outcome == Pass && StoredOf(instance) == plan.value)
            && (plan.Err? ==> outcome == Fail(plan.error) && StoredOf(instance) == old(StoredOf(instance)))
  {
    outcome := UpdateNested(instance, validated, "representative");
  }
}
