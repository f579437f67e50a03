/**
 * Active models: one `ActiveValue` slot per column of an entity, the primary-key extraction,
 * the JSON key-presence masking, and the insert/update/save/delete flow that runs
 * hook, then statement, then hook.
 */
module ActiveModels {
  import opened Wrappers
  import opened DbErrors
  import opened ValueTuples
  import opened ActiveValues

  /**
   * What an active model needs to know of its entity: the table name, the columns in
   * `Column::iter()` order, the primary-key columns in `PrimaryKey::iter()` order, the arity
   * of the primary key's value type, and each column's name (`as_str`).
   */
  datatype EntityDef<!C> = EntityDef(
    tableName: string,
    columns: seq<C>,
    primaryKey: seq<C>,
    arity: nat,
    columnName: C -> string)
  {
    /** Enumerations iterate each variant once, and every primary-key column is a column. */
    ghost predicate Valid() {
      && Distinct(columns)
      && Distinct(primaryKey)
      && forall i :: 0 <= i < |primaryKey| ==> primaryKey[i] in columns
    }
  }

  ghost predicate Distinct<T>(s: seq<T>) {
    forall i, j :: 0 <= i < j < |s| ==> s[i] != s[j]
  }

  /** The map has a key for each element of `columns` and for nothing else. */
  ghost predicate CoversExactly<C, X>(s: map<C, X>, columns: seq<C>) {
    && (forall c :: c in s ==> c in columns)
    && (forall i :: 0 <= i < |columns| ==> columns[i] in s)
  }

  /** The state of an active model: a slot per column. */
  type Slots<C, V(==)> = map<C, ActiveValue<V>>

  /** A materialized row (`Model`): a value per column. */
  type Model<C, V> = map<C, V>

  /**
   * `into_active_model` of a model: every column `Unchanged` with the model's value. (A model
   * always has every column; a column it lacks would read as `NotSet`.)
   */
  function IntoActiveModel<C, V(==)>(columns: seq<C>, m: Model<C, V>): (s: Slots<C, V>)
    ensures CoversExactly(s, columns)
    ensures forall c :: c in s && c in m ==> s[c] == Unchanged(m[c])
  {
    map c | c in columns :: if c in m then Unchanged(m[c]) else NotSet
  }

  /** `ActiveModelTrait::default()` (and `ActiveModelBehavior::new()`): every column `NotSet`. */
  function DefaultSlots<C, V(==)>(columns: seq<C>): (s: Slots<C, V>)
    ensures CoversExactly(s, columns)
    ensures forall c :: c in s ==> s[c] == NotSet
  {
    map c | c in columns :: NotSet
  }

  /** True iff some column in `cols` holds a `Set` slot (the `any` in `is_changed`). */
  function AnySet<C, V(==)>(cols: seq<C>, s: Slots<C, V>): (r: bool)
    ensures r <==> exists i :: 0 <= i < |cols| && cols[i] in s && s[cols[i]].Set?
  {
    if cols == [] then false
    else
      var rest := AnySet(cols[1..], s);
      assert forall i :: 1 <= i < |cols| ==> cols[i] == cols[1..][i - 1];
      (cols[0] in s && s[cols[0]].Set? && !s[cols[0]].Unchanged?) || rest
  }

  /** The state `reset_all` produces: each slot reset, `Unchanged` becoming `Set`. */
  function ResetAllSlots<C, V(==)>(s: Slots<C, V>): Slots<C, V>
  {
    map c | c in s :: s[c].Reset()
  }

  /** The first `n` primary-key columns exist and none of them is `NotSet`. */
  predicate KeyPresent<C, V(==)>(s: Slots<C, V>, pk: seq<C>, n: nat) {
    n <= |pk| && forall i :: 0 <= i < n ==> pk[i] in s && !s[pk[i]].NotSet?
  }

  /** The payloads of the first `n` primary-key columns, in primary-key order. */
  function KeyPayloads<C, V(==)>(s: Slots<C, V>, pk: seq<C>, n: nat): (r: seq<V>)
    requires KeyPresent(s, pk, n)
    ensures |r| == n
  {
    if n == 0 then [] else KeyPayloads(s, pk, n - 1) + [s[pk[n - 1]].value]
  }

  /**
   * The value of `get_primary_key_value`: nothing when the key has fewer columns than its arity
   * or one of them is `NotSet`; otherwise the payloads shaped by the arity.
   */
  function PrimaryKeyValueOf<C, V(==)>(s: Slots<C, V>, pk: seq<C>, arity: nat): Option<ValueTuple<V>>
  {
    if KeyPresent(s, pk, arity) then Some(Shaped(arity, KeyPayloads(s, pk, arity))) else None
  }

  lemma {:induction false} KeyPayloadsAt<C, V>(s: Slots<C, V>, pk: seq<C>, n: nat)
    requires KeyPresent(s, pk, n)
    ensures |KeyPayloads(s, pk, n)| == n
    ensures forall i :: 0 <= i < n ==> KeyPayloads(s, pk, n)[i] == s[pk[i]].value
  {
    if n > 0 {
      KeyPayloadsAt(s, pk, n - 1);
    }
  }

  /**
   * `get_primary_key_value` holds exactly the primary-key payloads in iteration order, in the
   * shape the arity dictates, and is missing exactly when one of those columns is `NotSet`
   * or missing.
   */
  lemma PrimaryKeyValueShape<C, V>(s: Slots<C, V>, pk: seq<C>, arity: nat)
    ensures PrimaryKeyValueOf(s, pk, arity).None? <==>
      (arity > |pk| || exists i :: 0 <= i < arity && (pk[i] !in s || s[pk[i]].NotSet?))
    ensures PrimaryKeyValueOf(s, pk, arity).Some? ==>
      var t := PrimaryKeyValueOf(s, pk, arity).value;
      && |Elements(t)| == arity
      && (forall i :: 0 <= i < arity ==> Elements(t)[i] == s[pk[i]].value)
      && (arity == 1 <==> t.One?) && (arity == 2 <==> t.Two?) && (arity == 3 <==> t.Three?)
  {
    if KeyPresent(s, pk, arity) {
      KeyPayloadsAt(s, pk, arity);
    }
  }

  /** A record converted from a model is unchanged; `reset_all` turns it all `Set` with the same values. */
  lemma ModelRoundTrip<C, V>(columns: seq<C>, m: Model<C, V>)
    requires forall c :: c in columns ==> c in m
    ensures !AnySet(columns, IntoActiveModel(columns, m))
    ensures ResetAllSlots(IntoActiveModel(columns, m)) == map c | c in columns :: Set(m[c])
  {
  }

  /** `reset_all` on a record that is all `NotSet` changes nothing; a default record is unchanged. */
  lemma DefaultUntouched<C, V>(columns: seq<C>)
    ensures ResetAllSlots(DefaultSlots<C, V>(columns)) == DefaultSlots(columns)
    ensures !AnySet(columns, DefaultSlots<C, V>(columns))
  {
  }

  /** Setting any column of a record makes it changed, whatever the value. */
  lemma SetMakesChanged<C, V>(columns: seq<C>, s: Slots<C, V>, c: C, v: V)
    requires c in columns
    ensures AnySet(columns, s[c := Set(v)])
  {
    var i :| 0 <= i < |columns| && columns[i] == c;
    assert columns[i] in s[c := Set(v)] && s[c := Set(v)][columns[i]].Set?;
  }

  /** A JSON document: an object with its members, or any other JSON value. */
  datatype Json<J> = Object(members: map<string, J>) | Other(value: J)

  /**
   * The value of `from_json`: non-object JSON is a JSON error; otherwise the object is decoded
   * into a model (a decoding failure is a JSON error) and each column whose name is a key of the
   * object becomes `Set` with the decoded value, every other column `NotSet`.
   */
  function FromJsonSpec<C, V(==), J>(entity: EntityDef<C>, json: Json<J>, decode: map<string, J> -> Result<Model<C, V>, string>)
    : Result<Slots<C, V>, DbErr>
  {
    match json
    case Other(_) => Err(Json("invalid type: expected JSON object for " + entity.tableName))
    case Object(obj) =>
      match decode(obj)
      case Err(e) => Err(Json(e))
      case Ok(m) => Ok(map c | c in entity.columns ::
                         if entity.columnName(c) in obj && c in m then Set(m[c]) else NotSet)
  }

  /** A column of `from_json`'s result: its value becomes `Set` when its key is in the object, else `NotSet`. */
  function MaskSlot<V>(present: bool, slot: ActiveValue<V>): (r: ActiveValue<V>)
    ensures r.Set? <==> present && !slot.NotSet?
    ensures r.Set? ==> r.value == slot.value
  {
    match (present, slot)
    case (true, Set(v)) => Set(v)
    case (true, Unchanged(v)) => Set(v)
    case _ => NotSet
  }

  /**
   * The last loop of `from_json`: each column's slot is masked by whether its name was a key of
   * the object; the columns are those the presence flags were recorded for.
   */
  method MaskByPresence<C(==), V(==)>(cols: seq<C>, present: seq<(C, bool)>, start: Slots<C, V>)
    returns (am: Slots<C, V>)
    requires Distinct(cols) && CoversExactly(start, cols)
    requires |present| == |cols| && forall k :: 0 <= k < |cols| ==> present[k].0 == cols[k]
    ensures CoversExactly(am, cols)
    ensures forall k :: 0 <= k < |cols| ==> am[cols[k]] == MaskSlot(present[k].1, start[cols[k]])
  {
    am := start;
    var j := 0;
    while j < |present|
      invariant 0 <= j <= |present|
      invariant CoversExactly(am, cols)
      invariant forall k :: 0 <= k < |cols| ==>
        am[cols[k]] == if k < j then MaskSlot(present[k].1, start[cols[k]]) else start[cols[k]]
    {
      var (col, isPresent) := present[j];
      am := am[col := MaskSlot(isPresent, am[col])];
      j := j + 1;
    }
  }

  /**
   * `from_json`: records which column names are keys of the object, decodes the object, turns the
   * model into an active model and masks it by key presence.
   */
  method FromJson<C(==), V(==), J>(entity: EntityDef<C>, json: Json<J>, decode: map<string, J> -> Result<Model<C, V>, string>)
    returns (r: Result<Slots<C, V>, DbErr>)
    requires entity.Valid()
    ensures r == FromJsonSpec(entity, json, decode)
    ensures r.Ok? ==> CoversExactly(r.value, entity.columns)
  {
    if json.Other? {
      return Err(Json("invalid type: expected JSON object for " + entity.tableName));
    }
    var obj := json.members;
    var cols := entity.columns;
    var jsonKeys: seq<(C, bool)> := [];
    var i := 0;
    while i < |cols|
      invariant 0 <= i <= |cols|
      invariant |jsonKeys| == i
      invariant forall k :: 0 <= k < i ==> jsonKeys[k] == (cols[k], entity.columnName(cols[k]) in obj)
    {
      jsonKeys := jsonKeys + [(cols[i], entity.columnName(cols[i]) in obj)];
      i := i + 1;
    }
    var decoded := decode(obj);
    if decoded.Err? {
      return Err(Json(decoded.error));
    }
    var m := decoded.value;
    var am := MaskByPresence(cols, jsonKeys, IntoActiveModel(cols, m));
    r := Ok(am);
    assert am == map c | c in cols :: if entity.columnName(c) in obj && c in m then Set(m[c]) else NotSet by {
      forall c | c in am
        ensures am[c] == if entity.columnName(c) in obj && c in m then Set(m[c]) else NotSet
      {
        var k :| 0 <= k < |cols| && cols[k] == c;
      }
    }
  }

  /** Application hooks (`ActiveModelBehavior`); each may change the record or reject it. */
  datatype Behavior<!C, !V(==)> = Behavior(
    beforeSave: (Slots<C, V>, bool) -> Result<Slots<C, V>, DbErr>,
    afterSave: (Model<C, V>, bool) -> Result<Model<C, V>, DbErr>,
    beforeDelete: Slots<C, V> -> Result<Slots<C, V>, DbErr>,
    afterDelete: Slots<C, V> -> Result<Slots<C, V>, DbErr>)

  /** The default hooks: every one passes its argument through. */
  function DefaultBehavior<C(!new), V(==,!new)>(): (b: Behavior<C, V>)
    ensures forall am, insert :: b.beforeSave(am, insert) == Ok(am)
    ensures forall m, insert :: b.afterSave(m, insert) == Ok(m)
    ensures forall am :: b.beforeDelete(am) == Ok(am)
    ensures forall am :: b.afterDelete(am) == Ok(am)
  {
    Behavior((am, insert) => Ok(am), (m, insert) => Ok(m), am => Ok(am), am => Ok(am))
  }

  datatype DeleteResult = DeleteResult(rowsAffected: nat)

  /**
   * The statements the lifecycle hands to the connection: INSERT ... RETURNING, UPDATE and
   * DELETE built from an active model. Building and running them is outside this model.
   */
  datatype Database<!C, !V(==)> = Database(
    insertReturning: Slots<C, V> -> Result<Model<C, V>, DbErr>,
    update: Slots<C, V> -> Result<Model<C, V>, DbErr>,
    delete: Slots<C, V> -> Result<DeleteResult, DbErr>)

  /** One step of a lifecycle operation, in the order it ran. */
  datatype Step = BeforeSave(insert: bool) | ExecInsert | ExecUpdate | AfterSave(insert: bool)
                | BeforeDelete | ExecDelete | AfterDelete

  /** The outcome of a lifecycle operation with the steps that ran. */
  datatype Run<T> = Run(result: Result<T, DbErr>, steps: seq<Step>)

  /** Hook, statement, hook: the steps an insert (or update) runs when nothing fails. */
  function SaveSteps(insert: bool): seq<Step>
  {
    [BeforeSave(insert), if insert then ExecInsert else ExecUpdate, AfterSave(insert)]
  }

  /** `insert` (insert == true) and `update` (insert == false): before_save, the statement, after_save. */
  function SaveFlow<C, V(==)>(am: Slots<C, V>, insert: bool, hooks: Behavior<C, V>, db: Database<C, V>)
    : (r: Run<Model<C, V>>)
    ensures 1 <= |r.steps| <= 3 && r.steps == SaveSteps(insert)[..|r.steps|]
    ensures |r.steps| < 3 ==> r.result.Err?
    ensures hooks.beforeSave(am, insert).Err? <==> |r.steps| == 1
    ensures hooks.beforeSave(am, insert).Err? ==> r.result == Err(hooks.beforeSave(am, insert).error)
    ensures hooks.beforeSave(am, insert).Ok? ==>
      var before := hooks.beforeSave(am, insert).value;
      var st := if insert then db.insertReturning(before) else db.update(before);
      && (st.Err? ==> r.result == Err(st.error) && |r.steps| == 2)
      && (st.Ok? ==> r.result == hooks.afterSave(st.value, insert) && |r.steps| == 3)
  {
    match hooks.beforeSave(am, insert)
    case Err(e) => Run(Err(e), [BeforeSave(insert)])
    case Ok(before) =>
      var executed := if insert then db.insertReturning(before) else db.update(before);
      match executed
      case Err(e) => Run(Err(e), SaveSteps(insert)[..2])
      case Ok(m) => Run(hooks.afterSave(m, insert), SaveSteps(insert))
  }

  /** `delete`: before_delete, the DELETE, after_delete (whose record is discarded); returns the DELETE's result. */
  function DeleteFlow<C, V(==)>(am: Slots<C, V>, hooks: Behavior<C, V>, db: Database<C, V>): (r: Run<DeleteResult>)
    ensures 1 <= |r.steps| <= 3 && r.steps == [BeforeDelete, ExecDelete, AfterDelete][..|r.steps|]
    ensures |r.steps| < 3 ==> r.result.Err?
    ensures r.result.Ok? ==> hooks.beforeDelete(am).Ok? && r.result == db.delete(hooks.beforeDelete(am).value)
    ensures hooks.beforeDelete(am).Err? ==> r == Run(Err(hooks.beforeDelete(am).error), [BeforeDelete])
    ensures hooks.beforeDelete(am).Ok? ==>
      var before := hooks.beforeDelete(am).value;
      var deleted := db.delete(before);
      && (deleted.Err? ==> r.result == Err(deleted.error) && |r.steps| == 2)
      && (deleted.Ok? ==> |r.steps| == 3)
      && (deleted.Ok? && hooks.afterDelete(before).Err? ==> r.result == Err(hooks.afterDelete(before).error))
      && (deleted.Ok? && hooks.afterDelete(before).Ok? ==> r.result == Ok(deleted.value))
  {
    match hooks.beforeDelete(am)
    case Err(e) => Run(Err(e), [BeforeDelete])
    case Ok(before) =>
      match db.delete(before)
      case Err(e) => Run(Err(e), [BeforeDelete, ExecDelete])
      case Ok(res) =>
        match hooks.afterDelete(before)
        case Err(e) => Run(Err(e), [BeforeDelete, ExecDelete, AfterDelete])
        case Ok(_) => Run(Ok(res), [BeforeDelete, ExecDelete, AfterDelete])
  }

  /** With the default hooks the lifecycle is just the statement. */
  lemma DefaultHooksAreTransparent<C(!new), V(!new)>(am: Slots<C, V>, insert: bool, db: Database<C, V>)
    ensures SaveFlow(am, insert, DefaultBehavior(), db).result ==
            (if insert then db.insertReturning(am) else db.update(am))
    ensures DeleteFlow(am, DefaultBehavior(), db).result == db.delete(am)
  {
  }

  /** An active model: the entity it belongs to and a slot per column (the derived `ActiveModel` struct). */
  class ActiveModel<C(==), V(==)> {
    const entity: EntityDef<C>
    var slots: Slots<C, V>

    ghost predicate Valid()
      reads this
    {
      entity.Valid() && CoversExactly(slots, entity.columns)
    }

    /** `ActiveModelTrait::default()`: every column `NotSet`. */
    constructor Default(entity: EntityDef<C>)
      requires entity.Valid()
      ensures Valid() && this.entity == entity
      ensures slots == DefaultSlots(entity.columns)
    {
      this.entity := entity;
      slots := DefaultSlots(entity.columns);
    }

    /** `into_active_model` of a model: every column `Unchanged`. */
    constructor FromModel(entity: EntityDef<C>, m: Model<C, V>)
      requires entity.Valid()
      ensures Valid() && this.entity == entity
      ensures slots == IntoActiveModel(entity.columns, m)
    {
      this.entity := entity;
      slots := IntoActiveModel(entity.columns, m);
    }

    /** `get`: the slot of a column, as it stands; a `Set` slot means the model has changed. */
    function Get(c: C): (v: ActiveValue<V>)
      reads this
      requires Valid() && c in entity.columns
      ensures v == slots[c]
      ensures v.Set? ==> IsChanged()
    {
      slots[c]
    }

    /** `is_changed`: true iff some column is `Set` (an `Unchanged` slot is not a change). */
    function IsChanged(): (r: bool)
      reads this
      requires Valid()
      ensures r <==> exists c :: c in slots && slots[c].Set?
    {
      var r := AnySet(entity.columns, slots);
      assert forall c :: c in slots ==> exists i :: 0 <= i < |entity.columns| && entity.columns[i] == c;
      r
    }

    /** `set`: the column becomes `Set(v)`. */
    method SetColumn(c: C, v: V)
      requires Valid() && c in entity.columns
      modifies this
      ensures Valid()
      ensures slots == old(slots)[c := Set(v)]
    {
      slots := slots[c := Set(v)];
    }

    /** `not_set`: the column becomes `NotSet`. */
    method NotSetColumn(c: C)
      requires Valid() && c in entity.columns
      modifies this
      ensures Valid()
      ensures slots == old(slots)[c := NotSet]
    {
      slots := slots[c := NotSet];
    }

    /** `take`: returns the column's slot and leaves it `NotSet`. */
    method Take(c: C) returns (r: ActiveValue<V>)
      requires Valid() && c in entity.columns
      modifies this
      ensures Valid()
      ensures r == old(slots)[c]
      ensures slots == old(slots)[c := NotSet]
    {
      r := slots[c];
      slots := slots[c := NotSet];
    }

    /** `reset`: the column's slot is reset (`Unchanged` becomes `Set`, `NotSet` stays). */
    method Reset(c: C)
      requires Valid() && c in entity.columns
      modifies this
      ensures Valid()
      ensures slots == old(slots)[c := old(slots)[c].Reset()]
    {
      slots := slots[c := slots[c].Reset()];
    }

    /** `reset_all`: `reset` on every column, in column order. */
    method ResetAll()
      requires Valid()
      modifies this
      ensures Valid()
      ensures slots == ResetAllSlots(old(slots))
    {
      var cols := entity.columns;
      var i := 0;
      while i < |cols|
        invariant 0 <= i <= |cols|
        invariant Valid()
        invariant forall k :: 0 <= k < |cols| ==>
          slots[cols[k]] == if k < i then old(slots)[cols[k]].Reset() else old(slots)[cols[k]]
      {
        Reset(cols[i]);
        i := i + 1;
      }
      forall c | c in slots
        ensures slots[c] == old(slots)[c].Reset()
      {
        var k :| 0 <= k < |cols| && cols[k] == c;
      }
    }

    /**
     * `get_primary_key_value`: draws the primary-key columns one at a time, giving up as soon as
     * the columns run out or one is `NotSet`; arity 1, 2 and 3 give `One`, `Two`, `Three`, any
     * other arity a vector.
     */
    method GetPrimaryKeyValue() returns (r: Option<ValueTuple<V>>)
      requires Valid()
      ensures r == PrimaryKeyValueOf(slots, entity.primaryKey, entity.arity)
    {
      var pk := entity.primaryKey;
      var arity := entity.arity;
      var vec: seq<V> := [];
      var i := 0;
      while i < arity
        invariant 0 <= i <= arity
        invariant KeyPresent(slots, pk, i)
        invariant vec == KeyPayloads(slots, pk, i)
      {
        if i >= |pk| {
          return None;
        }
        var v := slots[pk[i]].TryAsRef();
        if v.None? {
          return None;
        }
        vec := vec + [v.value];
        i := i + 1;
      }
      if arity == 1 {
        r := Some(One(vec[0]));
      } else if arity == 2 {
        r := Some(Two(vec[0], vec[1]));
      } else if arity == 3 {
        r := Some(Three(vec[0], vec[1], vec[2]));
      } else {
        r := Some(Many(vec));
      }
    }

    /**
     * `save`: inserts when some primary-key column is `NotSet`, otherwise updates, and returns the
     * resulting model as an active model (every column `Unchanged`).
     */
    method Save(hooks: Behavior<C, V>, db: Database<C, V>) returns (r: Run<Slots<C, V>>)
      requires Valid()
      ensures var insert := exists i :: 0 <= i < |entity.primaryKey| && slots[entity.primaryKey[i]].NotSet?;
              var flow := SaveFlow(slots, insert, hooks, db);
              && r.steps == flow.steps
              && (flow.result.Err? ==> r.result == Err(flow.result.error))
              && (flow.result.Ok? ==> r.result == Ok(IntoActiveModel(entity.columns, flow.result.value)))
      ensures |r.steps| >= 1 && r.steps[0] == BeforeSave(exists i :: 0 <= i < |entity.primaryKey| && slots[entity.primaryKey[i]].NotSet?)
      ensures r.result.Ok? ==> !AnySet(entity.columns, r.result.value)
    {
      var pk := entity.primaryKey;
      var isUpdate := true;
      var i := 0;
      while i < |pk|
        invariant 0 <= i <= |pk|
        invariant isUpdate
        invariant forall k :: 0 <= k < i ==> !slots[pk[k]].NotSet?
      {
        if slots[pk[i]].NotSet? {
          isUpdate := false;
          break;
        }
        i := i + 1;
      }
      var flow := SaveFlow(slots, !isUpdate, hooks, db);
      match flow.result
      case Err(e) => r := Run(Err(e), flow.steps);
      case Ok(m) => r := Run(Ok(IntoActiveModel(entity.columns, m)), flow.steps);
    }

    /**
     * `set_from_json`: keeps the primary key out of the JSON's reach. The primary-key slots are
     * taken first; the record is replaced by `from_json`; each taken key is put back as `Set`
     * when it had a value and as `NotSet` otherwise. If `from_json` fails, the record keeps its
     * other columns but its primary-key columns have already been taken (`NotSet`).
     */
    method SetFromJson<J>(json: Json<J>, decode: map<string, J> -> Result<Model<C, V>, string>)
      returns (r: Result<(), DbErr>)
      requires Valid()
      modifies this
      ensures Valid()
      ensures var spec := FromJsonSpec(entity, json, decode);
              && (spec.Err? ==> r == Err(spec.error))
              && (spec.Ok? ==> r.Ok?)
      ensures r.Err? ==> forall c :: c in slots ==>
                slots[c] == if c in entity.primaryKey then NotSet else old(slots)[c]
      ensures r.Ok? ==> forall c :: c in slots ==>
                slots[c] == if c in entity.primaryKey then old(slots)[c].Reset()
                            else FromJsonSpec(entity, json, decode).value[c]
    {
      var saved := TakePrimaryKey();
      var decodedSlots := FromJson(entity, json, decode);
      if decodedSlots.Err? {
        return Err(decodedSlots.error);
      }
      slots := decodedSlots.value;
      RestorePrimaryKey(saved);
      r := Ok(());
    }

    /** The backup step of `set_from_json`: each primary-key slot is taken, in key order. */
    method TakePrimaryKey() returns (saved: seq<(C, ActiveValue<V>)>)
      requires Valid()
      modifies this
      ensures Valid()
      ensures |saved| == |entity.primaryKey|
      ensures forall k :: 0 <= k < |saved| ==> saved[k] == (entity.primaryKey[k], old(slots)[entity.primaryKey[k]])
      ensures forall c :: c in slots ==> slots[c] == if c in entity.primaryKey then NotSet else old(slots)[c]
    {
      var pk := entity.primaryKey;
      saved := [];
      var i := 0;
      while i < |pk|
        invariant 0 <= i <= |pk|
        invariant Valid()
        invariant |saved| == i
        invariant forall k :: 0 <= k < i ==> saved[k] == (pk[k], old(slots)[pk[k]])
        invariant forall c :: c in slots ==> slots[c] == if c in pk[..i] then NotSet else old(slots)[c]
      {
        var taken := Take(pk[i]);
        saved := saved + [(pk[i], taken)];
        i := i + 1;
      }
      assert pk[..i] == pk;
    }

    /** The restore step of `set_from_json`: a saved value is put back as `Set`, a missing one as `NotSet`. */
    method RestorePrimaryKey(saved: seq<(C, ActiveValue<V>)>)
      requires Valid()
      requires |saved| == |entity.primaryKey|
      requires forall k :: 0 <= k < |saved| ==> saved[k].0 == entity.primaryKey[k]
      modifies this
      ensures Valid()
      ensures forall c :: c in slots && c !in entity.primaryKey ==> slots[c] == old(slots)[c]
      ensures forall k :: 0 <= k < |saved| ==> slots[entity.primaryKey[k]] == saved[k].1.Reset()
    {
      var pk := entity.primaryKey;
      var j := 0;
      while j < |saved|
        invariant 0 <= j <= |saved|
        invariant Valid()
        invariant forall k :: 0 <= k < |pk| ==>
          slots[pk[k]] == if k < j then saved[k].1.Reset() else old(slots)[pk[k]]
        invariant forall c :: c in slots && c !in pk ==> slots[c] == old(slots)[c]
      {
        var (col, av) := saved[j];
        match av {
          case Set(v) => SetColumn(col, v);
          case Unchanged(v) => SetColumn(col, v);
          case NotSet => NotSetColumn(col);
        }
        j := j + 1;
      }
    }
  }
}
