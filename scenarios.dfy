/**
 * The model's results, stated and proved, on the shapes of the repository's own test cases:
 * cakes with their fruits, fillings or vendors, the `filling` and `collection` entities, and
 * mock transactions.
 */
module Scenarios {
  import opened Wrappers
  import opened ValueTuples
  import opened ActiveValues
  import opened Consolidation
  import AM = ActiveModels
  import E = Entities
  import DbErrors

  /** A cake row is keyed by the cake's id; here a cake is its id. */
  function KeyOfCake(cake: int): int {
    cake
  }

  /** Cakes 1 and 2 with their vendors, cake 1's vendor 1 linked twice. */
  function LinkedRepeatedRows(): seq<(int, Option<int>)> {
    [(1, Some(1)), (1, Some(1)), (2, Some(1)), (2, Some(2))]
  }

  lemma LinkedRepeatedKeys()
    ensures DistinctKeys(LinkedRepeatedRows(), KeyOfCake, 4) == [1, 2]
  {
    var rows := LinkedRepeatedRows();
    assert DistinctKeys(rows, KeyOfCake, 1) == [1];
    assert DistinctKeys(rows, KeyOfCake, 2) == [1];
    assert DistinctKeys(rows, KeyOfCake, 3) == [1, 2];
  }

  lemma LinkedRepeatedGroups()
    ensures Seen(LinkedRepeatedRows(), KeyOfCake, 4, 1) && Seen(LinkedRepeatedRows(), KeyOfCake, 4, 2)
    ensures Entry(LinkedRepeatedRows(), KeyOfCake, 1) == (1, [1, 1])
    ensures Entry(LinkedRepeatedRows(), KeyOfCake, 2) == (2, [1, 2])
  {
    var rows := LinkedRepeatedRows();
    assert Seen(rows, KeyOfCake, 4, 1) by { assert KeyOfCake(rows[0].0) == 1; }
    assert Seen(rows, KeyOfCake, 4, 2) by { assert KeyOfCake(rows[2].0) == 2; }
    assert ChildrenOf(rows, KeyOfCake, 4, 1) == [1, 1];
    assert ChildrenOf(rows, KeyOfCake, 4, 2) == [1, 2];
  }

  /** Consolidation keeps the repeated vendor twice and groups each cake's vendors in row order. */
  method LinkedRepeated() returns (out: seq<(int, seq<int>)>)
    ensures out == [(1, [1, 1]), (2, [1, 2])]
  {
    var rows := LinkedRepeatedRows();
    out := ConsolidateQueryResultOf(rows, KeyOfCake);
    LinkedRepeatedKeys();
    LinkedRepeatedGroups();
  }

  /** Cake 1's fruits arrive on both sides of cake 2's: rows that are not adjacent. */
  function InterleavedRows(): seq<(int, Option<int>)> {
    [(1, Some(10)), (2, Some(20)), (1, Some(11))]
  }

  lemma InterleavedConsolidated()
    ensures Consolidated(InterleavedRows(), KeyOfCake) == [(1, [10, 11]), (2, [20])]
  {
    var rows := InterleavedRows();
    assert DistinctKeys(rows, KeyOfCake, 2) == [1, 2];
    assert DistinctKeys(rows, KeyOfCake, 3) == [1, 2];
    assert Seen(rows, KeyOfCake, 3, 1) by { assert KeyOfCake(rows[0].0) == 1; }
    assert Seen(rows, KeyOfCake, 3, 2) by { assert KeyOfCake(rows[1].0) == 2; }
    assert Entry(rows, KeyOfCake, 1) == (1, [10, 11]) by {
      assert ChildrenOf(rows, KeyOfCake, 3, 1) == [10, 11];
    }
    assert Entry(rows, KeyOfCake, 2) == (2, [20]) by {
      assert ChildrenOf(rows, KeyOfCake, 3, 2) == [20];
    }
  }

  /** The value of a cake's only key column is its id. */
  function CakeColumn(cake: int, column: int): int {
    cake
  }

  /**
   * On rows that are not adjacent the hash-map algorithm gathers cake 1's fruits in one group,
   * while the legacy algorithm, which only extends the last group, splits them in two.
   */
  method InterleavedRowsTwoWays() returns (grouped: seq<(int, seq<int>)>, legacy: seq<(int, seq<int>)>)
    ensures grouped == [(1, [10, 11]), (2, [20])]
    ensures legacy == [(1, [10]), (2, [20]), (1, [11])]
  {
    var rows := InterleavedRows();
    grouped := ConsolidateQueryResultOf(rows, KeyOfCake);
    InterleavedConsolidated();
    legacy := ConsolidateOrderedRows(rows, [0], CakeColumn);
    InterleavedLegacy();
  }

  lemma InterleavedLegacy()
    ensures LegacyGroups(InterleavedRows(), [0], CakeColumn, 3) == [(1, [10]), (2, [20]), (1, [11])]
  {
    var rows := InterleavedRows();
    assert LegacyGroups(rows, [0], CakeColumn, 1) == [(1, [10])];
    assert !SameKey([0], CakeColumn, 2, 1) by { assert CakeColumn(2, [0][0]) != CakeColumn(1, [0][0]); }
    assert LegacyGroups(rows, [0], CakeColumn, 2) == [(1, [10]), (2, [20])];
    assert !SameKey([0], CakeColumn, 1, 2) by { assert CakeColumn(1, [0][0]) != CakeColumn(2, [0][0]); }
  }

  /** A cake whose only row has no fruit keeps an empty group after those with fruits. */
  function EmptyRelatedRows(): seq<(int, Option<int>)> {
    [(1, Some(1)), (2, Some(2)), (2, Some(3)), (2, Some(4)), (3, None)]
  }

  lemma EmptyRelatedConsolidated()
    ensures Consolidated(EmptyRelatedRows(), KeyOfCake) == [(1, [1]), (2, [2, 3, 4]), (3, [])]
  {
    EmptyRelatedKeys();
    EmptyRelatedEntries();
    EntriesOfThree(EmptyRelatedRows(), KeyOfCake, 1, 2, 3);
  }

  /** The groups of three keys are the three groups. */
  lemma EntriesOfThree<P, R, K>(rows: seq<(P, Option<R>)>, key: P -> K, a: K, b: K, c: K)
    requires Seen(rows, key, |rows|, a) && Seen(rows, key, |rows|, b) && Seen(rows, key, |rows|, c)
    ensures Entries(rows, key, [a, b, c]) == [Entry(rows, key, a), Entry(rows, key, b), Entry(rows, key, c)]
  {
    assert [a, b, c][..2] == [a, b] && [a, b][..1] == [a] && [a][..0] == [];
  }

  lemma EmptyRelatedEntries()
    ensures Seen(EmptyRelatedRows(), KeyOfCake, 5, 1) && Seen(EmptyRelatedRows(), KeyOfCake, 5, 2)
    ensures Seen(EmptyRelatedRows(), KeyOfCake, 5, 3)
    ensures Entry(EmptyRelatedRows(), KeyOfCake, 1) == (1, [1])
    ensures Entry(EmptyRelatedRows(), KeyOfCake, 2) == (2, [2, 3, 4])
    ensures Entry(EmptyRelatedRows(), KeyOfCake, 3) == (3, [])
  {
    var rows := EmptyRelatedRows();
    assert Seen(rows, KeyOfCake, 5, 1) by { assert KeyOfCake(rows[0].0) == 1; }
    assert Seen(rows, KeyOfCake, 5, 2) by { assert KeyOfCake(rows[1].0) == 2; }
    assert Seen(rows, KeyOfCake, 5, 3) by { assert KeyOfCake(rows[4].0) == 3; }
    assert ChildrenOf(rows, KeyOfCake, 5, 1) == [1];
    assert FirstIndex(rows, KeyOfCake, 5, 1) == 0;
    assert ChildrenOf(rows, KeyOfCake, 5, 2) == [2, 3, 4];
    assert ChildrenOf(rows, KeyOfCake, 5, 3) == [];
  }

  lemma EmptyRelatedKeys()
    ensures DistinctKeys(EmptyRelatedRows(), KeyOfCake, 5) == [1, 2, 3]
  {
    var rows := EmptyRelatedRows();
    assert DistinctKeys(rows, KeyOfCake, 2) == [1, 2];
    assert DistinctKeys(rows, KeyOfCake, 3) == [1, 2];
    assert DistinctKeys(rows, KeyOfCake, 4) == [1, 2];
  }

  method EmptyRelated() returns (out: seq<(int, seq<int>)>)
    ensures out == [(1, [1]), (2, [2, 3, 4]), (3, [])]
  {
    out := ConsolidateQueryResultOf(EmptyRelatedRows(), KeyOfCake);
    EmptyRelatedConsolidated();
  }

  /** The `collection` entity declares the schema `schema_name`, so its table reference is qualified. */
  lemma CollectionTableRef()
    ensures E.TableRefOf(E.EntityName("collection", Some("schema_name"), None)) == E.SchemaTable("schema_name", "collection")
    ensures E.TableRefOf(E.Declared("hello")) == E.Table("hello")
  {
  }

  /** The key columns of `cake_filling_price`. */
  datatype CakeFillingColumn = CakeId | FillingId

  /** `delete_by_id((1, 2))` on `public.cake_filling_price`: one condition per key column, in key order. */
  method DeleteByCompositeKey() returns (stmt: E.Statement<CakeFillingColumn, int>)
    ensures stmt.kind == E.DeleteFrom && stmt.table == E.SchemaTable("public", "cake_filling_price")
    ensures stmt.filters == [E.Equals(CakeId, 1), E.Equals(FillingId, 2)]
  {
    var entity := E.EntityName("cake_filling_price", Some("public"), None);
    stmt := E.DeleteById(entity, [CakeId, FillingId], Two(1, 2));
    assert E.KeyFilters([CakeId, FillingId], [1, 2])[..1] == E.KeyFilters([CakeId, FillingId], [1]);
  }

  /** The columns of the `filling` entity; `Id` is its auto-increment primary key. */
  datatype FillingColumn = Id | Name | VendorId

  datatype Value = Int(n: int) | Text(s: string)

  function FillingColumnName(c: FillingColumn): string {
    match c
    case Id => "id"
    case Name => "name"
    case VendorId => "vendor_id"
  }

  function Filling(): (e: AM.EntityDef<FillingColumn>)
    ensures e.Valid()
  {
    AM.EntityDef("filling", [Id, Name, VendorId], [Id], 1, FillingColumnName)
  }

  /** A decoder that takes each column from its key and fails on nothing. */
  function DecodeFilling(obj: map<string, Value>): Result<map<FillingColumn, Value>, string> {
    Ok(map c | c in [Id, Name, VendorId] && FillingColumnName(c) in obj :: obj[FillingColumnName(c)])
  }

  /**
   * A default `filling` record is unchanged and has no key value; setting the name makes it
   * changed, and setting the id gives a one-column key value.
   */
  method FillingLifecycle() returns (keyBefore: Option<ValueTuple<Value>>, changedBefore: bool,
                                     changedAfter: bool, keyAfter: Option<ValueTuple<Value>>)
    ensures keyBefore == None && !changedBefore
    ensures changedAfter && keyAfter == Some(One(Int(1)))
  {
    var am := new AM.ActiveModel<FillingColumn, Value>.Default(Filling());
    keyBefore := am.GetPrimaryKeyValue();
    changedBefore := am.IsChanged();
    am.SetColumn(Name, Text("Apple"));
    changedAfter := am.IsChanged();
    am.SetColumn(Id, Int(1));
    keyAfter := am.GetPrimaryKeyValue();
    AM.PrimaryKeyValueShape(am.slots, [Id], 1);
  }

  /** The JSON object `{"id": 8, "name": "Apple"}`. */
  function FillingJson(): map<string, Value> {
    map["id" := Int(8), "name" := Text("Apple")]
  }

  /** `from_json` of that object sets the name and leaves the absent vendor id not set. */
  lemma FillingJsonDecodes()
    ensures var spec := AM.FromJsonSpec(Filling(), AM.Object(FillingJson()), DecodeFilling);
      && spec.Ok? && Name in spec.value && VendorId in spec.value
      && spec.value[Name] == Set(Text("Apple")) && spec.value[VendorId] == NotSet
  {
    var json := FillingJson();
    assert "name" in json && "vendor_id" !in json;
    var decoded := DecodeFilling(json);
    assert decoded.Ok? && Name in decoded.value && decoded.value[Name] == Text("Apple") by {
      assert Name in [Id, Name, VendorId] && FillingColumnName(Name) in json;
    }
  }

  /**
   * `set_from_json` on a record whose id is set: the id in the JSON is ignored, the name is set
   * from the JSON, and the missing vendor id stays not set.
   */
  method FillingSetFromJson() returns (r: Result<(), DbErrors.DbErr>, id: ActiveValue<Value>,
                                       name: ActiveValue<Value>, vendor: ActiveValue<Value>)
    ensures r.Ok?
    ensures id == Set(Int(1)) && name == Set(Text("Apple")) && vendor == NotSet
  {
    var am := new AM.ActiveModel<FillingColumn, Value>.Default(Filling());
    am.SetColumn(Id, Int(1));
    var json := FillingJson();
    FillingJsonDecodes();
    r := am.SetFromJson(AM.Object(json), DecodeFilling);
    id := am.Get(Id);
    name := am.Get(Name);
    vendor := am.Get(VendorId);
  }
}
