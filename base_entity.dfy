/**
 * The entity base: table references with an optional schema, the primary-key filters of
 * `find_by_id` / `delete_by_id`, and the relation-builder constructors.
 */
module Entities {
  import opened Wrappers
  import opened ValueTuples

  /** What `EntityName` says of an entity: its table name, and the optional schema name and comment. */
  datatype EntityName = EntityName(tableName: string, schemaName: Option<string>, comment: Option<string>)

  /** An entity that overrides neither `schema_name` nor `comment`: both default to none. */
  function Declared(tableName: string): (e: EntityName)
    ensures e.tableName == tableName && e.schemaName == None && e.comment == None
  {
    EntityName(tableName, None, None)
  }

  /** A table reference: a bare table, or a table qualified by its schema. */
  datatype TableRef = Table(table: string) | SchemaTable(schema: string, table: string)

  /** `table_ref`: schema-qualified exactly when the entity has a schema name. */
  function TableRefOf(e: EntityName): (r: TableRef)
    ensures r.table == e.tableName
    ensures r.SchemaTable? <==> e.schemaName.Some?
    ensures r.SchemaTable? ==> r.schema == e.schemaName.value
  {
    match e.schemaName
    case Some(schema) => SchemaTable(schema, e.tableName)
    case None => Table(e.tableName)
  }

  /** An equality condition `col = value`, the only kind of filter these builders add. */
  datatype Condition<C, V> = Equals(col: C, value: V)

  /** The statements built here: a SELECT or a DELETE of a table, with its AND-ed conditions. */
  datatype StatementKind = SelectFrom | DeleteFrom
  datatype Statement<C, V> = Statement(kind: StatementKind, table: TableRef, filters: seq<Condition<C, V>>)

  /** `find`: a SELECT of the entity's table with no condition. */
  function Find<C, V>(e: EntityName): (s: Statement<C, V>)
    ensures s.kind == SelectFrom && s.table == TableRefOf(e) && s.filters == []
  {
    Statement(SelectFrom, TableRefOf(e), [])
  }

  /** `delete_many`: a DELETE of the entity's table with no condition. */
  function DeleteMany<C, V>(e: EntityName): (s: Statement<C, V>)
    ensures s.kind == DeleteFrom && s.table == TableRefOf(e) && s.filters == []
  {
    Statement(DeleteFrom, TableRefOf(e), [])
  }

  /** The conditions a primary-key lookup adds: the i-th value compared with the i-th key column. */
  function KeyFilters<C, V>(pk: seq<C>, values: seq<V>): (fs: seq<Condition<C, V>>)
    requires |values| <= |pk|
    ensures |fs| == |values|
    ensures forall i :: 0 <= i < |values| ==> fs[i] == Equals(pk[i], values[i])
  {
    if values == [] then []
    else KeyFilters(pk, values[..|values| - 1]) + [Equals(pk[|values| - 1], values[|values| - 1])]
  }

  /**
   * Adds one equality filter per value of the tuple, pairing it with the next primary-key column.
   * More values than key columns is the "primary key arity mismatch" panic, which callers must
   * rule out.
   */
  method FilterByKey<C, V>(s: Statement<C, V>, pk: seq<C>, values: ValueTuple<V>) returns (r: Statement<C, V>)
    requires |Elements(values)| <= |pk|
    ensures r == s.(filters := s.filters + KeyFilters(pk, Elements(values)))
  {
    var vs := Elements(values);
    r := s;
    var keys := 0;
    var i := 0;
    while i < |vs|
      invariant 0 <= i <= |vs| && keys == i
      invariant r == s.(filters := s.filters + KeyFilters(pk, vs[..i]))
    {
      if keys < |pk| {
        var col := pk[keys];
        keys := keys + 1;
        assert vs[..i + 1][..i] == vs[..i];
        r := r.(filters := r.filters + [Equals(col, vs[i])]);
      } else {
        assert false;
      }
      i := i + 1;
    }
    assert vs[..i] == vs;
  }

  /** `find_by_id`: `find` filtered by the primary key. */
  method FindById<C, V>(e: EntityName, pk: seq<C>, values: ValueTuple<V>) returns (r: Statement<C, V>)
    requires |Elements(values)| <= |pk|
    ensures r.kind == SelectFrom && r.table == TableRefOf(e)
    ensures r.filters == KeyFilters(pk, Elements(values))
  {
    r := FilterByKey(Find(e), pk, values);
  }

  /** `delete_by_id`: `delete_many` filtered by the primary key, with the same pairing as `find_by_id`. */
  method DeleteById<C, V>(e: EntityName, pk: seq<C>, values: ValueTuple<V>) returns (r: Statement<C, V>)
    requires |Elements(values)| <= |pk|
    ensures r.kind == DeleteFrom && r.table == TableRefOf(e)
    ensures r.filters == KeyFilters(pk, Elements(values))
  {
    r := FilterByKey(DeleteMany(e), pk, values);
  }

  /** The relation kinds a relation builder starts from. */
  datatype RelationType = HasOne | HasMany

  /** A finished relation definition, as the related entity's `to()` returns it (already reversed here). */
  datatype RelationDef<C> = RelationDef(relType: RelationType, fromTbl: TableRef, toTbl: TableRef,
                                        fromCol: seq<C>, toCol: seq<C>, isOwner: bool)

  /** The state of a relation builder: kind, both tables, the columns if already known, and the owner flag. */
  datatype RelationBuilder<C> = RelationBuilder(relType: RelationType, fromTbl: TableRef, toTbl: TableRef,
                                                fromCol: Option<seq<C>>, toCol: Option<seq<C>>, isOwner: bool)

  /** `belongs_to`: a `HasOne` builder from this entity to the related one, not the owner, columns still open. */
  function BelongsTo<C>(self: EntityName, related: EntityName): (b: RelationBuilder<C>)
    ensures b.relType == HasOne && !b.isOwner
    ensures b.fromTbl == TableRefOf(self) && b.toTbl == TableRefOf(related)
    ensures b.fromCol == None && b.toCol == None
  {
    RelationBuilder(HasOne, TableRefOf(self), TableRefOf(related), None, None, false)
  }

  /** `from_rel`: a builder taking tables and columns from an existing definition. */
  function FromRel<C>(relType: RelationType, rel: RelationDef<C>, isOwner: bool): (b: RelationBuilder<C>)
    ensures b.relType == relType && b.isOwner == isOwner
    ensures b.fromTbl == rel.fromTbl && b.toTbl == rel.toTbl
    ensures b.fromCol == Some(rel.fromCol) && b.toCol == Some(rel.toCol)
  {
    RelationBuilder(relType, rel.fromTbl, rel.toTbl, Some(rel.fromCol), Some(rel.toCol), isOwner)
  }

  /** `has_one`: the related entity's relation back to this one, reversed, as an owning `HasOne`. */
  function HasOneOf<C>(reversedTo: RelationDef<C>): (b: RelationBuilder<C>)
    ensures b.relType == HasOne && b.isOwner
    ensures b.fromTbl == reversedTo.fromTbl && b.toTbl == reversedTo.toTbl
    ensures b.fromCol == Some(reversedTo.fromCol) && b.toCol == Some(reversedTo.toCol)
  {
    FromRel(HasOne, reversedTo, true)
  }

  /** `has_many`: the related entity's relation back to this one, reversed, as an owning `HasMany`. */
  function HasManyOf<C>(reversedTo: RelationDef<C>): (b: RelationBuilder<C>)
    ensures b.relType == HasMany && b.isOwner
    ensures b.fromTbl == reversedTo.fromTbl && b.toTbl == reversedTo.toTbl
    ensures b.fromCol == Some(reversedTo.fromCol) && b.toCol == Some(reversedTo.toCol)
  {
    FromRel(HasMany, reversedTo, true)
  }

  /**
   * The three constructors differ only where sea-orm's constructors differ: `has_one` and `has_many` only in
   * the kind, `has_one` and `belongs_to` in the owner flag (and where the columns come from).
   */
  lemma RelationConstructorsDiffer<C>(self: EntityName, related: EntityName, reversedTo: RelationDef<C>)
    ensures HasOneOf(reversedTo).(relType := HasMany) == HasManyOf(reversedTo)
    ensures HasOneOf(reversedTo).relType == BelongsTo<C>(self, related).relType == HasOne
    ensures HasOneOf(reversedTo).isOwner && HasManyOf(reversedTo).isOwner && !BelongsTo<C>(self, related).isOwner
  {
  }
}
