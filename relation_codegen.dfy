/**
 * The code generator's description of one relation of a generated entity, and the names,
 * `RelationDef` expression and `#[sea_orm(...)]` attribute it derives from it. Case conversion
 * and keyword escaping come from outside and are parameters (`Naming`); token streams are
 * modelled as the text they stand for.
 */
module CodegenRelations {
  import opened Wrappers

  datatype RelationType = HasOne | HasMany | BelongsTo

  datatype ForeignKeyAction = Restrict | Cascade | SetNull | NoAction | SetDefault

  datatype Relation = Relation(
    refTable: string,
    columns: seq<string>,
    refColumns: seq<string>,
    relType: RelationType,
    onUpdate: Option<ForeignKeyAction>,
    onDelete: Option<ForeignKeyAction>,
    selfReferencing: bool,
    numSuffix: nat,
    implRelated: bool)

  /** UpperCamelCase and snake_case conversion, and the escaping of Rust keywords. */
  datatype Naming = Naming(upperCamel: string -> string, snake: string -> string, escapeKeyword: string -> string)

  predicate IsDigit(c: char) {
    '0' <= c <= '9'
  }

  predicate AllDigits(s: string) {
    forall i :: 0 <= i < |s| ==> IsDigit(s[i])
  }

  function Digit(d: nat): (c: char)
    requires d < 10
    ensures IsDigit(c) && c as int - '0' as int == d
  {
    ('0' as int + d) as char
  }

  /** The decimal text of a number, as `format!("{}", n)` writes it: no sign, no leading zero. */
  function Decimal(n: nat): (s: string)
    ensures |s| > 0 && AllDigits(s)
    ensures n > 0 ==> s[0] != '0'
    ensures n == 0 ==> s == "0"
  {
    if n < 10 then [Digit(n)] else Decimal(n / 10) + [Digit(n % 10)]
  }

  /** The number a string of decimal digits denotes. */
  function ParseDecimal(s: string): nat
    requires AllDigits(s)
  {
    if s == [] then 0 else ParseDecimal(s[..|s| - 1]) * 10 + (s[|s| - 1] as int - '0' as int)
  }

  /** The decimal text of a number reads back as that number. */
  lemma {:induction false} DecimalRoundTrip(n: nat)
    ensures ParseDecimal(Decimal(n)) == n
  {
    if n >= 10 {
      var s := Decimal(n);
      assert s[..|s| - 1] == Decimal(n / 10);
      DecimalRoundTrip(n / 10);
    }
  }

  /** The enum variant's stem: `SelfRef` for a relation to the entity itself, else the table in UpperCamelCase. */
  function EnumBase(rel: Relation, naming: Naming): string {
    if rel.selfReferencing then "SelfRef" else naming.upperCamel(rel.refTable)
  }

  /**
   * `get_enum_name`: the stem, followed by the numeric suffix exactly when it is positive; the
   * characters after the stem are the suffix's decimal digits.
   */
  function EnumName(rel: Relation, naming: Naming): (name: string)
    ensures var base := EnumBase(rel, naming);
      && |base| <= |name| && name[..|base|] == base
      && (rel.numSuffix == 0 <==> name == base)
      && (rel.numSuffix > 0 ==> AllDigits(name[|base|..]) && ParseDecimal(name[|base|..]) == rel.numSuffix)
  {
    var base := EnumBase(rel, naming);
    if rel.numSuffix > 0 then
      var digits := Decimal(rel.numSuffix);
      DecimalRoundTrip(rel.numSuffix);
      assert (base + digits)[|base|..] == digits;
      base + digits
    else base
  }

  /** Two relations with the same stem but different suffixes get different variant names. */
  lemma {:induction false} SuffixesDisambiguate(r1: Relation, r2: Relation, naming: Naming)
    requires EnumBase(r1, naming) == EnumBase(r2, naming)
    requires r1.numSuffix != r2.numSuffix
    ensures EnumName(r1, naming) != EnumName(r2, naming)
  {
  }

  /** `get_module_name`: none for a self-reference, else the escaped snake_case table name. */
  function ModuleName(rel: Relation, naming: Naming): (m: Option<string>)
    ensures m.None? <==> rel.selfReferencing
    ensures m.Some? ==> m.value == naming.escapeKeyword(naming.snake(rel.refTable))
  {
    if rel.selfReferencing then None else Some(naming.escapeKeyword(naming.snake(rel.refTable)))
  }

  /** `get_rel_type`: the builder method named after the relation kind; distinct kinds get distinct names. */
  function RelTypeName(t: RelationType): (s: string)
    ensures t == HasOne <==> s == "has_one"
    ensures t == HasMany <==> s == "has_many"
    ensures t == BelongsTo <==> s == "belongs_to"
  {
    match t
    case HasOne => "has_one"
    case HasMany => "has_many"
    case BelongsTo => "belongs_to"
  }

  /** `get_foreign_key_action`: the action's variant name. */
  function ActionName(a: ForeignKeyAction): (s: string)
    ensures a == Restrict <==> s == "Restrict"
    ensures a == Cascade <==> s == "Cascade"
    ensures a == SetNull <==> s == "SetNull"
    ensures a == NoAction <==> s == "NoAction"
    ensures a == SetDefault <==> s == "SetDefault"
  {
    match a
    case Restrict => "Restrict"
    case Cascade => "Cascade"
    case SetNull => "SetNull"
    case NoAction => "NoAction"
    case SetDefault => "SetDefault"
  }

  /** Every name converted to UpperCamelCase, keeping their number and order. */
  function CamelCase(naming: Naming, names: seq<string>): (r: seq<string>)
    ensures |r| == |names|
    ensures forall i :: 0 <= i < |names| ==> r[i] == naming.upperCamel(names[i])
  {
    seq(|names|, i requires 0 <= i < |names| => naming.upperCamel(names[i]))
  }

  /** `get_column_camel_case`. */
  function ColumnCamelCase(rel: Relation, naming: Naming): (r: seq<string>)
    ensures |r| == |rel.columns|
    ensures forall i :: 0 <= i < |r| ==> r[i] == naming.upperCamel(rel.columns[i])
  {
    CamelCase(naming, rel.columns)
  }

  /** `get_ref_column_camel_case`. */
  function RefColumnCamelCase(rel: Relation, naming: Naming): (r: seq<string>)
    ensures |r| == |rel.refColumns|
    ensures forall i :: 0 <= i < |r| ==> r[i] == naming.upperCamel(rel.refColumns[i])
  {
    CamelCase(naming, rel.refColumns)
  }

  /** Each item behind the same prefix. */
  function Prefixed(prefix: string, items: seq<string>): (r: seq<string>)
    ensures |r| == |items|
    ensures forall i :: 0 <= i < |items| ==> r[i] == prefix + items[i]
  {
    seq(|items|, i requires 0 <= i < |items| => prefix + items[i])
  }

  /** The items separated by `sep`. */
  function Join(items: seq<string>, sep: string): string {
    if items == [] then ""
    else if |items| == 1 then items[0]
    else items[0] + sep + Join(items[1..], sep)
  }

  /** Joining in order: every item occurs, in order, separated by `sep`, with one separator fewer than items. */
  lemma {:induction false} JoinPair(a: string, b: string, sep: string)
    ensures Join([a, b], sep) == a + sep + b
  {
    assert [a, b][1..] == [b];
  }

  /** The punctuation rule: no item or one item is written bare, two or more are parenthesised and comma-separated. */
  function Punctuate(items: seq<string>): (s: string)
    ensures items == [] ==> s == ""
    ensures |items| == 1 ==> s == items[0]
    ensures |items| >= 2 ==> s == "(" + Join(items, ", ") + ")"
  {
    if |items| <= 1 then Join(items, ", ") else "(" + Join(items, ", ") + ")"
  }

  /** The path in front of the related entity's items: `super::<module>::`, or nothing for a self-reference. */
  function ModulePrefix(rel: Relation, naming: Naming): (p: string)
    ensures rel.selfReferencing ==> p == ""
    ensures !rel.selfReferencing ==> p == "super::" + ModuleName(rel, naming).value + "::"
  {
    match ModuleName(rel, naming)
    case Some(m) => "super::" + m + "::"
    case None => ""
  }

  /**
   * `get_src_ref_columns`: `from` lists this entity's columns, `to` the related entity's
   * columns behind its module path, each punctuated.
   */
  function SrcRefColumns(rel: Relation, naming: Naming): (ft: (string, string))
    ensures ft.0 == Punctuate(Prefixed("Column::", ColumnCamelCase(rel, naming)))
    ensures ft.1 == Punctuate(Prefixed(ModulePrefix(rel, naming) + "Column::", RefColumnCamelCase(rel, naming)))
  {
    (Punctuate(Prefixed("Column::", ColumnCamelCase(rel, naming))),
     Punctuate(Prefixed(ModulePrefix(rel, naming) + "Column::", RefColumnCamelCase(rel, naming))))
  }

  /** A single-column foreign key is written bare; a composite one is parenthesised. */
  lemma ColumnListShape(rel: Relation, naming: Naming)
    ensures |rel.columns| == 1 ==> SrcRefColumns(rel, naming).0 == "Column::" + naming.upperCamel(rel.columns[0])
    ensures |rel.columns| == 2 ==> (SrcRefColumns(rel, naming).0 ==
      "(Column::" + naming.upperCamel(rel.columns[0]) + ", Column::" + naming.upperCamel(rel.columns[1]) + ")")
    ensures |rel.refColumns| == 1 ==> (SrcRefColumns(rel, naming).1 ==
      ModulePrefix(rel, naming) + "Column::" + naming.upperCamel(rel.refColumns[0]))
  {
    var from := Prefixed("Column::", ColumnCamelCase(rel, naming));
    if |rel.columns| == 2 {
      assert from == [from[0], from[1]];
      JoinPair(from[0], from[1], ", ");
    }
  }

  /** The `RelationDef` expression `get_def` writes: builder method, target entity, and the columns if any. */
  datatype DefExpr = DefExpr(relMethod: string, refEntity: string, fromTo: Option<(string, string)>)

  /**
   * `get_def`: the related entity is reached through its module unless the relation is a
   * self-reference; only `belongs_to` names its columns.
   */
  function GetDef(rel: Relation, naming: Naming): (d: DefExpr)
    ensures d.relMethod == RelTypeName(rel.relType)
    ensures rel.selfReferencing ==> d.refEntity == "Entity"
    ensures !rel.selfReferencing ==> d.refEntity == "super::" + ModuleName(rel, naming).value + "::Entity"
    ensures d.fromTo.Some? <==> rel.relType == BelongsTo
    ensures d.fromTo.Some? ==> d.fromTo.value == SrcRefColumns(rel, naming)
  {
    var refEntity := ModulePrefix(rel, naming) + "Entity";
    match rel.relType
    case BelongsTo => DefExpr(RelTypeName(rel.relType), refEntity, Some(SrcRefColumns(rel, naming)))
    case _ => DefExpr(RelTypeName(rel.relType), refEntity, None)
  }

  /** The text of a `RelationDef` expression. */
  function RenderDef(d: DefExpr): (s: string)
    ensures var head := "Entity::" + d.relMethod + "(" + d.refEntity + ")";
      && |s| >= |head| + 7 && s[..|head|] == head && s[|s| - 7..] == ".into()"
      && (d.fromTo.None? <==> |s| == |head| + 7)
  {
    "Entity::" + d.relMethod + "(" + d.refEntity + ")"
    + (match d.fromTo
       case Some(ft) => ".from(" + ft.0 + ")" + ".to(" + ft.1 + ")"
       case None => "")
    + ".into()"
  }

  /** One `key = "value"` argument of the attribute. */
  datatype AttrArg = AttrArg(key: string, value: string)

  /** The `on_update` / `on_delete` arguments: present exactly when the action is. */
  function ActionArg(key: string, action: Option<ForeignKeyAction>): (args: seq<AttrArg>)
    ensures |args| == (if action.Some? then 1 else 0)
    ensures action.Some? ==> args[0] == AttrArg(key, ActionName(action.value))
  {
    match action
    case Some(a) => [AttrArg(key, ActionName(a))]
    case None => []
  }

  predicate HasKey(args: seq<AttrArg>, key: string) {
    exists i :: 0 <= i < |args| && args[i].key == key
  }

  /**
   * `get_attrs`: the relation kind names the related entity; `belongs_to` adds `from` and `to`,
   * then `on_update` and `on_delete` for the foreign-key actions that are set.
   */
  function GetAttrs(rel: Relation, naming: Naming): (args: seq<AttrArg>)
    ensures |args| >= 1 && args[0] == AttrArg(RelTypeName(rel.relType), ModulePrefix(rel, naming) + "Entity")
    ensures rel.relType != BelongsTo ==> |args| == 1
    ensures rel.relType == BelongsTo ==>
      args == [args[0], AttrArg("from", SrcRefColumns(rel, naming).0), AttrArg("to", SrcRefColumns(rel, naming).1)]
              + ActionArg("on_update", rel.onUpdate) + ActionArg("on_delete", rel.onDelete)
  {
    var head := AttrArg(RelTypeName(rel.relType), ModulePrefix(rel, naming) + "Entity");
    match rel.relType
    case BelongsTo =>
      var (from, to) := SrcRefColumns(rel, naming);
      [head, AttrArg("from", from), AttrArg("to", to)] + ActionArg("on_update", rel.onUpdate) + ActionArg("on_delete", rel.onDelete)
    case _ => [head]
  }

  /**
   * The attribute names each argument once; `on_update` and `on_delete` appear exactly when the
   * relation is `belongs_to` and the action is set, and then carry the action's name.
   */
  lemma AttrKeys(rel: Relation, naming: Naming)
    ensures var args := GetAttrs(rel, naming);
      && (HasKey(args, "on_update") <==> rel.relType == BelongsTo && rel.onUpdate.Some?)
      && (HasKey(args, "on_delete") <==> rel.relType == BelongsTo && rel.onDelete.Some?)
      && (forall i :: 0 <= i < |args| && args[i].key == "on_update" ==> args[i].value == ActionName(rel.onUpdate.value))
      && (forall i :: 0 <= i < |args| && args[i].key == "on_delete" ==> args[i].value == ActionName(rel.onDelete.value))
      && (forall i, j :: 0 <= i < j < |args| ==> args[i].key != args[j].key)
  {
    if rel.relType == BelongsTo {
      BelongsToAttrKeys(rel, naming);
    } else {
      assert GetAttrs(rel, naming)[0].key == "has_one" || GetAttrs(rel, naming)[0].key == "has_many";
    }
  }

  /** The `belongs_to` case of `AttrKeys`: after `belongs_to`, `from` and `to` come the actions that are set. */
  lemma BelongsToAttrKeys(rel: Relation, naming: Naming)
    requires rel.relType == BelongsTo
    ensures var args := GetAttrs(rel, naming);
      && (HasKey(args, "on_update") <==> rel.relType == BelongsTo && rel.onUpdate.Some?)
      && (HasKey(args, "on_delete") <==> rel.relType == BelongsTo && rel.onDelete.Some?)
      && (forall i :: 0 <= i < |args| && args[i].key == "on_update" ==> args[i].value == ActionName(rel.onUpdate.value))
      && (forall i :: 0 <= i < |args| && args[i].key == "on_delete" ==> args[i].value == ActionName(rel.onDelete.value))
      && (forall i, j :: 0 <= i < j < |args| ==> args[i].key != args[j].key)
  {
    var args := GetAttrs(rel, naming);
    var upd := ActionArg("on_update", rel.onUpdate);
    var del := ActionArg("on_delete", rel.onDelete);
    assert args[0].key == "belongs_to" && args[1].key == "from" && args[2].key == "to";
    assert forall i :: 3 <= i < |args| ==> args[i] == (upd + del)[i - 3];
    ActionArgKeys(args, rel.onUpdate, rel.onDelete);
  }

  /**
   * The keys of `belongs_to`, `from`, `to` followed by the arguments of the actions that are set:
   * each action's key is there exactly when the action is, with its name, and no key repeats.
   */
  lemma ActionArgKeys(args: seq<AttrArg>, onUpdate: Option<ForeignKeyAction>, onDelete: Option<ForeignKeyAction>)
    requires |args| == 3 + (if onUpdate.Some? then 1 else 0) + (if onDelete.Some? then 1 else 0)
    requires args[0].key == "belongs_to" && args[1].key == "from" && args[2].key == "to"
    requires onUpdate.Some? ==> args[3] == AttrArg("on_update", ActionName(onUpdate.value))
    requires onDelete.Some? ==> args[|args| - 1] == AttrArg("on_delete", ActionName(onDelete.value))
    ensures HasKey(args, "on_update") <==> onUpdate.Some?
    ensures HasKey(args, "on_delete") <==> onDelete.Some?
    ensures forall i :: 0 <= i < |args| && args[i].key == "on_update" ==> args[i].value == ActionName(onUpdate.value)
    ensures forall i :: 0 <= i < |args| && args[i].key == "on_delete" ==> args[i].value == ActionName(onDelete.value)
    ensures forall i, j :: 0 <= i < j < |args| ==> args[i].key != args[j].key
  {
    var names := ["belongs_to", "from", "to", "on_update", "on_delete"];
    assert forall a, b :: 0 <= a < b < 5 ==> names[a] != names[b];
    if onUpdate.Some? {
      assert args[3].key == "on_update";
    }
    if onDelete.Some? {
      assert args[|args| - 1].key == "on_delete";
    }
  }

  function Quote(s: string): string {
    "\"" + s + "\""
  }

  function RenderArgs(args: seq<AttrArg>): (r: seq<string>)
    ensures |r| == |args|
  {
    seq(|args|, i requires 0 <= i < |args| => args[i].key + " = " + Quote(args[i].value))
  }

  /** The text of the attribute; the `belongs_to` form ends its argument list with a comma. */
  function RenderAttrs(rel: Relation, naming: Naming): (s: string)
    ensures |s| >= 12 && s[..10] == "#[sea_orm(" && s[|s| - 2..] == ")]"
    ensures rel.relType != BelongsTo ==>
      s == "#[sea_orm(" + RelTypeName(rel.relType) + " = " + Quote(ModulePrefix(rel, naming) + "Entity") + ")]"
    ensures rel.relType == BelongsTo ==> s[|s| - 3] == ','
  {
    var joined := Join(RenderArgs(GetAttrs(rel, naming)), ", ");
    var inner := if rel.relType == BelongsTo then joined + "," else joined;
    assert rel.relType != BelongsTo ==> joined == RelTypeName(rel.relType) + " = " + Quote(ModulePrefix(rel, naming) + "Entity");
    "#[sea_orm(" + inner + ")]"
  }

  /** The foreign key of a table description, as the generator reads it. */
  datatype TableForeignKey = TableForeignKey(refTable: Option<string>, columns: seq<string>, refColumns: seq<string>,
                                             onDelete: Option<ForeignKeyAction>, onUpdate: Option<ForeignKeyAction>)

  /**
   * `From<&TableForeignKey>`: always a `belongs_to` relation that is not a self-reference, has no
   * suffix and implements `Related`; a key without a referenced table is a panic (the `Err` message).
   */
  function FromForeignKey(fk: TableForeignKey): (r: Result<Relation, string>)
    ensures r.Err? <==> fk.refTable.None?
    ensures r.Err? ==> r.error == "RefTable should not be empty"
    ensures r.Ok? ==> var rel := r.value;
      && rel.relType == BelongsTo && !rel.selfReferencing && rel.numSuffix == 0 && rel.implRelated
      && rel.refTable == fk.refTable.value && rel.columns == fk.columns && rel.refColumns == fk.refColumns
      && rel.onUpdate == fk.onUpdate && rel.onDelete == fk.onDelete
  {
    match fk.refTable
    case None => Err("RefTable should not be empty")
    case Some(t) => Ok(Relation(t, fk.columns, fk.refColumns, BelongsTo, fk.onUpdate, fk.onDelete, false, 0, true))
  }

  /**
   * A relation read from a foreign key is named after its table with no suffix, lives in the
   * table's module, and its definition and attribute carry `from` and `to` and its actions.
   */
  lemma ForeignKeyRelationShape(fk: TableForeignKey, naming: Naming)
    requires fk.refTable.Some?
    ensures var rel := FromForeignKey(fk).value;
      && EnumName(rel, naming) == naming.upperCamel(fk.refTable.value)
      && ModuleName(rel, naming) == Some(naming.escapeKeyword(naming.snake(fk.refTable.value)))
      && GetDef(rel, naming).fromTo.Some?
      && (HasKey(GetAttrs(rel, naming), "on_delete") <==> fk.onDelete.Some?)
      && (HasKey(GetAttrs(rel, naming), "on_update") <==> fk.onUpdate.Some?)
  {
    AttrKeys(FromForeignKey(fk).value, naming);
  }

  /**
   * A naming that knows the few names the examples below use: the case conversion of the
   * generator's dependency is not modelled, so it is given here as a table.
   */
  function ExampleNaming(): Naming {
    Naming(s => if s == "filling" then "Filling" else if s == "filling_id" then "FillingId"
                else if s == "id" then "Id" else if s == "fruit" then "Fruit"
                else if s == "cake_id" then "CakeId" else s,
           s => s, s => s)
  }

  /** The `belongs_to` relation from `cake_filling.filling_id` to `filling.id`, with both actions `Cascade`. */
  function FillingRelation(): Relation {
    Relation("filling", ["filling_id"], ["id"], BelongsTo, Some(Cascade), Some(Cascade), false, 0, true)
  }

  /** The names generated for the `filling` relation. */
  lemma FillingNamesExample()
    ensures EnumName(FillingRelation(), ExampleNaming()) == "Filling"
    ensures ModuleName(FillingRelation(), ExampleNaming()) == Some("filling")
    ensures ColumnCamelCase(FillingRelation(), ExampleNaming()) == ["FillingId"]
    ensures RefColumnCamelCase(FillingRelation(), ExampleNaming()) == ["Id"]
  {
  }

  /** The columns of the `filling` relation, each bare since the key has one column. */
  lemma FillingColumnsExample()
    ensures SrcRefColumns(FillingRelation(), ExampleNaming()) == ("Column::FillingId", "super::filling::Column::Id")
  {
    FillingNamesExample();
    var rel, n := FillingRelation(), ExampleNaming();
    assert "Column::" + "FillingId" == "Column::FillingId";
    assert "super::filling::" + "Column::" == "super::filling::Column::";
    assert "super::filling::Column::" + "Id" == "super::filling::Column::Id";
    var from := Prefixed("Column::", ColumnCamelCase(rel, n));
    assert from[0] == "Column::FillingId";
    assert from == ["Column::FillingId"];
    assert ModulePrefix(rel, n) == "super::filling::";
    var to := Prefixed(ModulePrefix(rel, n) + "Column::", RefColumnCamelCase(rel, n));
    assert to[0] == "super::filling::Column::Id";
    assert to == ["super::filling::Column::Id"];
  }

  /** The definition generated for the `filling` relation. */
  lemma FillingDefExample()
    ensures GetDef(FillingRelation(), ExampleNaming())
         == DefExpr("belongs_to", "super::filling::Entity", Some(("Column::FillingId", "super::filling::Column::Id")))
  {
    FillingColumnsExample();
    assert ModulePrefix(FillingRelation(), ExampleNaming()) == "super::filling::";
    assert "super::filling::" + "Entity" == "super::filling::Entity";
  }

  /** The attribute arguments generated for the `filling` relation, both actions included. */
  lemma FillingAttrsExample()
    ensures GetAttrs(FillingRelation(), ExampleNaming()) == [
      AttrArg("belongs_to", "super::filling::Entity"), AttrArg("from", "Column::FillingId"),
      AttrArg("to", "super::filling::Column::Id"), AttrArg("on_update", "Cascade"), AttrArg("on_delete", "Cascade")]
  {
    FillingColumnsExample();
    var rel, n := FillingRelation(), ExampleNaming();
    assert ModulePrefix(rel, n) == "super::filling::";
    assert "super::filling::" + "Entity" == "super::filling::Entity";
    assert ActionArg("on_update", rel.onUpdate) == [AttrArg("on_update", "Cascade")];
    assert ActionArg("on_delete", rel.onDelete) == [AttrArg("on_delete", "Cascade")];
  }

  /** The `has_one` relation from `cake.id` to `fruit.cake_id`, with no actions. */
  function FruitRelation(): Relation {
    Relation("fruit", ["id"], ["cake_id"], HasOne, None, None, false, 0, true)
  }

  /** The `has_one` relation to `fruit` renders without columns. */
  lemma FruitRelationExample()
    ensures RenderDef(GetDef(FruitRelation(), ExampleNaming())) == "Entity::has_one(super::fruit::Entity).into()"
  {
    FruitDefExample();
    FruitRenderExample();
  }

  /** The definition generated for the `fruit` relation: `has_one` of the sibling module's entity. */
  lemma FruitDefExample()
    ensures GetDef(FruitRelation(), ExampleNaming()) == DefExpr("has_one", "super::fruit::Entity", None)
  {
    assert ModulePrefix(FruitRelation(), ExampleNaming()) == "super::fruit::";
    assert "super::fruit::" + "Entity" == "super::fruit::Entity";
  }

  lemma FruitRenderExample()
    ensures RenderDef(DefExpr("has_one", "super::fruit::Entity", None)) == "Entity::has_one(super::fruit::Entity).into()"
  {
    assert "Entity::" + "has_one" + "(" == "Entity::has_one(";
    assert "Entity::has_one(" + "super::fruit::Entity" == "Entity::has_one(super::fruit::Entity";
    assert "Entity::has_one(super::fruit::Entity" + ")" + "" == "Entity::has_one(super::fruit::Entity)";
    assert "Entity::has_one(super::fruit::Entity)" + ".into()" == "Entity::has_one(super::fruit::Entity).into()";
  }

  /** The names generated for the `fruit` relation. */
  lemma FruitNamesExample()
    ensures EnumName(FruitRelation(), ExampleNaming()) == "Fruit"
    ensures RefColumnCamelCase(FruitRelation(), ExampleNaming()) == ["CakeId"]
  {
  }
}
