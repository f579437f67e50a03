# sea-orm core, modelled in Dafny

This project models five parts of the sea-orm object-relational mapper and proves properties of each.

- **Active values and active models** (`active_value.dfy`, `active_model.dfy`). An `ActiveValue` is a column slot that is `Set`, `Unchanged` or `NotSet`. An active model holds one such slot per column. The model covers:
  - the `ActiveValue` accessors and state transitions;
  - primary-key extraction under the key's arity;
  - `is_changed`, `reset_all`, and JSON masking by key presence (`from_json`);
  - `set_from_json`, which keeps the primary key out of the JSON's reach;
  - hook ordering in `insert`/`update`/`save`/`delete`.
- **Selectors and result consolidation** (`selector.dfy`, `consolidate.dfy`).
  - `Selector::all` and `Selector::one` are modelled over a fallible row decoder, and so are the two- and three-model row decoders.
  - Consolidation groups `(parent, Option<child>)` rows by the parent's primary key. The hash-map algorithm is proved equal to a reference definition (one group per key, in first-seen order, children in row order, none lost). The legacy adjacent-rows algorithm is modelled beside it.
- **Entity base** (`base_entity.dfy`). This covers table references with an optional schema, the primary-key filters of `find_by_id` and `delete_by_id`, and the relation-builder constructors.
- **Transactions** (`transaction.dfy`). A `DatabaseTransaction` is a class over a shared `InnerConnection`. The connection is reduced to what the transaction logic sees:
  - its kind;
  - the driver's answer to each call;
  - a log of the calls made;
  - whether a row stream holds its lock.

  The model covers:
  - the order of begin and configuration steps on each backend;
  - commit and rollback, and the error kinds each failure reports;
  - the rollback queued by `Drop`, and `Drop`'s panic when that rollback fails;
  - nested transactions, and the `transaction` / `run` callback wrapper.
- **Code generation of relations** (`relation_codegen.dfy`). This covers the names and source text the entity generator writes for one relation:
  - the enum variant with its numeric suffix, and the module name;
  - the builder method, the column lists, the `RelationDef` expression and the `#[sea_orm(...)]` attribute arguments;
  - the conversion from a table's foreign key.

`scenarios.dfy` states and proves the model's results on the fixtures of the repository's tests: cakes with fruits and vendors, `cake_filling_price`, `filling` and the schema-qualified `collection`.

On a connection that is neither a driver, a mock nor a proxy (the `Disconnected` arm), `begin`, `commit` and `rollback` return a connection error with `?` while the transaction value, still marked open, goes out of scope. Its `Drop` then runs `start_rollback`, which fails with "Disconnected" again, and the `expect` in `Drop` panics with "Fail to rollback transaction". `BeginOn`, `Finish`, `CommitTx` and `RollbackTx` end in `Panicked(DropPanic)` there.

For the same reason, a driver failure of BEGIN, COMMIT or ROLLBACK leaves a queued rollback (`StartRollback`) in the connection's log after the failed call. The rollback is queued because the value is dropped while still open.

## Model

| member | source | states |
|---|---|---|
| ActiveValues.ActiveValue.TryAsRef | src/entity/active_model.rs:969-974 | the payload exists exactly when the slot is not `NotSet`, and it is the slot's value |
| ActiveValues.ActiveValue.Unwrap | src/entity/active_model.rs:886-891 | on a `Set` or `Unchanged` slot, the payload that `try_as_ref` sees; `NotSet` is the panic the caller must avoid |
| ActiveValues.ActiveValue.IntoValue | src/entity/active_model.rs:894-899 | present exactly when the slot is not `NotSet`, holding the converted payload |
| ActiveValues.ActiveValue.IntoWrappedValue | src/entity/active_model.rs:902-908 | keeps the state (Set/Unchanged/NotSet) and converts the payload |
| ActiveValues.ActiveValue.Reset | src/entity/active_model.rs:912-917 | same payload, never `Unchanged` afterwards, `NotSet` exactly when it was `NotSet` |
| ActiveValues.ActiveValue.SetIfNotEquals | src/entity/active_model.rs:946-954 | afterwards the payload is x; stays `Unchanged` iff it was `Unchanged(x)`, otherwise becomes `Set` |
| ActiveValues.ActiveValue.Lift | src/entity/active_model.rs:1012-1018 | same state, payload wrapped in `Some` |
| ActiveValues.IntoActiveValue | src/entity/active_model.rs:747-755 | a plain value always becomes `Set` of itself |
| ActiveValues.OptionIntoActiveValue | src/entity/active_model.rs:727-732 | `None` becomes `NotSet` (not `Set(None)`), `Some(v)` becomes `Set(Some(v))` |
| ActiveValues.NestedOptionIntoActiveValue | src/entity/active_model.rs:739-744 | the outer `None` becomes `NotSet`, the outer `Some(o)` becomes `Set(o)` |
| ActiveValues.ActiveValue.Eq | src/entity/active_model.rs:994-1005 | equal iff same state and equal payload, i.e. structural equality; equal slots agree on `Set` and `Unchanged` |
| ActiveValues.EqIsStructural | src/entity/active_model.rs:998-1005 | `PartialEq` holds iff the slots are identical; `Set` never equals `Unchanged` |
| ActiveValues.ResetIdempotent | src/entity/active_model.rs:912-917 | resetting twice equals resetting once |
| ActiveValues.SetIfNotEqualsIdempotent | src/entity/active_model.rs:946-954 | applying `set_if_not_equals(x)` twice equals applying it once |
| ActiveValues.Field.constructor | src/entity/active_model.rs:57-88 | a field holds the initial state |
| ActiveValues.Field.Take | src/entity/active_model.rs:874-879 | returns the old payload and leaves the slot `NotSet` |
| ActiveValues.Field.Reset | src/entity/active_model.rs:912-917 | the new state is the old state's `Reset` |
| ActiveValues.Field.SetIfNotEquals | src/entity/active_model.rs:946-954 | the new state is the old state's `SetIfNotEquals(x)` |
| ActiveValues.TakeTwice | src/entity/active_model.rs:874-879 | the first take returns the payload, the second returns nothing |
| ActiveValues.SetIfNotEqualsScenario | src/entity/active_model.rs:935-944 | "old" keeps `Unchanged("old")`; then "new" gives `Set("new")` |
| ActiveModels.IntoActiveModel | src/entity/active_model.rs:1488-1546 | one slot per column, each `Unchanged` with the model's value |
| ActiveModels.DefaultSlots | src/entity/active_model.rs:653-656 | one slot per column, all `NotSet` |
| ActiveModels.AnySet | src/entity/active_model.rs:618-621 | true iff some listed column is `Set` |
| ActiveModels.PrimaryKeyValueShape | src/entity/active_model.rs:159-200 | none iff the arity exceeds the key columns or a needed key column is `NotSet`; otherwise exactly the key payloads in key order, with `One`/`Two`/`Three` for arity 1/2/3 |
| ActiveModels.KeyPayloadsAt | src/entity/active_model.rs:159-200 | the i-th collected payload is the i-th key column's value |
| ActiveModels.ModelRoundTrip | src/entity/active_model.rs:146-151 | an active model from a row is unchanged, and `reset_all` makes every column `Set` with the row's value |
| ActiveModels.DefaultUntouched | src/entity/active_model.rs:146-151 | `reset_all` leaves an all-`NotSet` model as it is, and such a model is unchanged |
| ActiveModels.SetMakesChanged | src/entity/active_model.rs:618-621 | setting any column makes the model changed |
| ActiveModels.FromJson | src/entity/active_model.rs:554-616 | non-object JSON and decoding failures are JSON errors; otherwise a column is `Set` with the decoded value iff its name is a key of the object, else `NotSet` |
| ActiveModels.MaskSlot | src/entity/active_model.rs:603-611 | a column becomes `Set` with its value iff its key was present and it held a value; otherwise `NotSet` |
| ActiveModels.MaskByPresence | src/entity/active_model.rs:602-612 | every column is masked by its own presence flag, and the record still covers exactly the columns |
| ActiveModels.SaveFlow | src/entity/active_model.rs:307-318 | `insert`/`update` run the before-save hook, then the statement on the hook's output, then the after-save hook on the statement's returned model, whose result is the result; the first error stops the run and is the result |
| ActiveModels.DeleteFlow | src/entity/active_model.rs:507-518 | before-delete hook, then the DELETE on its output, then the after-delete hook on that same output; the first error (hook or DELETE) stops the run and is the result; success returns the DELETE's result |
| ActiveModels.DefaultBehavior | src/entity/active_model.rs:659-695 | every default hook passes its argument through unchanged: `before_save`, `before_delete` and `after_delete` return `Ok` of the record, `after_save` `Ok` of the model |
| ActiveModels.DefaultHooksAreTransparent | src/entity/active_model.rs:653-695 | with the default hooks, insert/update/delete return exactly what the statement returns |
| ActiveModels.ActiveModel.Default | src/entity/active_model.rs:135 | a new model with every column `NotSet` |
| ActiveModels.ActiveModel.Get | src/entity/active_model.rs:122-123 | the column's slot as it stands, without changing the model; a `Set` slot means `is_changed` holds |
| ActiveModels.ActiveModel.FromModel | src/entity/active_model.rs:1488-1546 | a new model with every column `Unchanged` |
| ActiveModels.ActiveModel.IsChanged | src/entity/active_model.rs:618-621 | true iff some slot is `Set` |
| ActiveModels.ActiveModel.SetColumn | src/entity/active_model.rs:126 | only that column changes, to `Set(v)` |
| ActiveModels.ActiveModel.NotSetColumn | src/entity/active_model.rs:129 | only that column changes, to `NotSet` |
| ActiveModels.ActiveModel.Take | src/entity/active_model.rs:120 | returns the column's slot and leaves only it `NotSet` |
| ActiveModels.ActiveModel.Reset | src/entity/active_model.rs:142 | only that column changes, to its reset state |
| ActiveModels.ActiveModel.ResetAll | src/entity/active_model.rs:146-151 | every slot is reset |
| ActiveModels.ActiveModel.GetPrimaryKeyValue | src/entity/active_model.rs:159-200 | returns the primary-key value that `PrimaryKeyValueShape` characterises |
| ActiveModels.ActiveModel.Save | src/entity/active_model.rs:442-460 | inserts iff some key column is `NotSet`, else updates; a success is returned as an unchanged active model |
| ActiveModels.ActiveModel.SetFromJson | src/entity/active_model.rs:523-552 | on success the key columns keep their old values (as `Set`) and the other columns come from `from_json`; on a JSON error the key columns are left `NotSet` and the rest untouched |
| ActiveModels.ActiveModel.TakePrimaryKey | src/entity/active_model.rs:532-536 | the backup holds each key column with its old slot, in key order; those slots become `NotSet` and the others are untouched |
| ActiveModels.ActiveModel.RestorePrimaryKey | src/entity/active_model.rs:541-547 | each backed-up key column gets its value back as `Set` (or `NotSet` if it had none); the other columns are untouched |
| Selectors.All | src/executor/select.rs:782-793 | a connection error passes through; the result succeeds iff every row decodes, then it holds each row's model in order; otherwise it is the first failing row's error |
| Selectors.One | src/executor/select.rs:769-780 | queries with `LIMIT 1`; no row gives `Ok(None)`, a row is decoded, and errors pass through |
| Selectors.FromRawTwo | src/executor/select.rs:142-155 | succeeds iff both decoders do; the first decoder's error takes precedence |
| Selectors.FromRawThree | src/executor/select.rs:157-172 | succeeds iff all three decoders do; errors are reported in A, B, C order |
| Consolidation.ConsolidateQueryResultOf | src/executor/select.rs:1155-1189 | the hash-map algorithm returns the reference grouping `Consolidated` |
| Consolidation.CollectChildren | src/executor/select.rs:1163-1178 | the fold maps exactly the keys seen to their `Some` children in row order |
| Consolidation.FoldRow | src/executor/select.rs:1164-1178 | the fold step adds the row's key, appends its `Some` child to that key's list, and leaves every other key as it was |
| Consolidation.EmitGroups | src/executor/select.rs:1180-1188 | the second pass emits one group per key at its first row |
| Consolidation.OneGroupPerKey | src/executor/select.rs:1155-1189 | every row's key has a group and no key has two |
| Consolidation.GroupsInFirstSeenOrder | src/executor/select.rs:1155-1189 | groups come out in the order their keys first appear |
| Consolidation.ChildrenInRowOrder | src/executor/select.rs:1163-1178 | a key's group holds its `Some` children in row order, empty when all its rows have `None` |
| Consolidation.ChildrenConserved | src/executor/select.rs:1155-1189 | the groups hold exactly as many children as there are `Some` rows |
| Consolidation.DistinctKeysDistinct | src/executor/select.rs:1163-1178 | the keys of the map are listed once each |
| Consolidation.ModelKeyFor | src/executor/select.rs:1097-1116 | arity 1 keys on the first key column, arity 2 on the first two, any other arity on all of them |
| Consolidation.KeyValue | src/executor/select.rs:1130-1152 | the key has the shape of the key kind (unit, pair or tuple) and holds the parent's value of each key column, in key-column order |
| Consolidation.TupleKey | src/executor/select.rs:1144-1152 | the tuple key is the values of the key columns, in order |
| Consolidation.KeyEqualIffColumnsEqual | src/executor/select.rs:1130-1152 | two parents share a key iff they agree on every key column |
| Consolidation.ConsolidateQueryResult | src/executor/select.rs:1090-1117 | groups by the key the arity dictates, as the reference grouping |
| Consolidation.ConsolidateOrderedRows | src/executor/select.rs:1191-1224 | the legacy loop returns `LegacyGroups`: adjacent rows with equal keys merge, and a `None` child always starts a new group |
| Consolidation.SameParent | src/executor/select.rs:1201-1209 | the parents of two rows are the same iff they agree on every key column |
| Consolidation.LegacyConservesChildren | src/executor/select.rs:1191-1224 | the legacy algorithm loses no child either |
| Entities.Declared | src/entity/base_entity.rs:18-30 | an entity without overrides has no schema and no comment |
| Entities.TableRefOf | src/entity/base_entity.rs:33-38 | schema-qualified iff the entity has a schema, always naming its table |
| Entities.Find | src/entity/base_entity.rs:172-174 | a SELECT of the entity's table with no condition |
| Entities.DeleteMany | src/entity/base_entity.rs:899-901 | a DELETE of the entity's table with no condition |
| Entities.KeyFilters | src/entity/base_entity.rs:273-280 | the i-th value is compared with the i-th key column |
| Entities.FilterByKey | src/entity/base_entity.rs:271-281 | the loop appends exactly those conditions to the statement |
| Entities.FindById | src/entity/base_entity.rs:267-282 | a SELECT of the table whose conditions pair the key's values with the key columns in order |
| Entities.DeleteById | src/entity/base_entity.rs:980-995 | a DELETE of the table whose conditions pair the key's values with the key columns in order |
| Entities.BelongsTo | src/entity/base_entity.rs:70-75 | a `HasOne` builder from this entity to the related one, not the owner |
| Entities.FromRel | src/entity/base_entity.rs:78-91 | the builder takes both tables and both column lists from the definition |
| Entities.HasOneOf | src/entity/base_entity.rs:78-83 | an owning `HasOne` builder over the reversed relation |
| Entities.HasManyOf | src/entity/base_entity.rs:86-91 | an owning `HasMany` builder over the reversed relation |
| Entities.RelationConstructorsDiffer | src/entity/base_entity.rs:70-91 | `has_one` and `has_many` differ only in kind; `belongs_to` is the one that does not own |
| Transactions.BeginAttempt | src/database/transaction.rs:32-91 | MySQL and SQLite configure before BEGIN, Postgres after; mock and proxy only begin; `Disconnected` fails; success iff no driver call fails |
| Transactions.ConfigThenBegin | src/database/transaction.rs:47-52 | MySQL and SQLite send the configuration first and BEGIN only when it succeeded |
| Transactions.BeginThenConfig | src/database/transaction.rs:55-66 | PostgreSQL sends BEGIN, then the configuration only if BEGIN succeeded |
| Transactions.EndAttempt | src/database/transaction.rs:119-194 | COMMIT or ROLLBACK is sent on every usable connection; a driver failure is the only failure besides `Disconnected` |
| Transactions.StatementAttempt | src/database/transaction.rs:249-430 | one call per statement; a failing driver gives an execution error for `Execute` and a query error for `QueryAll` |
| Transactions.StartRollbackAttempt | src/database/transaction.rs:198-231 | nothing when closed; "Dropping a locked Transaction" when the lock is held; fails iff open and (locked or `Disconnected`) |
| Transactions.FromDbErr | src/database/transaction.rs:550-557 | a database error is a connection error carrying it |
| Transactions.BackendOrdering | src/database/transaction.rs:46-84 | the exact call sequences of a successful begin on each backend |
| Transactions.ConfigFailureSkipsBegin | src/database/transaction.rs:47-52 | on MySQL and SQLite a failing configuration is an execution error and BEGIN is never sent |
| Transactions.InnerConnection.constructor | src/database/transaction.rs:17-22 | a connection with an empty log and a free lock |
| Transactions.InnerConnection.Call | src/database/transaction.rs:46-84 | records the call and returns the driver's answer |
| Transactions.InnerConnection.Lock | src/database/transaction.rs:441-453 | takes the lock, logging nothing |
| Transactions.InnerConnection.Unlock | src/database/transaction.rs:441-453 | releases the lock, logging nothing |
| Transactions.DatabaseTransaction.constructor | src/database/transaction.rs:39-44 | a new transaction is open |
| Transactions.DatabaseTransaction.QueueRollback | src/database/transaction.rs:198-231 | performs exactly `StartRollbackAttempt` and reports its error |
| Transactions.DatabaseTransaction.Drop | src/database/transaction.rs:234-238 | runs `start_rollback` and panics with "Fail to rollback transaction" iff it fails |
| Transactions.DatabaseTransaction.BeginOn | src/database/transaction.rs:32-91 | on success a new open transaction on the same connection; on a driver error the error plus a queued rollback; on `Disconnected` the drop panic |
| Transactions.DatabaseTransaction.ConfigThenBeginOn | src/database/transaction.rs:47-52 | sends the configuration, then BEGIN only if the configuration succeeded |
| Transactions.DatabaseTransaction.BeginThenConfigOn | src/database/transaction.rs:55-66 | sends BEGIN, then the configuration only if BEGIN succeeded |
| Transactions.DatabaseTransaction.Finish | src/database/transaction.rs:119-194 | the flag is cleared iff the backend succeeds; a driver failure returns the error and queues a rollback; `Disconnected` panics in `Drop` |
| Transactions.DatabaseTransaction.CommitTx | src/database/transaction.rs:119-154 | `Finish` with COMMIT |
| Transactions.DatabaseTransaction.RollbackTx | src/database/transaction.rs:159-194 | `Finish` with ROLLBACK |
| Transactions.DatabaseTransaction.RunStatement | src/database/transaction.rs:249-430 | performs exactly `StatementAttempt` under the lock, leaving the transaction open |
| Transactions.DatabaseTransaction.StreamRaw | src/database/transaction.rs:441-453 | the stream takes the connection's lock |
| Transactions.DatabaseTransaction.BeginNested | src/database/transaction.rs:459-484 | `begin` on the same connection and backend: the calls it logs, a driver failure's error with the queued rollback, the drop panic on `Disconnected` |
| Transactions.DatabaseTransaction.Run | src/database/transaction.rs:96-114 | commit on the callback's success and roll back on its error; a failing commit or rollback is `Connection`, the callback's error is `Transaction` |
| Transactions.DatabaseTransaction.TransactionWithConfig | src/database/transaction.rs:489-524 | the callback runs iff the nested begin succeeds; a begin failure is `Connection`; after a successful begin the callback's value or `Transaction` error on a clean commit/rollback, `Connection` when that commit or rollback fails; the log holds the begin's calls, the commit or rollback, and the rollback queued on failure |
| Transactions.MockCommitScenario | src/database/transaction.rs:77-80 | on a mock: begin, a statement, and commit are logged in that order, and the transaction ends closed |
| Transactions.LockedDropScenario | src/database/transaction.rs:226-229 | dropping a transaction while a nested stream holds the lock panics |
| Transactions.FailedCommitScenario | src/database/transaction.rs:119-126 | a failed MySQL COMMIT is a query error; the transaction stays open and a rollback is queued |
| CodegenRelations.Decimal | sea-orm-codegen/src/entity/relation.rs:30-41 | a nonempty string of digits without a leading zero |
| CodegenRelations.DecimalRoundTrip | sea-orm-codegen/src/entity/relation.rs:30-41 | the decimal suffix parses back to the number |
| CodegenRelations.EnumName | sea-orm-codegen/src/entity/relation.rs:30-41 | the stem, followed by the suffix's digits iff the suffix is nonzero |
| CodegenRelations.SuffixesDisambiguate | sea-orm-codegen/src/entity/relation.rs:30-41 | same stem, different suffix: different variant names |
| CodegenRelations.ModuleName | sea-orm-codegen/src/entity/relation.rs:43-52 | none iff self-referencing, otherwise the escaped snake-case table name |
| CodegenRelations.RelTypeName | sea-orm-codegen/src/entity/relation.rs:154-160 | each relation kind has its own builder method name |
| CodegenRelations.ActionName | sea-orm-codegen/src/entity/relation.rs:176-178 | each action is written as its own variant name, so distinct actions get distinct names |
| CodegenRelations.ColumnCamelCase | sea-orm-codegen/src/entity/relation.rs:162-167 | each column converted, in order, none added or dropped |
| CodegenRelations.RefColumnCamelCase | sea-orm-codegen/src/entity/relation.rs:169-174 | each referenced column converted, in order |
| CodegenRelations.Punctuate | sea-orm-codegen/src/entity/relation.rs:79-83 | no item gives nothing, one item is bare, two or more are parenthesised and comma-separated |
| CodegenRelations.SrcRefColumns | sea-orm-codegen/src/entity/relation.rs:180-208 | `from` lists this side's columns under `Column::`, `to` lists the related columns under the related module |
| CodegenRelations.ColumnListShape | sea-orm-codegen/src/entity/relation.rs:180-208 | a one-column key is written bare, a two-column key as a parenthesised pair |
| CodegenRelations.GetDef | sea-orm-codegen/src/entity/relation.rs:54-94 | the builder method matches the kind; the target is `Entity` for a self-reference, else the related module's; columns are present iff `belongs_to` |
| CodegenRelations.RenderDef | sea-orm-codegen/src/entity/relation.rs:54-94 | `Entity::<method>(<target>)` first and `.into()` last, with `.from(..).to(..)` between exactly when the columns are given |
| CodegenRelations.RenderAttrs | sea-orm-codegen/src/entity/relation.rs:96-152 | a `#[sea_orm(...)]` attribute; `has_one`/`has_many` write the single `kind = "target"` argument, `belongs_to` ends its list with a comma |
| CodegenRelations.GetAttrs | sea-orm-codegen/src/entity/relation.rs:96-152 | the head argument names the kind and target; only `belongs_to` adds from/to and the present actions |
| CodegenRelations.AttrKeys | sea-orm-codegen/src/entity/relation.rs:125-140 | `on_update`/`on_delete` appear iff `belongs_to` and the action is given, with the action's name; keys are distinct |
| CodegenRelations.FromForeignKey | sea-orm-codegen/src/entity/relation.rs:211-234 | fails with "RefTable should not be empty" iff there is no referenced table; otherwise a `belongs_to` relation with the key's columns and actions |
| CodegenRelations.ForeignKeyRelationShape | sea-orm-codegen/src/entity/relation.rs:211-234 | the relation built from a foreign key renders both actions as attribute arguments |
| CodegenRelations.FillingNamesExample | sea-orm-codegen/src/entity/relation.rs:281-296 | the `filling` relation is named `Filling`, module `filling` |
| CodegenRelations.FillingColumnsExample | sea-orm-codegen/src/entity/relation.rs:326-341 | its columns are `Column::FillingId` and `super::filling::Column::Id` |
| CodegenRelations.FillingDefExample | sea-orm-codegen/src/entity/relation.rs:299-315 | its definition is `belongs_to` of `super::filling::Entity` from `FillingId` to `Id` |
| CodegenRelations.FillingAttrsExample | sea-orm-codegen/src/entity/relation.rs:96-152 | its attribute has both `Cascade` actions |
| CodegenRelations.FruitRelationExample | sea-orm-codegen/src/entity/relation.rs:299-315 | the `has_one` relation to `fruit` renders as `Entity::has_one(super::fruit::Entity).into()` |
| CodegenRelations.FruitDefExample | sea-orm-codegen/src/entity/relation.rs:299-315 | the `fruit` relation is a `has_one` of `super::fruit::Entity` without columns |
| CodegenRelations.FruitNamesExample | sea-orm-codegen/src/entity/relation.rs:289-341 | the `fruit` relation is named `Fruit` and refers to the column `CakeId` |
| Scenarios.LinkedRepeated | src/executor/select.rs:1889-1915 | a repeated linked vendor is kept twice, and each cake's vendors stay in row order |
| Scenarios.InterleavedRowsTwoWays | src/executor/select.rs:1155-1224 | on non-adjacent rows the hash-map algorithm merges cake 1's fruits, while the legacy one splits them |
| Scenarios.EmptyRelated | src/executor/select.rs:1547-1579 | a cake without fruit keeps an empty group |
| Scenarios.CollectionTableRef | tests/common/features/collection_expanded.rs:7-13 | a schema-declaring entity is schema-qualified; `hello` is bare |
| Scenarios.DeleteByCompositeKey | src/entity/base_entity.rs:1012-1022 | `delete_by_id((1, 2))` filters `cake_id = 1 AND filling_id = 2` on `public.cake_filling_price` |
| Scenarios.Filling | src/tests_cfg/filling.rs:1-76 | the `filling` entity description is well formed |
| Scenarios.FillingLifecycle | src/entity/active_model.rs:1479-1485 | a default record is unchanged with no key; setting a column makes it changed |
| Scenarios.FillingSetFromJson | src/entity/active_model.rs:1392-1408 | `set_from_json` keeps the set id, sets the name, and leaves the missing column `NotSet` |

## Left out

- Real drivers (sqlx MySQL, Postgres and SQLite), the mock and proxy connections, async execution, the connection Mutex and query metrics are not modelled. A connection is its kind, a function giving each call's failure, a call log and a lock flag. Operations that would wait on the lock require it to be free.
- Transactions.BeginAttempt: the driver's `set_transaction_config` sits in driver code that is not part of this model. Its failure is modelled as an execution error.
- Transactions.StatementAttempt: the errors of the mock and proxy `execute`/`query_all` come from their own code. They are modelled as the driver's: execution errors for writes, query errors for reads.
- Transactions.DatabaseTransaction.Run: the callback's effects on the connection are not modelled. Only its result, `work`, is.
- Transactions.DatabaseTransaction.RunStatement: the rows and the execution result are not modelled, only success or the error. `query_one_raw`, `execute_unprepared` and `get_database_backend` follow the same pattern and are not modelled separately.
- The row stream (`src/database/stream/transaction.rs`) is not modelled beyond holding the lock.
- Statement building and rendering are left out. This covers SQL text for each backend, the column choice of INSERT and UPDATE, `exec_with_returning`, and every sea-query builder. Statements are values that list the table and the equality conditions.
- ActiveModels.FromJson: the merge of the JSON object over a dummy model's default values is left out, because serde is not modelled. Decoding is a parameter from the object to a model or error text.
- ModelKeyFor (Consolidation.ModelKeyFor): its precondition requires at least one key column for arity 1 and two for arity 2. The `unwrap` calls in src/executor/select.rs:1097-1116 panic when a primary-key iterator has fewer columns than the arity says; that panic is not modelled.
- ActiveModels.SaveFlow and ActiveModels.DeleteFlow: the database is a parameter giving each statement's result, and hooks are parameters too.
- `find_by_id` and `delete_by_id` panic with "primary key arity mismatch" when given more values than key columns. Callers must rule this out (`requires`), as sea-orm's primary-key value types guarantee.
- The `RelationDef::rev` and `RelationBuilder` internals live in `src/entity/relation.rs`, which is not part of this model. `HasOneOf`/`HasManyOf` take the already reversed definition.
- CodegenRelations: the `heck` case conversions and `escape_rust_keyword` are parameters (`Naming`). Token-stream spacing is not modelled, and rendered text uses single spaces.
- The value types, floating-point columns, JSON values and UUIDs are opaque type parameters.
- The remaining `EntityTrait` builders (`insert`, `insert_many`, `update`, `update_many`, `delete`) are left out. They only construct sea-query statements, covered by the note on statement building.
- `into_model`, `into_json`, `into_values`, `into_tuple`, `into_partial_model` and the paginators are left out. They choose a row decoder, and the model takes the decoder as a parameter.
