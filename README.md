# simple-php-model-system, modelled in Dafny

`simple-php-model-system` is a small PHP active-record layer with two parts.

- **`AbstractModel`** is the base class of an entity bound to one table.
  - An instance holds an ordered map of column values (`data`) and an ordered set of dirty keys (`keysToModify`).
  - `set` and `mergeData` mark keys dirty only on a strict (`===`) change. `setData` replaces the map and leaves the dirty keys alone.
  - `save`, `saveBatch`, `update`, `delete`, `refresh` and the static finders build SQL text with `?` placeholders plus the list of values to bind, and hand both to the database.
- **`Database`** is a registry of connection instances, one per slot. An instance is constructed from a configuration, stores the block of the current environment, connects through PDO using a DSN built from that block, and refuses to run queries while it has no connection.

The model keeps the source's form.

- **`Database` and its static `$instances` table** become the classes `Connections.Database` and `Connections.Registry`, whose methods update their fields.
- **An entity** is the class `Models.Model`. It has the fields `data` and `keysToModify`, and the instance operations are its methods.
- **A concrete subclass** is a `Schema` value: its table, its primary key and its `transform` hook. The static operations take a `Schema` and the registry as parameters, instead of relying on late static binding and the global table.
- **The SQL texts** are pure functions in `SqlText` and `Statements`. The loops of `buildWhereClause`, `orderParam`, `getPrimaryKeyClause`, `update` and `saveBatch` are methods proved equal to those functions.
- **The database is an oracle.** `Answer` holds what the driver does with a statement: it either raises, or replies with a row count, an error code, the fetched rows and the last insert id. Every operation returns `sent`, the statement it hands to `Database::query`, so its text and bindings can be stated.

Modules:

- `common.dfy`: `Option`, `Result`, and the exceptions the source throws (`Error`).
- `php_arrays.dfy`: PHP values and ordered arrays.
  - `Value` has strict equality, which is PHP's `===`.
  - `Row` is an ordered map with distinct keys, and `KeyList` is an ordered set.
  - It defines lookup, update-or-append (`Put`) and the dirty-set insertion (`Mark`).
- `sql_text.dfy`: `implode`, placeholders, the where clause, the ORDER BY suffix, and counting `?` in a text.
- `connections.dfy`: the registry, the DSN, `connect`, `disconnect`, `query`.
- `records.dfy`: the dirty-tracking semantics of `set`, `mergeData` and `setData` as functions on a `Record`, with their lemmas.
- `statements.dfy`: the statement each operation sends, the primary-key clause, and the proof that every statement has as many `?` as bound values.
- `models.dfy`: the model class and the static operations.

## Model

| member | source | states |
|---|---|---|
| PhpArrays.Lookup | src/AbstractModel.php:74-77 | the value under a key is present exactly when the key is one of the array's keys |
| PhpArrays.LookupAt | src/AbstractModel.php:74-77 | the entry at position i is what a lookup of its key finds, because keys are distinct |
| PhpArrays.Put | src/AbstractModel.php:536 | assigning `$a[$k]` keeps the key order when `$k` is present and appends `$k` last when it is absent |
| PhpArrays.PutLookup | src/AbstractModel.php:536 | after assigning `$a[$k] = $v`, `$k` maps to `$v` and every other key keeps its value |
| PhpArrays.Mark | src/AbstractModel.php:537 | `$keysToModify[$k] = true` leaves the set unchanged when `$k` is already dirty, and otherwise appends `$k` at the end |
| SqlText.CountQJoin | src/AbstractModel.php:345-369 | with a separator free of `?`, the `?` count of an implode is the sum of its parts' counts |
| SqlText.CountQPlaceholders | src/AbstractModel.php:356 | `implode(sep, array_fill(0, n, '?'))` holds exactly n `?` |
| SqlText.BuildWhereClause | src/AbstractModel.php:336-373 | the loop returns the clause `WhereText(w)` (one condition per entry, in map order, joined by " AND ") and the bindings `WhereBinds(w)` (none for null, the elements for an array, else the value) |
| SqlText.WhereBalanced | src/AbstractModel.php:345-369 | for every where map whose column names contain no `?`, the clause has exactly as many `?` as there are bound values |
| SqlText.NullAndListConditions | src/AbstractModel.php:349-358 | `[x => null]` gives "`x` IS NULL" with nothing bound; `[x => [a, b]]` gives "`x` IN(?,?)" binding a then b |
| SqlText.OrderParam | src/AbstractModel.php:189-202 | the loop returns "" for an empty order map, and otherwise " ORDER BY " followed by "`column` direction" terms joined by ", " |
| Connections.ThirdReplacesSecond | src/Database.php:52-54 | THIRD_CONNECTION and SECOND_CONNECTION are both 0x2, so registering under the third slot replaces the second slot's instance and leaves the main slot alone |
| Connections.StoredConfig | src/Database.php:82-84 | an accepted config stores `database[currentDatabaseEnv]` when that environment exists, and nothing for a null config or a missing environment |
| Connections.NaturalRoundTrip | src/Database.php:117-124 | the `%d` digits of a natural number are all digits and read back as that number |
| Connections.DecimalRoundTrip | src/Database.php:117-124 | `%d` of any integer port reads back as that integer and contains no `;` |
| Connections.Dsn | src/Database.php:117-124 | the DSN starts with the adapter followed by `:dbname=` and ends with `;charset=` followed by the charset |
| Connections.DsnSettings | src/Database.php:117-124 | when no field contains `;`, the DSN splits at `;` (helper lemmas SplitPlain and SplitAfter) into exactly `adapter:dbname=name`, `host=host`, `port=<port as %d>`, `charset=charset` |
| Connections.Delivered | src/Database.php:179-191 | a connected query yields a statement exactly when the driver does not raise, and a raised driver error propagates |
| Connections.Database.constructor | src/Database.php:82-84 | a new instance holds the stored block and no connection |
| Connections.Database.Disconnect | src/Database.php:91-96 | whatever the state, the connection is null afterwards (so disconnecting twice is the same as once) |
| Connections.Database.Connect | src/Database.php:111-137 | with no stored config, LogicException and nothing changes; a driver refusal propagates and nothing changes; otherwise the handle is opened on the DSN with the block's user and password |
| Connections.Database.SetConnection | src/Database.php:142-145 | the given handle becomes the connection |
| Connections.Database.GetConnection | src/Database.php:147-154 | returns the handle exactly when connected, and otherwise throws "not connected" |
| Connections.Database.Query | src/Database.php:179-192 | throws "not connected" while the connection is null; otherwise returns what the driver answers |
| Connections.Registry.constructor | src/Database.php:49-50 | the instance table starts empty |
| Connections.Registry.NewDatabase | src/Database.php:75-86 | a non-null config lacking `database` or `currentDatabaseEnv` throws and registers nothing; otherwise a fresh unconnected instance holding the stored block replaces whatever the slot held |
| Connections.Registry.GetInstance | src/Database.php:161-173 | returns the slot's most recently registered instance exactly when the slot has one, and otherwise throws "never created" for that slot |
| Records.Replacing | src/AbstractModel.php:505-508 | `setData` makes the given map the data and leaves the dirty keys exactly as they were |
| Records.SetEffect | src/AbstractModel.php:530-538 | `set(k, v)` changes nothing exactly when the current value is `=== v`; otherwise k maps to v, every other key keeps its value, k is added to the dirty keys (at the end, if new), and there are then changes |
| Records.SetIdempotent | src/AbstractModel.php:530-538 | setting the same key to the same value twice is the same as setting it once |
| Records.MergeValues | src/AbstractModel.php:516-521 | after `mergeData(d)`, every key of d holds d's value and every key outside d keeps its earlier value |
| Records.MergeDirty | src/AbstractModel.php:516-521 | `mergeData(d)` keeps the earlier dirty keys as a prefix; a key is dirty afterwards exactly when it was dirty before, or it is in d with a value not `===` the earlier one |
| Records.MergeUnchanged | src/AbstractModel.php:516-538 | merging values that all equal the current ones changes neither the data nor the dirty keys |
| Records.MergeIdempotent | src/AbstractModel.php:516-521 | merging the same map twice is the same as merging it once |
| Statements.PkWhereLookup | src/AbstractModel.php:583-597 | the key clause's map holds a key column exactly when it is a key column present in the data (null included), with the data's value |
| Statements.PkWhereNull | src/AbstractModel.php:589-593 | a single key column whose value is null yields the map `[k => null]`, and so an IS NULL condition |
| Statements.InsertBalanced | src/AbstractModel.php:97-103 | the INSERT sent by `save` has one `?` per value of the data |
| Statements.BatchBalanced | src/AbstractModel.php:143-165 | when every row has the first instance's width, the multi-row INSERT has one `?` per value bound |
| Statements.UpdateBalanced | src/AbstractModel.php:390-411 | the UPDATE has one `?` per dirty value plus one per key-clause binding |
| Statements.SelectWhereBalanced | src/AbstractModel.php:379-388 | the SELECT of `findWhere` and `collectWhere` has as many `?` as bound values |
| Statements.DeleteWhereBalanced | src/AbstractModel.php:446-458 | the DELETE of `deleteWhere` has as many `?` as bound values |
| Statements.SelectAllBalanced | src/AbstractModel.php:178-184 | the SELECT of `fetchAll` has no `?` and binds nothing |
| Models.Outcome | src/Database.php:161-191 | a statement gets a reply exactly when the main slot has an instance, that instance is connected, and the driver does not raise |
| Models.SentTo | src/Database.php:161-173 | a statement reaches `query` exactly when the main slot has an instance |
| Models.Dispatch | src/AbstractModel.php:104 | `Database::getInstance()->query(...)`, as every operation calls it: the statement is handed over exactly when the main slot has an instance, and the outcome is `Outcome` (never created, not connected, the driver's error, or its reply) |
| Models.BackFillEffect | src/AbstractModel.php:109-114 | after `save`, only the key column can change, and it takes the inserted id exactly when the id is not '0', the key is a single column and its value was unset or null |
| Models.ValueRows | src/AbstractModel.php:162 | one value list per instance, each instance's `getValues()`, in order |
| Models.Model.constructor | src/AbstractModel.php:44-47 | a new entity has no fields and nothing dirty |
| Models.Model.GetKeys | src/AbstractModel.php:54-57 | the keys of the data, in order |
| Models.Model.GetValues | src/AbstractModel.php:64-67 | the values of the data, in key order |
| Models.Model.GetValue | src/AbstractModel.php:74-77 | the value stored under the key, and null when the key is absent |
| Models.Model.ToArray | src/AbstractModel.php:552-555 | the data, whose keys and values are `getKeys()` and `getValues()` |
| Models.Model.HasChanges | src/AbstractModel.php:82-85 | true exactly when some key is dirty |
| Models.Model.GetChangedKeys | src/AbstractModel.php:92-95 | the dirty keys, in the order they were first marked |
| Models.Model.GetTable | src/AbstractModel.php:483-486 | the table the concrete model class declares |
| Models.Model.GetKey | src/AbstractModel.php:491-498 | throws exactly when the key is composite; otherwise the key column's value |
| Models.Model.Set | src/AbstractModel.php:530-538 | the new data and dirty keys are `Setting` of the old ones (see Records.SetEffect) |
| Models.Model.MergeData | src/AbstractModel.php:516-521 | the loop leaves the data and dirty keys equal to `set` applied to each entry in order (see Records.MergeValues and Records.MergeDirty) |
| Models.Model.SetData | src/AbstractModel.php:505-508 | the data is replaced and the dirty keys are untouched |
| Models.Model.GetPrimaryKeyClause | src/AbstractModel.php:583-597 | the loop returns the where clause and bindings of the key columns present in the data, with a single key treated as a one-column list |
| Models.Model.Save | src/AbstractModel.php:97-117 | sends `INSERT INTO` the table with the keys unquoted and one `?` per value, binding the values in order; returns rowCount == 1; back-fills the key as BackFillEffect states; changes nothing when the query throws |
| Models.Model.Update | src/AbstractModel.php:390-421 | with nothing dirty, returns false and sends nothing; otherwise sends `UPDATE … SET` with the dirty keys in order, binding their current values and then the key clause's values; the dirty keys are cleared exactly when the result is true (rowCount == 1) |
| Models.Model.Delete | src/AbstractModel.php:471-481 | sends a DELETE on the key clause; succeeds exactly when the driver reports error code 00000, whatever the row count |
| Models.Model.Refresh | src/AbstractModel.php:557-577 | sends a SELECT … LIMIT 1 on the key clause; when a row comes back, the data becomes the transformed row and the result is true; when none comes back, the result is false and the data is unchanged; the dirty keys never change |
| Models.BuildOneFromQuery | src/AbstractModel.php:263-281 | sends the statement; returns a fresh entity built from the first row through `transform` and `setData`, with nothing dirty, exactly when a row came back |
| Models.BuildMultipleFromQuery | src/AbstractModel.php:228-257 | sends the statement; returns one fresh, clean entity per row, in row order, each holding the transformed row |
| Models.FindWhere | src/AbstractModel.php:379-388 | sends SELECT * … WHERE clause LIMIT 1 with the where bindings, and yields the first row as an entity, or null when no row comes back |
| Models.FindById | src/AbstractModel.php:208-222 | with a composite key, throws before any query; otherwise behaves as `findWhere([pk => value])` |
| Models.CollectWhere | src/AbstractModel.php:291-315 | sends SELECT * … WHERE clause; (no LIMIT) and yields one entity per row |
| Models.FetchAll | src/AbstractModel.php:178-184 | sends SELECT * FROM the table followed by the ORDER BY suffix, binding nothing, and yields one entity per row |
| Models.DeleteWhere | src/AbstractModel.php:446-458 | sends DELETE … WHERE clause with the where bindings; the result is error code == 00000 |
| Models.DeleteWherePrimary | src/AbstractModel.php:426-441 | with a composite key, throws before any query; otherwise behaves as `deleteWhere([pk => value])` |
| Models.DeleteAll | src/AbstractModel.php:460-469 | sends DELETE FROM the table, binding nothing; the result is error code == 00000 |
| Models.BatchTextStep | src/AbstractModel.php:158-163 | each loop pass appends one " (?, …)" group, followed by "," except after the last instance |
| Models.BatchQuery | src/AbstractModel.php:150-165 | the loop builds the first instance's table and keys, one " (?, …)" group per instance separated by ",", and every instance's values in instance order |
| Models.SaveBatch | src/AbstractModel.php:143-171 | no instances: returns true and sends nothing; otherwise one INSERT with the first instance's table and keys and one group per instance, binding all values row by row; returns rowCount == the number of instances |
| Models.UserRow | examples/User.php:22-39 | `User::create` stores user_uuid, first_name, last_name, date_of_birth in that order |
| Models.UserColumnList | tests/UserTest.php:33-35 | the four user columns implode to "user_uuid, first_name, last_name, date_of_birth" |
| Models.FourPlaceholders | tests/UserTest.php:33-35 | four placeholders implode to "?, ?, ?, ?" |
| Models.UserInsertStatement | tests/UserTest.php:33-41 | saving a freshly created user sends exactly the INSERT text and bindings the user test expects |

## Left out

- **The PDO driver** (`new PDO`, `prepare`, `execute`, `fetch`, `rowCount`, `errorCode`, `lastInsertId`) is modelled only as the `Answer` a caller supplies.
  - A connection handle is an opaque value. A refused connection is the `refusal` parameter of `Connect`.
  - How a database matches, orders or stores rows is not modelled. So the save → findById → toArray round trip and the ascending/descending order of `fetchAll` results are facts about the database, not about this code.
- **The `$statement === null` branches** of `save`, `update`, `delete`, `refresh`, the finders and the deletes are not modelled. `Database::query` never returns null: it returns the statement or throws.
- **`count()`** is not modelled. It is a driver call whose result is read through PHP's `(int)` cast.
- **`collectCursorWhere` and `generateMultipleFromQuery`** are lazy generators. The model materialises them as the list `BuildMultipleFromQuery` and `CollectWhere` return, so single-pass streaming is not captured.
- **The destructor** (`__destruct`) only calls `disconnect`, which is modelled.
- **`transform`** is a function carried by the `Schema` (the identity for `User`). An override that reads or changes the entity's own state is not modelled.
- **Integer array keys**, PHP's conversion of numeric-string keys to integers, and floating-point values are not modelled. Keys are strings and values are null, booleans, integers, strings and lists.
- **Reading a missing key** (`$this->data[$key]` in `set`, `update` and `getKey`) is modelled as null, which is what PHP yields. The warning PHP emits is not modelled.
- **Models.SaveBatch** takes a list of instances. A PHP array whose first key is not 0 makes `$instances[0]` undefined, and that case is not modelled.
- **Models.Model.Save** treats `lastInsertId` as a string. A driver that returns `false` instead is not modelled.
- **The `?` counting lemmas** (the `...Balanced` lemmas) require column and table names without `?`. The source interpolates names unchecked, so a name containing `?` would unbalance the statement.
- **`Connections.DbConfig`** holds the port as an integer. The repository's sample configuration (tests/config.dist.php:13) gives `'port' => '3306'`, a string that `%d` converts. That conversion of strings, including non-numeric ones, is not modelled.
- **`Connections.Database.Connect`** does not model the PDO attribute `ERRMODE_EXCEPTION`. It is what makes driver failures arrive as exceptions, which the model assumes throughout.
- **The test harness's query log, configuration loading and table setup** (under tests/) are not part of this model.

Where the code and its documentation differ, the model follows the code:

- An environment that is missing from `database` is not rejected by the constructor. Nothing is stored, and `connect` then throws LogicException.
- `setData` does not clear the dirty keys, so a dirty key need not be a key of the data.
- `save` back-fills the key when its value is unset *or null* (`isset`), not only when it is absent.
- Driver failures in `query` are exceptions, never a null statement.
