# SQLiteUtils statement assembly, in Dafny

This project models the SQL-building core of `SQLiteUtils`, a small Java
helper over JDBC/SQLite:

- the shared traversal `loopThroughSortedMap`;
- the type-dispatch binder `setValueForStatement`;
- the `QueryCriteria` predicate builder: private `add`, the twelve fluent
  methods, `toString`, `getValues`;
- the statement assemblers `createNewTable`, `insert`, `update`, the
  assembled `select` and `delete`.

Each assembler is a method that follows the Java code step by step, loop
for loop. `createNewTable` returns the SQL text. The other four return the
SQL text and the list of (position, value) binds they hand to
`setValueForStatement`. The contracts tie the text to separator-joined
closed forms (`Text.Join`). They tie the binds to their positions
(`Binding.BoundInOrder`, `Statements.Consecutive`). They also tie the
number of `?` placeholders to the number of binds.

Files and modules:

| file | module | contents |
|---|---|---|
| `text.dfy` | `Text` | `Join`, `Terminated`, placeholder counting |
| `sorted_maps.dfy` | `SortedMaps` | `SortedMap<V>` as a key-sorted entry sequence, `LoopThroughSortedMap` |
| `binding.dfy` | `Binding` | the `Value` runtime classes, setter calls, `SetValueForStatement` |
| `criteria.dfy` | `Criteria` | `QueryCriteria`, `Add`, the fluent methods, reference rendering |
| `statements.dfy` | `Statements` | the five assemblers and their binding loops |
| `warehouse_scenario.dfy` | `Examples` | the integration test's inputs worked through the closed forms |

Modelling choices:

- **Sorted maps.** A `SortedMap<String, V>` is a sequence of entries whose
  keys strictly increase under lexicographic character order. Iterating a
  `TreeMap` is walking that sequence.
- **The loop body.** `loopThroughSortedMap` takes a callback. The model
  returns the sequence of calls the callback receives, `(key, value, index,
  isLast)`. Each assembler then consumes that sequence in its own loop.
- **The builder.** A `QueryCriteria` is a value holding exactly the two
  Java buffers: the text and the value list. A fluent method "returns this"
  by returning the extended copy.
- **Bound values.** Each constructor of `Binding.Value` stands for the
  values that are an instance of one class: String, Double, Integer,
  `java.sql.Date` or BigDecimal, subclasses of the last two included. `Other`
  stands for every other value, `null` included.

Edge cases are kept exactly as the code behaves:

- an insert with no entries yields `INSERT INTO t(`;
- a select or delete with an empty criteria object ends in ` WHERE `, or in
  ` WHERE ;` for delete;
- an update with an empty SET map yields `UPDATE t SET `, or
  `UPDATE t SET  WHERE ...` when there are criteria.

Rejecting empty criteria at the API boundary would be safer. The Java code
does not reject them, and the model follows the code.

Table and column names are never escaped. A `?` inside a name therefore adds
a placeholder. `Examples.UnescapedColumnName` shows this for a one-clause
criteria object. Every "placeholders equal binds" contract therefore
assumes names without `?`.

## Model

| member | source | states |
|---|---|---|
| SortedMaps.LoopThroughSortedMap | src/main/java/com/gusenov/github/SQLiteUtils.java:86-99 | one visit per entry, in key order, with the entry's key and value; indices run 0..size-1; `isLast` holds for exactly the final entry |
| SortedMaps.SortedKeysDistinct | src/main/java/com/gusenov/github/SQLiteUtils.java:86-88 | a sorted map never yields the same key twice, so no column appears twice in any list the assemblers build from one map |
| Binding.SetValueForStatement | src/main/java/com/gusenov/github/SQLiteUtils.java:135-141 | a setter is called exactly when the value is a String, Double, Integer, Date or BigDecimal; the call carries the given index and transmits the value unchanged (`Transmitted` inverts it); any other class binds nothing |
| Binding.Issue | src/main/java/com/gusenov/github/SQLiteUtils.java:135-141 | when every bound value has a supported class, the setter calls match the binds one for one: same positions, same values, same order; otherwise strictly fewer setter calls than binds are made |
| Binding.IssueCoversSupported | src/main/java/com/gusenov/github/SQLiteUtils.java:135-141 | with unsupported values present, every setter call still transmits some supported bind (its position and value), and every supported bind still gets a setter call; only the unsupported positions stay unset |
| Criteria.Add | src/main/java/com/gusenov/github/SQLiteUtils.java:200-207 | the old text is a proper prefix of the new text (only extended, never modified); the value is appended at the end of the value list |
| Criteria.AddBalanced | src/main/java/com/gusenov/github/SQLiteUtils.java:200-207 | one `add` raises the placeholder count by one plus the `?`s in the column name; with a `?`-free column it keeps one value per placeholder |
| Criteria.ClauseTextPlaceholders | src/main/java/com/gusenov/github/SQLiteUtils.java:202-204 | each of the two clause formats holds one placeholder of its own plus those in the column name |
| Criteria.FluentFor | src/main/java/com/gusenov/github/SQLiteUtils.java:209-267 | the twelve fluent methods are in one-to-one correspondence with the pairs {AND, OR} × {=, <>, >, <, >=, <=} |
| Criteria.Apply | src/main/java/com/gusenov/github/SQLiteUtils.java:209-267 | every fluent call only extends the text and appends its value at the end of the value list |
| Criteria.ApplyExtendsBuild | src/main/java/com/gusenov/github/SQLiteUtils.java:209-267 | a fluent call on the builder for a clause list is the builder for that list extended by the call's clause, so chains of fluent calls are exactly the clause-list builds |
| Criteria.BuildRenders | src/main/java/com/gusenov/github/SQLiteUtils.java:184-274 | for any clause list, `toString` of the builder is the reference rendering `(A) c2 (B) c3 (C) ...`, and `getValues` holds the values in call order whatever the combinators |
| Criteria.BuildText | src/main/java/com/gusenov/github/SQLiteUtils.java:200-205 | by induction over the calls: the text buffer after any sequence of `add` calls is the reference rendering of the clauses |
| Criteria.BuildValues | src/main/java/com/gusenov/github/SQLiteUtils.java:187-191 | by induction over the calls: the value list after any sequence of `add` calls holds the clauses' values in call order |
| Criteria.BuildBalanced | src/main/java/com/gusenov/github/SQLiteUtils.java:200-267 | after k fluent calls with `?`-free column names, the value list has length k and the text holds exactly k placeholders |
| Criteria.FirstCombinatorIgnored | src/main/java/com/gusenov/github/SQLiteUtils.java:201-202 | the combinator of the first clause never reaches the text |
| Statements.BindVisits | src/main/java/com/gusenov/github/SQLiteUtils.java:158-163 | the binding loop body binds each visited value at offset + index + 1 |
| Statements.BindMap | src/main/java/com/gusenov/github/SQLiteUtils.java:301-314 | binding a whole map through the traversal binds its values in key order at positions offset+1, offset+2, ... |
| Statements.BindCriteriaValues | src/main/java/com/gusenov/github/SQLiteUtils.java:378-380 | the 1-based loop binds the i-th recorded criteria value (0-based) at position i+1 |
| Statements.BoundInOrderAppend | src/main/java/com/gusenov/github/SQLiteUtils.java:301-315 | SET binds at 1..N followed by criteria binds at N+1..N+M cover 1..N+M with no gap or overlap |
| Statements.CreateNewTable | src/main/java/com/gusenov/github/SQLiteUtils.java:112-123 | the text is the header, then the tab-indented `name type` declarations in key order joined by `,\n`, then `\n` when there is at least one column, then `);` |
| Statements.Insert | src/main/java/com/gusenov/github/SQLiteUtils.java:143-164 | a non-empty map gives `INSERT INTO t(c1, ..., cN) VALUES(?, ..., ?);` in key order; an empty map gives `INSERT INTO t(`; the i-th value is bound at i+1; with `?`-free names the placeholder count equals the bind count |
| Statements.InsertSql | src/main/java/com/gusenov/github/SQLiteUtils.java:144-154 | the two buffers built side by side close into the column list and the `VALUES` list on the last entry |
| Statements.InsertPlaceholders | src/main/java/com/gusenov/github/SQLiteUtils.java:144-154 | with `?`-free names an insert's text holds exactly one placeholder per column, and an empty insert's text holds none |
| Statements.Update | src/main/java/com/gusenov/github/SQLiteUtils.java:277-315 | `UPDATE t SET c1 = ?, ...` plus ` WHERE k1 = ? AND ...` only for non-empty criteria; SET values at 1..N, criteria values at N+1..N+M, consecutive; with `?`-free names the placeholder count equals the bind count |
| Statements.UpdateSql | src/main/java/com/gusenov/github/SQLiteUtils.java:278-297 | the SET loop yields the `, `-joined assignments and the WHERE loop the ` AND `-joined equalities, the latter only for a non-empty criteria map |
| Statements.UpdatePlaceholders | src/main/java/com/gusenov/github/SQLiteUtils.java:278-297 | with `?`-free names an update's text holds one placeholder per SET column plus one per criteria column |
| Statements.AssignmentsPlaceholders | src/main/java/com/gusenov/github/SQLiteUtils.java:283-294 | a joined list of `column = ?` assignments holds one placeholder per column |
| Statements.Select | src/main/java/com/gusenov/github/SQLiteUtils.java:360-380 | `SELECT c1, ..., cN FROM t WHERE <criteria>`, or `SELECT * FROM t WHERE <criteria>` for no columns; WHERE is always emitted; criteria values bound at 1..M in recorded order; balanced criteria and `?`-free names give one placeholder per bind |
| Statements.SelectPlaceholders | src/main/java/com/gusenov/github/SQLiteUtils.java:361-373 | the projection, table name and keywords add no placeholder to those of the criteria |
| Statements.ProjectionPlaceholders | src/main/java/com/gusenov/github/SQLiteUtils.java:362-372 | a projection of `?`-free column names holds no placeholder |
| Statements.Delete | src/main/java/com/gusenov/github/SQLiteUtils.java:402-410 | exactly `DELETE FROM t WHERE <criteria>;`, criteria values bound at 1..M in recorded order; balanced criteria and a `?`-free table name give one placeholder per bind |
| Statements.DeletePlaceholders | src/main/java/com/gusenov/github/SQLiteUtils.java:403 | the delete text holds exactly the criteria's placeholders when the table name holds none |
| Examples.WarehouseRowIsSorted | sqlite-utils/src/test/java/com/gusenov/github/SQLiteUtilsTest.java:57-61 | the test row's keys `capacity` and `name` form a sorted map in that order |
| Examples.WarehouseInsertText | sqlite-utils/src/test/java/com/gusenov/github/SQLiteUtilsTest.java:56-61 | the test's insert renders as `INSERT INTO warehouses(capacity, name) VALUES(?, ?);` |
| Examples.WarehouseUpdateText | sqlite-utils/src/test/java/com/gusenov/github/SQLiteUtilsTest.java:93-99 | the test's update renders as `UPDATE warehouses SET capacity = ?, name = ? WHERE id = ?` |
| Examples.CapacityCriteria | sqlite-utils/src/test/java/com/gusenov/github/SQLiteUtilsTest.java:110-111 | `andGreaterThan("capacity", 3600)` on a fresh builder gives the text `(capacity > ?)` and the value list `[3600]` |
| Examples.TwoClauseCriteria | src/main/java/com/gusenov/github/SQLiteUtils.java:200-207 | a second clause is led by its combinator and the first clause's is dropped: `(capacity > ?) OR (id <> ?)` |
| Examples.UnescapedColumnName | src/main/java/com/gusenov/github/SQLiteUtils.java:202 | a column name containing `?` is copied into the text unescaped and adds a second placeholder |

## Left out

- Connections: `connectOrCreateNewDatabase` and the driver metadata it logs. This is external driver I/O.
- Statement preparation and execution, and `ResultSet` iteration. This covers the raw-text `select` and the row-handler callbacks. The assemblers stop at the SQL text and the bind list they hand to the driver.
- The logger, its static initialiser and `FileHandler`, and the `catch` blocks that log and swallow exceptions. This is file I/O and diagnostics. In the model a loop body never throws, so the case where the traversal logs an exception and continues with the next entry is not modelled.
- `QueryCriteria.setValues`: it replaces the value list wholesale, which breaks the one-value-per-clause invariant. It is a plain setter outside the builder's fluent API.
- `toString` and `getValues` are the fields `sql` and `values` of `Criteria.QueryCriteria`. They are stated through `Criteria.BuildRenders` and the assemblers' contracts, not on their own.
- Double, Date and BigDecimal payloads are opaque data: a 64-bit pattern, milliseconds, and an unscaled value with a scale. Only their class decides how they are bound.
- Statements.BindVisits: positions are unbounded integers. Java's `int` overflow at 2^31 entries is not modelled.
- Maps built with a comparator other than the natural `String` order, such as `String.CASE_INSENSITIVE_ORDER` or a reversed order, are outside the model. `SortedMaps.SortedMap` admits only natural-order maps. The assemblers would follow that comparator's iteration order in the same way.
- SortedMaps.Less: characters compare as Unicode scalar values. `String.compareTo` compares UTF-16 code units, so keys with characters outside the Basic Multilingual Plane may order differently.
- `null` table, column or type names, which `String.format` would render as `null`, are not modelled. Names are strings.
- Statements.Insert, Statements.Update, Statements.Select, Statements.Delete: the "one placeholder per bind" clause holds only when table and column names contain no `?`. The code never escapes names, so the unconditional statement is false (see `Examples.UnescapedColumnName`).
- Criteria.BuildBalanced: for the same reason, "k calls give k placeholders" is stated for column names without `?`.
