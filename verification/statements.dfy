/** The statement assemblers of `SQLiteUtils`: each one builds SQL text with
    `?` placeholders and the list of (position, value) binds it hands to
    `setValueForStatement`. The loops follow the Java loops one for one;
    the contracts relate their output to separator-joined closed forms. */
module Statements {
  import opened Text
  import opened SortedMaps
  import opened Binding
  import opened Criteria

  /** A rendered statement: SQL text and the binds issued for it. */
  datatype Statement = Statement(sql: string, binds: seq<Bind>)

  /** Binds positions 1..n exactly once each, in order. */
  predicate Consecutive(binds: seq<Bind>) {
    forall i :: 0 <= i < |binds| ==> binds[i].position == i + 1
  }

  // ---------------------------------------------------------------------
  // Closed forms the loops are proved against

  /** One line of a column declaration list. */
  function ColumnDecl(e: Entry<string>): string {
    "\t" + e.key + " " + e.value
  }

  function ColumnDecls(m: seq<Entry<string>>): (r: seq<string>)
    ensures |r| == |m|
    ensures forall i :: 0 <= i < |m| ==> r[i] == ColumnDecl(m[i])
  {
    seq(|m|, i requires 0 <= i < |m| => ColumnDecl(m[i]))
  }

  /** `column = ?`, as used by both the SET list and the WHERE list of an
      update. */
  function Assignment(column: string): string {
    column + " = ?"
  }

  function Assignments(columns: seq<string>): (r: seq<string>)
    ensures |r| == |columns|
    ensures forall i :: 0 <= i < |columns| ==> r[i] == Assignment(columns[i])
  {
    seq(|columns|, i requires 0 <= i < |columns| => Assignment(columns[i]))
  }

  /** The projection of an assembled select, up to and including `FROM `. */
  function Projection(columns: seq<string>): string {
    if |columns| == 0 then "* FROM " else Join(columns, ", ") + " FROM "
  }

  lemma AssignmentsPlaceholders(columns: seq<string>, sep: string)
    requires NoPlaceholder(sep)
    requires NoPlaceholderIn(columns)
    ensures Placeholders(Join(Assignments(columns), sep)) == |columns|
  {
    var parts := Assignments(columns);
    forall i | 0 <= i < |parts|
      ensures Placeholders(parts[i]) == 1
    {
      AssignmentPlaceholders(columns[i]);
    }
    PlaceholdersJoin(parts, sep, 1);
  }

  lemma AssignmentPlaceholders(column: string)
    requires NoPlaceholder(column)
    ensures Placeholders(Assignment(column)) == 1
  {
    assert NoPlaceholder(" = ");
    NoPlaceholderCount(column);
    NoPlaceholderCount(" = ");
    MarkPlaceholders();
    assert Assignment(column) == column + " = " + "?";
    PlaceholdersConcat3(column, " = ", "?");
  }

  // ---------------------------------------------------------------------
  // Binding loops

  /** The binding body of insert and update: each visited entry's value at
      `offset + index + 1`. */
  method BindVisits(visits: seq<Visit<Value>>, offset: int) returns (binds: seq<Bind>)
    ensures |binds| == |visits|
    ensures forall i :: 0 <= i < |visits| ==>
      binds[i] == Bind(offset + visits[i].index + 1, visits[i].value)
  {
    binds := [];
    var i := 0;
    while i < |visits|
      invariant 0 <= i <= |visits|
      invariant |binds| == i
      invariant forall k :: 0 <= k < i ==>
        binds[k] == Bind(offset + visits[k].index + 1, visits[k].value)
    {
      binds := binds + [Bind(offset + visits[i].index + 1, visits[i].value)];
      i := i + 1;
    }
  }

  /** Binding all of a map's values, through the shared traversal. */
  method BindMap(m: SortedMap<Value>, offset: int) returns (binds: seq<Bind>)
    ensures BoundInOrder(binds, Values(m), offset)
  {
    var visits := LoopThroughSortedMap(m);
    binds := BindVisits(visits, offset);
  }

  /** The binding loop of select and delete: `for i in 1..size`, the value
      at `i - 1` bound at position `i`. */
  method BindCriteriaValues(values: seq<Value>) returns (binds: seq<Bind>)
    ensures BoundInOrder(binds, values, 0)
  {
    binds := [];
    var i := 1;
    while i <= |values|
      invariant 1 <= i <= |values| + 1
      invariant |binds| == i - 1
      invariant forall k :: 0 <= k < i - 1 ==> binds[k] == Bind(k + 1, values[k])
    {
      binds := binds + [Bind(i, values[i - 1])];
      i := i + 1;
    }
  }

  /** Binds of a second list placed right after those of a first list. */
  lemma BoundInOrderAppend(first: seq<Bind>, firstValues: seq<Value>, second: seq<Bind>, secondValues: seq<Value>)
    requires BoundInOrder(first, firstValues, 0)
    requires BoundInOrder(second, secondValues, |firstValues|)
    ensures (first + second)[..|firstValues|] == first
    ensures (first + second)[|firstValues|..] == second
    ensures Consecutive(first + second)
  {
  }

  // ---------------------------------------------------------------------
  // Assemblers

  /** `createNewTable`: one tab-indented declaration per column, in key
      order, separated by ",\n"; the last is followed by "\n". */
  method CreateNewTable(tableName: string, columns: SortedMap<string>) returns (sql: string)
    ensures sql == "CREATE TABLE IF NOT EXISTS " + tableName + " (\n"
                 + Join(ColumnDecls(columns), ",\n")
                 + (if |columns| == 0 then "" else "\n")
                 + ");"
  {
    var head := "CREATE TABLE IF NOT EXISTS " + tableName + " (\n";
    ghost var decls := ColumnDecls(columns);
    sql := head;
    var visits := LoopThroughSortedMap(columns);
    var i := 0;
    while i < |visits|
      invariant 0 <= i <= |visits|
      invariant i < |visits| ==> sql == head + Terminated(decls[..i], ",\n")
      invariant i == 0 ==> sql == head
      invariant 0 < i == |visits| ==> sql == head + Join(decls, ",\n") + "\n"
    {
      var v := visits[i];
      assert "\t" + v.key + " " + v.value == decls[i];
      sql := sql + ("\t" + v.key + " " + v.value);
      sql := sql + (if v.isLast then "\n" else ",\n");
      if v.isLast {
        JoinStep(head, decls, ",\n");
      } else {
        TerminatedStep(head, decls, i, ",\n");
      }
      i := i + 1;
    }
    if |visits| == 0 {
      assert sql == head + Join(decls, ",\n") + "" by {
        assert Join(decls, ",\n") == "";
      }
    }
    sql := sql + ");";
  }

  /** `insert`: the column list and the `VALUES(...)` list are built side
      by side and joined on the last entry. With no entries the statement
      stays at "INSERT INTO t(". */
  method Insert(tableName: string, values: SortedMap<Value>) returns (st: Statement)
    ensures |values| == 0 ==> st.sql == "INSERT INTO " + tableName + "("
    ensures |values| > 0 ==> st.sql == InsertText(tableName, Keys(values))
    ensures BoundInOrder(st.binds, Values(values), 0)
    ensures Consecutive(st.binds)
    ensures NoPlaceholder(tableName) && NoPlaceholderIn(Keys(values)) ==>
      Placeholders(st.sql) == |st.binds|
  {
    var sql := InsertSql(tableName, values);
    var binds := BindMap(values, 0);
    st := Statement(sql, binds);
    if NoPlaceholder(tableName) && NoPlaceholderIn(Keys(values)) {
      InsertPlaceholders(tableName, Keys(values));
    }
  }

  /** The text half of `insert`. */
  method InsertSql(tableName: string, values: SortedMap<Value>) returns (sql: string)
    ensures |values| == 0 ==> sql == "INSERT INTO " + tableName + "("
    ensures |values| > 0 ==> sql == InsertText(tableName, Keys(values))
  {
    var head := "INSERT INTO " + tableName + "(";
    ghost var keys := Keys(values);
    ghost var marks := Marks(|values|);
    sql := head;
    var sqlValues := "VALUES(";
    var visits := LoopThroughSortedMap(values);
    var i := 0;
    while i < |visits|
      invariant 0 <= i <= |visits|
      invariant i == 0 ==> sql == head
      invariant i < |visits| ==> sql == head + Terminated(keys[..i], ", ")
      invariant i < |visits| ==> sqlValues == "VALUES(" + Terminated(marks[..i], ", ")
      invariant 0 < i == |visits| ==> sql == InsertText(tableName, keys)
    {
      var v := visits[i];
      ghost var valuesBefore := sqlValues;
      sqlValues := sqlValues + (if v.isLast then "?);" else "?, ");
      sql := sql + v.key;
      sql := sql + (if v.isLast then ") " + sqlValues else ", ");
      if v.isLast {
        InsertLastTurn(tableName, keys);
      } else {
        TerminatedStep(head, keys, i, ", ");
        TerminatedStep("VALUES(", marks, i, ", ");
        assert valuesBefore + ("?" + ", ") == valuesBefore + "?" + ", ";
      }
      i := i + 1;
    }
  }

  /** The last turn of the insert loop closes both lists into the closed
      form. */
  lemma InsertLastTurn(tableName: string, keys: seq<string>)
    requires |keys| > 0
    ensures var n, head := |keys| - 1, "INSERT INTO " + tableName + "(";
      head + Terminated(keys[..n], ", ") + keys[n] + (") " + ("VALUES(" + Terminated(Marks(|keys|)[..n], ", ") + "?);"))
        == InsertText(tableName, keys)
  {
    var n, head, marks := |keys| - 1, "INSERT INTO " + tableName + "(", Marks(|keys|);
    JoinStep(head, keys, ", ");
    JoinStep("VALUES(", marks, ", ");
    var columnsSoFar, valuesSoFar := head + Terminated(keys[..n], ", "), "VALUES(" + Terminated(marks[..n], ", ");
    assert columnsSoFar + keys[n] + (") " + (valuesSoFar + "?);"))
        == columnsSoFar + keys[n] + ") " + (valuesSoFar + "?") + ");";
  }

  /** Closed form of a non-empty insert. */
  function InsertText(tableName: string, keys: seq<string>): string {
    "INSERT INTO " + tableName + "(" + Join(keys, ", ") + ") VALUES(" + Join(Marks(|keys|), ", ") + ");"
  }

  lemma InsertPlaceholders(tableName: string, keys: seq<string>)
    requires NoPlaceholder(tableName) && NoPlaceholderIn(keys)
    ensures Placeholders(InsertText(tableName, keys)) == |keys|
    ensures Placeholders("INSERT INTO " + tableName + "(") == 0
  {
    var head, columns, marks := "INSERT INTO " + tableName + "(", Join(keys, ", "), Join(Marks(|keys|), ", ");
    InsertHeadPlaceholders(tableName);
    NamesJoin(keys, ", ");
    MarksPlaceholders(|keys|);
    InsertLiterals();
    PlaceholdersConcat3(head, columns, ") VALUES(");
    PlaceholdersConcat3(head + columns + ") VALUES(", marks, ");");
  }

  lemma InsertHeadPlaceholders(tableName: string)
    requires NoPlaceholder(tableName)
    ensures Placeholders("INSERT INTO " + tableName + "(") == 0
  {
    NoPlaceholderCount(tableName);
    InsertLiterals();
    PlaceholdersConcat3("INSERT INTO ", tableName, "(");
  }

  lemma InsertLiterals()
    ensures Placeholders("INSERT INTO ") == 0 && Placeholders("(") == 0
    ensures Placeholders(") VALUES(") == 0 && Placeholders(");") == 0
  {
    assert NoPlaceholder("INSERT INTO ") && NoPlaceholder("(");
    assert NoPlaceholder(") VALUES(") && NoPlaceholder(");");
    NoPlaceholderCount("INSERT INTO ");
    NoPlaceholderCount("(");
    NoPlaceholderCount(") VALUES(");
    NoPlaceholderCount(");");
  }

  lemma MarksPlaceholders(n: nat)
    ensures Placeholders(Join(Marks(n), ", ")) == n
  {
    MarkPlaceholders();
    assert NoPlaceholder(", ");
    PlaceholdersJoin(Marks(n), ", ", 1);
  }

  /** `update`: the SET list in key order, then a WHERE list of equalities
      only when the criteria map is non-empty; SET values take positions
      1..N and criteria values N+1..N+M. */
  method Update(tableName: string, values: SortedMap<Value>, criterions: SortedMap<Value>)
    returns (st: Statement)
    ensures st.sql == UpdateText(tableName, Keys(values), Keys(criterions))
    ensures |st.binds| == |values| + |criterions|
    ensures BoundInOrder(st.binds[..|values|], Values(values), 0)
    ensures BoundInOrder(st.binds[|values|..], Values(criterions), |values|)
    ensures Consecutive(st.binds)
    ensures NoPlaceholder(tableName) && NoPlaceholderIn(Keys(values)) && NoPlaceholderIn(Keys(criterions)) ==>
      Placeholders(st.sql) == |st.binds|
  {
    var sql := UpdateSql(tableName, values, criterions);
    var setBinds := BindMap(values, 0);
    var whereBinds := [];
    if |criterions| > 0 {
      whereBinds := BindMap(criterions, |values|);
    }
    st := Statement(sql, setBinds + whereBinds);
    BoundInOrderAppend(setBinds, Values(values), whereBinds, Values(criterions));
    assert |st.binds| == |Keys(values)| + |Keys(criterions)|;
    UpdatePlaceholders(tableName, Keys(values), Keys(criterions));
  }

  /** The text half of `update`. */
  method UpdateSql(tableName: string, values: SortedMap<Value>, criterions: SortedMap<Value>)
    returns (sql: string)
    ensures sql == UpdateText(tableName, Keys(values), Keys(criterions))
  {
    var head := "UPDATE " + tableName + " SET ";
    ghost var sets := Assignments(Keys(values));
    sql := head;
    var visits := LoopThroughSortedMap(values);
    var i := 0;
    while i < |visits|
      invariant 0 <= i <= |visits|
      invariant i < |visits| ==> sql == head + Terminated(sets[..i], ", ")
      invariant i == |visits| ==> sql == head + Join(sets, ", ")
    {
      var v := visits[i];
      assert v.key + " = ?" == sets[i];
      sql := sql + (v.key + " = ?");
      sql := sql + (if v.isLast then "" else ", ");
      if v.isLast {
        JoinStep(head, sets, ", ");
      } else {
        TerminatedStep(head, sets, i, ", ");
      }
      i := i + 1;
    }
    ghost var setPart := sql;
    ghost var wheres := Assignments(Keys(criterions));
    if |criterions| > 0 {
      sql := sql + " WHERE ";
      var where := sql;
      var cvisits := LoopThroughSortedMap(criterions);
      var j := 0;
      while j < |cvisits|
        invariant 0 <= j <= |cvisits|
        invariant j < |cvisits| ==> sql == where + Terminated(wheres[..j], " AND ")
        invariant j == |cvisits| ==> sql == where + Join(wheres, " AND ")
      {
        var v := cvisits[j];
        assert v.key + " = ?" == wheres[j];
        sql := sql + (v.key + " = ?");
        sql := sql + (if v.isLast then "" else " AND ");
        if v.isLast {
          JoinStep(where, wheres, " AND ");
        } else {
          TerminatedStep(where, wheres, j, " AND ");
        }
        j := j + 1;
      }
      assert setPart + (" WHERE " + Join(wheres, " AND ")) == setPart + " WHERE " + Join(wheres, " AND ");
    }
  }

  /** Closed form of an update over the given SET and WHERE columns. */
  function UpdateText(tableName: string, setColumns: seq<string>, whereColumns: seq<string>): string {
    "UPDATE " + tableName + " SET " + Join(Assignments(setColumns), ", ")
      + (if |whereColumns| == 0 then "" else " WHERE " + Join(Assignments(whereColumns), " AND "))
  }

  lemma UpdatePlaceholders(tableName: string, setColumns: seq<string>, whereColumns: seq<string>)
    ensures NoPlaceholder(tableName) && NoPlaceholderIn(setColumns) && NoPlaceholderIn(whereColumns) ==>
      Placeholders(UpdateText(tableName, setColumns, whereColumns)) == |setColumns| + |whereColumns|
  {
    if NoPlaceholder(tableName) && NoPlaceholderIn(setColumns) && NoPlaceholderIn(whereColumns) {
      UpdatePlaceholdersFree(tableName, setColumns, whereColumns);
    }
  }

  lemma UpdatePlaceholdersFree(tableName: string, setColumns: seq<string>, whereColumns: seq<string>)
    requires NoPlaceholder(tableName) && NoPlaceholderIn(setColumns) && NoPlaceholderIn(whereColumns)
    ensures Placeholders(UpdateText(tableName, setColumns, whereColumns)) == |setColumns| + |whereColumns|
  {
    assert NoPlaceholder("UPDATE ") && NoPlaceholder(" SET ") && NoPlaceholder(" WHERE ");
    NoPlaceholderCount("UPDATE ");
    NoPlaceholderCount(" SET ");
    NoPlaceholderCount(" WHERE ");
    NoPlaceholderCount(tableName);
    assert NoPlaceholder(", ") && NoPlaceholder(" AND ");
    AssignmentsPlaceholders(setColumns, ", ");
    AssignmentsPlaceholders(whereColumns, " AND ");
    var setPart := "UPDATE " + tableName + " SET " + Join(Assignments(setColumns), ", ");
    PlaceholdersConcat3("UPDATE ", tableName, " SET ");
    PlaceholdersConcat("UPDATE " + tableName + " SET ", Join(Assignments(setColumns), ", "));
    if |whereColumns| > 0 {
      PlaceholdersConcat(" WHERE ", Join(Assignments(whereColumns), " AND "));
    }
    var wherePart := if |whereColumns| == 0 then "" else " WHERE " + Join(Assignments(whereColumns), " AND ");
    PlaceholdersConcat(setPart, wherePart);
  }

  /** Assembled `select`: the projection (or `*`), the table, and a WHERE
      that is always emitted, even for an empty criteria object. */
  method Select(tableName: string, columns: seq<string>, criterions: QueryCriteria) returns (st: Statement)
    ensures st.sql == "SELECT " + Projection(columns) + tableName + " WHERE " + criterions.ToString()
    ensures BoundInOrder(st.binds, criterions.GetValues(), 0)
    ensures Consecutive(st.binds)
    ensures Balanced(criterions) && NoPlaceholder(tableName) && NoPlaceholderIn(columns) ==>
      Placeholders(st.sql) == |st.binds|
  {
    var sql := "SELECT ";
    if |columns| > 0 {
      var i := 0;
      while i < |columns|
        invariant 0 <= i <= |columns|
        invariant i < |columns| ==> sql == "SELECT " + Terminated(columns[..i], ", ")
        invariant i == |columns| ==> sql == "SELECT " + Projection(columns)
      {
        if i != |columns| - 1 {
          TerminatedStep("SELECT ", columns, i, ", ");
          assert sql + (columns[i] + ", ") == sql + columns[i] + ", ";
          sql := sql + (columns[i] + ", ");
        } else {
          JoinStep("SELECT ", columns, ", ");
          assert sql + (columns[i] + " FROM ") == sql + columns[i] + " FROM ";
          assert "SELECT " + (Join(columns, ", ") + " FROM ") == "SELECT " + Join(columns, ", ") + " FROM ";
          sql := sql + (columns[i] + " FROM ");
        }
        i := i + 1;
      }
    } else {
      sql := sql + "* FROM ";
    }
    assert sql + (tableName + " WHERE " + criterions.ToString()) == sql + tableName + " WHERE " + criterions.ToString();
    sql := sql + (tableName + " WHERE " + criterions.ToString());
    var binds := BindCriteriaValues(criterions.GetValues());
    st := Statement(sql, binds);
    SelectPlaceholders(tableName, columns, criterions);
  }

  lemma SelectPlaceholders(tableName: string, columns: seq<string>, criterions: QueryCriteria)
    ensures Balanced(criterions) && NoPlaceholder(tableName) && NoPlaceholderIn(columns) ==>
      Placeholders("SELECT " + Projection(columns) + tableName + " WHERE " + criterions.sql) == |criterions.values|
  {
    if Balanced(criterions) && NoPlaceholder(tableName) && NoPlaceholderIn(columns) {
      var projection := Projection(columns);
      ProjectionPlaceholders(columns);
      assert NoPlaceholder("SELECT ") && NoPlaceholder(" WHERE ");
      NoPlaceholderCount("SELECT ");
      NoPlaceholderCount(" WHERE ");
      NoPlaceholderCount(tableName);
      PlaceholdersConcat("SELECT ", projection);
      PlaceholdersConcat3("SELECT " + projection, tableName, " WHERE ");
      PlaceholdersConcat("SELECT " + projection + tableName + " WHERE ", criterions.sql);
    }
  }

  lemma ProjectionPlaceholders(columns: seq<string>)
    requires NoPlaceholderIn(columns)
    ensures Placeholders(Projection(columns)) == 0
  {
    assert NoPlaceholder(" FROM ") && NoPlaceholder("* FROM ") && NoPlaceholder(", ");
    NoPlaceholderCount(" FROM ");
    NoPlaceholderCount("* FROM ");
    if |columns| > 0 {
      NamesJoin(columns, ", ");
      PlaceholdersConcat(Join(columns, ", "), " FROM ");
    }
  }

  /** `delete`: `DELETE FROM t WHERE <criteria>;`, criteria values bound at
      1..M in recorded order. */
  method Delete(tableName: string, criterions: QueryCriteria) returns (st: Statement)
    ensures st.sql == "DELETE FROM " + tableName + " WHERE " + criterions.ToString() + ";"
    ensures BoundInOrder(st.binds, criterions.GetValues(), 0)
    ensures Consecutive(st.binds)
    ensures Balanced(criterions) && NoPlaceholder(tableName) ==> Placeholders(st.sql) == |st.binds|
  {
    var sql := "DELETE FROM " + tableName + " WHERE " + criterions.ToString() + ";";
    var binds := BindCriteriaValues(criterions.GetValues());
    st := Statement(sql, binds);
    if Balanced(criterions) && NoPlaceholder(tableName) {
      DeletePlaceholders(tableName, criterions.sql);
    }
  }

  lemma DeletePlaceholders(tableName: string, criteria: string)
    requires NoPlaceholder(tableName)
    ensures Placeholders("DELETE FROM " + tableName + " WHERE " + criteria + ";") == Placeholders(criteria)
  {
    assert NoPlaceholder("DELETE FROM ") && NoPlaceholder(" WHERE ") && NoPlaceholder(";");
    NoPlaceholderCount("DELETE FROM ");
    NoPlaceholderCount(" WHERE ");
    NoPlaceholderCount(";");
    NoPlaceholderCount(tableName);
    PlaceholdersConcat3("DELETE FROM ", tableName, " WHERE ");
    PlaceholdersConcat3("DELETE FROM " + tableName + " WHERE ", criteria, ";");
  }
}
