/** The warehouse scenario of the repository's integration test, worked
    through the closed forms. */
module Examples {
  import opened Text
  import opened SortedMaps
  import opened Binding
  import opened Criteria
  import opened Statements

  /** `capacity` sorts before `name`, so a TreeMap holding both iterates in
      that order. */
  lemma WarehouseRowIsSorted()
    ensures Sorted([Entry("capacity", Int(3000)), Entry("name", Text("Raw Materials"))])
  {
    assert Less("capacity", "name");
  }

  lemma WarehouseInsertText()
    ensures InsertText("warehouses", ["capacity", "name"])
         == "INSERT INTO warehouses(capacity, name) VALUES(?, ?);"
  {
    var keys: seq<string> := ["capacity", "name"];
    assert keys[1..] == ["name"];
    var columns := Join(keys, ", ");
    assert columns == "capacity, name";
    var marks := Marks(2);
    assert marks == ["?", "?"] && marks[1..] == ["?"];
    var values := Join(marks, ", ");
    assert values == "?, ?";
    var head := "INSERT INTO " + "warehouses" + "(";
    assert head == "INSERT INTO warehouses(";
    var upToColumns := head + columns + ") VALUES(";
    assert upToColumns == "INSERT INTO warehouses(capacity, name) VALUES(";
    assert InsertText("warehouses", keys) == upToColumns + values + ");";
  }

  lemma WarehouseUpdateText()
    ensures UpdateText("warehouses", ["capacity", "name"], ["id"])
         == "UPDATE warehouses SET " + "capacity = ?, name = ?" + " WHERE id = ?"
  {
    var sets, wheres := Assignments(["capacity", "name"]), Assignments(["id"]);
    assert sets[0] == "capacity = ?" && sets[1] == "name = ?";
    assert sets == ["capacity = ?", "name = ?"];
    assert wheres[0] == "id = ?";
    assert wheres == ["id = ?"];
    assert Join(sets, ", ") == "capacity = ?" + ", " + Join(["name = ?"], ", ");
    assert Join(sets, ", ") == "capacity = ?, name = ?";
    assert Join(wheres, " AND ") == "id = ?";
    assert "UPDATE " + "warehouses" + " SET " == "UPDATE warehouses SET ";
    assert " WHERE " + "id = ?" == " WHERE id = ?";
  }

  /** `andGreaterThan("capacity", 3600)` on a fresh builder. */
  lemma CapacityCriteria()
    ensures Build([Clause(And, "capacity", GreaterThan, Int(3600))])
         == QueryCriteria("(capacity > ?)", [Int(3600)])
  {
    var cs := [Clause(And, "capacity", GreaterThan, Int(3600))];
    BuildRenders(cs);
    assert Render(cs) == Comparison("capacity", GreaterThan) + Continue([]) by {
      assert cs[1..] == [];
    }
    assert Comparison("capacity", GreaterThan) == "(capacity > ?)";
    assert ValuesOf(cs) == [Int(3600)];
  }

  /** A second clause is led by its combinator; the first one's is dropped. */
  lemma TwoClauseCriteria()
    ensures Build([Clause(Or, "capacity", GreaterThan, Int(3600)), Clause(Or, "id", NotEqualTo, Int(3))]).sql
         == "(capacity > ?) OR (id <> ?)"
  {
    var first := Clause(Or, "capacity", GreaterThan, Int(3600));
    var cs := [first, Clause(Or, "id", NotEqualTo, Int(3))];
    assert cs[..1] == [first];
    assert Build(cs) == Add(Build([first]), Or, "id", NotEqualTo, Int(3));
    BuildRenders([first]);
    assert Render([first]) == "(capacity > ?)" by {
      assert [first][1..] == [];
    }
    assert Joiner(Or, "id", NotEqualTo) == " OR (id <> ?)";
  }

  /** Column names are never escaped: a `?` inside one becomes a second
      placeholder, so the one-placeholder-per-value balance needs names
      without `?`. */
  lemma UnescapedColumnName()
    ensures Placeholders(Build([Clause(And, "a?", Equals, Int(1))]).sql) == 2
  {
    var cs := [Clause(And, "a?", Equals, Int(1))];
    BuildRenders(cs);
    assert Render(cs) == Comparison("a?", Equals) + Continue([]) by {
      assert cs[1..] == [];
    }
    ClauseTextPlaceholders(And, "a?", Equals);
    assert Placeholders("a?") == 1 by {
      assert "a?"[1..] == "?" && "?"[1..] == "";
    }
  }
}
