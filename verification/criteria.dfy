/** The `QueryCriteria` predicate builder.

    The builder holds exactly what the Java class holds: a text buffer and
    the list of values bound to it. Clauses are only ever appended. Being a
    value, a builder "returns itself" by returning its extended copy. */
module Criteria {
  import opened Text
  import opened Binding

  datatype Combinator = And | Or

  datatype Operator =
    | Equals | NotEqualTo | GreaterThan | LessThan
    | GreaterThanOrEqualTo | LessThanOrEqualTo

  function CombinatorText(comb: Combinator): string {
    match comb
    case And => "AND"
    case Or => "OR"
  }

  function OperatorText(op: Operator): string {
    match op
    case Equals => "="
    case NotEqualTo => "<>"
    case GreaterThan => ">"
    case LessThan => "<"
    case GreaterThanOrEqualTo => ">="
    case LessThanOrEqualTo => "<="
  }

  datatype QueryCriteria = QueryCriteria(sql: string, values: seq<Value>) {
    function ToString(): string { sql }
    function GetValues(): seq<Value> { values }
  }

  /** A freshly constructed builder. */
  const Empty: QueryCriteria := QueryCriteria("", [])

  /** One value per placeholder in the rendered text. */
  predicate Balanced(c: QueryCriteria) {
    Placeholders(c.sql) == |c.values|
  }

  /** One parenthesised comparison with its placeholder. */
  function Comparison(column: string, op: Operator): string {
    "(" + column + " " + OperatorText(op) + " ?)"
  }

  /** A comparison led by its combinator, as it follows earlier text. */
  function Joiner(comb: Combinator, column: string, op: Operator): string {
    " " + CombinatorText(comb) + " " + Comparison(column, op)
  }

  /** The private `add`: a combinator only in front of a clause that follows
      some earlier text, and the value appended to the value list. */
  function Add(c: QueryCriteria, comb: Combinator, column: string, op: Operator, value: Value)
    : (r: QueryCriteria)
    ensures c.sql <= r.sql
    ensures |r.sql| > |c.sql|
    ensures r.values == c.values + [value]
  {
    QueryCriteria(Extend(c.sql, comb, column, op), c.values + [value])
  }

  /** What `add` does to the text buffer: the first test is whether the
      buffer is still empty. */
  function Extend(sql: string, comb: Combinator, column: string, op: Operator): string {
    if sql == "" then Comparison(column, op) else sql + Joiner(comb, column, op)
  }

  /** `add` contributes its own placeholder plus whatever the unescaped
      column name holds, and one value; so with a placeholder-free column
      name it keeps a balanced builder balanced. */
  lemma AddBalanced(c: QueryCriteria, comb: Combinator, column: string, op: Operator, value: Value)
    ensures Placeholders(Add(c, comb, column, op, value).sql) == Placeholders(c.sql) + Placeholders(column) + 1
    ensures Balanced(c) && NoPlaceholder(column) ==> Balanced(Add(c, comb, column, op, value))
  {
    ClauseTextPlaceholders(comb, column, op);
    PlaceholdersConcat(c.sql, Joiner(comb, column, op));
    if NoPlaceholder(column) {
      NoPlaceholderCount(column);
    }
  }

  /** A comparison holds its own placeholder and those of the column name;
      the operator and combinator keywords hold none. */
  lemma ClauseTextPlaceholders(comb: Combinator, column: string, op: Operator)
    ensures Placeholders(Comparison(column, op)) == Placeholders(column) + 1
    ensures Placeholders(Joiner(comb, column, op)) == Placeholders(column) + 1
  {
    var opText, combText := OperatorText(op), CombinatorText(comb);
    assert NoPlaceholder(opText) && NoPlaceholder(combText);
    NoPlaceholderCount(opText);
    NoPlaceholderCount(combText);
    assert Placeholders(" ?)") == 1 by {
      assert " ?)"[1..] == "?)" && "?)"[1..] == ")" && ")"[1..] == "";
    }
    assert Placeholders("(") == 0 && Placeholders(" ") == 0;
    PlaceholdersConcat3("(", column, " ");
    PlaceholdersConcat3("(" + column + " ", opText, " ?)");
    PlaceholdersConcat3(" ", combText, " ");
    PlaceholdersConcat(" " + combText + " ", Comparison(column, op));
  }

  /** The twelve public fluent methods. */
  datatype Fluent =
    | AndEquals | AndNotEqualTo | AndGreaterThan | AndLessThan
    | AndGreaterThanOrEqualTo | AndLessThanOrEqualTo
    | OrEquals | OrNotEqualTo | OrGreaterThan | OrLessThan
    | OrGreaterThanOrEqualTo | OrLessThanOrEqualTo

  function CombinatorOf(f: Fluent): Combinator {
    match f
    case AndEquals | AndNotEqualTo | AndGreaterThan | AndLessThan
      | AndGreaterThanOrEqualTo | AndLessThanOrEqualTo => And
    case _ => Or
  }

  function OperatorOf(f: Fluent): Operator {
    match f
    case AndEquals | OrEquals => Equals
    case AndNotEqualTo | OrNotEqualTo => NotEqualTo
    case AndGreaterThan | OrGreaterThan => GreaterThan
    case AndLessThan | OrLessThan => LessThan
    case AndGreaterThanOrEqualTo | OrGreaterThanOrEqualTo => GreaterThanOrEqualTo
    case AndLessThanOrEqualTo | OrLessThanOrEqualTo => LessThanOrEqualTo
  }

  /** The fluent method for a (combinator, operator) pair: every one of the
      twelve pairs has exactly one method. */
  function FluentFor(comb: Combinator, op: Operator): (f: Fluent)
    ensures CombinatorOf(f) == comb && OperatorOf(f) == op
    ensures forall g :: CombinatorOf(g) == comb && OperatorOf(g) == op ==> g == f
  {
    match (comb, op)
    case (And, Equals) => AndEquals
    case (And, NotEqualTo) => AndNotEqualTo
    case (And, GreaterThan) => AndGreaterThan
    case (And, LessThan) => AndLessThan
    case (And, GreaterThanOrEqualTo) => AndGreaterThanOrEqualTo
    case (And, LessThanOrEqualTo) => AndLessThanOrEqualTo
    case (Or, Equals) => OrEquals
    case (Or, NotEqualTo) => OrNotEqualTo
    case (Or, GreaterThan) => OrGreaterThan
    case (Or, LessThan) => OrLessThan
    case (Or, GreaterThanOrEqualTo) => OrGreaterThanOrEqualTo
    case (Or, LessThanOrEqualTo) => OrLessThanOrEqualTo
  }

  /** Calling fluent method `f` on `c`. */
  function Apply(c: QueryCriteria, f: Fluent, column: string, value: Value): (r: QueryCriteria)
    ensures c.sql <= r.sql
    ensures r.values == c.values + [value]
  {
    Add(c, CombinatorOf(f), column, OperatorOf(f), value)
  }

  // ---------------------------------------------------------------------
  // Reference rendering of a clause list

  datatype Clause = Clause(comb: Combinator, column: string, op: Operator, value: Value)

  /** The expression `(A) c2 (B) c3 (C) ...`: the first clause's combinator
      is not rendered. */
  function Render(cs: seq<Clause>): string {
    if |cs| == 0 then "" else Comparison(cs[0].column, cs[0].op) + Continue(cs[1..])
  }

  /** The clauses after the first, each led by its combinator. */
  function Continue(cs: seq<Clause>): string
    decreases |cs|
  {
    if |cs| == 0 then "" else Joiner(cs[0].comb, cs[0].column, cs[0].op) + Continue(cs[1..])
  }

  function ValuesOf(cs: seq<Clause>): (r: seq<Value>)
    ensures |r| == |cs|
    ensures forall i :: 0 <= i < |cs| ==> r[i] == cs[i].value
  {
    seq(|cs|, i requires 0 <= i < |cs| => cs[i].value)
  }

  predicate ColumnsWithoutPlaceholders(cs: seq<Clause>) {
    forall i :: 0 <= i < |cs| ==> NoPlaceholder(cs[i].column)
  }

  /** The builder reached from a fresh one by adding the clauses in order;
      by `FluentFor`, that is calling for each clause the one fluent method
      with its combinator and operator. */
  function Build(cs: seq<Clause>): QueryCriteria
    decreases |cs|
  {
    if |cs| == 0 then Empty
    else
      var last := cs[|cs| - 1];
      Add(Build(cs[..|cs| - 1]), last.comb, last.column, last.op, last.value)
  }

  lemma {:induction false} ContinueSnoc(cs: seq<Clause>, x: Clause)
    ensures Continue(cs + [x]) == Continue(cs) + Joiner(x.comb, x.column, x.op)
    decreases |cs|
  {
    if |cs| == 0 {
      assert cs + [x] == [x];
    } else {
      assert (cs + [x])[0] == cs[0];
      assert (cs + [x])[1..] == cs[1..] + [x];
      ContinueSnoc(cs[1..], x);
      var first, rest, next := Joiner(cs[0].comb, cs[0].column, cs[0].op), Continue(cs[1..]), Joiner(x.comb, x.column, x.op);
      assert first + (rest + next) == first + rest + next;
    }
  }

  /** Building through the fluent API renders exactly the reference text and
      records the values in call order, whatever the combinators. */
  lemma BuildRenders(cs: seq<Clause>)
    ensures Build(cs).sql == Render(cs)
    ensures Build(cs).values == ValuesOf(cs)
  {
    BuildText(cs);
    BuildValues(cs);
  }

  lemma {:induction false} BuildText(cs: seq<Clause>)
    ensures Build(cs).sql == Render(cs)
    decreases |cs|
  {
    if |cs| > 0 {
      var prefix, last := cs[..|cs| - 1], cs[|cs| - 1];
      assert Build(cs).sql == Extend(Build(prefix).sql, last.comb, last.column, last.op);
      BuildText(prefix);
      RenderLast(cs);
    }
  }

  lemma {:induction false} BuildValues(cs: seq<Clause>)
    ensures Build(cs).values == ValuesOf(cs)
    decreases |cs|
  {
    if |cs| > 0 {
      var prefix, last := cs[..|cs| - 1], cs[|cs| - 1];
      assert Build(cs).values == Build(prefix).values + [last.value];
      BuildValues(prefix);
      assert ValuesOf(cs) == ValuesOf(prefix) + [last.value];
    }
  }

  /** Appending one clause to the reference rendering is what `add` does to
      the text buffer. */
  lemma RenderSnoc(cs: seq<Clause>, x: Clause)
    ensures Render(cs + [x]) == Extend(Render(cs), x.comb, x.column, x.op)
  {
    if |cs| == 0 {
      assert cs + [x] == [x];
    } else {
      assert (cs + [x])[0] == cs[0];
      assert (cs + [x])[1..] == cs[1..] + [x];
      ContinueSnoc(cs[1..], x);
      var head, rest, next := Comparison(cs[0].column, cs[0].op), Continue(cs[1..]), Joiner(x.comb, x.column, x.op);
      assert head + (rest + next) == head + rest + next;
      assert |Render(cs)| >= |head| > 0;
    }
  }

  lemma RenderLast(cs: seq<Clause>)
    requires |cs| > 0
    ensures Render(cs) == Extend(Render(cs[..|cs| - 1]), cs[|cs| - 1].comb, cs[|cs| - 1].column, cs[|cs| - 1].op)
  {
    assert cs == cs[..|cs| - 1] + [cs[|cs| - 1]];
    RenderSnoc(cs[..|cs| - 1], cs[|cs| - 1]);
  }

  /** After k fluent calls with placeholder-free column names, the text holds
      exactly k placeholders and the value list k values. */
  lemma {:induction false} BuildBalanced(cs: seq<Clause>)
    requires ColumnsWithoutPlaceholders(cs)
    ensures Balanced(Build(cs))
    ensures |Build(cs).values| == |cs|
    decreases |cs|
  {
    if |cs| > 0 {
      var prefix, last := cs[..|cs| - 1], cs[|cs| - 1];
      BuildBalanced(prefix);
      assert Build(cs) == Add(Build(prefix), last.comb, last.column, last.op, last.value);
      AddBalanced(Build(prefix), last.comb, last.column, last.op, last.value);
    }
  }

  /** A fluent call on a built criteria object is the build of the clause
      list extended by that call's clause: chains of fluent calls are
      exactly the builds. */
  lemma ApplyExtendsBuild(cs: seq<Clause>, f: Fluent, column: string, value: Value)
    ensures Apply(Build(cs), f, column, value)
         == Build(cs + [Clause(CombinatorOf(f), column, OperatorOf(f), value)])
  {
    var x := Clause(CombinatorOf(f), column, OperatorOf(f), value);
    assert (cs + [x])[..|cs|] == cs;
  }

  /** The first clause's combinator never reaches the text. */
  lemma FirstCombinatorIgnored(cs: seq<Clause>, comb: Combinator)
    requires |cs| > 0
    ensures Render([cs[0].(comb := comb)] + cs[1..]) == Render(cs)
  {
    assert ([cs[0].(comb := comb)] + cs[1..])[1..] == cs[1..];
  }
}
