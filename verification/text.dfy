/** Plain text helpers shared by the SQL assemblers: separator joins and
    placeholder counting. SQL text is a `string`, that is a `seq<char>`. */
module Text {

  /** Number of positional placeholders `?` in a piece of SQL text. */
  function Placeholders(s: string): nat
    decreases |s|
  {
    if |s| == 0 then 0 else (if s[0] == '?' then 1 else 0) + Placeholders(s[1..])
  }

  lemma {:induction false} PlaceholdersConcat(a: string, b: string)
    ensures Placeholders(a + b) == Placeholders(a) + Placeholders(b)
    decreases |a|
  {
    if |a| > 0 {
      assert (a + b)[0] == a[0];
      assert (a + b)[1..] == a[1..] + b;
      PlaceholdersConcat(a[1..], b);
    } else {
      assert a + b == b;
    }
  }

  lemma PlaceholdersConcat3(a: string, b: string, c: string)
    ensures Placeholders(a + b + c) == Placeholders(a) + Placeholders(b) + Placeholders(c)
  {
    PlaceholdersConcat(a, b);
    PlaceholdersConcat(a + b, c);
  }

  /** The placeholder itself. */
  lemma MarkPlaceholders()
    ensures Placeholders("?") == 1
  {
    assert "?"[1..] == "";
  }

  /** `s` contributes no placeholder of its own (names are never escaped). */
  predicate NoPlaceholder(s: string) {
    '?' !in s
  }

  predicate NoPlaceholderIn(names: seq<string>) {
    forall i :: 0 <= i < |names| ==> NoPlaceholder(names[i])
  }

  lemma {:induction false} NoPlaceholderCount(s: string)
    requires NoPlaceholder(s)
    ensures Placeholders(s) == 0
    decreases |s|
  {
    if |s| > 0 {
      assert s[0] != '?';
      assert forall c :: c in s[1..] ==> c in s;
      NoPlaceholderCount(s[1..]);
    }
  }

  /** Reference rendering of a list: the parts with `sep` between
      neighbours and nothing before the first or after the last. */
  function Join(parts: seq<string>, sep: string): string
    decreases |parts|
  {
    if |parts| == 0 then ""
    else if |parts| == 1 then parts[0]
    else parts[0] + sep + Join(parts[1..], sep)
  }

  /** Every part followed by `sep`: what a loop that appends "part, " has
      produced before it reaches the last part. */
  function Terminated(parts: seq<string>, sep: string): string
    decreases |parts|
  {
    if |parts| == 0 then "" else parts[0] + sep + Terminated(parts[1..], sep)
  }

  /** `n` placeholder marks, the entries of a `VALUES(?, ..., ?)` list. */
  function Marks(n: nat): (r: seq<string>)
    ensures |r| == n
    ensures forall i :: 0 <= i < n ==> r[i] == "?"
  {
    seq(n, _ => "?")
  }

  lemma {:induction false} TerminatedSnoc(parts: seq<string>, x: string, sep: string)
    ensures Terminated(parts + [x], sep) == Terminated(parts, sep) + x + sep
    decreases |parts|
  {
    if |parts| == 0 {
      assert parts + [x] == [x];
      assert Terminated([x], sep) == x + sep + Terminated([], sep);
    } else {
      assert (parts + [x])[1..] == parts[1..] + [x];
      TerminatedSnoc(parts[1..], x, sep);
    }
  }

  /** Appending the last part without a separator closes a terminated
      prefix into a join. */
  lemma {:induction false} JoinSnoc(parts: seq<string>, x: string, sep: string)
    ensures Join(parts + [x], sep) == Terminated(parts, sep) + x
    decreases |parts|
  {
    if |parts| == 0 {
      assert parts + [x] == [x];
    } else if |parts| == 1 {
      assert parts + [x] == [parts[0], x];
      assert [parts[0], x][1..] == [x];
      assert Terminated(parts, sep) == parts[0] + sep + Terminated(parts[1..], sep);
    } else {
      assert (parts + [x])[1..] == parts[1..] + [x];
      JoinSnoc(parts[1..], x, sep);
    }
  }

  /** One turn of a loop that appends a part and then a separator. */
  lemma TerminatedStep(head: string, parts: seq<string>, i: nat, sep: string)
    requires i < |parts|
    ensures head + Terminated(parts[..i + 1], sep) == head + Terminated(parts[..i], sep) + parts[i] + sep
  {
    assert parts[..i + 1] == parts[..i] + [parts[i]];
    TerminatedSnoc(parts[..i], parts[i], sep);
    var t := Terminated(parts[..i], sep);
    assert t + parts[i] + sep == t + (parts[i] + sep);
    assert head + (t + (parts[i] + sep)) == head + t + (parts[i] + sep);
  }

  /** The last turn of that loop, which appends the part without a separator. */
  lemma JoinStep(head: string, parts: seq<string>, sep: string)
    requires |parts| > 0
    ensures head + Join(parts, sep) == head + Terminated(parts[..|parts| - 1], sep) + parts[|parts| - 1]
  {
    var n := |parts| - 1;
    assert parts == parts[..n] + [parts[n]];
    JoinSnoc(parts[..n], parts[n], sep);
  }

  /** A join of parts that each hold `k` placeholders, with a separator
      holding none, holds `k` placeholders per part. */
  lemma {:induction false} PlaceholdersJoin(parts: seq<string>, sep: string, k: nat)
    requires NoPlaceholder(sep)
    requires forall i :: 0 <= i < |parts| ==> Placeholders(parts[i]) == k
    ensures Placeholders(Join(parts, sep)) == k * |parts|
    decreases |parts|
  {
    if |parts| >= 2 {
      var rest := parts[1..];
      forall i | 0 <= i < |rest|
        ensures Placeholders(rest[i]) == k
      {
        assert rest[i] == parts[i + 1];
      }
      PlaceholdersJoin(rest, sep, k);
      NoPlaceholderCount(sep);
      assert Join(parts, sep) == parts[0] + sep + Join(rest, sep);
      PlaceholdersConcat3(parts[0], sep, Join(rest, sep));
      assert k * (|rest| + 1) == k * |rest| + k;
    }
  }

  /** A join of placeholder-free names is placeholder-free. */
  lemma NamesJoin(names: seq<string>, sep: string)
    requires NoPlaceholder(sep)
    requires NoPlaceholderIn(names)
    ensures Placeholders(Join(names, sep)) == 0
  {
    forall i | 0 <= i < |names|
      ensures Placeholders(names[i]) == 0
    {
      NoPlaceholderCount(names[i]);
    }
    PlaceholdersJoin(names, sep, 0);
  }
}
