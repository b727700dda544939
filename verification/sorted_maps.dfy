/** `java.util.SortedMap<String, V>` in natural key order, as the assemblers
    see it: a sequence of entries whose keys strictly increase under
    lexicographic order on characters (`Less`), and the
    index/isLast traversal every assembler runs over it. */
module SortedMaps {

  datatype Entry<V> = Entry(key: string, value: V)

  /** Lexicographic order on characters compared as Unicode scalar values,
      a proper prefix first. It models the natural ordering of `String` keys
      in a `TreeMap`; `String.compareTo` compares UTF-16 code units instead,
      which orders differently only for characters outside the Basic
      Multilingual Plane. */
  predicate Less(a: string, b: string)
    decreases |a|
  {
    if |a| == 0 then |b| > 0
    else if |b| == 0 then false
    else if a[0] != b[0] then a[0] < b[0]
    else Less(a[1..], b[1..])
  }

  predicate Sorted<V>(m: seq<Entry<V>>) {
    forall i, j :: 0 <= i < j < |m| ==> Less(m[i].key, m[j].key)
  }

  type SortedMap<V> = m: seq<Entry<V>> | Sorted(m) witness []

  function Keys<V>(m: seq<Entry<V>>): (r: seq<string>)
    ensures |r| == |m|
    ensures forall i :: 0 <= i < |m| ==> r[i] == m[i].key
  {
    seq(|m|, i requires 0 <= i < |m| => m[i].key)
  }

  function Values<V>(m: seq<Entry<V>>): (r: seq<V>)
    ensures |r| == |m|
    ensures forall i :: 0 <= i < |m| ==> r[i] == m[i].value
  {
    seq(|m|, i requires 0 <= i < |m| => m[i].value)
  }

  lemma {:induction false} LessIrreflexive(a: string)
    ensures !Less(a, a)
    decreases |a|
  {
    if |a| > 0 {
      LessIrreflexive(a[1..]);
    }
  }

  /** A sorted map never holds the same column name twice. */
  lemma SortedKeysDistinct<V>(m: SortedMap<V>)
    ensures forall i, j :: 0 <= i < j < |m| ==> m[i].key != m[j].key
  {
    forall i, j | 0 <= i < j < |m|
      ensures m[i].key != m[j].key
    {
      LessIrreflexive(m[i].key);
    }
  }

  /** What one call of the loop body receives. */
  datatype Visit<V> = Visit(key: string, value: V, index: nat, isLast: bool)

  /** The traversal of `loopThroughSortedMap`: the entries in map order,
      each with its 0-based index and a flag that is set on the final entry
      only. The loop body is left to the caller, which consumes the visits
      in order. */
  method LoopThroughSortedMap<V>(sortedMap: SortedMap<V>) returns (visits: seq<Visit<V>>)
    ensures |visits| == |sortedMap|
    ensures forall i :: 0 <= i < |visits| ==>
      visits[i].key == sortedMap[i].key && visits[i].value == sortedMap[i].value && visits[i].index == i
    ensures forall i :: 0 <= i < |visits| ==> (visits[i].isLast <==> i == |sortedMap| - 1)
  {
    visits := [];
    var index := 0;
    var rest := sortedMap;
    while rest != []
      invariant 0 <= index <= |sortedMap|
      invariant rest == sortedMap[index..]
      invariant |visits| == index
      invariant forall i :: 0 <= i < index ==>
        visits[i] == Visit(sortedMap[i].key, sortedMap[i].value, i, i == |sortedMap| - 1)
      decreases |rest|
    {
      var entry := rest[0];
      var isLast := index == |sortedMap| - 1;
      visits := visits + [Visit(entry.key, entry.value, index, isLast)];
      index := index + 1;
      rest := rest[1..];
    }
  }
}
