/**
 * The currency selector's name list: every `nombre` the provider returns,
 * added to an insertion-ordered set (Kotlin's `mutableSetOf`), so each name
 * appears once, where it was first seen.
 */
module Currencies {
  import opened Wrappers
  import opened Data
  import opened Lexicographic

  ghost predicate NoDuplicates(s: seq<string>) {
    forall i, j :: 0 <= i < j < |s| ==> s[i] != s[j]
  }

  /** The names in first-occurrence order, each once: adding the rows one by one to the set. */
  function Distinct(names: seq<string>): seq<string> {
    if names == [] then []
    else
      var seen := Distinct(names[..|names| - 1]);
      var name := names[|names| - 1];
      if name in seen then seen else seen + [name]
  }

  /** The list has no duplicates and holds exactly the names seen in the rows. */
  lemma {:induction false} DistinctSpec(names: seq<string>)
    ensures NoDuplicates(Distinct(names))
    ensures forall x :: x in Distinct(names) <==> x in names
  {
    if names != [] {
      var prefix := names[..|names| - 1];
      DistinctSpec(prefix);
      assert names == prefix + [names[|names| - 1]];
    }
  }

  /**
   * A provider that returns the rows sorted by name ("nombre ASC") gives a
   * list in strictly increasing order.
   */
  lemma {:induction false} DistinctSorted(names: seq<string>)
    requires forall i, j :: 0 <= i < j < |names| ==> !LexLess(names[j], names[i])
    ensures forall i, j :: 0 <= i < j < |Distinct(names)| ==> LexLess(Distinct(names)[i], Distinct(names)[j])
  {
    if names != [] {
      var prefix := names[..|names| - 1];
      var name := names[|names| - 1];
      DistinctSorted(prefix);
      DistinctSpec(prefix);
      var seen := Distinct(prefix);
      if name !in seen {
        forall i | 0 <= i < |seen|
          ensures LexLess(seen[i], name)
        {
          assert seen[i] in prefix;
          var k :| 0 <= k < |prefix| && prefix[k] == seen[i];
          assert !LexLess(name, seen[i]);
          LexTrichotomy(seen[i], name);
        }
      }
    }
  }

  /** `CurrencySelector`'s query and collection loop; a `null` cursor leaves the list empty. */
  method CollectCurrencies(source: NameSource) returns (available: seq<string>)
    ensures source(CurrencyQuery()).None? ==> available == []
    ensures source(CurrencyQuery()).Some? ==> available == Distinct(source(CurrencyQuery()).value)
    ensures NoDuplicates(available)
    ensures forall x :: x in available <==> source(CurrencyQuery()).Some? && x in source(CurrencyQuery()).value
  {
    var cursor := source(CurrencyQuery());
    var currencies: seq<string> := [];
    if cursor.Some? {
      var rows := cursor.value;
      var position := 0;
      while position < |rows|
        invariant 0 <= position <= |rows|
        invariant currencies == Distinct(rows[..position])
      {
        assert rows[..position + 1][..position] == rows[..position];
        var nombre := rows[position];
        if nombre !in currencies {
          currencies := currencies + [nombre];
        }
        position := position + 1;
      }
      assert rows[..position] == rows;
      DistinctSpec(rows);
    }
    available := currencies;
  }
}
