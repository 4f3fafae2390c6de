/** The stock layer as the constructor builds it from the host's built-in personalities. */
module Bootstrap {
  import opened Outlines
  import opened Resolution

  /** The key of the single entry a fresh custom file is seeded with. */
  const ExampleName: string := "EXAMPLENAME"

  /**
   * The stock layer after inserting each `(nameStringKey, outline)` pair of
   * the host's list in order with an indexer assignment.
   */
  function StockLayer<V>(db: seq<(string, Outline<V>)>): (r: Layer<V>)
    ensures r.Keys == set i | 0 <= i < |db| :: db[i].0
  {
    if db == [] then map[]
    else
      var prefix := db[..|db| - 1];
      var r := StockLayer(prefix)[db[|db| - 1].0 := db[|db| - 1].1];
      assert r.Keys == (set i | 0 <= i < |prefix| :: prefix[i].0) + {db[|db| - 1].0} == set i | 0 <= i < |db| :: db[i].0 by {
        forall i | 0 <= i < |db|
          ensures db[i].0 in (set i | 0 <= i < |prefix| :: prefix[i].0) + {db[|db| - 1].0}
        {
          if i < |prefix| {
            assert prefix[i].0 == db[i].0;
          }
        }
      }
      r
  }

  /** On duplicate keys the last pair wins: a key's stock entry is its last occurrence's outline. */
  lemma {:induction false} StockLastWins<V>(db: seq<(string, Outline<V>)>, i: nat)
    requires i < |db|
    requires forall j :: i < j < |db| ==> db[j].0 != db[i].0
    ensures db[i].0 in StockLayer(db) && StockLayer(db)[db[i].0] == db[i].1
  {
    if i < |db| - 1 {
      var prefix := db[..|db| - 1];
      StockLastWins(prefix, i);
    }
  }
}
