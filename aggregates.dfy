/**
 * The registry's aggregate views over a sequence of layers, in the order
 * stock, custom, then the imported layers: the number of entries (counted
 * whatever their `Printable` value) and the flattened list of printable
 * entries.
 */
module Aggregates {
  import opened Outlines
  import opened Resolution

  /** `ToPersonality(key)` applied to an outline; the host conversion itself is not modelled. */
  datatype Personality<V> = Personality(key: string, outline: Outline<V>)

  /** Number of entries of all layers. */
  function TotalSize<V>(layers: seq<Layer<V>>): nat {
    if layers == [] then 0 else TotalSize(layers[..|layers| - 1]) + |layers[|layers| - 1]|
  }

  /** The keys of a layer whose entry is printable. */
  function PrintableKeys<V>(layer: Layer<V>): (r: set<string>)
    ensures r <= layer.Keys
    ensures forall k :: k in layer ==> (k in r <==> IsPrintable(layer[k]))
  {
    set k | k in layer && IsPrintable(layer[k])
  }

  /** Number of printable entries of all layers. */
  function TotalPrintable<V>(layers: seq<Layer<V>>): nat {
    if layers == [] then 0 else TotalPrintable(layers[..|layers| - 1]) + |PrintableKeys(layers[|layers| - 1])|
  }

  ghost predicate AllPrintable<V>(layers: seq<Layer<V>>) {
    forall i, k :: 0 <= i < |layers| && k in layers[i] ==> IsPrintable(layers[i][k])
  }

  /**
   * `r` is what `FlattenPersonalities(layer)` returns, in some order: one
   * record for each printable entry, and only those.
   */
  ghost predicate IsFlattening<V>(r: seq<Personality<V>>, layer: Layer<V>) {
    && (forall i :: 0 <= i < |r| ==>
          r[i].key in layer && r[i].outline == layer[r[i].key] && IsPrintable(r[i].outline))
    && (forall i, j :: 0 <= i < j < |r| ==> r[i].key != r[j].key)
    && (forall k :: k in layer && IsPrintable(layer[k]) ==> Personality(k, layer[k]) in r)
  }

  function Concat<V>(pieces: seq<seq<Personality<V>>>): seq<Personality<V>> {
    if pieces == [] then [] else Concat(pieces[..|pieces| - 1]) + pieces[|pieces| - 1]
  }

  /** The pieces flatten the first |pieces| layers, one piece per layer. */
  ghost predicate FlattensPrefix<V>(pieces: seq<seq<Personality<V>>>, layers: seq<Layer<V>>) {
    |pieces| <= |layers| && forall j :: 0 <= j < |pieces| ==> IsFlattening(pieces[j], layers[j])
  }

  lemma ExtendFlattening<V>(pieces: seq<seq<Personality<V>>>, layers: seq<Layer<V>>, piece: seq<Personality<V>>)
    requires FlattensPrefix(pieces, layers) && |pieces| < |layers|
    requires IsFlattening(piece, layers[|pieces|])
    ensures FlattensPrefix(pieces + [piece], layers)
    ensures Concat(pieces + [piece]) == Concat(pieces) + piece
  {
    var next := pieces + [piece];
    assert next[..|pieces|] == pieces;
    forall j | 0 <= j < |next|
      ensures IsFlattening(next[j], layers[j])
    {
      if j < |pieces| {
        assert next[j] == pieces[j];
      }
    }
  }

  function KeySet<V>(r: seq<Personality<V>>): set<string> {
    if r == [] then {} else KeySet(r[..|r| - 1]) + {r[|r| - 1].key}
  }

  lemma {:induction false} KeySetMembers<V>(r: seq<Personality<V>>)
    ensures forall k :: k in KeySet(r) <==> exists i :: 0 <= i < |r| && r[i].key == k
  {
    if r != [] {
      var p := r[..|r| - 1];
      KeySetMembers(p);
      forall k | k in KeySet(r)
        ensures exists i :: 0 <= i < |r| && r[i].key == k
      {
        if k != r[|r| - 1].key {
          assert k in KeySet(p);
          var i :| 0 <= i < |p| && p[i].key == k;
          assert r[i].key == k;
        }
      }
      forall k | exists i :: 0 <= i < |r| && r[i].key == k
        ensures k in KeySet(r)
      {
        var i :| 0 <= i < |r| && r[i].key == k;
        if i < |p| {
          assert p[i].key == k;
        }
      }
    }
  }

  lemma {:induction false} DistinctKeySetSize<V>(r: seq<Personality<V>>)
    requires forall i, j :: 0 <= i < j < |r| ==> r[i].key != r[j].key
    ensures |KeySet(r)| == |r|
  {
    if r != [] {
      var p := r[..|r| - 1];
      DistinctKeySetSize(p);
      KeySetMembers(p);
      assert r[|r| - 1].key !in KeySet(p);
    }
  }

  /** A flattening of a layer lists exactly as many records as the layer has printable entries. */
  lemma FlatteningLength<V>(r: seq<Personality<V>>, layer: Layer<V>)
    requires IsFlattening(r, layer)
    ensures |r| == |PrintableKeys(layer)|
  {
    KeySetMembers(r);
    DistinctKeySetSize(r);
    assert KeySet(r) == PrintableKeys(layer);
  }

  /** Flattening every layer in turn lists exactly the printable entries of all layers. */
  lemma {:induction false} ConcatFlatteningLength<V>(pieces: seq<seq<Personality<V>>>, layers: seq<Layer<V>>)
    requires |pieces| == |layers|
    requires forall i :: 0 <= i < |pieces| ==> IsFlattening(pieces[i], layers[i])
    ensures |Concat(pieces)| == TotalPrintable(layers)
  {
    if pieces != [] {
      var n := |pieces| - 1;
      ConcatFlatteningLength(pieces[..n], layers[..n]);
      FlatteningLength(pieces[n], layers[n]);
    }
  }

  /** Within one layer, the printable entries are at most all entries, and all of them exactly when every entry is printable. */
  lemma PrintableKeysBound<V>(layer: Layer<V>)
    ensures |PrintableKeys(layer)| <= |layer|
    ensures |PrintableKeys(layer)| == |layer| <==> forall k :: k in layer ==> IsPrintable(layer[k])
  {
    SubsetSize(PrintableKeys(layer), layer.Keys);
    if |PrintableKeys(layer)| == |layer| {
      assert PrintableKeys(layer) == layer.Keys;
    }
    if forall k :: k in layer ==> IsPrintable(layer[k]) {
      assert PrintableKeys(layer) == layer.Keys;
    }
  }

  lemma {:induction false} SubsetSize<T>(a: set<T>, b: set<T>)
    requires a <= b
    ensures |a| <= |b|
    ensures |a| == |b| ==> a == b
  {
    if b != {} {
      var x :| x in b;
      SubsetSize(a - {x}, b - {x});
    }
  }

  /**
   * Count versus enumeration: the printable entries of all layers never
   * outnumber the entries, and they are as many exactly when every entry is
   * printable.
   */
  lemma {:induction false} PrintableWithinTotal<V>(layers: seq<Layer<V>>)
    ensures TotalPrintable(layers) <= TotalSize(layers)
    ensures TotalPrintable(layers) == TotalSize(layers) <==> AllPrintable(layers)
  {
    if layers != [] {
      var n := |layers| - 1;
      var prefix := layers[..n];
      PrintableWithinTotal(prefix);
      PrintableKeysBound(layers[n]);
      if TotalPrintable(layers) == TotalSize(layers) {
        forall i, k | 0 <= i < |layers| && k in layers[i]
          ensures IsPrintable(layers[i][k])
        {
          if i < n {
            assert prefix[i] == layers[i];
          }
        }
      }
      if AllPrintable(layers) {
        assert AllPrintable(prefix) by {
          forall i, k | 0 <= i < |prefix| && k in prefix[i]
            ensures IsPrintable(prefix[i][k])
          {
            assert prefix[i] == layers[i];
          }
        }
        assert forall k :: k in layers[n] ==> IsPrintable(layers[n][k]);
      }
    }
  }

  /** Sizes add up across a split of the layer sequence. */
  lemma {:induction false} TotalSizeAppend<V>(a: seq<Layer<V>>, b: seq<Layer<V>>)
    ensures TotalSize(a + b) == TotalSize(a) + TotalSize(b)
  {
    if b == [] {
      assert a + b == a;
    } else {
      var n := |b| - 1;
      assert (a + b)[..|a + b| - 1] == a + b[..n];
      assert (a + b)[|a + b| - 1] == b[n];
      TotalSizeAppend(a, b[..n]);
    }
  }

  /** The first two layers count for their sizes, the rest for their total. */
  lemma SplitCount<V>(first: Layer<V>, second: Layer<V>, rest: seq<Layer<V>>)
    ensures TotalSize([first, second] + rest) == |first| + |second| + TotalSize(rest)
  {
    var two := [first, second];
    TotalSizeAppend(two, rest);
    assert two[..1] == [first];
    assert [first][..0] == [];
    assert TotalSize([first]) == |first|;
    assert TotalSize(two) == TotalSize(two[..1]) + |second|;
  }

  /** Extending a prefix of the layers by one layer adds that layer's size. */
  lemma TotalSizePrefix<V>(layers: seq<Layer<V>>, n: nat)
    requires n < |layers|
    ensures TotalSize(layers[..n + 1]) == TotalSize(layers[..n]) + |layers[n]|
  {
    assert layers[..n + 1][..n] == layers[..n];
  }
}
