/**
 * Properties of override resolution that hold only because `Merge` is
 * field-wise replacement (module MergeAssumption).
 */
module ResolutionUnderMerge {
  import opened Wrappers
  import opened Outlines
  import opened MergeAssumption
  import opened Resolution

  /** Override precedence per key: every field an override sets is the merged entry's value. */
  lemma OverrideWins<V>(base: Layer<V>, current: Layer<V>, k: string)
    requires k in base && k in current
    ensures current[k].printable.Some? ==> Merged(base, Some(current))[k].printable == current[k].printable
    ensures current[k].printable.None? ==> Merged(base, Some(current))[k].printable == base[k].printable
    ensures current[k].sourceId.Some? ==> Merged(base, Some(current))[k].sourceId == current[k].sourceId
    ensures current[k].sourceId.None? ==> Merged(base, Some(current))[k].sourceId == base[k].sourceId
    ensures Merged(base, Some(current))[k].fields.Keys == base[k].fields.Keys + current[k].fields.Keys
    ensures forall f :: f in current[k].fields ==> Merged(base, Some(current))[k].fields[f] == current[k].fields[f]
    ensures forall f :: f in base[k].fields && f !in current[k].fields ==>
      Merged(base, Some(current))[k].fields[f] == base[k].fields[f]
  {
    assert Merged(base, Some(current))[k] == Merge(base[k], current[k]);
  }

  /**
   * A second resolution against the file the first one wrote gives entries
   * that agree with the first resolution on every field except possibly
   * `printable`, and even there the `Printable` value read is the same. The
   * two are identical when every base entry without an override had its
   * `printable` field set.
   */
  lemma {:induction false} ResolveTwiceSameLayer<V>(base: Layer<V>, current: Option<Layer<V>>)
    ensures var once := Merged(base, current);
            var twice := Merged(base, Some(NewOverrides(base, current)));
            && twice.Keys == once.Keys
            && forall k :: k in twice ==>
                 && IsPrintable(twice[k]) == IsPrintable(once[k])
                 && twice[k].sourceId == once[k].sourceId
                 && twice[k].fields == once[k].fields
    ensures (forall k :: k in base && OverrideFor(current, k).None? ==> base[k].printable.Some?) ==>
      Merged(base, Some(NewOverrides(base, current))) == Merged(base, current)
  {
    var once := Merged(base, current);
    var f1 := NewOverrides(base, current);
    var twice := Merged(base, Some(f1));
    forall k | k in base
      ensures IsPrintable(twice[k]) == IsPrintable(once[k])
      ensures twice[k].sourceId == once[k].sourceId && twice[k].fields == once[k].fields
      ensures base[k].printable.Some? || OverrideFor(current, k).Some? ==> twice[k] == once[k]
    {
      assert twice[k] == Merge(base[k], f1[k]);
      match OverrideFor(current, k)
      case Some(o) =>
        assert f1[k] == o;
        MergeIdempotent(base[k], o);
      case None =>
        assert f1[k] == Snapshot(base[k]);
        MergeSnapshot(base[k]);
    }
  }

  /**
   * A snapshot pins `printable`: once a resolution finds no override for a
   * key and writes its snapshot, a later base layer's `printable` for that
   * key no longer shows; the value recorded at the earlier resolution wins.
   */
  lemma SnapshotPinsPrintable<V>(earlier: Layer<V>, current: Option<Layer<V>>, later: Layer<V>, k: string)
    requires k in earlier && k in later
    requires OverrideFor(current, k).None?
    ensures IsPrintable(Merged(later, Some(NewOverrides(earlier, current)))[k]) == IsPrintable(earlier[k])
  {
    assert NewOverrides(earlier, current)[k] == Snapshot(earlier[k]);
  }
}
