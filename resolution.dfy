/**
 * Override resolution as values: the merged layer and the regenerated
 * override file that `OverridePersonalities` produces from a base layer and
 * the override file found on disk (if any). Only the `Some?` clauses of
 * `ResolvedEntry` depend on how `Merge` combines two outlines: they are
 * consequences of the assumption in module MergeAssumption. Nothing else in
 * this module relies on it.
 */
module Resolution {
  import opened Wrappers
  import opened Outlines
  import opened MergeAssumption

  /** One registry layer: personality key to outline. */
  type Layer<V> = map<string, Outline<V>>

  /**
   * `currentOverrides.TryGetValue(key, out overridingPersonality)`, with an
   * absent override file (a null dictionary) giving no override at all.
   */
  function OverrideFor<V>(current: Option<Layer<V>>, key: string): (r: Option<Outline<V>>)
    ensures r.Some? <==> current.Some? && key in current.value
    ensures r.Some? ==> r.value == current.value[key]
  {
    match current
    case None => None
    case Some(m) => if key in m then Some(m[key]) else None
  }

  /**
   * One base entry after its override (if any) has been applied. The three
   * `ovr.Some?` clauses hold because of the assumed meaning of `Merge`.
   */
  function ResolvedEntry<V>(base: Outline<V>, ovr: Option<Outline<V>>): (r: Outline<V>)
    ensures ovr.None? ==> r == base
    ensures ovr.Some? ==> r.fields.Keys == base.fields.Keys + ovr.value.fields.Keys
    ensures ovr.Some? && ovr.value.sourceId.Some? ==> r.sourceId == ovr.value.sourceId
    ensures ovr.Some? && ovr.value.printable.Some? ==> r.printable == ovr.value.printable
  {
    match ovr
    case Some(o) => Merge(base, o)
    case None => base
  }

  /** The override-file entry written for one base entry: its override verbatim, or else its snapshot. */
  function OverrideEntry<V>(base: Outline<V>, ovr: Option<Outline<V>>): (r: Outline<V>)
    ensures ovr.Some? ==> r == ovr.value
    ensures ovr.None? ==> OnlyPrintableSet(r) && IsPrintable(r) == IsPrintable(base)
  {
    match ovr
    case Some(o) => o
    case None => Snapshot(base)
  }

  /** The base layer after its overrides have been applied. */
  function Merged<V>(base: Layer<V>, current: Option<Layer<V>>): (r: Layer<V>)
    ensures r.Keys == base.Keys
    ensures forall k :: k in base && OverrideFor(current, k).None? ==> r[k] == base[k]
  {
    map k | k in base :: ResolvedEntry(base[k], OverrideFor(current, k))
  }

  /** The override file written back: one entry per base key, no more, no fewer. */
  function NewOverrides<V>(base: Layer<V>, current: Option<Layer<V>>): (r: Layer<V>)
    ensures r.Keys == base.Keys
    ensures forall k :: k in current.GetOr(map[]) && k !in base ==> k !in r
  {
    map k | k in base :: OverrideEntry(base[k], OverrideFor(current, k))
  }

  /** Every outline of the layer tagged with `modId`. */
  function Tag<V>(layer: Layer<V>, modId: string): (r: Layer<V>)
    ensures r.Keys == layer.Keys
    ensures forall k :: k in r ==> r[k].sourceId == Some(modId)
    ensures forall k :: k in r ==> r[k].printable == layer[k].printable && r[k].fields == layer[k].fields
  {
    map k | k in layer :: SetSourceModId(layer[k], modId)
  }

  /**
   * The layer an import stores: the import file, resolved against its
   * override file, then tagged. The tag comes last, so whatever `sourceId`
   * an override file sets, every stored entry carries `modId`.
   */
  function ImportLayer<V>(file: Layer<V>, overrides: Option<Layer<V>>, modId: string): (r: Layer<V>)
    ensures r.Keys == file.Keys
    ensures forall k :: k in r ==> r[k].sourceId == Some(modId)
  {
    Tag(Merged(file, overrides), modId)
  }

  /**
   * Each entry of the regenerated override file: an existing override for the
   * key verbatim, otherwise a snapshot that sets `printable` (copied from the
   * base entry) and nothing else.
   */
  lemma NewOverrideEntries<V>(base: Layer<V>, current: Option<Layer<V>>, k: string)
    requires k in base
    ensures k in NewOverrides(base, current)
    ensures current.Some? && k in current.value ==> NewOverrides(base, current)[k] == current.value[k]
    ensures !(current.Some? && k in current.value) ==>
      && OnlyPrintableSet(NewOverrides(base, current)[k])
      && NewOverrides(base, current)[k].printable == Some(IsPrintable(base[k]))
  {
  }

  /** Without an override file, the base layer is left exactly as it was. */
  lemma NoOverrideFileKeepsBase<V>(base: Layer<V>)
    ensures Merged(base, None) == base
  {
  }

  /**
   * Resolving twice with no edit in between writes the same override file:
   * the first run lists every base key, so the second finds an override for
   * each and copies it verbatim.
   */
  lemma {:induction false} ResolveTwiceSameFile<V>(base: Layer<V>, current: Option<Layer<V>>)
    ensures NewOverrides(base, Some(NewOverrides(base, current))) == NewOverrides(base, current)
  {
    var f1 := NewOverrides(base, current);
    var f2 := NewOverrides(base, Some(f1));
    forall k | k in base
      ensures f2[k] == f1[k]
    {
      assert OverrideFor(Some(f1), k) == Some(f1[k]);
    }
  }

  /** A hand-edited override file round-trips: its entries for base keys are written back unchanged. */
  lemma EditedFileRoundTrips<V>(base: Layer<V>, edited: Layer<V>)
    requires base.Keys <= edited.Keys
    ensures NewOverrides(base, Some(edited)) == map k | k in base :: edited[k]
  {
  }
}
