/**
 * `PersonalityOutline.OverrideValues` is not part of this model. It is taken
 * here as field-wise replacement: every field the override sets wins, every
 * field it leaves null keeps the base value. Every proof that relies on this
 * definition is in this module, in module ResolutionUnderMerge, or is one of
 * the `Some?` clauses of `Resolution.ResolvedEntry`.
 */
module MergeAssumption {
  import opened Wrappers
  import opened Outlines

  function Merge<V>(base: Outline<V>, ovr: Outline<V>): (r: Outline<V>)
    ensures IsPrintable(r) == if ovr.printable.Some? then IsPrintable(ovr) else IsPrintable(base)
    ensures r.fields.Keys == base.fields.Keys + ovr.fields.Keys
  {
    Outline(
      if ovr.printable.Some? then ovr.printable else base.printable,
      if ovr.sourceId.Some? then ovr.sourceId else base.sourceId,
      base.fields + ovr.fields)
  }

  /** Override precedence: a field the override sets wins, one it leaves unset keeps the base value. */
  lemma MergePrecedence<V>(base: Outline<V>, ovr: Outline<V>)
    ensures ovr.printable.Some? ==> Merge(base, ovr).printable == ovr.printable
    ensures ovr.printable.None? ==> Merge(base, ovr).printable == base.printable
    ensures ovr.sourceId.Some? ==> Merge(base, ovr).sourceId == ovr.sourceId
    ensures ovr.sourceId.None? ==> Merge(base, ovr).sourceId == base.sourceId
    ensures Merge(base, ovr).fields.Keys == base.fields.Keys + ovr.fields.Keys
    ensures forall f :: f in ovr.fields ==> Merge(base, ovr).fields[f] == ovr.fields[f]
    ensures forall f :: f in base.fields && f !in ovr.fields ==> Merge(base, ovr).fields[f] == base.fields[f]
  {
  }

  /** Applying the same override a second time changes nothing. */
  lemma MergeIdempotent<V>(base: Outline<V>, ovr: Outline<V>)
    ensures Merge(Merge(base, ovr), ovr) == Merge(base, ovr)
  {
  }

  /** Applying an outline's own snapshot only pins its `printable` field. */
  lemma MergeSnapshot<V>(base: Outline<V>)
    ensures Merge(base, Snapshot(base)) == base.(printable := Some(IsPrintable(base)))
    ensures IsPrintable(Merge(base, Snapshot(base))) == IsPrintable(base)
  {
    assert base.fields + map[] == base.fields;
  }
}
