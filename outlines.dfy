/**
 * A personality outline: a record whose every field is optional. A stored
 * personality and an override-file entry, which sets only some fields, both
 * have this type.
 * The registry reads two fields directly, `printable` and `sourceId`; all the
 * other host-defined fields (name, description, gender, traits, ...) are kept
 * as one map from field name to value, where an absent key is a null field.
 */
module Outlines {
  import opened Wrappers

  datatype Outline<V> = Outline(printable: Option<bool>, sourceId: Option<string>, fields: map<string, V>)

  /** What the `Printable` property reads as when the field was never set. */
  const PrintableByDefault: bool := true

  /** The value of the `Printable` property. */
  predicate IsPrintable<V>(o: Outline<V>): (r: bool)
    ensures o.printable == Some(true) ==> r
    ensures o.printable == Some(false) ==> !r
    ensures o.printable.None? ==> r == PrintableByDefault
  {
    o.printable.GetOr(PrintableByDefault)
  }

  /**
   * The entry written to an override file for a key that has no override:
   * `new PersonalityOutline { Printable = base.Printable }`.
   */
  function Snapshot<V>(base: Outline<V>): (r: Outline<V>)
    ensures IsPrintable(r) == IsPrintable(base)
  {
    Outline(Some(IsPrintable(base)), None, map[])
  }

  /** `SetSourceModId`: records which mod the outline was imported from. */
  function SetSourceModId<V>(o: Outline<V>, modId: string): (r: Outline<V>)
    ensures r.sourceId == Some(modId)
    ensures r.printable == o.printable && r.fields == o.fields
  {
    o.(sourceId := Some(modId))
  }

  /** True iff the outline sets no field except `printable`. */
  predicate OnlyPrintableSet<V>(o: Outline<V>) {
    o.printable.Some? && o.sourceId.None? && o.fields == map[]
  }
}
