/**
 * The layered registry: the stock layer, the custom layer and one imported
 * layer per mod id, with the disk the registry reads and writes modelled as
 * a map from path to the personality map stored there.
 */
module Manager {
  import opened Wrappers
  import opened Outlines
  import opened MergeAssumption
  import opened Resolution
  import opened Paths
  import opened Aggregates
  import opened Bootstrap

  /** `ReadPersonalities`: fails exactly when no file is stored at `path`. */
  function ReadPersonalities<V>(files: map<string, Layer<V>>, path: string): (r: Option<Layer<V>>)
    ensures r.Some? <==> path in files
    ensures r.Some? ==> r.value == files[path]
  {
    if path in files then Some(files[path]) else None
  }

  /** The imported layers in the order their mod ids were first imported. */
  function ImportedLayers<V>(order: seq<string>, imported: map<string, Layer<V>>): (r: seq<Layer<V>>)
    requires forall m :: m in order ==> m in imported
    ensures |r| == |order|
    ensures forall i :: 0 <= i < |order| ==> r[i] == imported[order[i]]
  {
    if order == [] then []
    else
      var prefix := order[..|order| - 1];
      assert forall m :: m in prefix ==> m in order;
      ImportedLayers(prefix, imported) + [imported[order[|order| - 1]]]
  }

  class PersonalityManager<V> {
    /** `DuperyPatches.DirectoryName`, the directory holding every file the registry uses. */
    const directory: string
    var stock: Layer<V>
    var custom: Layer<V>
    var imported: map<string, Layer<V>>
    /** The keys of `imported` in the order they were first added, the order `Keys` enumerates them in. */
    var importOrder: seq<string>
    var files: map<string, Layer<V>>

    ghost predicate Valid()
      reads this
    {
      && (forall i, j :: 0 <= i < j < |importOrder| ==> importOrder[i] != importOrder[j])
      && (forall m :: m in imported <==> m in importOrder)
    }

    /** All layers in the order the registry enumerates them: stock, custom, then the imported ones. */
    function Layers(): (r: seq<Layer<V>>)
      reads this
      requires Valid()
      ensures |r| == |importOrder| + 2
      ensures r[0] == stock && r[1] == custom
      ensures forall i :: 0 <= i < |importOrder| ==> r[i + 2] == imported[importOrder[i]]
    {
      [stock, custom] + ImportedLayers(importOrder, imported)
    }

    /**
     * Bootstrap: the stock layer from the host's personalities (the last pair
     * wins on a duplicate key) with the stock overrides applied; the custom
     * layer from its file, or seeded with the example personality, which is
     * then written; no imported layer.
     */
    constructor (directory: string, dbPersonalities: seq<(string, Outline<V>)>, example: Outline<V>, disk: map<string, Layer<V>>)
      ensures Valid()
      ensures this.directory == directory
      ensures stock == Merged(StockLayer(dbPersonalities), ReadPersonalities(disk, StockOverridePath(directory)))
      ensures CustomPath(directory) in disk ==> custom == disk[CustomPath(directory)]
      ensures CustomPath(directory) !in disk ==> custom == map[ExampleName := example]
      ensures var stockOverrides := NewOverrides(StockLayer(dbPersonalities), ReadPersonalities(disk, StockOverridePath(directory)));
              var afterStock := disk[StockOverridePath(directory) := stockOverrides];
              files == if CustomPath(directory) in disk then afterStock else afterStock[CustomPath(directory) := custom]
      ensures imported == map[] && importOrder == []
    {
      this.directory := directory;
      stock, custom, imported, importOrder := map[], map[], map[], [];
      files := disk;
      new;
      var loaded: Layer<V> := map[];
      for i := 0 to |dbPersonalities|
        invariant loaded == StockLayer(dbPersonalities[..i])
      {
        assert dbPersonalities[..i + 1][..i] == dbPersonalities[..i];
        loaded := loaded[dbPersonalities[i].0 := dbPersonalities[i].1];
      }
      assert dbPersonalities[..|dbPersonalities|] == dbPersonalities;
      stock := OverridePersonalities(StockOverridePath(directory), loaded);

      var customPath := CustomPath(directory);
      PathsDistinct(directory, "");
      if customPath in files {
        custom := ReadPersonalities(files, customPath).value;
      } else {
        custom := map[ExampleName := example];
        WritePersonalities(customPath, custom);
      }
      imported := map[];
    }

    /** `WritePersonalities`: replaces whatever was stored at `path`. */
    method WritePersonalities(path: string, personalities: Layer<V>)
      modifies this`files
      ensures files == old(files)[path := personalities]
    {
      files := files[path := personalities];
    }

    /**
     * `OverridePersonalities`: applies the override file at `overrideFilePath`
     * (if there is one) to `personalities` and rewrites that file with one
     * entry per key of `personalities`.
     */
    method OverridePersonalities(overrideFilePath: string, personalities: Layer<V>) returns (merged: Layer<V>)
      modifies this`files
      ensures merged == Merged(personalities, ReadPersonalities(old(files), overrideFilePath))
      ensures files == old(files)[overrideFilePath := NewOverrides(personalities, ReadPersonalities(old(files), overrideFilePath))]
    {
      var currentOverrides: Option<Layer<V>> := None;
      if overrideFilePath in files {
        currentOverrides := ReadPersonalities(files, overrideFilePath);
      }
      assert currentOverrides == ReadPersonalities(old(files), overrideFilePath);
      merged := personalities;
      var newOverrides: Layer<V> := map[];
      var keys := personalities.Keys;
      while keys != {}
        invariant files == old(files)
        invariant keys <= personalities.Keys
        invariant merged.Keys == personalities.Keys
        invariant newOverrides.Keys == personalities.Keys - keys
        invariant forall k :: k in keys ==> merged[k] == personalities[k]
        invariant forall k :: k in personalities && k !in keys ==>
          merged[k] == ResolvedEntry(personalities[k], OverrideFor(currentOverrides, k)) &&
          newOverrides[k] == OverrideEntry(personalities[k], OverrideFor(currentOverrides, k))
        decreases keys
      {
        var key :| key in keys;
        match OverrideFor(currentOverrides, key) {
          case Some(overriding) =>
            merged := merged[key := Merge(merged[key], overriding)];
            newOverrides := newOverrides[key := overriding];
          case None =>
            newOverrides := newOverrides[key := Snapshot(merged[key])];
        }
        keys := keys - {key};
      }
      assert newOverrides == NewOverrides(personalities, currentOverrides);
      assert merged == Merged(personalities, currentOverrides);
      WritePersonalities(overrideFilePath, newOverrides);
    }

    /**
     * `TryImportPersonalities`: reads the mod's file, resolves it against the
     * mod's own override file, tags every entry with `modId` and stores the
     * result as the whole layer of `modId`. When the mod's file cannot be read
     * (`ok` is false) nothing changes, neither the registry nor the disk.
     */
    method TryImportPersonalities(importFilePath: string, modId: string) returns (ok: bool)
      requires Valid()
      modifies this`files, this`imported, this`importOrder
      ensures Valid()
      ensures ok <==> importFilePath in old(files)
      ensures !ok ==> files == old(files) && imported == old(imported) && importOrder == old(importOrder)
      ensures ok ==>
        var overridePath := ImportOverridePath(directory, modId);
        var overrides := ReadPersonalities(old(files), overridePath);
        var file := old(files)[importFilePath];
        && imported == old(imported)[modId := ImportLayer(file, overrides, modId)]
        && files == old(files)[overridePath := NewOverrides(file, overrides)]
        && importOrder == if modId in old(imported) then old(importOrder) else old(importOrder) + [modId]
      ensures ok ==> imported[modId].Keys == old(files)[importFilePath].Keys
      ensures ok ==> forall k :: k in imported[modId] ==> imported[modId][k].sourceId == Some(modId)
      ensures forall m :: m in old(imported) && m != modId ==> m in imported && imported[m] == old(imported)[m]
    {
      var read := ReadPersonalities(files, importFilePath);
      if read.None? {
        return false;
      }
      var modPersonalities := read.value;
      ghost var overrides := ReadPersonalities(files, ImportOverridePath(directory, modId));
      var overrideFilePath := Combine(directory, ImportOverrideFileName(modId));
      modPersonalities := OverridePersonalities(overrideFilePath, modPersonalities);

      modPersonalities := SetSourceModIds(modPersonalities, modId);
      ghost var layer := ImportLayer(read.value, overrides, modId);
      assert modPersonalities == layer;

      ghost var oldOrder := importOrder;
      if modId !in imported {
        importOrder := importOrder + [modId];
        assert forall m :: m in importOrder <==> m in oldOrder || m == modId;
      }
      imported := imported[modId := modPersonalities];
      ok := true;
    }

    /** The loop that calls `SetSourceModId(modId)` on every entry of an imported layer. */
    static method SetSourceModIds(layer: Layer<V>, modId: string) returns (tagged: Layer<V>)
      ensures tagged == Tag(layer, modId)
    {
      tagged := layer;
      var keys := layer.Keys;
      while keys != {}
        invariant keys <= layer.Keys
        invariant tagged.Keys == layer.Keys
        invariant forall k :: k in keys ==> tagged[k] == layer[k]
        invariant forall k :: k in layer && k !in keys ==> tagged[k] == SetSourceModId(layer[k], modId)
        decreases keys
      {
        var key :| key in keys;
        tagged := tagged[key := SetSourceModId(tagged[key], modId)];
        keys := keys - {key};
      }
    }

    /** `GetPersonalities`: the printable entries of stock, custom and then each imported layer. */
    method GetPersonalities() returns (r: seq<Personality<V>>, ghost pieces: seq<seq<Personality<V>>>)
      requires Valid()
      ensures |pieces| == |Layers()| && r == Concat(pieces)
      ensures forall i :: 0 <= i < |pieces| ==> IsFlattening(pieces[i], Layers()[i])
      ensures |r| == TotalPrintable(Layers())
      ensures |r| <= TotalSize(Layers())
      ensures |r| == TotalSize(Layers()) <==> AllPrintable(Layers())
    {
      ghost var layers := Layers();
      r, pieces := [], [];
      var fromStock := FlattenPersonalities(stock);
      ExtendFlattening(pieces, layers, fromStock);
      r, pieces := r + fromStock, pieces + [fromStock];
      var fromCustom := FlattenPersonalities(custom);
      ExtendFlattening(pieces, layers, fromCustom);
      r, pieces := r + fromCustom, pieces + [fromCustom];
      var i := 0;
      while i < |importOrder|
        invariant 0 <= i <= |importOrder|
        invariant |pieces| == i + 2 && r == Concat(pieces)
        invariant FlattensPrefix(pieces, layers)
      {
        var piece := FlattenPersonalities(imported[importOrder[i]]);
        ExtendFlattening(pieces, layers, piece);
        r, pieces := r + piece, pieces + [piece];
        i := i + 1;
      }
      ConcatFlatteningLength(pieces, layers);
      PrintableWithinTotal(layers);
    }

    /** `CountPersonalities`: every entry of every layer, printable or not. */
    method CountPersonalities() returns (count: nat)
      requires Valid()
      ensures count == TotalSize(Layers())
      ensures count == |stock| + |custom| + TotalSize(ImportedLayers(importOrder, imported))
    {
      ghost var layers := Layers();
      count := |stock| + |custom|;
      TotalSizePrefix(layers, 0);
      TotalSizePrefix(layers, 1);
      var i := 0;
      while i < |importOrder|
        invariant 0 <= i <= |importOrder|
        invariant count == TotalSize(layers[..i + 2])
      {
        TotalSizePrefix(layers, i + 2);
        count := count + |imported[importOrder[i]]|;
        i := i + 1;
      }
      assert layers[..i + 2] == layers;
      SplitCount(stock, custom, ImportedLayers(importOrder, imported));
    }

    /** `FlattenPersonalities`: one record per printable entry of the layer, and only those. */
    static method FlattenPersonalities(layer: Layer<V>) returns (r: seq<Personality<V>>)
      ensures IsFlattening(r, layer)
    {
      r := [];
      var keys := layer.Keys;
      while keys != {}
        invariant keys <= layer.Keys
        invariant forall i :: 0 <= i < |r| ==>
          r[i].key in layer && r[i].key !in keys && r[i].outline == layer[r[i].key] && IsPrintable(r[i].outline)
        invariant forall i, j :: 0 <= i < j < |r| ==> r[i].key != r[j].key
        invariant forall k :: k in layer && k !in keys && IsPrintable(layer[k]) ==> Personality(k, layer[k]) in r
        decreases keys
      {
        var key :| key in keys;
        if IsPrintable(layer[key]) {
          r := r + [Personality(key, layer[key])];
        }
        keys := keys - {key};
      }
    }
  }
}
