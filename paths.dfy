/** The file names the registry reads and writes, all inside the mod's directory. */
module Paths {

  const PersonalitiesFileName: string := "PERSONALITIES.json"
  const OverrideFileName: string := "OVERRIDE.json"
  /** The two halves of the format string `OVERRIDE.{0}.json`. */
  const OverrideImportPrefix: string := "OVERRIDE."
  const OverrideImportSuffix: string := ".json"

  /** `Path.Combine(directory, name)` for a relative file name. */
  function Combine(directory: string, name: string): (r: string)
    ensures |r| == |directory| + 1 + |name|
    ensures r[..|directory|] == directory && r[|directory|] == '/'
    ensures r[|directory| + 1..] == name
  {
    directory + "/" + name
  }

  /** `string.Format(OVERRIDE_IMPORT_FILE_NAME, modId)`. */
  function ImportOverrideFileName(modId: string): (r: string)
    ensures |r| == |modId| + 14
    ensures r[0] == 'O'
    ensures r[..9] == OverrideImportPrefix && r[9..|r| - 5] == modId && r[|r| - 5..] == OverrideImportSuffix
  {
    OverrideImportPrefix + modId + OverrideImportSuffix
  }

  /** The stock override file: `OVERRIDE.json` inside the directory. */
  function StockOverridePath(directory: string): (r: string)
    ensures |r| == |directory| + 1 + |OverrideFileName|
    ensures r[..|directory|] == directory && r[|directory|] == '/'
    ensures r[|directory| + 1..] == OverrideFileName
  {
    Combine(directory, OverrideFileName)
  }

  /** The custom layer's file: `PERSONALITIES.json` inside the directory. */
  function CustomPath(directory: string): (r: string)
    ensures |r| == |directory| + 1 + |PersonalitiesFileName|
    ensures r[..|directory|] == directory && r[|directory|] == '/'
    ensures r[|directory| + 1..] == PersonalitiesFileName
  {
    Combine(directory, PersonalitiesFileName)
  }

  /** A mod's override file: `OVERRIDE.<modId>.json` inside the directory. */
  function ImportOverridePath(directory: string, modId: string): (r: string)
    ensures |r| == |directory| + 1 + |ImportOverrideFileName(modId)|
    ensures r[..|directory|] == directory && r[|directory|] == '/'
    ensures r[|directory| + 1..] == ImportOverrideFileName(modId)
  {
    Combine(directory, ImportOverrideFileName(modId))
  }

  /** Two mods never get the same override path string: the path string is injective in the mod id. */
  lemma ImportOverridePathInjective(directory: string, a: string, b: string)
    requires ImportOverridePath(directory, a) == ImportOverridePath(directory, b)
    ensures a == b
  {
    var na, nb := ImportOverrideFileName(a), ImportOverrideFileName(b);
    assert na == ImportOverridePath(directory, a)[|directory| + 1..];
    assert nb == ImportOverridePath(directory, b)[|directory| + 1..];
    assert a == na[9..|na| - 5];
    assert b == nb[9..|nb| - 5];
  }

  /** The path strings of the stock override file, the custom file and every import override file are distinct. */
  lemma PathsDistinct(directory: string, modId: string)
    ensures StockOverridePath(directory) != CustomPath(directory)
    ensures ImportOverridePath(directory, modId) != StockOverridePath(directory)
    ensures ImportOverridePath(directory, modId) != CustomPath(directory)
  {
    var i := |directory| + 1;
    assert CustomPath(directory)[i] == PersonalitiesFileName[0] == 'P';
    assert ImportOverridePath(directory, modId)[i] == ImportOverrideFileName(modId)[0];
  }
}
