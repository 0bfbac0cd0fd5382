/**
 * The checks `compile_rust` makes on the parsed `Cargo.toml` before it builds
 * anything: the crate must be a `cdylib`, and its package name, with every `-`
 * turned into `_`, names the artefacts of the build.
 */
module Manifest {
  import opened Common

  /** A value of a parsed TOML document, as the `toml` parser hands it to JavaScript. */
  datatype Toml =
    | TStr(s: string)
    | TInt(i: int)
    | TBool(b: bool)
    | TDatetime(text: string)
    | TArray(items: seq<Toml>)
    | TTable(entries: map<string, Toml>)

  /** The error `validate_toml` throws. */
  const CrateTypeError: string := "Cargo.toml must use `crate-type = [\"cdylib\"]`"

  /** Stands for the `TypeError` JavaScript throws when `toml.package.name` is missing or is not a string. */
  const NameTypeError: string := "TypeError"

  /** JavaScript truthiness of a looked-up property; `None` is `undefined`. */
  predicate Truthy(v: Option<Toml>)
  {
    match v
    case None => false
    case Some(TStr(s)) => |s| > 0
    case Some(TInt(i)) => i != 0
    case Some(TBool(b)) => b
    case Some(_) => true
  }

  /** `v[key]`: a table's entry, or `undefined` for a missing key or a value that is not a table. */
  function Get(v: Option<Toml>, key: string): Option<Toml>
  {
    if v.Some? && v.value.TTable? && key in v.value.entries then Some(v.value.entries[key]) else None
  }

  /**
   * `items.indexOf(x)`: the first position holding `x`, or -1. Dafny's `==` is structural,
   * where JavaScript's `===` compares arrays, tables and dates by reference; the two agree
   * on the string `"cdylib"`, the only value searched for.
   */
  function IndexOf(items: seq<Toml>, x: Toml): (r: int)
    ensures r == -1 <==> x !in items
    ensures r != -1 ==> 0 <= r < |items| && items[r] == x && x !in items[..r]
  {
    if |items| == 0 then -1
    else if items[0] == x then 0
    else
      var k := IndexOf(items[1..], x);
      assert items == [items[0]] + items[1..];
      if k == -1 then -1
      else
        assert items[..k + 1] == [items[0]] + items[1..][..k];
        k + 1
  }

  /** `validate_toml(toml)`: returns normally exactly for a `cdylib` crate, and throws the crate-type error otherwise. */
  function ValidateToml(root: map<string, Toml>): (r: Result<(), string>)
    ensures r.Ok? <==> IsCdylib(root)
    ensures r.Err? ==> r.error == CrateTypeError
  {
    var lib := if "lib" in root then Some(root["lib"]) else None;
    var crateType := Get(lib, "crate-type");
    if Truthy(lib) && crateType.Some? && crateType.value.TArray? && IndexOf(crateType.value.items, TStr("cdylib")) != -1
    then Ok(())
    else Err(CrateTypeError)
  }

  /** The manifests `validate_toml` accepts: `[lib]` is a table whose `crate-type` array lists `"cdylib"`. */
  predicate IsCdylib(root: map<string, Toml>)
  {
    "lib" in root && root["lib"].TTable?
    && "crate-type" in root["lib"].entries
    && root["lib"].entries["crate-type"].TArray?
    && TStr("cdylib") in root["lib"].entries["crate-type"].items
  }

  /** `name.replace(/-/g, "_")`: every `-` becomes `_`, scanning left to right. */
  function NormalizeName(name: string): (r: string)
    ensures |r| == |name|
    ensures forall i :: 0 <= i < |name| ==> r[i] == if name[i] == '-' then '_' else name[i]
  {
    if |name| == 0 then ""
    else (if name[0] == '-' then "_" else [name[0]]) + NormalizeName(name[1..])
  }

  /** A normalised name has no `-` left, so normalising it again changes nothing. */
  lemma NormalizeNameIdempotent(name: string)
    ensures '-' !in NormalizeName(name)
    ensures NormalizeName(NormalizeName(name)) == NormalizeName(name)
  {
    var r := NormalizeName(name);
    assert forall i :: 0 <= i < |r| ==> r[i] != '-';
  }

  /** Names without `-` pass through unchanged. */
  lemma NormalizeNameFixes(name: string)
    requires '-' !in name
    ensures NormalizeName(name) == name
  {
    var r := NormalizeName(name);
    assert forall i :: 0 <= i < |name| ==> r[i] == name[i];
  }

  /**
   * Lines 275-280 of `compile_rust`: `validate_toml`, then the normalised
   * `toml.package.name`. Both errors are thrown before the `try`, so they reach
   * the caller unchanged.
   */
  function CrateName(root: map<string, Toml>): (r: Result<string, string>)
    ensures r.Ok? <==> (IsCdylib(root) && "package" in root && root["package"].TTable?
      && "name" in root["package"].entries && root["package"].entries["name"].TStr?)
    ensures r.Ok? ==> r.value == NormalizeName(root["package"].entries["name"].s) && '-' !in r.value
    ensures r.Err? ==> r.error == if IsCdylib(root) then NameTypeError else CrateTypeError
  {
    match ValidateToml(root)
    case Err(e) => Err(e)
    case Ok(_) =>
      var package := if "package" in root then Some(root["package"]) else None;
      var nameValue := Get(package, "name");
      if nameValue.Some? && nameValue.value.TStr? then
        NormalizeNameIdempotent(nameValue.value.s);
        Ok(NormalizeName(nameValue.value.s))
      else
        Err(NameTypeError)
  }
}
