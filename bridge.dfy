/**
 * The virtual directories through which a generated loader imports the
 * wasm-bindgen output: the loader imports `./.__rollup-plugin-rust__<name>/index.js`
 * next to `Cargo.toml`, `resolveId` claims such ids, and `load` maps them onto the
 * real output directory by prefix substitution.
 */
module Bridge {
  import opened Common
  import opened Paths

  /** The name every virtual directory starts with. */
  const FakePrefix: string := ".__rollup-plugin-rust__"

  /** `if (importer)`: a present, non-empty importer. */
  predicate HasImporter(importer: Option<string>)
  {
    importer.Some? && |importer.value| > 0
  }

  /**
   * `is_fake_id(id, importer)`, with `/` as `path.sep`: with an importer, an id that starts with
   * `./.__rollup-plugin-rust__`, or any id starting with `.` imported from inside a
   * virtual directory; never without an importer.
   */
  predicate IsFakeId(id: string, importer: Option<string>): (fake: bool)
    ensures fake ==> HasImporter(importer) && |id| > 0 && id[0] == '.'
  {
    if HasImporter(importer) then
      if StartsWith(id, "./" + FakePrefix) then true
      else |id| > 0 && id[0] == '.' && Contains(importer.value, [Sep] + FakePrefix)
    else
      false
  }

  /** The specifier a generated loader imports: `./.__rollup-plugin-rust__<name>/index.js`. */
  function ImportPath(name: string): string
  {
    "./" + FakePrefix + name + "/index.js"
  }

  /** `fake_dir` in `compile_js`: the virtual directory beside `Cargo.toml`. */
  function FakeDirOf(dir: string, name: string): string
  {
    Join(dir, FakePrefix + name)
  }

  /** What `resolveId` returns for a claimed id. */
  datatype Resolution = Resolution(id: string, moduleSideEffects: bool)

  /** `resolveId(id, importer)`: a claimed id is joined to the importer's directory, without side effects. */
  function ResolveId(id: string, importer: Option<string>): (r: Option<Resolution>)
    ensures r.Some? <==> IsFakeId(id, importer)
    ensures r.Some? ==> !r.value.moduleSideEffects
  {
    if IsFakeId(id, importer) then Some(Resolution(JoinRelative(Dirname(importer.value), id), false)) else None
  }

  /** One entry of `state.fake_dirs`: the virtual directory and the real one it stands for. */
  datatype Mapping = Mapping(from: string, to: string)

  /** Entry `k` is the first of `dirs` whose `from` is a prefix of `id`. */
  predicate FirstMatch(dirs: seq<Mapping>, id: string, k: int)
  {
    0 <= k < |dirs| && StartsWith(id, dirs[k].from)
    && forall j :: 0 <= j < k ==> !StartsWith(id, dirs[j].from)
  }

  /** `id` with the prefix `m.from` replaced by `m.to`. */
  function Rewrite(m: Mapping, id: string): string
    requires StartsWith(id, m.from)
  {
    m.to + id[|m.from|..]
  }

  /**
   * The path `load(id)` reads: the first mapping in insertion order whose `from` is a
   * prefix of `id` rewrites it; without one, `load` returns `null`.
   */
  function Lookup(dirs: seq<Mapping>, id: string): (r: Option<string>)
    ensures r.None? <==> forall k :: 0 <= k < |dirs| ==> !StartsWith(id, dirs[k].from)
    ensures r.Some? ==> exists k :: FirstMatch(dirs, id, k) && r.value == Rewrite(dirs[k], id)
  {
    if |dirs| == 0 then None
    else if StartsWith(id, dirs[0].from) then
      assert FirstMatch(dirs, id, 0);
      Some(Rewrite(dirs[0], id))
    else
      var r := Lookup(dirs[1..], id);
      if r.Some? then
        var k :| FirstMatch(dirs[1..], id, k) && r.value == Rewrite(dirs[1..][k], id);
        assert FirstMatch(dirs, id, k + 1);
        r
      else
        r
  }

  /** The first match is unique, so Lookup's answer is determined by it. */
  lemma LookupFirstMatch(dirs: seq<Mapping>, id: string, k: int)
    requires FirstMatch(dirs, id, k)
    ensures Lookup(dirs, id) == Some(Rewrite(dirs[k], id))
  {
    var r := Lookup(dirs, id);
    var q :| FirstMatch(dirs, id, q) && r.value == Rewrite(dirs[q], id);
    assert q == k;
  }

  /**
   * Pushing a mapping leaves every answer the table already gave unchanged; an id the
   * table did not know is now answered by the new mapping alone.
   */
  lemma LookupAppend(dirs: seq<Mapping>, m: Mapping, id: string)
    ensures Lookup(dirs + [m], id) == match Lookup(dirs, id)
      case Some(p) => Some(p)
      case None => if StartsWith(id, m.from) then Some(Rewrite(m, id)) else None
  {
    var all := dirs + [m];
    match Lookup(dirs, id)
    case Some(p) =>
      var k :| FirstMatch(dirs, id, k) && p == Rewrite(dirs[k], id);
      assert FirstMatch(all, id, k);
      LookupFirstMatch(all, id, k);
    case None =>
      if StartsWith(id, m.from) {
        assert FirstMatch(all, id, |dirs|);
        LookupFirstMatch(all, id, |dirs|);
      } else {
        assert forall k :: 0 <= k < |all| ==> !StartsWith(id, all[k].from) by {
          forall k | 0 <= k < |all|
            ensures !StartsWith(id, all[k].from)
          {
            if k < |dirs| {
              assert all[k] == dirs[k];
            }
          }
        }
      }
  }

  /** The import every loader makes is claimed, whoever the importer is. */
  lemma LoaderImportIsFake(name: string, importer: string)
    requires |importer| > 0
    ensures IsFakeId(ImportPath(name), Some(importer))
  {
    assert ImportPath(name) == ("./" + FakePrefix) + (name + "/index.js");
  }

  /** Every relative import made from inside a virtual directory is claimed too. */
  lemma ImportsInsideAreFake(dir: string, name: string, file: string, id: string)
    requires |id| > 0 && id[0] == '.'
    ensures IsFakeId(id, Some(Join(FakeDirOf(dir, name), file)))
  {
    var importer := Join(FakeDirOf(dir, name), file);
    var marker := [Sep] + FakePrefix;
    assert importer == dir + marker + (name + [Sep] + file);
    assert StartsWith(importer[|dir|..], marker);
  }

  /** Inside a virtual directory that the table does not know yet, the pushed mapping rewrites `<from>/<file>` to `<to>/<file>`. */
  lemma LoadPushed(dirs: seq<Mapping>, fake: string, outDir: string, file: string)
    requires Lookup(dirs, Join(fake, file)).None?
    ensures Lookup(dirs + [Mapping(fake, outDir)], Join(fake, file)) == Some(Join(outDir, file))
  {
    var p, m := Join(fake, file), Mapping(fake, outDir);
    LookupAppend(dirs, m, p);
    assert StartsWith(p, m.from) && p[|m.from|..] == [Sep] + file;
    assert Rewrite(m, p) == outDir + ([Sep] + file) == Join(outDir, file);
  }

  /** `resolveId` takes the import of a loader generated for `<dir>/Cargo.toml` to `index.js` in the virtual directory. */
  lemma ResolveLoaderImport(dir: string, name: string)
    requires |dir| > 0
    ensures ResolveId(ImportPath(name), Some(Join(dir, "Cargo.toml")))
      == Some(Resolution(Join(FakeDirOf(dir, name), "index.js"), false))
  {
    LoaderImportIsFake(name, Join(dir, "Cargo.toml"));
    DirnameJoin(dir, "Cargo.toml");
    var id, rest := ImportPath(name), FakePrefix + name + "/index.js";
    assert id == "./" + rest;
    assert StartsWith(id, "./") && id[2..] == rest;
    assert "/index.js" == [Sep] + "index.js";
    assert Join(dir, rest) == Join(FakeDirOf(dir, name), "index.js");
  }

  /** `resolveId` takes `./<file>` imported by a module of a virtual directory to `<file>` in that directory. */
  lemma ResolveSibling(fake: string, file: string)
    requires |fake| > 0 && IsFakeId("./" + file, Some(Join(fake, "index.js")))
    ensures ResolveId("./" + file, Some(Join(fake, "index.js"))) == Some(Resolution(Join(fake, file), false))
  {
    DirnameJoin(fake, "index.js");
    assert ("./" + file)[2..] == file;
  }

  /**
   * End to end: a loader generated for `Cargo.toml` in `dir` imports `index.js` of its
   * virtual directory; `resolveId` claims the import, and once `compile_js` has pushed
   * its mapping, `load` reads `index.js` of the real output directory (provided no
   * earlier mapping's `from` is a prefix of the resolved id).
   */
  lemma ResolveThenLoad(dirs: seq<Mapping>, dir: string, name: string, outDir: string)
    requires |dir| > 0
    requires Lookup(dirs, Join(FakeDirOf(dir, name), "index.js")).None?
    ensures var r := ResolveId(ImportPath(name), Some(Join(dir, "Cargo.toml")));
      r == Some(Resolution(Join(FakeDirOf(dir, name), "index.js"), false))
      && Lookup(dirs + [Mapping(FakeDirOf(dir, name), outDir)], r.value.id) == Some(Join(outDir, "index.js"))
  {
    ResolveLoaderImport(dir, name);
    LoadPushed(dirs, FakeDirOf(dir, name), outDir, "index.js");
  }

  /**
   * A module inside the virtual directory that imports a sibling `./<file>` resolves
   * to that sibling, which `load` then reads from the real output directory.
   */
  lemma SiblingThenLoad(dirs: seq<Mapping>, dir: string, name: string, outDir: string, file: string)
    requires Lookup(dirs, Join(FakeDirOf(dir, name), file)).None?
    ensures var r := ResolveId("./" + file, Some(Join(FakeDirOf(dir, name), "index.js")));
      r == Some(Resolution(Join(FakeDirOf(dir, name), file), false))
      && Lookup(dirs + [Mapping(FakeDirOf(dir, name), outDir)], r.value.id) == Some(Join(outDir, file))
  {
    var fake := FakeDirOf(dir, name);
    ImportsInsideAreFake(dir, name, "index.js", "./" + file);
    ResolveSibling(fake, file);
    LoadPushed(dirs, fake, outDir, file);
  }
}
