/**
 * The plugin object `rust(options)` returns: the options it defaults in place, the
 * `state` record it keeps across hooks (`file_ids` and `fake_dirs`), and the hooks
 * that read and change them.
 */
module Plugin {
  import opened Common
  import opened Paths
  import opened Manifest
  import opened Toolchain
  import Base64
  import opened Bridge

  /** `options.importHook`: the default `JSON.stringify`, or a function the user supplied. */
  datatype ImportHook = JsonStringify | UserHook(name: string)

  /** The expression `resolveFileUrl` returns: the hook applied to a path. */
  datatype FileUrl = HookCall(hook: ImportHook, path: string)

  /** An option the plugin tells apart from `undefined` even when it is `null`. */
  datatype Field<T> = Undefined | Null | Defined(value: T)

  /** A snapshot of every option the plugin reads; `None` is `null` or `undefined`. */
  datatype OptionValues = OptionValues(
    debug: Option<bool>,
    watch: Option<bool>,
    watchPatterns: Option<seq<string>>,
    importHook: Option<ImportHook>,
    serverPath: Option<string>,
    wasmOptArgs: Option<seq<string>>,
    inlineWasm: Option<bool>,
    verbose: Option<bool>,
    nodejs: Option<bool>,
    cargoArgs: Option<seq<string>>,
    outDir: Option<string>,
    wasmPackPath: Field<string>)

  /** JavaScript truthiness of a boolean option: `null` and `undefined` are falsy. */
  predicate Enabled(o: Option<bool>)
  {
    o == Some(true)
  }

  /** `if (o == null) o = d`. */
  function WithDefault<T>(o: Option<T>, d: T): (r: Option<T>)
    ensures r.Some?
    ensures o.Some? ==> r == o
    ensures o.None? ==> r == Some(d)
  {
    if o.None? then Some(d) else o
  }

  /** The options the factory always fills in. */
  predicate Defaulted(v: OptionValues)
  {
    v.watchPatterns.Some? && v.importHook.Some? && v.serverPath.Some? && v.wasmOptArgs.Some?
    && v.inlineWasm.Some? && v.verbose.Some? && v.nodejs.Some?
  }

  /** `after` is `before` when that is present, and the default `d` when it is absent. */
  predicate DefaultsTo<T(==)>(before: Option<T>, after: Option<T>, d: T)
  {
    (before.Some? ==> after == before) && (before.None? ==> after == Some(d))
  }

  /** The defaults of `rust(options)`: absent options get a fixed value, present ones are kept. */
  function Defaults(v: OptionValues): (r: OptionValues)
    ensures Defaulted(r)
    ensures DefaultsTo(v.watchPatterns, r.watchPatterns, ["src/**"])
    ensures DefaultsTo(v.importHook, r.importHook, JsonStringify)
    ensures DefaultsTo(v.serverPath, r.serverPath, "")
    ensures DefaultsTo(v.wasmOptArgs, r.wasmOptArgs, ["-O"])
    ensures DefaultsTo(v.inlineWasm, r.inlineWasm, false)
    ensures DefaultsTo(v.verbose, r.verbose, false)
    ensures DefaultsTo(v.nodejs, r.nodejs, false)
    ensures r.(watchPatterns := v.watchPatterns, importHook := v.importHook, serverPath := v.serverPath,
      wasmOptArgs := v.wasmOptArgs, inlineWasm := v.inlineWasm, verbose := v.verbose, nodejs := v.nodejs) == v
  {
    v.(watchPatterns := WithDefault(v.watchPatterns, ["src/**"]),
       importHook := WithDefault(v.importHook, JsonStringify),
       serverPath := WithDefault(v.serverPath, ""),
       wasmOptArgs := WithDefault(v.wasmOptArgs, ["-O"]),
       inlineWasm := WithDefault(v.inlineWasm, false),
       verbose := WithDefault(v.verbose, false),
       nodejs := WithDefault(v.nodejs, false))
  }

  /** Defaulting twice is defaulting once, and options that are all present are left alone. */
  lemma DefaultsIdempotent(v: OptionValues)
    ensures Defaults(Defaults(v)) == Defaults(v)
    ensures Defaulted(v) ==> Defaults(v) == v
  {
  }

  /** The watch-mode override of `buildStart`: `watch` and `debug` become true unless already set. */
  function WatchOverride(v: OptionValues, watching: bool): (r: OptionValues)
    ensures Defaulted(r) == Defaulted(v)
    ensures watching ==> DefaultsTo(v.watch, r.watch, true) && DefaultsTo(v.debug, r.debug, true)
    ensures r.(watch := v.watch, debug := v.debug) == v
    ensures !watching ==> r == v
  {
    if watching then v.(watch := WithDefault(v.watch, true), debug := WithDefault(v.debug, true)) else v
  }

  /** The options object the user passes to `rust(options)`, which the plugin updates in place. */
  class Options {
    var debug: Option<bool>
    var watch: Option<bool>
    var watchPatterns: Option<seq<string>>
    var importHook: Option<ImportHook>
    var serverPath: Option<string>
    var wasmOptArgs: Option<seq<string>>
    var inlineWasm: Option<bool>
    var verbose: Option<bool>
    var nodejs: Option<bool>
    var cargoArgs: Option<seq<string>>
    var outDir: Option<string>
    var wasmPackPath: Field<string>

    /** The current value of every field. */
    function Values(): OptionValues
      reads this
    {
      OptionValues(debug, watch, watchPatterns, importHook, serverPath, wasmOptArgs,
        inlineWasm, verbose, nodejs, cargoArgs, outDir, wasmPackPath)
    }

    constructor (v: OptionValues)
      ensures Values() == v
    {
      debug, watch, watchPatterns, importHook := v.debug, v.watch, v.watchPatterns, v.importHook;
      serverPath, wasmOptArgs, inlineWasm, verbose := v.serverPath, v.wasmOptArgs, v.inlineWasm, v.verbose;
      nodejs, cargoArgs, outDir, wasmPackPath := v.nodejs, v.cargoArgs, v.outDir, v.wasmPackPath;
    }
  }

  /** The warning `buildStart` gives for the retired `wasmPackPath` option. */
  const WasmPackPathWarning: string := "The wasmPackPath option is deprecated and no longer works"

  /** The warning `compile_js` gives for the retired `outDir` option. */
  const OutDirWarning: string := "The outDir option is deprecated, use output.assetFileNames instead"

  /** Where a loader gets the WebAssembly module from. */
  datatype WasmSource =
    | Inline(base64: string)
    | Asset(fileId: string, nodejs: bool)

  /**
   * The module `compile_js` generates, as one of four shapes: inline or asset, entry
   * (which starts the module and leaves `moduleSideEffects` unset) or library (which
   * exports an initialiser and declares no side effects).
   */
  datatype Loader = Loader(importPath: string, isEntry: bool, source: WasmSource, moduleSideEffects: Option<bool>)

  /** The asset `compile_js` asks Rollup to emit: named after the crate, or at a fixed file name. */
  datatype EmittedAsset =
    | NamedAsset(name: string, bytes: seq<Base64.Byte>)
    | FixedAsset(fileName: string, bytes: seq<Base64.Byte>)

  /** What one `compile_js` call produces. */
  datatype Compiled = Compiled(loader: Loader, asset: Option<EmittedAsset>, warnings: seq<string>)

  /** What one successful `compile_rust` call runs and produces. */
  datatype Build = Build(cargoArgs: seq<string>, outDir: string, wasmOptArgs: Option<seq<string>>, compiled: Compiled)

  /**
   * What `compile_js` returns for crate `name` under options `v`: a loader importing the
   * glue, in the role the module plays (entry or library, which alone declares no side
   * effects); inline exactly with `inlineWasm`, carrying base64 text that decodes back to
   * the module; otherwise a reference to the emitted asset `fileId`, which is named
   * `<name>.wasm`, or placed at `outDir/<name>.wasm` with a warning under the retired
   * `outDir` option.
   */
  predicate LoaderFor(c: Compiled, name: string, isEntry: bool, wasm: seq<Base64.Byte>, fileId: string, v: OptionValues)
  {
    c.loader.importPath == ImportPath(name) && c.loader.isEntry == isEntry
    && c.loader.moduleSideEffects == (if isEntry then None else Some(false))
    && (c.loader.source.Inline? <==> Enabled(v.inlineWasm))
    && (c.loader.source.Inline? ==> Base64.Decode(c.loader.source.base64) == wasm && c.asset == None && c.warnings == [])
    && (c.loader.source.Asset? ==> c.loader.source == Asset(fileId, Enabled(v.nodejs)))
    && (c.loader.source.Asset? && v.outDir.None? ==> c.asset == Some(NamedAsset(name + ".wasm", wasm)) && c.warnings == [])
    && (c.loader.source.Asset? && v.outDir.Some? ==>
         c.asset == Some(FixedAsset(Join(v.outDir.value, name + ".wasm"), wasm)) && c.warnings == [OutDirWarning])
  }

  /** The lists of `matches` one after another, in order. */
  function Flatten(matches: seq<seq<string>>): seq<string>
  {
    if |matches| == 0 then [] else Flatten(matches[..|matches| - 1]) + matches[|matches| - 1]
  }

  /** A file is in the flattened list exactly when one of the lists holds it. */
  lemma {:induction false} FlattenMembers(matches: seq<seq<string>>, file: string)
    ensures file in Flatten(matches) <==> exists i :: 0 <= i < |matches| && file in matches[i]
  {
    if |matches| > 0 {
      var init := matches[..|matches| - 1];
      FlattenMembers(init, file);
      if exists i :: 0 <= i < |init| && file in init[i] {
        var i :| 0 <= i < |init| && file in init[i];
        assert matches[i] == init[i];
      }
      if exists i :: 0 <= i < |matches| && file in matches[i] {
        var i :| 0 <= i < |matches| && file in matches[i];
        if i < |init| {
          assert init[i] == matches[i];
        }
      }
    }
  }

  /** The plugin object together with the `state` record its hooks share. */
  class RustPlugin {
    const options: Options
    var fileIds: set<string>
    var fakeDirs: seq<Mapping>

    /** The factory has run on `options`, so the hooks can rely on its defaults. */
    predicate Valid()
      reads this, options
    {
      Defaulted(options.Values())
    }

    /**
     * `rust(options)`: fills in every absent option, keeps every present one, and
     * starts with an empty `state`.
     */
    constructor (opts: Options)
      modifies opts
      ensures options == opts && fileIds == {} && fakeDirs == []
      ensures opts.Values() == Defaults(old(opts.Values()))
      ensures Valid()
    {
      options := opts;
      fileIds, fakeDirs := {}, [];
      new;
      opts.watchPatterns := WithDefault(opts.watchPatterns, ["src/**"]);
      opts.importHook := WithDefault(opts.importHook, JsonStringify);
      opts.serverPath := WithDefault(opts.serverPath, "");
      opts.wasmOptArgs := WithDefault(opts.wasmOptArgs, ["-O"]);
      opts.inlineWasm := WithDefault(opts.inlineWasm, false);
      opts.verbose := WithDefault(opts.verbose, false);
      opts.nodejs := WithDefault(opts.nodejs, false);
    }

    /**
     * `buildStart`: empties both tables, warns about `wasmPackPath` unless it is
     * `undefined`, and in watch mode turns `watch` and `debug` on unless they are set.
     */
    method BuildStart(watchMode: bool, rollupWatch: bool) returns (warnings: seq<string>)
      modifies this, options
      ensures fileIds == {} && fakeDirs == []
      ensures warnings == if options.wasmPackPath.Undefined? then [] else [WasmPackPathWarning]
      ensures options.Values() == WatchOverride(old(options.Values()), watchMode || rollupWatch)
      ensures Valid() == old(Valid())
    {
      fileIds := {};
      fakeDirs := [];
      warnings := [];
      if !options.wasmPackPath.Undefined? {
        warnings := [WasmPackPathWarning];
      }
      if watchMode || rollupWatch {
        if options.watch == None {
          options.watch := Some(true);
        }
        if options.debug == None {
          options.debug := Some(true);
        }
      }
    }

    /**
     * The `state` updates of `compile_js` and the loader it returns: one mapping from the
     * virtual directory to `outDir` is pushed; without `inlineWasm` the module becomes an
     * emitted asset whose id (`fileId`, the token `emitFile` hands back) is registered.
     */
    method CompileJs(name: string, dir: string, outDir: string, isEntry: bool, wasm: seq<Base64.Byte>, fileId: string)
      returns (c: Compiled)
      requires Valid()
      modifies this
      ensures fakeDirs == old(fakeDirs) + [Mapping(FakeDirOf(dir, name), outDir)]
      ensures fileIds == if Enabled(options.inlineWasm) then old(fileIds) else old(fileIds) + {fileId}
      ensures LoaderFor(c, name, isEntry, wasm, fileId, options.Values())
    {
      var fakeDir := FakeDirOf(dir, name);
      var importPath := ImportPath(name);
      var sideEffects: Option<bool> := if isEntry then None else Some(false);
      fakeDirs := fakeDirs + [Mapping(fakeDir, outDir)];
      if Enabled(options.inlineWasm) {
        var encoded := Base64.Encode(wasm);
        Base64.DecodeEncode(wasm);
        c := Compiled(Loader(importPath, isEntry, Inline(encoded), sideEffects), None, []);
      } else {
        var asset: EmittedAsset;
        var warnings: seq<string> := [];
        if options.outDir == None {
          asset := NamedAsset(name + ".wasm", wasm);
        } else {
          warnings := [OutDirWarning];
          asset := FixedAsset(Join(options.outDir.value, name + ".wasm"), wasm);
        }
        fileIds := fileIds + {fileId};
        c := Compiled(Loader(importPath, isEntry, Asset(fileId, Enabled(options.nodejs)), sideEffects), Some(asset), warnings);
      }
    }

    /**
     * `compile_rust` without its subprocesses: the manifest checks (whose errors are
     * thrown before the `try`), the `cargo` arguments, the output paths, `wasm-opt`
     * only for release builds, then `compile_js` with the normalised crate name.
     */
    method CompileRust(root: map<string, Toml>, dir: string, targetDir: string, isEntry: bool, wasm: seq<Base64.Byte>, fileId: string)
      returns (r: Result<Build, string>)
      requires Valid()
      modifies this
      ensures r.Err? <==> CrateName(root).Err?
      ensures r.Err? ==> r.error == CrateName(root).error && fakeDirs == old(fakeDirs) && fileIds == old(fileIds)
      ensures r.Ok? ==> var name := CrateName(root).value;
        r.value.outDir == GetOutDir(targetDir, name, Enabled(options.debug)).outDir
        && fakeDirs == old(fakeDirs) + [Mapping(FakeDirOf(dir, name), r.value.outDir)]
        && fileIds == (if Enabled(options.inlineWasm) then old(fileIds) else old(fileIds) + {fileId})
        && r.value.cargoArgs == BuildArgs + (if Enabled(options.debug) then [] else ["--release"]) + UserArgs(options.cargoArgs)
        && ("--release" in r.value.cargoArgs <==> !Enabled(options.debug) || "--release" in UserArgs(options.cargoArgs))
        && (r.value.wasmOptArgs.Some? <==> !Enabled(options.debug))
        && (r.value.wasmOptArgs.Some? ==> r.value.wasmOptArgs.value == WasmOptArgs(options.wasmOptArgs.value))
        && LoaderFor(r.value.compiled, name, isEntry, wasm, fileId, options.Values())
    {
      match CrateName(root)
      case Err(e) =>
        r := Err(e);
      case Ok(name) =>
        var debug := Enabled(options.debug);
        var cargoArgs := RunCargo(debug, options.cargoArgs);
        var paths := GetOutDir(targetDir, name, debug);
        var optArgs: Option<seq<string>> := None;
        if !debug {
          optArgs := Some(WasmOptArgs(options.wasmOptArgs.value));
        }
        var compiled := CompileJs(name, dir, paths.outDir, isEntry, wasm, fileId);
        r := Ok(Build(cargoArgs, paths.outDir, optArgs, compiled));
    }

    /**
     * `load(id)`: scans `fake_dirs` in insertion order and rewrites `id` with the first
     * mapping whose `from` is a prefix of it; `None` is the `null` of an unknown id.
     * The result is the path whose contents `load` reads.
     */
    method Load(id: string) returns (r: Option<string>)
      ensures r == Lookup(fakeDirs, id)
    {
      var len := |fakeDirs|;
      var i := 0;
      while i < len
        invariant 0 <= i <= len
        invariant forall k :: 0 <= k < i ==> !StartsWith(id, fakeDirs[k].from)
      {
        var dir := fakeDirs[i];
        if StartsWith(id, dir.from) {
          assert FirstMatch(fakeDirs, id, i);
          LookupFirstMatch(fakeDirs, id, i);
          return Some(dir.to + id[|dir.from|..]);
        }
        i := i + 1;
      }
      return None;
    }

    /**
     * `watch_files` once `glob` has expanded each of the `watchPatterns`
     * (`matches[i]` for pattern `i`): every matched file is added, pattern by pattern,
     * and nothing is watched unless `watch` is on.
     */
    method WatchFiles(matches: seq<seq<string>>) returns (watched: seq<string>)
      ensures watched == if Enabled(options.watch) then Flatten(matches) else []
    {
      watched := [];
      if Enabled(options.watch) {
        var i := 0;
        while i < |matches|
          invariant 0 <= i <= |matches|
          invariant watched == Flatten(matches[..i])
        {
          var files := matches[i];
          var j := 0;
          while j < |files|
            invariant 0 <= j <= |files|
            invariant watched == Flatten(matches[..i]) + files[..j]
          {
            watched := watched + [files[j]];
            j := j + 1;
          }
          assert matches[..i + 1][..i] == matches[..i];
          i := i + 1;
        }
        assert matches[..i] == matches;
      }
    }

    /** `resolveFileUrl`: answers exactly for the ids `compile_js` registered, with `importHook(serverPath + fileName)`. */
    method ResolveFileUrl(referenceId: string, fileName: string) returns (r: Option<FileUrl>)
      requires Valid()
      ensures r.Some? <==> referenceId in fileIds
      ensures r.Some? ==> r.value == HookCall(options.importHook.value, options.serverPath.value + fileName)
    {
      if referenceId in fileIds {
        r := Some(HookCall(options.importHook.value, options.serverPath.value + fileName));
      } else {
        r := None;
      }
    }
  }
}
