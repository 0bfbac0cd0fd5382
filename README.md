# rollup-plugin-rust, modelled in Dafny

rollup-plugin-rust lets a Rollup build import a Rust crate by importing its `Cargo.toml`.
The plugin's `transform` hook builds the crate with `cargo` for `wasm32-unknown-unknown`, runs
`wasm-bindgen` and, for release builds, `wasm-opt`. It then replaces the manifest with a
generated JavaScript loader. The loader imports the `wasm-bindgen` glue through a virtual
directory `.__rollup-plugin-rust__<name>` beside the manifest. `resolveId` claims these
imports and `load` serves them from the real output directory.

The loader gets the WebAssembly module in one of two ways:

- it embeds the module as base64 text and decodes it with a small decoder shipped in its own
  source (`inlineWasm`);
- it refers to an emitted asset, whose URL `resolveFileUrl` produces.

The project models the decision logic and the shared state of `src/index.js`; what it leaves out is listed under "## Left out". Its modules are:

- `Common`: `Option`, `Result`, and string prefix, suffix and substring predicates.
- `Paths`: the `path.join`/`path.dirname` operations the plugin uses, on `/`-separated paths.
- `Manifest`: `validate_toml` and the crate name, taken from the parsed `Cargo.toml` with `-`
  turned into `_`.
- `Toolchain`:
  - the `cargo build` argument list of `run_cargo`;
  - the output paths of `get_out_dir`;
  - the `wasm-opt` arguments of `run_wasm_opt`.
- `Base64`: the decoder embedded in inline loaders, in two forms:
  - a specification function, `Decode`;
  - imperative methods over a typed array, proved equal to it.

  It also has the standard RFC 4648 encoder (section 4) that Node's `Buffer.toString("base64")`
  implements, and the proof that the embedded decoder inverts it. That proof covers every module
  an inline loader can carry.
- `Bridge`:
  - the id predicate `is_fake_id`;
  - `resolveId`;
  - the `fake_dirs` lookup of `load`;
  - end-to-end lemmas: a loader's import resolves into its virtual directory, and the pushed
    mapping then serves it from the output directory.
- `Plugin`:
  - the options object, which the factory `rust(options)` and `buildStart` update in place;
  - the plugin object holding the shared `state` (`file_ids`, `fake_dirs`);
  - its hooks as methods: `buildStart`, `compile_js`, `compile_rust`, `load`, `watch_files`
    and `resolveFileUrl`.

## Model

| member | source | states |
|---|---|---|
| Base64.CodeOfIsAlphabetValue | src/index.js:124-128 | the 80-entry `base64codes` table gives every RFC 4648 alphabet character its digit value and every other character code 0 (reads outside the table count as 0, as the bitwise operators treat `undefined`) |
| Base64.TableAtIndex | src/index.js:127 | looking up `charCode - 43` reads the table entry at that index when it is in range, and 0 otherwise |
| Base64.CodeOfAlphabet | src/index.js:124-128 | decoding an encoded digit gives back its value |
| Base64.CodeOfPad | src/index.js:124-128 | the `=` padding character decodes to 0 and contributes no bits |
| Base64.DecodeGroups | src/index.js:136-145 | the loop decodes `ceil(n/4)` groups of three bytes each |
| Base64.Subarray | src/index.js:147 | `subarray(0, end)` is a prefix of the buffer: `end` bytes long when in range, counted back from the length when negative (and clamped at 0), and the whole buffer when `end` is past its length |
| Base64.DecodeQuad | src/index.js:137-144 | one loop body: the buffer packed from four digits splits into exactly the three bytes of group `i/4` of the decoded groups |
| Base64.FillBuffer | src/index.js:132-145 | the two-index loop over a zeroed `Uint8Array(3 * (n / 4))` leaves in it the first `floor(3n/4)` decoded bytes, dropping writes past its end |
| Base64.Base64Decode | src/index.js:130-148 | the decoder returns the specification `Decode(str)`: the filled buffer with the `=`-announced missing octets cut off its end |
| Base64.Encode | src/index.js:151 | `toString("base64")` produces four characters per started group of three bytes |
| Base64.DecodeGroupsOfEncode | src/index.js:136-145 | decoding the groups of an encoded byte string starts with the original bytes |
| Base64.MissingOctetsOfEncode | src/index.js:131 | the padding the encoder adds (none, `=` or `==`) is exactly what the decoder counts as missing octets |
| Base64.DecodeEncode | src/index.js:130-151 | round trip: the embedded `base64_decode` returns exactly the bytes `wasm.toString("base64")` encoded, for every byte sequence |
| Base64.DecodeLength | src/index.js:133-147 | on a length that is a multiple of four, the result is three bytes per group less the padding |
| Paths.LastSepOfJoin | src/index.js:421 | the last separator of `join(a, b)`, for `b` free of separators, is the one `join` inserted |
| Paths.DirnameJoin | src/index.js:421 | `dirname(join(a, b))` is `a` for a file name `b` |
| Manifest.IndexOf | src/index.js:43 | `indexOf` is -1 exactly when the element is absent, and otherwise the first position holding it |
| Manifest.ValidateToml | src/index.js:42-48 | the manifest is accepted exactly when `[lib]` has a `crate-type` array containing `"cdylib"`; otherwise the crate-type error is thrown |
| Manifest.NormalizeName | src/index.js:280 | the normalised name has the same length, with every `-` replaced by `_` and every other character kept |
| Manifest.NormalizeNameIdempotent | src/index.js:280 | no `-` remains after normalising, so normalising twice equals normalising once |
| Manifest.NormalizeNameFixes | src/index.js:280 | names without `-` are unchanged |
| Manifest.CrateName | src/index.js:275-280 | a name is produced exactly for a `cdylib` manifest whose `package.name` is a string; it is the normalised name and contains no `-`; otherwise the crate-type error or the `TypeError` surfaces |
| Toolchain.RunCargo | src/index.js:51-64 | the arguments start with `build --lib --target wasm32-unknown-unknown`, then `--release` unless `debug`, then the user's `cargoArgs` unchanged at the end; `--release` appears exactly when the build is a release build or the user passed it |
| Toolchain.ReleaseFlag | src/index.js:58-63 | `--release` is in the final list exactly when the build is not a debug build or the user passed it |
| Toolchain.GetOutDir | src/index.js:22-36 | the compiled module never lies inside the output directory that `rm(out_dir)` clears; the output directory is `<target>/rollup-plugin-rust/<name>` and the compiled module is `<target>/wasm32-unknown-unknown/<profile>/<name>.wasm` |
| Toolchain.ProfilesApart | src/index.js:24-29 | debug and release builds read different compiled modules |
| Toolchain.OutDirsApart | src/index.js:22 | crates with different names get different output directories, whatever the profile of either build |
| Bridge.ResolveId | src/index.js:420-435 | `resolveId` answers exactly for fake ids, and always with `moduleSideEffects: false` |
| Bridge.Lookup | src/index.js:438-457 | `load` returns `null` exactly when no `from` is a prefix of the id; otherwise the first such mapping in insertion order rewrites the prefix |
| Bridge.LookupFirstMatch | src/index.js:441-450 | the first prefix match in insertion order determines the result of `load` |
| Bridge.LookupAppend | src/index.js:116-120 | pushing a mapping keeps every id that `load` already resolved; an unknown id is then answered by the new mapping alone |
| Bridge.IsFakeId | src/index.js:341-353 | `is_fake_id`, with `/` as `path.sep`: an id is claimed only when an importer is present and the id starts with `.`, so package names and absolute paths are never claimed |
| Bridge.LoaderImportIsFake | src/index.js:343 | the import path every loader uses is claimed for any importer |
| Bridge.ImportsInsideAreFake | src/index.js:347 | any relative import made from a module inside a virtual directory is claimed |
| Bridge.LoadPushed | src/index.js:445-446 | once `compile_js` pushed its mapping, `load` of `<fake_dir>/<file>` reads `<out_dir>/<file>` |
| Bridge.ResolveLoaderImport | src/index.js:421 | the loader's import from `<dir>/Cargo.toml` resolves to `index.js` inside the virtual directory |
| Bridge.ResolveSibling | src/index.js:421 | `./<file>` imported by `index.js` inside a virtual directory resolves to `<file>` in that directory |
| Bridge.ResolveThenLoad | src/index.js:420-456 | end to end: the loader's import resolves, and `load` then reads `index.js` from the real output directory |
| Bridge.SiblingThenLoad | src/index.js:420-456 | end to end: a sibling import of the glue resolves and loads from the real output directory |
| Plugin.Defaults | src/index.js:366-395 | each of the seven defaulted options keeps its value when present and gets its fixed default (`["src/**"]`, `JSON.stringify`, `""`, `["-O"]`, `false`, `false`, `false`) when `null`; every other option is untouched |
| Plugin.DefaultsIdempotent | src/index.js:366-395 | applying the defaults twice equals applying them once, and an options object with all seven options set is left unchanged |
| Plugin.WatchOverride | src/index.js:408-416 | in watch mode `watch` and `debug` each keep a present value and become `true` only when `null`; no other option changes, and outside watch mode nothing changes |
| Plugin.RustPlugin.constructor | src/index.js:356-395 | `rust(options)` starts with empty `file_ids` and `fake_dirs` and rewrites the options object to its defaulted form |
| Plugin.RustPlugin.BuildStart | src/index.js:400-417 | empties both tables; warns exactly when `wasmPackPath` is not `undefined` (also when `null`); applies the watch-mode override and changes no other option |
| Plugin.RustPlugin.CompileJs | src/index.js:100-269 | pushes exactly one mapping from the virtual directory to `out_dir`; registers the emitted file id exactly when the module is not inlined; an inline loader's base64 text decodes back to the module; an asset is named `<name>.wasm`, or, with the deprecated `outDir`, placed at `outDir/<name>.wasm` with a warning; library loaders declare no side effects |
| Plugin.RustPlugin.CompileRust | src/index.js:274-297 | fails exactly when the manifest checks fail, with their error and the state unchanged; otherwise: it pushes the mapping to the output directory of the normalised name; it registers the emitted file id exactly when the module is not inlined; `cargo` gets `build --lib --target wasm32-unknown-unknown`, `--release` unless `debug`, then the user's `cargoArgs`; `wasm-opt` runs exactly for release builds, with `index_bg.wasm --output wasm_opt.wasm` followed by the user's `wasmOptArgs` (`Toolchain.WasmOptArgs`); and it returns what `compile_js` returns (`LoaderFor`): the entry or library loader, inline with a payload that decodes back to the module or referring to the asset `fileId` with the `nodejs` flag, the asset `<name>.wasm` or `outDir/<name>.wasm` with its warning, and no side effects for libraries |
| Plugin.RustPlugin.Load | src/index.js:438-457 | the loop returns the path of the first mapping whose `from` prefixes the id, or `null`, which is `Bridge.Lookup` |
| Plugin.FlattenMembers | src/index.js:319-323 | a file is watched exactly when some pattern's glob matched it |
| Plugin.RustPlugin.WatchFiles | src/index.js:312-325 | with `watch` on, every file of every pattern's matches is added in order; with it off, nothing is |
| Plugin.RustPlugin.ResolveFileUrl | src/index.js:468-475 | answers exactly for ids registered by `compile_js`, with `importHook(serverPath + fileName)` |

## Left out

- Running other programs is not modelled; the models cover their inputs and outputs:
  - `cargo build`, `cargo metadata`, `wasm-bindgen` and `wasm-opt` are not run. Their argument
    lists are modelled, and the target directory reported by `cargo metadata` is a parameter.
  - The warning on a failed `wasm-opt` and the `mv` that follows are left out, as is the
    `rm` of the output directory; only its disjointness from the compiled module is stated.
- The global `lock` that serialises builds, and the concurrency of `build` with
  `watch_files`, are not modelled.
- `compile_rust`'s `catch` is not modelled. It rethrows subprocess failures, or replaces them
  with "Rust compilation failed". Subprocesses cannot fail in the model.
- File contents are parameters:
  - the module bytes read from `index_bg.wasm`;
  - the parsed `Cargo.toml` (TOML parsing is not modelled, and TOML floats are not in the
    `Toml` value type);
  - the glob results of `watch_files`.

  `load` returns the path it would read rather than the file's text.
- Rollup's context is a set of parameters:
  - `getModuleInfo(id).isEntry`;
  - the reference id `emitFile` returns;
  - `this.meta.watchMode` and `rollup.watch`.

  `this.warn` becomes a returned list of warnings.
- The generated loader's JavaScript text is not modelled. It is represented by its shape:
  - the import path;
  - entry or library;
  - inline base64 or asset reference with the `nodejs` flag;
  - `moduleSideEffects`.

  The `loadFile` prelude and the run-time `importHook`/`serverPath` options of library loaders
  are not modelled.
- Plugin.RustPlugin.ResolveFileUrl: the hook is represented by its identity (`HookCall`). It is
  not applied, so the `JSON.stringify` quoting of the default hook is not modelled.
- `transform`, its `createFilter` include/exclude globs and `build` are not modelled. They
  dispatch manifests to `compile_rust` and `watch_files` and belong to rollup-pluginutils.
- Verbose `debug` logging is not modelled.
- The name of the `wasm-opt` executable (`wasm-opt.cmd` on Windows) is not modelled, since
  the optimiser is never run.
- Paths are not normalised: `/` is the only separator, and `..` segments, Windows separators
  and `path.resolve` against the working directory are out of scope. `path.join`'s removal of a
  leading `./` is modelled in `resolveId`.
- Options are taken to have the documented types. Boolean options are on only when `true`,
  and other truthy values given for them are not modelled. `wasmPackPath` is the only option
  that tells `null` from `undefined`, as the code does.
- Manifest.CrateName: when `package.name` is missing or is not a string, only the fact that a
  `TypeError` is thrown is modelled, not its message.
- Base64: a Dafny `char` is a Unicode scalar value, while `charCodeAt` reads UTF-16 code units.
  The two agree on the ASCII base64 text the decoder is given; astral characters and lone
  surrogates in its input are not modelled.
  `3 * (n / 4)` is computed in exact arithmetic and truncated as the `Uint8Array` constructor
  truncates it. This agrees with the floating-point result for every realistic length. The `|`
  of disjoint shifted digits is modelled as addition.
- Ordering of `fake_dirs`: the code's `load` takes the first mapping in insertion order whose
  `from` prefixes the id. The model follows the code; it does not take the most recent or the
  longest match.
