/**
 * What the plugin hands to the Rust toolchain: the `cargo build` command line, the
 * directories a build reads from and writes to, and the `wasm-opt` command line.
 */
module Toolchain {
  import opened Common
  import opened Paths

  /** The target triple every build uses. */
  const Target: string := "wasm32-unknown-unknown"

  /** The arguments the plugin always passes to `cargo`. */
  const BuildArgs: seq<string> := ["build", "--lib", "--target", Target]

  /** `options.cargoArgs` as a list: a missing option adds nothing. */
  function UserArgs(cargoArgs: Option<seq<string>>): seq<string>
  {
    if cargoArgs.Some? then cargoArgs.value else []
  }

  /**
   * `run_cargo`: builds the argument list for `cargo`, pushing `--release` unless
   * `debug` is truthy and appending the user's `cargoArgs` when present.
   */
  method RunCargo(debug: bool, cargoArgs: Option<seq<string>>) returns (args: seq<string>)
    ensures args == BuildArgs + (if debug then [] else ["--release"]) + UserArgs(cargoArgs)
    ensures |args| >= 4 && args[..4] == BuildArgs
    ensures |args| == (if debug then 4 else 5) + |UserArgs(cargoArgs)|
    ensures !debug ==> args[4] == "--release"
    ensures args[|args| - |UserArgs(cargoArgs)|..] == UserArgs(cargoArgs)
    ensures "--release" in args <==> !debug || "--release" in UserArgs(cargoArgs)
  {
    args := ["build", "--lib", "--target", Target];
    if !debug {
      args := args + ["--release"];
    }
    ghost var own := args;
    if cargoArgs.Some? {
      args := args + cargoArgs.value;
    }
    assert args == own + UserArgs(cargoArgs);
    ReleaseFlag(own, UserArgs(cargoArgs), debug);
  }

  /** Where `--release` can come from: the plugin's own arguments or the user's. */
  lemma ReleaseFlag(own: seq<string>, user: seq<string>, debug: bool)
    requires own == BuildArgs + (if debug then [] else ["--release"])
    ensures "--release" in own + user <==> !debug || "--release" in user
  {
    assert "--release" !in BuildArgs;
    if !debug {
      assert (own + user)[4] == "--release";
    }
    if "--release" in own + user {
      var k :| 0 <= k < |own + user| && (own + user)[k] == "--release";
      if k >= |own| {
        assert user[k - |own|] == "--release";
      }
    }
  }

  /** The build profile directory `cargo` writes to. */
  function Profile(debug: bool): string
  {
    if debug then "debug" else "release"
  }

  /** The two paths `get_out_dir` returns. */
  datatype OutPaths = OutPaths(outDir: string, wasmPath: string)

  /**
   * `get_out_dir` after `cargo metadata` has named the target directory: the
   * wasm-bindgen output directory `<target>/rollup-plugin-rust/<name>` and the
   * compiled module `<target>/wasm32-unknown-unknown/<profile>/<name>.wasm`. The
   * `rm(out_dir)` that follows never removes the compiled module, which lies
   * outside the output directory.
   */
  function GetOutDir(targetDir: string, name: string, debug: bool): (r: OutPaths)
    ensures EndsWith(r.outDir, [Sep] + name) && EndsWith(r.wasmPath, [Sep] + (name + ".wasm"))
    ensures !StartsWith(r.wasmPath, r.outDir)
    ensures |targetDir| > 0 && Sep !in name ==>
      Dirname(r.outDir) == Join(targetDir, "rollup-plugin-rust")
      && Dirname(r.wasmPath) == Join(Join(targetDir, Target), Profile(debug))
  {
    var r := OutPaths(
      Join(Join(targetDir, "rollup-plugin-rust"), name),
      Join(Join(Join(targetDir, Target), Profile(debug)), name + ".wasm"));
    var below, belowWasm := "rollup-plugin-rust" + [Sep] + name, Target + [Sep] + Profile(debug) + [Sep] + name + ".wasm";
    assert r.outDir == Join(targetDir, below);
    assert r.wasmPath == Join(targetDir, belowWasm);
    OutsideOutDir(targetDir, below, belowWasm);
    JoinEndsWith(Join(targetDir, "rollup-plugin-rust"), name);
    JoinEndsWith(Join(Join(targetDir, Target), Profile(debug)), name + ".wasm");
    if |targetDir| > 0 && Sep !in name then
      NoSepInFileName(name);
      DirnameJoin(Join(targetDir, "rollup-plugin-rust"), name);
      DirnameJoin(Join(Join(targetDir, Target), Profile(debug)), name + ".wasm");
      r
    else
      r
  }

  /** Appending the `.wasm` extension adds no separator. */
  lemma NoSepInFileName(name: string)
    requires Sep !in name
    ensures Sep !in name + ".wasm"
  {
    assert forall k :: 0 <= k < |name| ==> (name + ".wasm")[k] == name[k];
  }

  /** Below the target directory the two paths part at their first character, `r` against `w`. */
  lemma OutsideOutDir(targetDir: string, below: string, belowWasm: string)
    requires |below| > 0 && |belowWasm| > 0 && below[0] == 'r' && belowWasm[0] == 'w'
    ensures !StartsWith(Join(targetDir, belowWasm), Join(targetDir, below))
  {
    var k := |targetDir| + 1;
    assert Join(targetDir, below)[k] == 'r' && Join(targetDir, belowWasm)[k] == 'w';
  }

  /** The debug and release builds of a crate never share a compiled module. */
  lemma ProfilesApart(targetDir: string, name: string)
    ensures GetOutDir(targetDir, name, true).wasmPath != GetOutDir(targetDir, name, false).wasmPath
  {
    var d, r := GetOutDir(targetDir, name, true).wasmPath, GetOutDir(targetDir, name, false).wasmPath;
    var k := |targetDir| + 1 + |Target| + 1;
    assert d[k] == 'd' && r[k] == 'r';
  }

  /** Two crates with different names get different output directories. */
  lemma OutDirsApart(targetDir: string, name1: string, name2: string, debug1: bool, debug2: bool)
    requires name1 != name2
    ensures GetOutDir(targetDir, name1, debug1).outDir != GetOutDir(targetDir, name2, debug2).outDir
  {
    var base := Join(targetDir, "rollup-plugin-rust") + [Sep];
    assert GetOutDir(targetDir, name1, debug1).outDir == base + name1;
    assert GetOutDir(targetDir, name2, debug2).outDir == base + name2;
    assert (base + name1)[|base|..] == name1 && (base + name2)[|base|..] == name2;
  }

  /** The module `wasm-bindgen` writes and `wasm-opt` rewrites, and the optimiser's scratch output. */
  const BindgenWasm: string := "index_bg.wasm"
  const OptimizedWasm: string := "wasm_opt.wasm"

  /**
   * `run_wasm_opt`'s arguments: read `index_bg.wasm`, write `wasm_opt.wasm`, then
   * the user's `wasmOptArgs`; `mv` later puts the output back in place of the input.
   */
  function WasmOptArgs(wasmOptArgs: seq<string>): (args: seq<string>)
    ensures |args| == 3 + |wasmOptArgs| && args[0] == BindgenWasm
    ensures args[1] == "--output" && args[2] == OptimizedWasm
    ensures args[3..] == wasmOptArgs
  {
    [BindgenWasm, "--output", OptimizedWasm] + wasmOptArgs
  }
}
