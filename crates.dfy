/**
 * The crates a module can see: the roots of all crates of its Cargo project, the extern crates
 * (library targets of the packages, then the standard library), lookup of a crate by name,
 * and the prelude module of the standard library.
 *
 * The platform is replaced by values: a `VirtualFile` is a path, `findFileByRelativePath` is
 * a partial map, and `PsiManager.findFile` succeeds for the files in a given set.
 */
module Crates {
  import opened Wrappers

  datatype VirtualFile = VirtualFile(path: string)

  /** The parsed file of a virtual file. */
  datatype PsiFile = PsiFile(virtualFile: VirtualFile)

  /** What the crate functions ask of the platform. */
  datatype Platform = Platform(relativeFiles: map<(VirtualFile, string), VirtualFile>,
                               parsedFiles: set<VirtualFile>)

  /** `VirtualFile.findFileByRelativePath` */
  function FindFileByRelativePath(pf: Platform, f: VirtualFile, relPath: string): Option<VirtualFile> {
    if (f, relPath) in pf.relativeFiles then Some(pf.relativeFiles[(f, relPath)]) else None
  }

  /** `PsiManager.findFile` */
  function FindFile(pf: Platform, f: VirtualFile): (r: Option<PsiFile>)
    ensures r.Some? ==> r.value.virtualFile == f
  {
    if f in pf.parsedFiles then Some(PsiFile(f)) else None
  }

  /** A build target of a package, with its entry file when that file exists. */
  datatype Target = Target(virtualFile: Option<VirtualFile>)

  datatype Package = Package(name: string, targets: seq<Target>, libTarget: Option<Target>)

  datatype CargoProjectDescription = CargoProjectDescription(packages: seq<Package>)

  /** A crate as `extern crate name;` sees it, with its root module file. */
  datatype ExternCrate = ExternCrate(name: string, virtualFile: VirtualFile)

  /** An IDE module: its Cargo project, if one is configured, and the standard-library crates
      the toolchain provides. */
  datatype Module = Module(cargoProject: Option<CargoProjectDescription>,
                           standardLibraryCrates: seq<ExternCrate>)

  /** `AutoInjectedCrates` */
  const Std: string := "std"
  const Core: string := "core"

  /** The relative path of the prelude from the root of the standard library. */
  const PreludePath: string := "../prelude/v1.rs"

  /** `cargoProject?.packages.orEmpty()` */
  function Packages(m: Module): seq<Package> {
    if m.cargoProject.Some? then m.cargoProject.value.packages else []
  }

  // Crate roots.

  /** `targets.mapNotNull { it.virtualFile }` */
  function TargetFiles(targets: seq<Target>): seq<VirtualFile> {
    if targets == [] then []
    else (if targets[0].virtualFile.Some? then [targets[0].virtualFile.value] else []) + TargetFiles(targets[1..])
  }

  /** `packages.flatMap { it.targets }.mapNotNull { it.virtualFile }` */
  function PackageTargetFiles(pkgs: seq<Package>): seq<VirtualFile> {
    if pkgs == [] then [] else TargetFiles(pkgs[0].targets) + PackageTargetFiles(pkgs[1..])
  }

  /** `standardLibraryCrates.map { it.virtualFile }` */
  function CrateFiles(crates: seq<ExternCrate>): (files: seq<VirtualFile>)
    ensures |files| == |crates| && forall i :: 0 <= i < |crates| ==> files[i] == crates[i].virtualFile
  {
    if crates == [] then [] else [crates[0].virtualFile] + CrateFiles(crates[1..])
  }

  /** `Module.crateRoots` */
  function CrateRoots(m: Module): seq<VirtualFile> {
    PackageTargetFiles(Packages(m)) + CrateFiles(m.standardLibraryCrates)
  }

  // Extern crates.

  /** `packages.mapNotNull { pkg -> pkg.libTarget?.virtualFile?.let { ExternCrate(pkg.name, it) } }` */
  function LibCrates(pkgs: seq<Package>): seq<ExternCrate> {
    if pkgs == [] then []
    else LibCrate(pkgs[0]) + LibCrates(pkgs[1..])
  }

  /** The crate a package contributes: one when it has a library target with a file. */
  function LibCrate(p: Package): seq<ExternCrate> {
    if p.libTarget.Some? && p.libTarget.value.virtualFile.Some?
    then [ExternCrate(p.name, p.libTarget.value.virtualFile.value)]
    else []
  }

  /** `Module.externCrates` */
  function ExternCrates(m: Module): seq<ExternCrate> {
    LibCrates(Packages(m)) + m.standardLibraryCrates
  }

  /** `find { it.name == crateName }`: the first crate with the name. */
  function FindCrate(crates: seq<ExternCrate>, name: string): (r: Option<ExternCrate>)
    ensures r.Some? <==> exists i :: 0 <= i < |crates| && crates[i].name == name
    ensures r.Some? ==> exists i :: 0 <= i < |crates| && crates[i] == r.value && r.value.name == name
                                    && forall j :: 0 <= j < i ==> crates[j].name != name
    ensures forall i :: 0 <= i < |crates| && crates[i].name == name ==>
      (forall j :: 0 <= j < i ==> crates[j].name != name) ==> r == Some(crates[i])
  {
    if crates == [] then None
    else if crates[0].name == name then Some(crates[0])
    else
      var r := FindCrate(crates[1..], name);
      assert forall i :: 1 <= i < |crates| ==> crates[i] == crates[1..][i - 1];
      r
  }

  /** `Module.findExternCrateByName`: the parsed root file of the first visible crate with the
      name; none when no crate has it (or its root cannot be parsed). */
  function FindExternCrateByName(m: Module, pf: Platform, crateName: string): (r: Option<PsiFile>)
    ensures r.Some? ==> exists c :: c in ExternCrates(m) && c.name == crateName && r.value.virtualFile == c.virtualFile
    ensures (forall c :: c in ExternCrates(m) ==> c.name != crateName) ==> r.None?
    ensures var crates := ExternCrates(m);
      forall i :: 0 <= i < |crates| && crates[i].name == crateName ==>
        (forall j :: 0 <= j < i ==> crates[j].name != crateName) ==> r == FindFile(pf, crates[i].virtualFile)
  {
    match FindCrate(ExternCrates(m), crateName)
    case None => None
    case Some(c) => FindFile(pf, c.virtualFile)
  }

  /** `Module.preludeModule`: `../prelude/v1.rs` next to the root of `std`. */
  function PreludeModule(m: Module, pf: Platform): (r: Option<PsiFile>)
    ensures FindExternCrateByName(m, pf, Std).None? ==> r.None?
    ensures r.Some? ==> exists std :: FindExternCrateByName(m, pf, Std) == Some(std)
                          && FindFileByRelativePath(pf, std.virtualFile, PreludePath) == Some(r.value.virtualFile)
    ensures forall std, v ::
      FindExternCrateByName(m, pf, Std) == Some(std) && FindFileByRelativePath(pf, std.virtualFile, PreludePath) == Some(v)
      ==> r == FindFile(pf, v)
  {
    match FindExternCrateByName(m, pf, Std)
    case None => None
    case Some(stdlib) =>
      match FindFileByRelativePath(pf, stdlib.virtualFile, PreludePath)
      case None => None
      case Some(preludeFile) => FindFile(pf, preludeFile)
  }

  // Properties.

  /** The crates of a list of packages are those of each package in turn: entries keep the
      package order, and packages without a library file add nothing. */
  lemma {:induction false} LibCratesAppend(a: seq<Package>, b: seq<Package>)
    ensures LibCrates(a + b) == LibCrates(a) + LibCrates(b)
  {
    if a == [] {
      assert a + b == b;
    } else {
      assert (a + b)[0] == a[0];
      assert (a + b)[1..] == a[1..] + b;
      LibCratesAppend(a[1..], b);
    }
  }

  /** A crate named after a package stands for that package's library file, and every
      package with a library file has its crate. */
  lemma {:induction false} LibCratesMembers(pkgs: seq<Package>, c: ExternCrate)
    ensures c in LibCrates(pkgs)
        <==> exists p :: p in pkgs && p.name == c.name && p.libTarget.Some?
                         && p.libTarget.value.virtualFile == Some(c.virtualFile)
  {
    if pkgs != [] {
      LibCratesMembers(pkgs[1..], c);
      var p := pkgs[0];
      if c in LibCrates(pkgs) && c !in LibCrates(pkgs[1..]) {
        assert c in LibCrate(p);
        assert p in pkgs;
      }
      if exists q :: q in pkgs && q.name == c.name && q.libTarget.Some? && q.libTarget.value.virtualFile == Some(c.virtualFile) {
        var q :| q in pkgs && q.name == c.name && q.libTarget.Some? && q.libTarget.value.virtualFile == Some(c.virtualFile);
        if q == p {
          assert LibCrate(p) == [c];
        } else {
          assert q in pkgs[1..];
        }
      }
    }
  }

  /** Without a Cargo project, the extern crates are exactly the standard library's, and so
      are the crate roots. */
  lemma NoCargoProject(m: Module)
    requires m.cargoProject.None?
    ensures ExternCrates(m) == m.standardLibraryCrates
    ensures CrateRoots(m) == CrateFiles(m.standardLibraryCrates)
  {
    assert LibCrates([]) == [];
  }

  /** Looking up in a concatenation: the first part decides when it holds the name. */
  lemma {:induction false} FindCrateAppend(a: seq<ExternCrate>, b: seq<ExternCrate>, name: string)
    ensures FindCrate(a + b, name) == if FindCrate(a, name).Some? then FindCrate(a, name) else FindCrate(b, name)
  {
    if a == [] {
      assert a + b == b;
    } else {
      assert (a + b)[0] == a[0];
      assert (a + b)[1..] == a[1..] + b;
      FindCrateAppend(a[1..], b, name);
    }
  }

  /** A package's library shadows a standard-library crate of the same name. */
  lemma PackageShadowsStdlib(m: Module, pf: Platform, p: Package)
    requires p in Packages(m) && p.libTarget.Some? && p.libTarget.value.virtualFile.Some?
    ensures exists c :: c in LibCrates(Packages(m)) && c.name == p.name
                        && FindExternCrateByName(m, pf, p.name) == FindFile(pf, c.virtualFile)
  {
    var pkgs := Packages(m);
    var own := ExternCrate(p.name, p.libTarget.value.virtualFile.value);
    LibCratesMembers(pkgs, own);
    var libs := LibCrates(pkgs);
    var i :| 0 <= i < |libs| && libs[i] == own;
    assert libs[i].name == p.name;
    FindCrateAppend(libs, m.standardLibraryCrates, p.name);
    var c := FindCrate(libs, p.name).value;
    assert c in libs;
  }

  /** Crate roots: a file is a root exactly when it is the file of some target of some
      package, or the file of a standard-library crate. */
  lemma CrateRootsMembers(m: Module, f: VirtualFile)
    ensures f in CrateRoots(m)
        <==> (exists p, t :: p in Packages(m) && t in p.targets && t.virtualFile == Some(f))
             || (exists c :: c in m.standardLibraryCrates && c.virtualFile == f)
  {
    PackageTargetFilesMembers(Packages(m), f);
    var std := m.standardLibraryCrates;
    if f in CrateFiles(std) {
      var i :| 0 <= i < |std| && CrateFiles(std)[i] == f;
      assert std[i] in std;
    }
    if exists c :: c in std && c.virtualFile == f {
      var c :| c in std && c.virtualFile == f;
      var i :| 0 <= i < |std| && std[i] == c;
      assert CrateFiles(std)[i] == f;
    }
  }

  lemma {:induction false} PackageTargetFilesMembers(pkgs: seq<Package>, f: VirtualFile)
    ensures f in PackageTargetFiles(pkgs)
        <==> exists p, t :: p in pkgs && t in p.targets && t.virtualFile == Some(f)
  {
    if pkgs != [] {
      PackageTargetFilesMembers(pkgs[1..], f);
      TargetFilesMembers(pkgs[0].targets, f);
      if exists p, t :: p in pkgs && t in p.targets && t.virtualFile == Some(f) {
        var p, t :| p in pkgs && t in p.targets && t.virtualFile == Some(f);
        if p != pkgs[0] {
          assert p in pkgs[1..];
        }
      }
    }
  }

  lemma {:induction false} TargetFilesMembers(targets: seq<Target>, f: VirtualFile)
    ensures f in TargetFiles(targets) <==> exists t :: t in targets && t.virtualFile == Some(f)
  {
    if targets != [] {
      TargetFilesMembers(targets[1..], f);
      if exists t :: t in targets && t.virtualFile == Some(f) {
        var t :| t in targets && t.virtualFile == Some(f);
        if t != targets[0] {
          assert t in targets[1..];
        }
      }
    }
  }

  /** One package `app` with a library `fileA`, and `std` and `core` from the toolchain: the
      extern crates are `app`, `std`, `core`, in that order. */
  lemma AppWithStdlib(fileA: VirtualFile, fileStd: VirtualFile, fileCore: VirtualFile)
    ensures var app := Package("app", [Target(Some(fileA))], Some(Target(Some(fileA))));
      var m := Module(Some(CargoProjectDescription([app])),
                      [ExternCrate(Std, fileStd), ExternCrate(Core, fileCore)]);
      ExternCrates(m) == [ExternCrate("app", fileA), ExternCrate("std", fileStd), ExternCrate("core", fileCore)]
  {
    var app := Package("app", [Target(Some(fileA))], Some(Target(Some(fileA))));
    assert LibCrates([app]) == LibCrate(app) + LibCrates([]);
  }
}
