/**
 * Rust modules as the plugin sees them: a file is a module, and so is an inline `mod name { ... }`
 * item. A module knows whether it owns a directory (where the files of its child modules live),
 * which directory that is, whether it is a crate root, and its qualified name within its file.
 *
 * An inline module carries the module it is written in (`super`), so the parent chain is a
 * finite value. Directories and their subdirectories, the module path of a file and the IDE
 * module of a file are given, not computed.
 */
module ModuleTree {
  import opened Wrappers
  import opened Syntax
  import opened Seqs
  import Crates

  datatype Directory = Directory(name: string, key: nat)

  /** `PsiDirectory.findSubdirectory`, as a partial map. */
  datatype FileSystem = FileSystem(subdirectories: map<(Directory, string), Directory>)

  function FindSubdirectory(fs: FileSystem, d: Directory, name: string): Option<Directory> {
    if (d, name) in fs.subdirectories then Some(fs.subdirectories[(d, name)]) else None
  }

  /** A direct child element of a module: its element type and its identity. */
  datatype Element = Element(kind: Kind, key: nat)

  /** The module path `RustModulePath.devise` finds for a file. */
  datatype ModulePath = ModulePath(key: nat)

  /** A Rust source file: its name, its virtual file and IDE module (both may be missing),
      its containing directory, its module path and its direct children. */
  datatype RustFile = RustFile(name: string, virtualFile: Option<Crates.VirtualFile>,
                               ideModule: Option<Crates.Module>, containingDirectory: Option<Directory>,
                               modulePath: Option<ModulePath>, children: seq<Element>)

  /** `RustMod`: a file, or an inline module item with its name (if any), the module it is
      written in (if the tree provides one) and its direct children. */
  datatype RustMod =
    | FileMod(file: RustFile)
    | InlineMod(name: Option<string>, parentMod: Option<RustMod>, children: seq<Element>)

  /** `RustQualifiedName`: a name part under an optional qualifier, or the module id of a file. */
  datatype QualifiedName =
    | FileModuleId(path: ModulePath)
    | QualifiedName(part: string, qualifier: Option<QualifiedName>)

  /** `requireNotNull` failing: an inline module with no enclosing module. */
  datatype Failure = NoParentMod(name: Option<string>)

  /** `RustMod.MOD_RS` */
  const ModRs: string := "mod.rs"

  // Children.

  predicate IsItemElement(e: Element) {
    IsItem(e.kind)
  }

  predicate IsModDeclElement(e: Element) {
    e.kind == ModDeclItem
  }

  function Children(m: RustMod): seq<Element> {
    match m
    case FileMod(f) => f.children
    case InlineMod(_, _, children) => children
  }

  /** `items`: the direct item children, in order (for an inline module, `itemList`). */
  function Items(m: RustMod): seq<Element> {
    Filter(Children(m), IsItemElement)
  }

  /** `modDecls`: the direct `mod name;` children, in order. */
  function ModDecls(m: RustMod): seq<Element> {
    Filter(Children(m), IsModDeclElement)
  }

  /** `declarations`: the items. */
  function Declarations(m: RustMod): (r: seq<Element>)
    ensures forall e :: e in r <==> e in Children(m) && IsItem(e.kind)
  {
    var r := Items(m);
    forall e | e in Children(m) && IsItem(e.kind) ensures e in r {
      FilterKeeps(Children(m), IsItemElement, e);
    }
    r
  }

  // Module flags.

  /** `RustFile.isCrateRoot`: false without a virtual file or an IDE module; otherwise whether
      the file is one of the module's crate roots. */
  predicate IsCrateRootFile(f: RustFile) {
    match f.virtualFile
    case None => false
    case Some(vf) => vf in (if f.ideModule.Some? then Crates.CrateRoots(f.ideModule.value) else [])
  }

  /** `isCrateRoot`: an inline module never is. */
  predicate IsCrateRoot(m: RustMod) {
    m.FileMod? && IsCrateRootFile(m.file)
  }

  /** `ownsDirectory`: a file named `mod.rs` or a crate root; every inline module. */
  predicate OwnsDirectory(m: RustMod) {
    match m
    case FileMod(f) => f.name == ModRs || IsCrateRootFile(f)
    case InlineMod(_, _, _) => true
  }

  /** `isTopLevelInFile` */
  predicate IsTopLevelInFile(m: RustMod) {
    m.FileMod?
  }

  /** `super` of an inline module: the enclosing module, and a failure when there is none. */
  function Super(m: RustMod): (r: Result<RustMod, Failure>)
    requires m.InlineMod?
    ensures r.Err? <==> m.parentMod.None?
    ensures r.Ok? ==> r.value == m.parentMod.value && r.value < m
  {
    match m.parentMod
    case None => Err(NoParentMod(m.name))
    case Some(p) => Ok(p)
  }

  /** `ownedDirectory`: a file's containing directory; for a named inline module, the
      subdirectory of that name in its parent's owned directory. */
  function OwnedDirectory(m: RustMod, fs: FileSystem): Result<Option<Directory>, Failure> {
    match m
    case FileMod(f) => Ok(f.containingDirectory)
    case InlineMod(None, _, _) => Ok(None)
    case InlineMod(Some(name), _, _) =>
      match Super(m)
      case Err(e) => Err(e)
      case Ok(parent) =>
        match OwnedDirectory(parent, fs)
        case Err(e) => Err(e)
        case Ok(None) => Ok(None)
        case Ok(Some(dir)) => Ok(FindSubdirectory(fs, dir, name))
  }

  /** `canonicalNameInFile`: a file's module id; for a named inline module, its name under
      its parent's canonical name. */
  function CanonicalNameInFile(m: RustMod): Result<Option<QualifiedName>, Failure> {
    match m
    case FileMod(f) => Ok(if f.modulePath.Some? then Some(FileModuleId(f.modulePath.value)) else None)
    case InlineMod(None, _, _) => Ok(None)
    case InlineMod(Some(name), _, _) =>
      match Super(m)
      case Err(e) => Err(e)
      case Ok(parent) =>
        match CanonicalNameInFile(parent)
        case Err(e) => Err(e)
        case Ok(q) => Ok(Some(QualifiedName(name, q)))
  }

  /** `PsiFile.usefulName`: `dir/mod.rs` for a `mod.rs` file in a directory, else the name. */
  function UsefulName(f: RustFile): (r: string)
    ensures |f.name| <= |r| && r[|r| - |f.name|..] == f.name
  {
    if f.name == ModRs && f.containingDirectory.Some? then f.containingDirectory.value.name + "/" + f.name
    else f.name
  }

  // Reference definitions: the chain of modules from a file down to a module.

  /** A named inline module, or one of its named ancestors before an unnamed one or a file,
      has no enclosing module. */
  predicate Orphaned(m: RustMod) {
    match m
    case FileMod(_) => false
    case InlineMod(None, _, _) => false
    case InlineMod(Some(_), None, _) => true
    case InlineMod(Some(_), Some(p), _) => Orphaned(p)
  }

  /** The file a module is written in and the names of the inline modules from that file
      down to it, outermost first; none when some module on the way is unnamed or has no
      enclosing module. */
  function ModPath(m: RustMod): Option<(RustFile, seq<string>)> {
    match m
    case FileMod(f) => Some((f, []))
    case InlineMod(None, _, _) => None
    case InlineMod(Some(_), None, _) => None
    case InlineMod(Some(name), Some(p), _) =>
      match ModPath(p)
      case None => None
      case Some((f, names)) => Some((f, names + [name]))
  }

  /** The names of the named inline modules from just below the nearest file or unnamed
      module down to `m`, outermost first. */
  function NamedSuffix(m: RustMod): seq<string> {
    match m
    case InlineMod(Some(name), Some(p), _) => NamedSuffix(p) + [name]
    case _ => []
  }

  /** Walking down from a directory through subdirectories named `names`, in order. */
  function Descend(fs: FileSystem, d: Option<Directory>, names: seq<string>): Option<Directory>
    decreases names
  {
    if names == [] || d.None? then d
    else Descend(fs, FindSubdirectory(fs, d.value, names[0]), names[1..])
  }

  /** The name parts of a qualified name, outermost first. */
  function Parts(q: QualifiedName): seq<string> {
    match q
    case FileModuleId(_) => []
    case QualifiedName(part, None) => [part]
    case QualifiedName(part, Some(qualifier)) => Parts(qualifier) + [part]
  }

  /** The file module id a qualified name starts from, if any. */
  function Root(q: QualifiedName): Option<ModulePath> {
    match q
    case FileModuleId(p) => Some(p)
    case QualifiedName(_, None) => None
    case QualifiedName(_, Some(qualifier)) => Root(qualifier)
  }

  // Properties.

  /** An inline module owns a directory, is never a crate root and is never top level in its
      file; a file module is always top level. */
  lemma ModuleFlags(m: RustMod)
    ensures m.InlineMod? ==> OwnsDirectory(m) && !IsCrateRoot(m) && !IsTopLevelInFile(m)
    ensures m.FileMod? ==> IsTopLevelInFile(m)
  {
  }

  /** A file owns its directory exactly when it is called `mod.rs` or it is a crate root: one
      of the files of its Cargo targets or of the standard library. A file without a virtual
      file or an IDE module is never a crate root. */
  lemma FileOwnsDirectory(f: RustFile)
    ensures OwnsDirectory(FileMod(f))
        <==> f.name == ModRs
             || (f.virtualFile.Some? && f.ideModule.Some?
                 && ((exists p, t :: p in Crates.Packages(f.ideModule.value) && t in p.targets
                                     && t.virtualFile == f.virtualFile)
                     || (exists c :: c in f.ideModule.value.standardLibraryCrates
                                     && Some(c.virtualFile) == f.virtualFile)))
  {
    if f.virtualFile.Some? && f.ideModule.Some? {
      Crates.CrateRootsMembers(f.ideModule.value, f.virtualFile.value);
    }
  }

  /** Resolving `super` fails exactly for the orphaned modules, and both recursive queries
      fail for exactly those. */
  lemma {:induction false} FailsExactlyWhenOrphaned(m: RustMod, fs: FileSystem)
    ensures OwnedDirectory(m, fs).Err? <==> Orphaned(m)
    ensures CanonicalNameInFile(m).Err? <==> Orphaned(m)
  {
    if m.InlineMod? && m.name.Some? && m.parentMod.Some? {
      FailsExactlyWhenOrphaned(m.parentMod.value, fs);
    }
  }

  /** An unnamed inline module owns no directory and has no canonical name, whether or not
      it has an enclosing module. */
  lemma UnnamedModule(children: seq<Element>, parent: Option<RustMod>, fs: FileSystem)
    ensures OwnedDirectory(InlineMod(None, parent, children), fs) == Ok(None)
    ensures CanonicalNameInFile(InlineMod(None, parent, children)) == Ok(None)
  {
  }

  /** A module below an unnamed inline module, at any depth, owns no directory: the unnamed
      ancestor has none, and there is nothing to look its subdirectory up in. */
  lemma {:induction false} UnnamedAncestorOwnsNoDirectory(m: RustMod, fs: FileSystem)
    requires ModPath(m).None? && !Orphaned(m)
    ensures OwnedDirectory(m, fs) == Ok(None)
  {
    match m
    case InlineMod(None, _, _) =>
    case InlineMod(Some(_), Some(p), _) =>
      UnnamedAncestorOwnsNoDirectory(p, fs);
  }

  /** A named module below an unnamed inline module, at any depth, still has a canonical name:
      the nearest unnamed ancestor cuts the chain, so the name holds the parts of the named
      modules below that ancestor and no file module id (an unnamed ancestor does not make the
      name absent). */
  lemma {:induction false} UnnamedAncestorCutsName(m: RustMod)
    requires m.InlineMod? && m.name.Some? && ModPath(m).None? && !Orphaned(m)
    ensures CanonicalNameInFile(m).Ok? && CanonicalNameInFile(m).value.Some?
    ensures Parts(CanonicalNameInFile(m).value.value) == NamedSuffix(m)
    ensures Root(CanonicalNameInFile(m).value.value) == None
  {
    var p := m.parentMod.value;
    if p.name.Some? {
      UnnamedAncestorCutsName(p);
    }
  }

  /** `mod a { mod { mod b { mod c {} } } }`: `c` is named `b::c`, with no file module id. */
  lemma NamedInsideUnnamed(a: string, b: string, c: string, f: RustFile)
    ensures var outer := InlineMod(Some(a), Some(FileMod(f)), []);
      var unnamed := InlineMod(None, Some(outer), []);
      var inner := InlineMod(Some(b), Some(unnamed), []);
      CanonicalNameInFile(InlineMod(Some(c), Some(inner), []))
        == Ok(Some(QualifiedName(c, Some(QualifiedName(b, None)))))
  {
    var unnamed := InlineMod(None, Some(InlineMod(Some(a), Some(FileMod(f)), [])), []);
    assert CanonicalNameInFile(InlineMod(Some(b), Some(unnamed), [])) == Ok(Some(QualifiedName(b, None)));
  }

  /** The owned directory of a module is found by walking down from its file's directory
      through the names of the inline modules on the way. */
  lemma {:induction false} OwnedDirectoryIsDescent(m: RustMod, fs: FileSystem)
    requires ModPath(m).Some?
    ensures OwnedDirectory(m, fs) == Ok(Descend(fs, ModPath(m).value.0.containingDirectory, ModPath(m).value.1))
  {
    match m
    case FileMod(f) =>
    case InlineMod(Some(name), Some(p), _) =>
      OwnedDirectoryIsDescent(p, fs);
      var (f, names) := ModPath(p).value;
      DescendAppend(fs, f.containingDirectory, names, name);
  }

  /** One more step down at the end of a walk. */
  lemma {:induction false} DescendAppend(fs: FileSystem, d: Option<Directory>, names: seq<string>, name: string)
    ensures Descend(fs, d, names + [name])
         == match Descend(fs, d, names)
            case None => None
            case Some(dir) => FindSubdirectory(fs, dir, name)
    decreases names
  {
    if names == [] {
      assert ([] + [name])[1..] == [];
    } else if d.Some? {
      assert (names + [name])[0] == names[0];
      assert (names + [name])[1..] == names[1..] + [name];
      DescendAppend(fs, FindSubdirectory(fs, d.value, names[0]), names[1..], name);
    }
  }

  /** The canonical name of an inline module lists the names of the inline modules from its
      file down to it, outermost first, under the file's module id when the file has one. */
  lemma {:induction false} CanonicalNameIsPath(m: RustMod)
    requires ModPath(m).Some? && m.InlineMod?
    ensures CanonicalNameInFile(m).Ok? && CanonicalNameInFile(m).value.Some?
    ensures Parts(CanonicalNameInFile(m).value.value) == ModPath(m).value.1
    ensures Root(CanonicalNameInFile(m).value.value) == ModPath(m).value.0.modulePath
  {
    var p := m.parentMod.value;
    if p.InlineMod? {
      CanonicalNameIsPath(p);
    }
  }

  /** The declarations are the items, and every `mod name;` child is among them, in the
      same order: the module declarations are the items that are module declarations. */
  lemma ModDeclsAreItems(m: RustMod)
    ensures Declarations(m) == Items(m)
    ensures ModDecls(m) == Filter(Items(m), IsModDeclElement)
  {
    assert forall e :: IsModDeclElement(e) ==> IsItemElement(e);
    FilterFilter(Children(m), IsItemElement, IsModDeclElement);
  }

  /** A file not named `mod.rs` keeps its name; `mod.rs` in directory `d` becomes `d/mod.rs`. */
  lemma UsefulNames(f: RustFile)
    ensures f.name != ModRs ==> UsefulName(f) == f.name
    ensures f.name == ModRs && f.containingDirectory.Some?
            ==> UsefulName(f) == f.containingDirectory.value.name + "/mod.rs"
    ensures f.containingDirectory.None? ==> UsefulName(f) == f.name
  {
  }
}
