/**
 * The plugin's minimal type inference: the type of an expression is known only for a path
 * that refers to `self`, and the type a type reference denotes only for a path to a struct.
 *
 * Reference resolution and the search for the enclosing `impl` are not part of this model;
 * they are passed in as functions.
 */
module TypeInference {
  import opened Wrappers

  /** A reference in a path, to be resolved. */
  datatype Reference = Reference(key: nat)

  /** A declaration a reference can resolve to. */
  datatype Decl =
    | SelfArgument(key: nat)
    | StructItem(key: nat)
    | OtherDecl(key: nat)

  /** `RustPath`: its reference may be missing. */
  datatype Path = Path(reference: Option<Reference>)

  /** `RustType`: a path type (whose path may be missing) or any other type. */
  datatype RustType = PathType(path: Option<Path>) | OtherType(key: nat)

  /** `RustExpr`: a path expression (whose reference is always there) or any other expression. */
  datatype RustExpr = PathExpr(reference: Reference) | OtherExpr(key: nat)

  /** `RustImplItem`: its type may be missing. */
  datatype ImplItem = ImplItem(implType: Option<RustType>)

  /** `RustResolvedType`: the unknown type, or the type of a struct declaration. */
  datatype ResolvedType = Unknown | StructType(item: Decl)

  /** `RustType.resolvedType`: a path type whose path resolves to a struct is that struct's
      type; everything else is unknown. */
  function ResolvedTypeOf(t: RustType, resolve: Reference -> Option<Decl>): (r: ResolvedType)
    ensures r.StructType? <==> t.PathType? && t.path.Some? && t.path.value.reference.Some?
                               && resolve(t.path.value.reference.value).Some?
                               && resolve(t.path.value.reference.value).value.StructItem?
    ensures r.StructType? ==> r.item.StructItem? && resolve(t.path.value.reference.value) == Some(r.item)
  {
    match t
    case PathType(Some(Path(Some(ref)))) =>
      (match resolve(ref)
       case Some(StructItem(k)) => StructType(StructItem(k))
       case _ => Unknown)
    case _ => Unknown
  }

  /** `RustExpr.inferredType`: a path expression that refers to a `self` argument has the
      resolved type of its `impl`'s type; everything else is unknown. `implOf` stands for
      `parentOfType<RustImplItem>()` of the `self` argument. */
  function InferredType(e: RustExpr, resolve: Reference -> Option<Decl>,
                        implOf: Decl -> Option<ImplItem>): (r: ResolvedType)
    ensures r.StructType? ==> r.item.StructItem?
    ensures r.StructType? ==>
      && e.PathExpr? && resolve(e.reference).Some? && resolve(e.reference).value.SelfArgument?
      && implOf(resolve(e.reference).value).Some?
      && implOf(resolve(e.reference).value).value.implType.Some?
      && r == ResolvedTypeOf(implOf(resolve(e.reference).value).value.implType.value, resolve)
  {
    match e
    case PathExpr(ref) =>
      (match resolve(ref)
       case Some(SelfArgument(k)) =>
         (match implOf(SelfArgument(k))
          case Some(ImplItem(Some(ty))) => ResolvedTypeOf(ty, resolve)
          case _ => Unknown)
       case _ => Unknown)
    case OtherExpr(_) => Unknown
  }

  // Properties.

  /** `self` has the type its `impl` is for, whatever that type resolves to. */
  lemma SelfHasImplType(ref: Reference, resolve: Reference -> Option<Decl>, implOf: Decl -> Option<ImplItem>,
                        self: Decl, ty: RustType)
    requires resolve(ref) == Some(self) && self.SelfArgument?
    requires implOf(self) == Some(ImplItem(Some(ty)))
    ensures InferredType(PathExpr(ref), resolve, implOf) == ResolvedTypeOf(ty, resolve)
  {
  }

  /** A `self` argument outside any `impl`, or in an `impl` without a type, is of unknown type. */
  lemma SelfWithoutImplType(ref: Reference, resolve: Reference -> Option<Decl>, implOf: Decl -> Option<ImplItem>)
    requires resolve(ref).Some? && resolve(ref).value.SelfArgument?
    requires implOf(resolve(ref).value).None? || implOf(resolve(ref).value).value.implType.None?
    ensures InferredType(PathExpr(ref), resolve, implOf) == Unknown
  {
  }

  /** Only `self` paths have a known type: a path that resolves to anything else or to nothing,
      and every other expression, are of unknown type. */
  lemma OnlySelfIsTyped(e: RustExpr, resolve: Reference -> Option<Decl>, implOf: Decl -> Option<ImplItem>)
    requires e.OtherExpr? || resolve(e.reference).None? || !resolve(e.reference).value.SelfArgument?
    ensures InferredType(e, resolve, implOf) == Unknown
  {
  }

  /** `impl Point { fn f(&self) { self } }`: the `self` in the body is of type `Point`; the
      same `self` outside any `impl` is of unknown type. */
  lemma SelfInsideImplOfPoint(selfRef: Reference, pointRef: Reference)
    requires selfRef != pointRef
    ensures var point := StructItem(1);
      var self := SelfArgument(2);
      var resolve := (r: Reference) => if r == selfRef then Some(self) else if r == pointRef then Some(point) else None;
      && InferredType(PathExpr(selfRef), resolve,
                      (d: Decl) => if d == self then Some(ImplItem(Some(PathType(Some(Path(Some(pointRef))))))) else None)
         == StructType(point)
      && InferredType(PathExpr(selfRef), resolve, (d: Decl) => None) == Unknown
  {
  }

  /** The type of an expression never depends on how the enclosing `impl` is found for
      declarations other than the one the expression resolves to. */
  lemma InferredTypeLocal(e: RustExpr, resolve: Reference -> Option<Decl>,
                          implOf1: Decl -> Option<ImplItem>, implOf2: Decl -> Option<ImplItem>)
    requires e.PathExpr? && resolve(e.reference).Some? ==> implOf1(resolve(e.reference).value) == implOf2(resolve(e.reference).value)
    ensures InferredType(e, resolve, implOf1) == InferredType(e, resolve, implOf2)
  {
  }
}
