/** The IR node model: a tree of elements, each with a start offset, the
    attributes the renderer reads, and a kind. The kinds are the ones the tree
    dumper treats specially; every other kind is `Other`, which only lists its
    children. */
module IrTree {
  import opened Wrappers
  import opened Descriptors

  /** What the element renderer reads of a node besides its kind (names,
      types, symbols, origin); never inspected by the dumper itself. */
  type Attributes(==)

  /** An opaque handle naming one entry of the source manager. */
  type FileEntryHandle(==)

  /** An entry of the source manager. Only the PSI-based source manager's
      entries can be turned back into a parsed file. */
  datatype FileEntry = PsiFileEntry(handle: FileEntryHandle) | OtherFileEntry(handle: FileEntryHandle)

  datatype Element = Element(startOffset: int, attributes: Attributes, kind: Kind)

  /** A value parameter of a function or constructor and its default value, if any. */
  datatype ValueParameter = ValueParameter(name: string, defaultValue: Option<Element>)

  /** A formal value parameter of a call's target and the argument bound to it
      (none when the parameter is left to its default). */
  datatype ValueArgument = ValueArgument(parameterName: string, argument: Option<Element>)

  /** A type parameter of a call's target and the type argument bound to it, if any. */
  datatype TypeArgument = TypeArgument(parameter: TypeParameter, argument: Option<KotlinType>)

  datatype Kind =
    | File(fileEntry: FileEntry, fileAnnotations: seq<Annotation>, declarations: seq<Element>)
    | Function(isConstructor: bool, valueParameters: seq<ValueParameter>, body: Option<Element>)
    | EnumEntry(initializerExpression: Element, correspondingClass: Option<Element>)
    | MemberAccess(typeArguments: seq<TypeArgument>, dispatchReceiver: Option<Element>,
                   extensionReceiver: Option<Element>, valueArguments: seq<ValueArgument>)
    | GetField(receiver: Option<Element>)
    | SetField(receiver: Option<Element>, value: Element)
    | When(branches: seq<Element>)
    | Branch(condition: Element, result: Element)
    | WhileLoop(condition: Element, body: Option<Element>)
    | DoWhileLoop(body: Option<Element>, condition: Element)
    | Try(tryResult: Element, catches: seq<Element>, finallyExpression: Option<Element>)
    | ErrorCall(explicitReceiver: Option<Element>, arguments: seq<Element>)
    | Other(children: seq<Element>)

  function OptionalChild(o: Option<Element>): seq<Element>
  {
    match o
    case None => []
    case Some(c) => [c]
  }

  /** The default values that exist, in parameter order. */
  function DefaultValues(ps: seq<ValueParameter>): (r: seq<Element>)
    ensures forall i :: 0 <= i < |r| ==> (ps decreases to r[i])
  {
    if ps == [] then []
    else DefaultValues(ps[..|ps| - 1]) + OptionalChild(ps[|ps| - 1].defaultValue)
  }

  /** The value arguments that are bound, in parameter order. */
  function BoundArguments(vs: seq<ValueArgument>): (r: seq<Element>)
    ensures forall i :: 0 <= i < |r| ==> (vs decreases to r[i])
  {
    if vs == [] then []
    else BoundArguments(vs[..|vs| - 1]) + OptionalChild(vs[|vs| - 1].argument)
  }

  /** The structural children of a node in document order: the nodes a
      generic traversal visits. Every child is a proper part of its parent. */
  function Children(e: Element): (r: seq<Element>)
    ensures forall i :: 0 <= i < |r| ==> (e decreases to r[i])
  {
    match e.kind
    case File(_, _, ds) => ds
    case Function(_, ps, b) => DefaultValues(ps) + OptionalChild(b)
    case EnumEntry(i, c) => [i] + OptionalChild(c)
    case MemberAccess(_, t, x, vs) => OptionalChild(t) + OptionalChild(x) + BoundArguments(vs)
    case GetField(rc) => OptionalChild(rc)
    case SetField(rc, v) => OptionalChild(rc) + [v]
    case When(bs) => bs
    case Branch(c, res) => [c, res]
    case WhileLoop(c, b) => [c] + OptionalChild(b)
    case DoWhileLoop(b, c) => OptionalChild(b) + [c]
    case Try(t, cs, f) => [t] + cs + OptionalChild(f)
    case ErrorCall(rc, args) => OptionalChild(rc) + args
    case Other(cs) => cs
  }

  /** A position in a tree: the child index taken at each step from the root. */
  type Path = seq<nat>

  /** The node at path `p` below `e`, if the path exists. */
  function At(e: Element, p: Path): Option<Element>
    decreases |p|
  {
    if p == [] then Some(e)
    else if p[0] < |Children(e)| then At(Children(e)[p[0]], p[1..])
    else None
  }
}
