/** The symbol-table entities ("descriptors") that the IR refers to and that
    the synthetic descriptor factory produces. The compiler's descriptor
    implementation classes are not part of this model: this module keeps only
    the attributes the core reads or sets, as immutable fields, and leaves the
    contents of names, types and annotations abstract. Descriptors are
    classes, so two descriptors with equal attributes can still be distinct
    objects. */
module Descriptors {

  /** An annotation instance (an annotation descriptor); only ever rendered or copied. */
  type Annotation(==)

  /** A resolved type. */
  type KotlinType(==)

  /** A type-parameter descriptor of a callable. */
  type TypeParameter(==)

  /** The package fragment a file's top-level declarations belong to. */
  type PackageFragment(==)

  /** A parsed source file (a PSI file). */
  type KtFile(==)

  /** Any other PSI element a declaration was built from. */
  type PsiHandle(==)

  /** Any declaration that is neither a class nor a package fragment. */
  type DeclarationHandle(==)

  type Name = string

  type Annotations = seq<Annotation>

  /** The empty annotation list. */
  const EMPTY_ANNOTATIONS: Annotations := []

  /** The `ACC_ENUM` access flag of the JVM class-file format. */
  const ACC_ENUM: int := 0x4000

  /** The name of the static field that holds an object's single instance. */
  const INSTANCE_FIELD_NAME: Name := "INSTANCE"

  datatype ClassKind = Class | Interface | EnumClass | EnumEntry | AnnotationClass | Object

  datatype Modality = Final | Sealed | Open | Abstract

  datatype Visibility = Public | Protected | Internal | Private | PrivateToThis | Local

  datatype CallableKind = Declaration | FakeOverride | Delegation | Synthesized

  datatype PsiElement = KtFileElement(file: KtFile) | OtherPsiElement(handle: PsiHandle)

  /** Where a descriptor came from: a PSI element of the sources, or nowhere. */
  datatype SourceElement = NoSource | KotlinSourceElement(psi: PsiElement)

  /** The declaration a class descriptor is nested in. */
  datatype ContainingDeclaration =
    | ClassContainer(descriptor: ClassDescriptor)
    | PackageContainer(fragment: PackageFragment)
    | OtherContainer(handle: DeclarationHandle)

  /** How a property descriptor was built, with the arguments that only that
      construction takes. */
  datatype PropertyImpl =
    | JvmStaticVal(extraFlags: int)
    | PlainProperty(isVar: bool, kind: CallableKind, isLateInit: bool, isConst: bool)

  class ClassDescriptor {
    const name: Name
    const kind: ClassKind
    const containingDeclaration: ContainingDeclaration
    const annotations: Annotations
    const source: SourceElement
    const defaultType: KotlinType

    constructor (name: Name, kind: ClassKind, containingDeclaration: ContainingDeclaration,
                 annotations: Annotations, source: SourceElement, defaultType: KotlinType)
      ensures this.name == name && this.kind == kind
      ensures this.containingDeclaration == containingDeclaration
      ensures this.annotations == annotations && this.source == source
      ensures this.defaultType == defaultType
    {
      this.name := name;
      this.kind := kind;
      this.containingDeclaration := containingDeclaration;
      this.annotations := annotations;
      this.source := source;
      this.defaultType := defaultType;
    }
  }

  /** A property descriptor; the synthetic ones stand for static fields. */
  class PropertyDescriptor {
    const name: Name
    const returnType: KotlinType
    const containingDeclaration: ClassDescriptor
    const annotations: Annotations
    const modality: Modality
    const visibility: Visibility
    const impl: PropertyImpl
    const source: SourceElement

    constructor (name: Name, returnType: KotlinType, containingDeclaration: ClassDescriptor,
                 annotations: Annotations, modality: Modality, visibility: Visibility,
                 impl: PropertyImpl, source: SourceElement)
      ensures this.name == name && this.returnType == returnType
      ensures this.containingDeclaration == containingDeclaration
      ensures this.annotations == annotations
      ensures this.modality == modality && this.visibility == visibility
      ensures this.impl == impl && this.source == source
    {
      this.name := name;
      this.returnType := returnType;
      this.containingDeclaration := containingDeclaration;
      this.annotations := annotations;
      this.modality := modality;
      this.visibility := visibility;
      this.impl := impl;
      this.source := source;
    }
  }

  /** The descriptor of the JVM facade class of one source file. */
  class FileClassDescriptor {
    const name: Name
    const containingDeclaration: PackageFragment
    const supertypes: seq<KotlinType>
    const source: SourceElement
    const annotations: Annotations

    constructor (name: Name, containingDeclaration: PackageFragment, supertypes: seq<KotlinType>,
                 source: SourceElement, annotations: Annotations)
      ensures this.name == name && this.containingDeclaration == containingDeclaration
      ensures this.supertypes == supertypes && this.source == source
      ensures this.annotations == annotations
    {
      this.name := name;
      this.containingDeclaration := containingDeclaration;
      this.supertypes := supertypes;
      this.source := source;
      this.annotations := annotations;
    }
  }
}
