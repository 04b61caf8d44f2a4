/** The JVM back end's factory of synthetic descriptors: the static field
    that holds an enum entry, the `INSTANCE` field of an object, and the
    facade class of a source file. The two kinds of field are memoized in a
    single map keyed by the class descriptor they belong to. */
module SpecialDescriptors {
  import opened Wrappers
  import opened Descriptors
  import opened IrTree

  /** Why a factory call fails: a failed assertion, a failed cast, or a
      file entry the source manager cannot turn back into a parsed file. */
  datatype FactoryError =
    | NotEnumEntry        // the key is not an enum entry (assertion)
    | ContainerNotClass   // the entry's container is not a class (cast)
    | NotEnumClass        // the entry's container is not an enum class (assertion)
    | NotObject           // the key is not an object (assertion)
    | NotPsiFileEntry     // the file entry is not a PSI file entry (cast)
    | UnknownFileEntry    // the source manager knows no parsed file for the entry

  // ---------------------------------------------------------------------
  // The checks, in the order the factory makes them.

  /** The enum class an enum entry belongs to, checked as the factory checks it. */
  function EnumClassOf(entry: ClassDescriptor): (r: Result<ClassDescriptor, FactoryError>)
    ensures r.Success? <==>
      entry.kind == ClassKind.EnumEntry && entry.containingDeclaration.ClassContainer? &&
      entry.containingDeclaration.descriptor.kind == EnumClass
    ensures r.Success? ==> r.value == entry.containingDeclaration.descriptor
    ensures r == Failure(NotEnumEntry) <==> entry.kind != ClassKind.EnumEntry
    ensures r == Failure(ContainerNotClass) <==> entry.kind == ClassKind.EnumEntry && !entry.containingDeclaration.ClassContainer?
  {
    if entry.kind != ClassKind.EnumEntry then Failure(NotEnumEntry)
    else match entry.containingDeclaration
      case ClassContainer(c) => if c.kind == EnumClass then Success(c) else Failure(NotEnumClass)
      case _ => Failure(ContainerNotClass)
  }

  /** The object whose instance field is wanted, checked as the factory checks it. */
  function ObjectCheck(obj: ClassDescriptor): (r: Result<ClassDescriptor, FactoryError>)
    ensures r.Success? <==> obj.kind == Object
    ensures r.Success? ==> r.value == obj
    ensures r.Failure? ==> r.error == NotObject
  {
    if obj.kind == Object then Success(obj) else Failure(NotObject)
  }

  /** The parsed file behind a file entry, given the source manager's lookup. */
  function KtFileOf(getKtFile: FileEntryHandle -> Option<KtFile>, fileEntry: FileEntry): (r: Result<KtFile, FactoryError>)
    ensures r.Success? <==> fileEntry.PsiFileEntry? && getKtFile(fileEntry.handle).Some?
    ensures r.Success? ==> r.value == getKtFile(fileEntry.handle).value
    ensures r == Failure(NotPsiFileEntry) <==> fileEntry.OtherFileEntry?
  {
    match fileEntry
    case OtherFileEntry(_) => Failure(NotPsiFileEntry)
    case PsiFileEntry(h) =>
      match getKtFile(h)
      case None => Failure(UnknownFileEntry)
      case Some(f) => Success(f)
  }

  // ---------------------------------------------------------------------
  // What the synthetic fields look like.

  /** `p` is the static field of enum entry `entry`: it has the entry's name,
      annotations and source, belongs to the enum class and has its type, and
      is a final public static val flagged `ACC_ENUM`. */
  ghost predicate IsEnumEntryField(entry: ClassDescriptor, p: PropertyDescriptor)
  {
    entry.containingDeclaration.ClassContainer? &&
    var enumClass := entry.containingDeclaration.descriptor;
    p.name == entry.name && p.returnType == enumClass.defaultType &&
    p.containingDeclaration == enumClass && p.annotations == entry.annotations &&
    p.modality == Final && p.visibility == Public &&
    p.impl == JvmStaticVal(ACC_ENUM) && p.source == entry.source
  }

  /** `p` is the `INSTANCE` field of object `obj`: it belongs to the object
      and has its type, is final, public, synthesized, a `val` that is neither
      `lateinit` nor `const`, and has no annotations and no source. */
  ghost predicate IsInstanceField(obj: ClassDescriptor, p: PropertyDescriptor)
  {
    p.name == INSTANCE_FIELD_NAME && p.returnType == obj.defaultType &&
    p.containingDeclaration == obj && p.annotations == EMPTY_ANNOTATIONS &&
    p.modality == Final && p.visibility == Public &&
    p.impl == PlainProperty(false, Synthesized, false, false) && p.source == NoSource
  }

  // ---------------------------------------------------------------------
  // The memoizing step, on map values.

  /** `getOrPut` on a map: a key already present yields its value and leaves
      the map alone; otherwise the value made for the key is stored, unless
      making it failed, in which case the map is left alone and the failure
      is passed on. */
  function GetOrPut<K, V, E>(m: map<K, V>, k: K, made: Result<V, E>): (map<K, V>, Result<V, E>)
  {
    if k in m then (m, Success(m[k]))
    else if made.Success? then (m[k := made.value], made)
    else (m, made)
  }

  /** One lookup changes the entry of the looked-up key at most: it removes
      nothing and replaces nothing. */
  lemma GetOrPutOnlyAdds<K, V, E>(m: map<K, V>, k: K, made: Result<V, E>)
    ensures var (m', _) := GetOrPut(m, k, made);
      m'.Keys == m.Keys || m'.Keys == m.Keys + {k}
    ensures var (m', _) := GetOrPut(m, k, made);
      forall j :: j in m ==> j in m' && m'[j] == m[j]
  {
  }

  /** A successful lookup leaves the key in the map with the result as its value. */
  lemma GetOrPutStores<K, V, E>(m: map<K, V>, k: K, made: Result<V, E>)
    ensures var (m', r) := GetOrPut(m, k, made);
      r.Success? ==> k in m' && m'[k] == r.value
    ensures var (m', r) := GetOrPut(m, k, made);
      r.Failure? ==> m' == m && k !in m
  {
  }

  /** Looking the same key up again after a successful lookup yields the same
      value, whatever would be made the second time, and changes nothing. */
  lemma GetOrPutTwice<K, V, E>(m: map<K, V>, k: K, made: Result<V, E>, madeAgain: Result<V, E>)
    ensures var (m1, r1) := GetOrPut(m, k, made);
      var (m2, r2) := GetOrPut(m1, k, madeAgain);
      r1.Success? ==> m2 == m1 && r2 == r1
  {
  }

  /** A property every stored value has is kept by a lookup that stores
      only values that have it. */
  lemma GetOrPutKeeps<K, V, E>(m: map<K, V>, k: K, made: Result<V, E>, ok: (K, V) -> bool)
    requires forall j :: j in m ==> ok(j, m[j])
    requires made.Success? ==> ok(k, made.value)
    ensures var (m', r) := GetOrPut(m, k, made);
      (forall j :: j in m' ==> ok(j, m'[j])) && (r.Success? ==> ok(k, r.value))
  {
  }

  // ---------------------------------------------------------------------
  // The factory.

  class SpecialDescriptorsFactory {
    /** `psiSourceManager.getKtFile`, applied to the handle of a PSI file entry. */
    const getKtFile: FileEntryHandle -> Option<KtFile>
    /** The short name of the facade class `JvmFileClassUtil` assigns to a file. */
    const fileClassShortName: KtFile -> Name
    /** `builtIns.anyType`. */
    const anyType: KotlinType
    var singletonFieldDescriptors: map<ClassDescriptor, PropertyDescriptor>

    /** Every cached field is the one its key calls for: an enum entry's
        static field or an object's `INSTANCE` field. */
    ghost predicate Valid()
      reads this
    {
      forall k :: k in singletonFieldDescriptors ==>
        (k.kind == ClassKind.EnumEntry && IsEnumEntryField(k, singletonFieldDescriptors[k])) ||
        (k.kind == Object && IsInstanceField(k, singletonFieldDescriptors[k]))
    }

    constructor (getKtFile: FileEntryHandle -> Option<KtFile>, fileClassShortName: KtFile -> Name, anyType: KotlinType)
      ensures this.getKtFile == getKtFile && this.fileClassShortName == fileClassShortName
      ensures this.anyType == anyType
      ensures singletonFieldDescriptors == map[] && Valid()
    {
      this.getKtFile := getKtFile;
      this.fileClassShortName := fileClassShortName;
      this.anyType := anyType;
      singletonFieldDescriptors := map[];
    }

    /** A new static field for an enum entry; fails unless the entry is an
        enum entry whose container is an enum class. */
    method CreateEnumEntryFieldDescriptor(entry: ClassDescriptor) returns (r: Result<PropertyDescriptor, FactoryError>)
      ensures r.Failure? <==> EnumClassOf(entry).Failure?
      ensures r.Failure? ==> r.error == EnumClassOf(entry).error
      ensures r.Success? ==> fresh(r.value) && IsEnumEntryField(entry, r.value)
    {
      var enumClass := EnumClassOf(entry);
      if enumClass.Failure? {
        return Failure(enumClass.error);
      }
      var field := new PropertyDescriptor(entry.name, enumClass.value.defaultType, enumClass.value,
        entry.annotations, Final, Public, JvmStaticVal(ACC_ENUM), entry.source);
      r := Success(field);
    }

    /** A new `INSTANCE` field for an object; fails unless it is an object. */
    method CreateObjectInstanceFieldDescriptor(obj: ClassDescriptor) returns (r: Result<PropertyDescriptor, FactoryError>)
      ensures r.Failure? <==> ObjectCheck(obj).Failure?
      ensures r.Failure? ==> r.error == NotObject
      ensures r.Success? ==> fresh(r.value) && IsInstanceField(obj, r.value)
    {
      var check := ObjectCheck(obj);
      if check.Failure? {
        return Failure(check.error);
      }
      var field := new PropertyDescriptor(INSTANCE_FIELD_NAME, obj.defaultType, obj,
        EMPTY_ANNOTATIONS, Final, Public, PlainProperty(false, Synthesized, false, false), NoSource);
      r := Success(field);
    }

    /** The memoized static field of an enum entry. A cached key yields its
        cached field without any check (whatever kind of field it is); a new
        key is checked, and its new field stored, only on success. */
    method GetFieldDescriptorForEnumEntry(entry: ClassDescriptor) returns (r: Result<PropertyDescriptor, FactoryError>)
      requires Valid()
      modifies this
      ensures Valid()
      ensures (singletonFieldDescriptors, r) == GetOrPut(old(singletonFieldDescriptors), entry, r)
      ensures entry in old(singletonFieldDescriptors) ==> r == Success(old(singletonFieldDescriptors)[entry])
      ensures entry !in old(singletonFieldDescriptors) ==>
        (r.Failure? <==> EnumClassOf(entry).Failure?) &&
        (r.Failure? ==> r.error == EnumClassOf(entry).error) &&
        (r.Success? ==> fresh(r.value))
      ensures r.Success? && entry.kind == ClassKind.EnumEntry ==> IsEnumEntryField(entry, r.value)
    {
      if entry in singletonFieldDescriptors {
        return Success(singletonFieldDescriptors[entry]);
      }
      r := CreateEnumEntryFieldDescriptor(entry);
      if r.Success? {
        singletonFieldDescriptors := singletonFieldDescriptors[entry := r.value];
      }
    }

    /** The memoized `INSTANCE` field of an object, through the same map. */
    method GetFieldDescriptorForObjectInstance(obj: ClassDescriptor) returns (r: Result<PropertyDescriptor, FactoryError>)
      requires Valid()
      modifies this
      ensures Valid()
      ensures (singletonFieldDescriptors, r) == GetOrPut(old(singletonFieldDescriptors), obj, r)
      ensures obj in old(singletonFieldDescriptors) ==> r == Success(old(singletonFieldDescriptors)[obj])
      ensures obj !in old(singletonFieldDescriptors) ==>
        (r.Failure? <==> obj.kind != Object) &&
        (r.Failure? ==> r.error == NotObject) &&
        (r.Success? ==> fresh(r.value))
      ensures r.Success? && obj.kind == Object ==> IsInstanceField(obj, r.value)
    {
      if obj in singletonFieldDescriptors {
        return Success(singletonFieldDescriptors[obj]);
      }
      r := CreateObjectInstanceFieldDescriptor(obj);
      if r.Success? {
        singletonFieldDescriptors := singletonFieldDescriptors[obj := r.value];
      }
    }

    /** A new facade-class descriptor for a file, made on every call without
        the map; fails unless the entry is a PSI file entry the source
        manager can turn back into a parsed file. */
    method CreateFileClassDescriptor(fileEntry: FileEntry, packageFragment: PackageFragment)
      returns (r: Result<FileClassDescriptor, FactoryError>)
      ensures r.Failure? <==> KtFileOf(getKtFile, fileEntry).Failure?
      ensures r.Failure? ==> r.error == KtFileOf(getKtFile, fileEntry).error
      ensures r.Success? ==>
        var file := KtFileOf(getKtFile, fileEntry).value;
        fresh(r.value) && r.value.name == fileClassShortName(file) &&
        r.value.containingDeclaration == packageFragment && r.value.supertypes == [anyType] &&
        r.value.source == KotlinSourceElement(KtFileElement(file)) &&
        r.value.annotations == EMPTY_ANNOTATIONS
    {
      var file := KtFileOf(getKtFile, fileEntry);
      if file.Failure? {
        return Failure(file.error);
      }
      var descriptor := new FileClassDescriptor(fileClassShortName(file.value), packageFragment, [anyType],
        KotlinSourceElement(KtFileElement(file.value)), EMPTY_ANNOTATIONS);
      r := Success(descriptor);
    }
  }
}
