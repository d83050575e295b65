/**
 * The type-schema registry of RszParser.cs: field descriptors (RszField),
 * class descriptors (RszClass), the parser that loads a class catalog into a
 * dictionary keyed by type hash and one keyed by class name, the sentinel
 * returning lookups, and the process-wide cache of parsers keyed by path.
 */
module Schema {
  import opened Wrappers

  /** C#'s `uint`: type hashes, CRCs and field indices. */
  type uint32 = x: int | 0 <= x < 0x1_0000_0000

  /**
   * The members of RszFieldType that the core tells apart. Every other
   * member of the enum (the remaining numeric and struct kinds) is carried
   * by its name in `Other`.
   */
  datatype FieldType =
    | Data | Object | UserData | String | Resource
    | U8 | U64 | Vec2 | Vec4 | Mat4 | Guid
    | OutOfRange | ClassNotFound
    | Other(typeName: string)
  {
    /** The enum member's name, as `ToString()` spells it. */
    function Name(): string {
      match this
      case Data => "Data"
      case Object => "Object"
      case UserData => "UserData"
      case String => "String"
      case Resource => "Resource"
      case U8 => "U8"
      case U64 => "U64"
      case Vec2 => "Vec2"
      case Vec4 => "Vec4"
      case Mat4 => "Mat4"
      case Guid => "Guid"
      case OutOfRange => "out_of_range"
      case ClassNotFound => "class_not_found"
      case Other(n) => n
    }

    /** A field of this kind holds a reference to another instance. */
    predicate IsReference() {
      this == Object || this == UserData
    }

    /** A field of this kind holds text. */
    predicate IsString() {
      this == String || this == Resource
    }

    /**
     * A value as parsing the enum yields it: a name carried by `Other` is
     * never that of a member the core tells apart.
     */
    predicate Parsed() {
      Other? ==> typeName !in DedicatedNames
    }
  }

  /** The names of the members of RszFieldType that have their own constructor above. */
  const DedicatedNames: set<string> :=
    {"Data", "Object", "UserData", "String", "Resource", "U8", "U64", "Vec2", "Vec4", "Mat4", "Guid",
     "out_of_range", "class_not_found"}

  /** The sizes for which the refinement of a `Data` field has no rule. */
  predicate Unresolvable(size: int) {
    size != 64 && size != 16 && size != 8 && size != 1
  }

  /**
   * The type a field ends up with after `GuessDataType`: only the ambiguous
   * placeholder `Data` is refined, by its size and then its alignment.
   */
  function GuessedType(t: FieldType, size: int, align: int): (r: FieldType)
    ensures t != Data ==> r == t
    ensures r == Data <==> t == Data && Unresolvable(size)
    ensures t == Data ==> !r.IsReference() && !r.IsString()
  {
    if t != Data then t
    else if size == 64 then Mat4
    else if size == 16 then (if align == 8 then Guid else Vec4)
    else if size == 8 then (if align == 8 then U64 else Vec2)
    else if size == 1 then U8
    else t
  }

  /** Refining twice is refining once. */
  lemma GuessedTypeIdempotent(t: FieldType, size: int, align: int)
    ensures GuessedType(GuessedType(t, size, align), size, align) == GuessedType(t, size, align)
  {
  }

  /**
   * Refinement never changes what a field holds: a field is a reference,
   * or text, after `GuessDataType` exactly when it was before.
   */
  lemma RefinementKeepsKinds(t: FieldType, size: int, align: int)
    ensures GuessedType(t, size, align).IsReference() <==> t.IsReference()
    ensures GuessedType(t, size, align).IsString() <==> t.IsString()
  {
  }

  /** What `DisplayType` computes when nothing is cached yet. */
  function DisplayText(fieldType: FieldType, isArray: bool, originalType: string): string {
    if originalType == "" then
      (if isArray then fieldType.Name() + "[]" else fieldType.Name())
    else originalType
  }

  /**
   * One field of a class descriptor. Only `type` (refined at load time) and
   * the display cache change after deserialization.
   */
  class RszField {
    const name: string
    const align: int
    const size: int
    const isArray: bool
    const native: bool
    /** The schema's `type`, refined in place while loading. */
    var fieldType: FieldType
    /** The schema's `original_type`; the empty string stands for null or empty. */
    const originalType: string
    var displayType: Option<string>

    constructor (name: string, align: int, size: int, isArray: bool, native: bool,
                 fieldType: FieldType, originalType: string)
      requires fieldType.Parsed()
      ensures this.name == name && this.align == align && this.size == size
      ensures this.isArray == isArray && this.native == native
      ensures this.fieldType == fieldType && this.originalType == originalType
      ensures displayType == None
    {
      this.name := name;
      this.align := align;
      this.size := size;
      this.isArray := isArray;
      this.native := native;
      this.fieldType := fieldType;
      this.originalType := originalType;
      displayType := None;
    }

    /** Refines a `Data` field in place; any other type is left alone. */
    method GuessDataType()
      modifies this`fieldType
      ensures fieldType == GuessedType(old(fieldType), size, align)
    {
      if fieldType != Data {
        return;
      }
      fieldType := match size
        case 64 => Mat4
        case 16 => if align == 8 then Guid else Vec4
        case 8 => if align == 8 then U64 else Vec2
        case 1 => U8
        case _ => fieldType;
    }

    /**
     * The display name, computed on first use and cached: a later call
     * returns the cached text even if `type` has changed since.
     */
    method DisplayType() returns (s: string)
      modifies this`displayType
      ensures old(displayType).Some? ==> s == old(displayType).value
      ensures old(displayType).None? ==> s == DisplayText(fieldType, isArray, originalType)
      ensures displayType == Some(s)
    {
      if displayType.None? {
        displayType := Some(DisplayText(fieldType, isArray, originalType));
      }
      s := displayType.value;
    }

    /** The field holds a reference to another instance; such a field never holds text. */
    predicate IsReference(): (r: bool)
      reads this
      ensures r <==> fieldType == Object || fieldType == UserData
      ensures r ==> !IsString()
    {
      fieldType.IsReference()
    }

    /** The field holds text (a string or a resource path); such a field never holds a reference. */
    predicate IsString(): (r: bool)
      reads this
      ensures r <==> fieldType == String || fieldType == Resource
    {
      fieldType.IsString()
    }
  }

  /** A class descriptor; `typeId` is assigned by the parser from the catalog key. */
  class RszClass {
    var typeId: uint32
    const crc: uint32
    const name: string
    const native: bool
    const fields: seq<RszField>

    constructor (crc: uint32, name: string, native: bool, fields: seq<RszField>)
      ensures typeId == 0 && this.crc == crc && this.name == name
      ensures this.native == native && this.fields == fields
    {
      typeId := 0;
      this.crc := crc;
      this.name := name;
      this.native := native;
      this.fields := fields;
    }

    /** The first position of a field called `fieldName`, or -1. */
    method IndexOfField(fieldName: string) returns (index: int)
      ensures -1 <= index < |fields|
      ensures index == -1 <==> forall i :: 0 <= i < |fields| ==> fields[i].name != fieldName
      ensures 0 <= index ==> fields[index].name == fieldName
      ensures forall i :: 0 <= i < index ==> fields[i].name != fieldName
    {
      var i := 0;
      while i < |fields|
        invariant 0 <= i <= |fields|
        invariant forall k :: 0 <= k < i ==> fields[k].name != fieldName
      {
        if fields[i].name == fieldName {
          return i;
        }
        i := i + 1;
      }
      return -1;
    }

    /** The first field called `fieldName`, or None. */
    method GetField(fieldName: string) returns (field: Option<RszField>)
      ensures field.None? <==> forall i :: 0 <= i < |fields| ==> fields[i].name != fieldName
      ensures field.Some? ==>
        exists i :: 0 <= i < |fields| && fields[i] == field.value && fields[i].name == fieldName
          && forall k :: 0 <= k < i ==> fields[k].name != fieldName
    {
      var index := IndexOfField(fieldName);
      if index != -1 {
        return Some(fields[index]);
      }
      return None;
    }
  }

  /** One (hex key, class) pair of the deserialized catalog, in enumeration order. */
  datatype CatalogEntry = CatalogEntry(key: string, cls: RszClass)

  /** The entries of a catalog that deserialized to null are none. */
  function Entries(catalog: Option<seq<CatalogEntry>>): seq<CatalogEntry> {
    if catalog.Some? then catalog.value else []
  }

  /**
   * The dictionary built by assigning `m[keyOf(e)] = e.cls` for each entry
   * in order, so that a later entry overwrites an earlier one.
   */
  function Index<K>(entries: seq<CatalogEntry>, keyOf: CatalogEntry -> K): map<K, RszClass> {
    if entries == [] then map[]
    else
      var n := |entries| - 1;
      Index(entries[..n], keyOf)[keyOf(entries[n]) := entries[n].cls]
  }

  /** Filing one more entry overwrites its key in the dictionary of the entries before it. */
  lemma IndexSnoc<K>(entries: seq<CatalogEntry>, i: nat, keyOf: CatalogEntry -> K)
    requires i < |entries|
    ensures Index(entries[..i + 1], keyOf) == Index(entries[..i], keyOf)[keyOf(entries[i]) := entries[i].cls]
  {
    assert entries[..i + 1][..i] == entries[..i];
  }

  /** The hash key of an entry: its catalog key read as hexadecimal. */
  function HashKey(parseHex: string -> uint32): CatalogEntry -> uint32 {
    (e: CatalogEntry) => parseHex(e.key)
  }

  /** The name key of an entry. */
  function NameKey(e: CatalogEntry): string {
    e.cls.name
  }

  /** Entry `i` is the last one whose key is `k`. */
  ghost predicate LastWith<K>(entries: seq<CatalogEntry>, keyOf: CatalogEntry -> K, i: int, k: K) {
    && 0 <= i < |entries|
    && keyOf(entries[i]) == k
    && forall j :: i < j < |entries| ==> keyOf(entries[j]) != k
  }

  /**
   * A key is in the dictionary iff some entry has it, and it then maps to
   * the class of the last entry that has it.
   */
  lemma {:induction false} IndexLastWins<K>(entries: seq<CatalogEntry>, keyOf: CatalogEntry -> K, k: K)
    ensures k in Index(entries, keyOf) <==> exists i :: 0 <= i < |entries| && keyOf(entries[i]) == k
    ensures k in Index(entries, keyOf) ==> exists i :: LastWith(entries, keyOf, i, k)
    ensures forall i :: LastWith(entries, keyOf, i, k) ==>
      k in Index(entries, keyOf) && Index(entries, keyOf)[k] == entries[i].cls
  {
    if entries != [] {
      var n := |entries| - 1;
      var prefix := entries[..n];
      IndexLastWins(prefix, keyOf, k);
      if keyOf(entries[n]) == k {
        assert LastWith(entries, keyOf, n, k);
      } else {
        forall i | LastWith(entries, keyOf, i, k)
          ensures LastWith(prefix, keyOf, i, k)
        {
        }
        if k in Index(prefix, keyOf) {
          var i :| LastWith(prefix, keyOf, i, k);
          assert LastWith(entries, keyOf, i, k);
        }
        if exists i :: 0 <= i < |entries| && keyOf(entries[i]) == k {
          var i :| 0 <= i < |entries| && keyOf(entries[i]) == k;
          assert prefix[i] == entries[i];
        }
      }
    }
  }

  /** Every class of the catalog appears once: deserialization makes a fresh object per value. */
  ghost predicate DistinctClasses(entries: seq<CatalogEntry>) {
    forall i, j :: 0 <= i < j < |entries| ==> entries[i].cls != entries[j].cls
  }

  ghost function FieldSet(fields: seq<RszField>): set<RszField> {
    set k | 0 <= k < |fields| :: fields[k]
  }

  ghost function ClassesOf(entries: seq<CatalogEntry>): set<RszClass> {
    set i | 0 <= i < |entries| :: entries[i].cls
  }

  ghost function FieldsOf(entries: seq<CatalogEntry>): set<RszField> {
    set i, k | 0 <= i < |entries| && 0 <= k < |entries[i].cls.fields| :: entries[i].cls.fields[k]
  }

  /** The fields of one more entry are those of the entries before it and its own. */
  lemma FieldsOfSnoc(entries: seq<CatalogEntry>, i: nat)
    requires i < |entries|
    ensures FieldsOf(entries[..i + 1]) == FieldsOf(entries[..i]) + FieldSet(entries[i].cls.fields)
  {
    var prefix, longer := entries[..i], entries[..i + 1];
    forall f | f in FieldsOf(longer)
      ensures f in FieldsOf(prefix) + FieldSet(entries[i].cls.fields)
    {
      var j, k :| 0 <= j < |longer| && 0 <= k < |longer[j].cls.fields| && longer[j].cls.fields[k] == f;
      if j < i {
        assert prefix[j] == longer[j];
      }
    }
    forall f | f in FieldsOf(prefix) + FieldSet(entries[i].cls.fields)
      ensures f in FieldsOf(longer)
    {
      if f in FieldsOf(prefix) {
        var j, k :| 0 <= j < |prefix| && 0 <= k < |prefix[j].cls.fields| && prefix[j].cls.fields[k] == f;
        assert longer[j] == prefix[j];
      } else {
        var k :| 0 <= k < |entries[i].cls.fields| && entries[i].cls.fields[k] == f;
        assert longer[i] == entries[i];
      }
    }
  }

  /** A field type that loading leaves as it is: refined, or `Data` of an unresolvable size. */
  predicate Settled(t: FieldType, size: int) {
    t != Data || Unresolvable(size)
  }

  /**
   * Refines every field of one class in turn: the inner loop of the
   * parser's constructor. A field listed twice is refined once.
   */
  method GuessDataTypes(fields: seq<RszField>)
    modifies FieldSet(fields)`fieldType
    ensures forall k :: 0 <= k < |fields| ==>
      fields[k].fieldType == GuessedType(old(fields[k].fieldType), fields[k].size, fields[k].align)
  {
    ghost var done: set<RszField> := {};
    var k := 0;
    while k < |fields|
      invariant 0 <= k <= |fields|
      invariant forall j :: 0 <= j < k ==> fields[j] in done
      invariant forall j :: 0 <= j < |fields| ==>
        fields[j].fieldType == if fields[j] in done
          then GuessedType(old(fields[j].fieldType), fields[j].size, fields[j].align)
          else old(fields[j].fieldType)
    {
      var field := fields[k];
      GuessedTypeIdempotent(old(field.fieldType), field.size, field.align);
      if field.fieldType == Data {
        field.GuessDataType();
      }
      done := done + {field};
      k := k + 1;
    }
  }

  /**
   * The fields of a catalog after the first `i` of its entries were
   * refined: theirs (and only theirs) are refined from the types `before`
   * holds.
   */
  ghost predicate Refined(entries: seq<CatalogEntry>, i: nat, before: map<RszField, FieldType>)
    requires i <= |entries|
    reads FieldsOf(entries)`fieldType
  {
    forall f :: f in FieldsOf(entries) ==>
      && f in before
      && f.fieldType == (if f in FieldsOf(entries[..i]) then GuessedType(before[f], f.size, f.align) else before[f])
  }

  /** The second half of one turn of the loading loop: refines the fields of entry `i`. */
  method RefineEntry(entries: seq<CatalogEntry>, i: nat, ghost before: map<RszField, FieldType>)
    requires i < |entries| && Refined(entries, i, before)
    modifies FieldSet(entries[i].cls.fields)`fieldType
    ensures Refined(entries, i + 1, before)
  {
    FieldsOfSnoc(entries, i);
    GuessDataTypes(entries[i].cls.fields);
    forall f | f in FieldsOf(entries)
      ensures f in before && f.fieldType == if f in FieldsOf(entries[..i + 1])
        then GuessedType(before[f], f.size, f.align) else before[f]
    {
      GuessedTypeIdempotent(before[f], f.size, f.align);
    }
  }

  class RszParser {
    var classDict: map<uint32, RszClass>
    var classNameDict: map<string, RszClass>

    ghost function Classes(): set<RszClass>
      reads this
    {
      classDict.Values + classNameDict.Values
    }

    ghost function LoadedFields(): set<RszField>
      reads this
    {
      set c, k | c in Classes() && 0 <= k < |c.fields| :: c.fields[k]
    }

    /**
     * The registry's invariant after loading: every class is filed under its
     * own type hash and its own name, and no field is left as `Data` unless
     * its size has no refinement rule.
     */
    ghost predicate Valid()
      reads this, Classes(), LoadedFields()
    {
      && (forall h :: h in classDict ==> classDict[h].typeId == h)
      && (forall n :: n in classNameDict ==> classNameDict[n].name == n)
      && (forall f :: f in LoadedFields() ==> Settled(f.fieldType, f.size))
    }

    /**
     * Loads a deserialized catalog (None when the JSON was null): each
     * entry's `typeId` becomes its parsed key, the class is filed under that
     * hash and under its name, and each of its `Data` fields is refined.
     */
    constructor (catalog: Option<seq<CatalogEntry>>, parseHex: string -> uint32)
      requires DistinctClasses(Entries(catalog))
      modifies ClassesOf(Entries(catalog))`typeId, FieldsOf(Entries(catalog))`fieldType
      ensures classDict == Index(Entries(catalog), HashKey(parseHex))
      ensures classNameDict == Index(Entries(catalog), NameKey)
      ensures forall i :: 0 <= i < |Entries(catalog)| ==>
        Entries(catalog)[i].cls.typeId == parseHex(Entries(catalog)[i].key)
      ensures forall f :: f in FieldsOf(Entries(catalog)) ==>
        f.fieldType == GuessedType(old(f.fieldType), f.size, f.align)
      ensures Valid()
    {
      classDict := map[];
      classNameDict := map[];
      new;
      var entries := if catalog.Some? then catalog.value else [];
      ghost var before := map f | f in FieldsOf(entries) :: f.fieldType;
      var i := 0;
      while i < |entries|
        invariant 0 <= i <= |entries|
        invariant Filed(entries, i, parseHex)
        invariant Refined(entries, i, before)
      {
        LoadEntry(entries, i, parseHex, before);
        i := i + 1;
      }
      LoadedRegistry(this, entries, parseHex, before);
    }

    /**
     * The dictionaries after the first `i` catalog entries: they file those
     * entries, and the classes of those entries carry their parsed keys.
     */
    ghost predicate Filed(entries: seq<CatalogEntry>, i: nat, parseHex: string -> uint32)
      requires i <= |entries|
      reads this`classDict, this`classNameDict, ClassesOf(entries)`typeId
    {
      && classDict == Index(entries[..i], HashKey(parseHex))
      && classNameDict == Index(entries[..i], NameKey)
      && (forall j :: 0 <= j < i ==> entries[j].cls in ClassesOf(entries) && entries[j].cls.typeId == parseHex(entries[j].key))
    }

    /** One turn of the loading loop: files entry `i`, then refines its fields. */
    method LoadEntry(entries: seq<CatalogEntry>, i: nat, parseHex: string -> uint32, ghost before: map<RszField, FieldType>)
      requires i < |entries| && DistinctClasses(entries)
      requires Filed(entries, i, parseHex) && Refined(entries, i, before)
      modifies this`classDict, this`classNameDict, entries[i].cls`typeId, FieldSet(entries[i].cls.fields)`fieldType
      ensures Filed(entries, i + 1, parseHex) && Refined(entries, i + 1, before)
    {
      FileEntry(entries, i, parseHex);
      RefineEntry(entries, i, before);
    }

    /**
     * The first half of one turn of the loading loop: sets the class of
     * entry `i` to its parsed key and files it under that hash and under
     * its name.
     */
    method FileEntry(entries: seq<CatalogEntry>, i: nat, parseHex: string -> uint32)
      requires i < |entries| && DistinctClasses(entries)
      requires Filed(entries, i, parseHex)
      modifies this`classDict, this`classNameDict, entries[i].cls`typeId
      ensures Filed(entries, i + 1, parseHex)
    {
      var entry := entries[i];
      IndexSnoc(entries, i, HashKey(parseHex));
      IndexSnoc(entries, i, NameKey);
      assert forall j :: 0 <= j < i ==> entries[j].cls != entry.cls;
      entry.cls.typeId := parseHex(entry.key);
      classDict := classDict[entry.cls.typeId := entry.cls];
      classNameDict := classNameDict[entry.cls.name := entry.cls];
    }

    /** A class is registered under the hash and has a field at the index. */
    predicate HasField(classHash: uint32, fieldIndex: uint32)
      reads this
    {
      classHash in classDict && fieldIndex < |classDict[classHash].fields|
    }

    /** The fields of the classes registered by hash. */
    ghost function HashedFields(): set<RszField>
      reads this
    {
      set c, k | c in classDict.Values && 0 <= k < |c.fields| :: c.fields[k]
    }

    function GetRSZClassName(classHash: uint32): (r: string)
      reads this
      ensures classHash in classDict ==> r == classDict[classHash].name
      ensures classHash !in classDict ==> r == "Unknown Class!"
    {
      match GetRSZClass(classHash)
      case Some(c) => c.name
      case None => "Unknown Class!"
    }

    function GetRSZClass(classHash: uint32): (r: Option<RszClass>)
      reads this
      ensures r.Some? <==> classHash in classDict
      ensures r.Some? ==> r.value == classDict[classHash]
    {
      if classHash in classDict then Some(classDict[classHash]) else None
    }

    function GetRSZClassByName(className: string): (r: Option<RszClass>)
      reads this
      ensures r.Some? <==> className in classNameDict
      ensures r.Some? ==> r.value == classNameDict[className]
    {
      if className in classNameDict then Some(classNameDict[className]) else None
    }

    function GetRSZClassCRC(classHash: uint32): (r: uint32)
      reads this
      ensures classHash in classDict ==> r == classDict[classHash].crc
      ensures classHash !in classDict ==> r == 0
    {
      match GetRSZClass(classHash)
      case Some(c) => c.crc
      case None => 0
    }

    function GetFieldCount(classHash: uint32): (r: int)
      reads this
      ensures classHash in classDict ==> r == |classDict[classHash].fields|
      ensures classHash !in classDict ==> r == -1
    {
      match GetRSZClass(classHash)
      case Some(c) => |c.fields|
      case None => -1
    }

    function GetField(classHash: uint32, fieldIndex: uint32): (r: Option<RszField>)
      reads this
      ensures r.Some? <==> HasField(classHash, fieldIndex)
      ensures r.Some? ==> r.value == classDict[classHash].fields[fieldIndex]
    {
      if classHash in classDict && fieldIndex < |classDict[classHash].fields| then
        Some(classDict[classHash].fields[fieldIndex])
      else None
    }

    function GetFieldAlignment(classHash: uint32, fieldIndex: uint32): (r: int)
      reads this
      ensures HasField(classHash, fieldIndex) ==> r == classDict[classHash].fields[fieldIndex].align
      ensures !HasField(classHash, fieldIndex) ==> r == -1
    {
      match GetField(classHash, fieldIndex)
      case Some(f) => f.align
      case None => -1
    }

    function GetFieldArrayState(classHash: uint32, fieldIndex: uint32): (r: bool)
      reads this
      ensures r <==> HasField(classHash, fieldIndex) && classDict[classHash].fields[fieldIndex].isArray
    {
      match GetField(classHash, fieldIndex)
      case Some(f) => f.isArray
      case None => false
    }

    function GetFieldName(classHash: uint32, fieldIndex: uint32): (r: string)
      reads this
      ensures HasField(classHash, fieldIndex) ==> r == classDict[classHash].fields[fieldIndex].name
      ensures !HasField(classHash, fieldIndex) ==> r == "not found"
    {
      match GetField(classHash, fieldIndex)
      case Some(f) => f.name
      case None => "not found"
    }

    function GetFieldTypeName(classHash: uint32, fieldIndex: uint32): (r: string)
      reads this, HashedFields()
      ensures HasField(classHash, fieldIndex) ==> r == classDict[classHash].fields[fieldIndex].fieldType.Name()
      ensures !HasField(classHash, fieldIndex) ==> r == "not found"
    {
      match GetField(classHash, fieldIndex)
      case Some(f) =>
        assert classDict[classHash] in classDict.Values;
        assert f in HashedFields();
        f.fieldType.Name()
      case None => "not found"
    }

    function GetFieldOrgTypeName(classHash: uint32, fieldIndex: uint32): (r: string)
      reads this
      ensures HasField(classHash, fieldIndex) ==> r == classDict[classHash].fields[fieldIndex].originalType
      ensures !HasField(classHash, fieldIndex) ==> r == "not found"
    {
      match GetField(classHash, fieldIndex)
      case Some(f) => f.originalType
      case None => "not found"
    }

    function GetFieldSize(classHash: uint32, fieldIndex: uint32): (r: int)
      reads this
      ensures HasField(classHash, fieldIndex) ==> r == classDict[classHash].fields[fieldIndex].size
      ensures !HasField(classHash, fieldIndex) ==> r == -1
    {
      match GetField(classHash, fieldIndex)
      case Some(f) => f.size
      case None => -1
    }

    /**
     * The field's type, or the sentinel saying whether the class or the
     * index was missing. The source checks this independently of GetField.
     */
    function GetFieldType(classHash: uint32, fieldIndex: uint32): (r: FieldType)
      reads this, HashedFields()
      ensures HasField(classHash, fieldIndex) ==> r == classDict[classHash].fields[fieldIndex].fieldType
      ensures classHash in classDict && !HasField(classHash, fieldIndex) ==> r == OutOfRange
      ensures classHash !in classDict ==> r == ClassNotFound
    {
      if classHash in classDict then
        var cls := classDict[classHash];
        if fieldIndex < |cls.fields| then
          assert cls in classDict.Values;
          assert cls.fields[fieldIndex] in HashedFields();
          cls.fields[fieldIndex].fieldType
        else OutOfRange
      else ClassNotFound
    }

    function IsClassNative(classHash: uint32): (r: bool)
      reads this
      ensures r <==> classHash in classDict && classDict[classHash].native
    {
      classHash in classDict && classDict[classHash].native
    }

    function IsFieldNative(classHash: uint32, fieldIndex: uint32): (r: bool)
      reads this
      ensures r <==> HasField(classHash, fieldIndex) && classDict[classHash].fields[fieldIndex].native
    {
      match GetField(classHash, fieldIndex)
      case Some(f) => f.native
      case None => false
    }
  }

  /**
   * A registry built from a catalog whose classes carry their parsed keys
   * and whose fields are settled satisfies the registry invariant.
   */
  lemma LoadedRegistryValid(p: RszParser, entries: seq<CatalogEntry>, parseHex: string -> uint32)
    requires p.classDict == Index(entries, HashKey(parseHex))
    requires p.classNameDict == Index(entries, NameKey)
    requires forall i :: 0 <= i < |entries| ==> entries[i].cls.typeId == parseHex(entries[i].key)
    requires forall f :: f in FieldsOf(entries) ==> Settled(f.fieldType, f.size)
    ensures p.Valid()
  {
    forall h | h in p.classDict
      ensures p.classDict[h].typeId == h
    {
      IndexLastWins(entries, HashKey(parseHex), h);
    }
    forall n | n in p.classNameDict
      ensures p.classNameDict[n].name == n
    {
      IndexLastWins(entries, NameKey, n);
    }
    forall f | f in p.LoadedFields()
      ensures Settled(f.fieldType, f.size)
    {
      var c :| c in p.Classes() && f in c.fields;
      var i;
      if c in p.classDict.Values {
        var h :| h in p.classDict && p.classDict[h] == c;
        IndexLastWins(entries, HashKey(parseHex), h);
        i :| LastWith(entries, HashKey(parseHex), i, h);
      } else {
        var n :| n in p.classNameDict && p.classNameDict[n] == c;
        IndexLastWins(entries, NameKey, n);
        i :| LastWith(entries, NameKey, i, n);
      }
      var k :| 0 <= k < |c.fields| && c.fields[k] == f;
      assert entries[i].cls.fields[k] in FieldsOf(entries);
    }
  }

  /** When every entry is filed and refined, the registry holds what loading promises. */
  lemma LoadedRegistry(p: RszParser, entries: seq<CatalogEntry>, parseHex: string -> uint32,
                       before: map<RszField, FieldType>)
    requires p.Filed(entries, |entries|, parseHex) && Refined(entries, |entries|, before)
    ensures p.classDict == Index(entries, HashKey(parseHex))
    ensures p.classNameDict == Index(entries, NameKey)
    ensures forall i :: 0 <= i < |entries| ==> entries[i].cls.typeId == parseHex(entries[i].key)
    ensures forall f :: f in FieldsOf(entries) ==> f in before && f.fieldType == GuessedType(before[f], f.size, f.align)
    ensures p.Valid()
  {
    assert entries[..|entries|] == entries;
    LoadedRegistryValid(p, entries, parseHex);
  }

  /**
   * GetFieldType and the accessors built on GetField agree: a missing field
   * gives a sentinel type exactly where GetField gives null, and a loaded
   * registry never reports `Data` for a field whose size has a rule.
   */
  lemma FieldLookupsAgree(p: RszParser, classHash: uint32, fieldIndex: uint32)
    ensures p.GetField(classHash, fieldIndex).Some? ==>
      p.GetFieldType(classHash, fieldIndex) == p.GetField(classHash, fieldIndex).value.fieldType
    ensures p.GetField(classHash, fieldIndex).None? ==>
      p.GetFieldType(classHash, fieldIndex) in {OutOfRange, ClassNotFound}
      && p.GetFieldAlignment(classHash, fieldIndex) == -1 && p.GetFieldSize(classHash, fieldIndex) == -1
      && !p.GetFieldArrayState(classHash, fieldIndex) && !p.IsFieldNative(classHash, fieldIndex)
    ensures p.Valid() && p.GetField(classHash, fieldIndex).Some? ==>
      Settled(p.GetFieldType(classHash, fieldIndex), p.GetFieldSize(classHash, fieldIndex))
  {
    if p.Valid() && p.GetField(classHash, fieldIndex).Some? {
      var c := p.classDict[classHash];
      assert c in p.classDict.Values;
      assert c in p.Classes();
      assert c.fields[fieldIndex] in p.LoadedFields();
    }
  }

  /**
   * After loading, a catalog entry is found by its parsed key and by its
   * name unless a later entry took the same key, and a hash or name is
   * found iff some entry carries it; a class found by hash carries that hash.
   */
  lemma LoadedLookups(p: RszParser, entries: seq<CatalogEntry>, parseHex: string -> uint32,
                      classHash: uint32, className: string)
    requires p.classDict == Index(entries, HashKey(parseHex))
    requires p.classNameDict == Index(entries, NameKey)
    ensures p.GetRSZClass(classHash).Some? <==> exists i :: 0 <= i < |entries| && parseHex(entries[i].key) == classHash
    ensures forall i :: LastWith(entries, HashKey(parseHex), i, classHash) ==>
      p.GetRSZClass(classHash) == Some(entries[i].cls)
    ensures p.GetRSZClassByName(className).Some? <==> exists i :: 0 <= i < |entries| && entries[i].cls.name == className
    ensures forall i :: LastWith(entries, NameKey, i, className) ==>
      p.GetRSZClassByName(className) == Some(entries[i].cls)
    ensures p.Valid() && p.GetRSZClass(classHash).Some? ==> p.GetRSZClass(classHash).value.typeId == classHash
  {
    IndexLastWins(entries, HashKey(parseHex), classHash);
    IndexLastWins(entries, NameKey, className);
  }

  /** The process-wide cache of parsers, one per catalog path. */
  class ParserCache {
    var instanceDict: map<string, RszParser>

    constructor ()
      ensures instanceDict == map[]
    {
      instanceDict := map[];
    }

    /**
     * Returns the cached parser for `jsonPath`; on a miss, loads `catalog`
     * (what deserializing the file at `jsonPath` yields) into a new parser
     * and caches it.
     */
    method GetInstance(jsonPath: string, catalog: Option<seq<CatalogEntry>>, parseHex: string -> uint32)
      returns (parser: RszParser)
      requires jsonPath !in instanceDict ==> DistinctClasses(Entries(catalog))
      modifies this, ClassesOf(Entries(catalog)), FieldsOf(Entries(catalog))
      ensures jsonPath in instanceDict && instanceDict[jsonPath] == parser
      ensures jsonPath in old(instanceDict) ==>
        parser == old(instanceDict[jsonPath]) && instanceDict == old(instanceDict)
        && unchanged(ClassesOf(Entries(catalog)), FieldsOf(Entries(catalog)))
      ensures jsonPath !in old(instanceDict) ==>
        fresh(parser) && parser.Valid() && instanceDict == old(instanceDict)[jsonPath := parser]
        && parser.classDict == Index(Entries(catalog), HashKey(parseHex))
        && parser.classNameDict == Index(Entries(catalog), NameKey)
    {
      if jsonPath in instanceDict {
        return instanceDict[jsonPath];
      }
      parser := new RszParser(catalog, parseHex);
      instanceDict := instanceDict[jsonPath := parser];
    }
  }
}
