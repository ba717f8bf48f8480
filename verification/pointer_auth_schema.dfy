/** The pointer-authentication schema of PointerAuthOptions.h: how one
    category of pointer is signed.  The packed union of the header is
    modelled here as a sum type whose variant is the schema's kind; the
    bit-field layout itself is modelled in module SchemaLayout. */
module PointerAuthSchema {

  /** `PointerAuthSchema::Kind`. */
  datatype Kind = None | Soft | ARM8_3 {

    /** The enumerator's value: None = 0, Soft = 1, ARM8_3 = 2. */
    function Code(): (c: nat)
      ensures c < 3
    {
      match this
      case None => 0
      case Soft => 1
      case ARM8_3 => 2
    }
  }

  /** `PointerAuthSchema::SoftKey`: software signing "keys", one per
      pointer category. */
  datatype SoftKey =
    | FunctionPointers
    | BlockInvocationFunctionPointers
    | BlockHelperFunctionPointers
    | ObjCMethodListFunctionPointers
    | CXXVTablePointers
    | CXXVirtualFunctionPointers
    | CXXMemberFunctionPointers
  {
    /** The enumerator's explicit value, 0 through 6 in declaration order. */
    function Code(): (c: nat)
      ensures c <= 6
    {
      match this
      case FunctionPointers => 0
      case BlockInvocationFunctionPointers => 1
      case BlockHelperFunctionPointers => 2
      case ObjCMethodListFunctionPointers => 3
      case CXXVTablePointers => 4
      case CXXVirtualFunctionPointers => 5
      case CXXMemberFunctionPointers => 6
    }
  }

  /** `SoftKey(c)` for an in-range value. */
  function SoftKeyOfCode(c: nat): (k: SoftKey)
    requires c <= 6
    ensures k.Code() == c
  {
    if c == 0 then FunctionPointers
    else if c == 1 then BlockInvocationFunctionPointers
    else if c == 2 then BlockHelperFunctionPointers
    else if c == 3 then ObjCMethodListFunctionPointers
    else if c == 4 then CXXVTablePointers
    else if c == 5 then CXXVirtualFunctionPointers
    else CXXMemberFunctionPointers
  }

  /** `PointerAuthSchema::ARM8_3Key`: the ARMv8.3 hardware keys.  Their
      values are the key numbers of <ptrauth.h> and may not be renumbered. */
  datatype ARM8_3Key = ASIA | ASIB | ASDA | ASDB {

    function Code(): (c: nat)
      ensures c <= 3
    {
      match this
      case ASIA => 0
      case ASIB => 1
      case ASDA => 2
      case ASDB => 3
    }

    /** ASIA and ASIB sign code pointers, ASDA and ASDB data pointers. */
    predicate IsInstructionKey() {
      ASIA? || ASIB?
    }
  }

  /** `ARM8_3Key(c)` for an in-range value. */
  function ARM8_3KeyOfCode(c: nat): (k: ARM8_3Key)
    requires c <= 3
    ensures k.Code() == c
  {
    if c == 0 then ASIA else if c == 1 then ASIB else if c == 2 then ASDA else ASDB
  }

  /** `PointerAuthSchema::Discrimination`: the extra data mixed into a signature. */
  datatype Discrimination = None | Type | Decl {

    function Code(): (c: nat)
      ensures c < 3
    {
      match this
      case None => 0
      case Type => 1
      case Decl => 2
    }
  }

  /** A schema.  Only an enabled schema carries an address-discrimination
      flag, an extra-discrimination mode and a key, and the key's type is
      the one its kind dictates. */
  datatype Schema =
    | Disabled
    | SoftSchema(softKey: SoftKey, addressDiscriminated: bool, otherDiscrimination: Discrimination)
    | ARM8_3Schema(arm8_3Key: ARM8_3Key, addressDiscriminated: bool, otherDiscrimination: Discrimination)
  {
    /** `getKind()`: defined on every schema. */
    function GetKind(): Kind {
      match this
      case Disabled => Kind.None
      case SoftSchema(_, _, _) => Kind.Soft
      case ARM8_3Schema(_, _, _) => Kind.ARM8_3
    }

    /** `isEnabled()`, and equally `explicit operator bool`. */
    predicate IsEnabled() {
      GetKind() != Kind.None
    }

    /** `isAddressDiscriminated()`: asserts that the schema is enabled. */
    function IsAddressDiscriminated(): bool
      requires IsEnabled()
    {
      addressDiscriminated
    }

    /** `getOtherDiscrimination()`: asserts that the schema is enabled. */
    function GetOtherDiscrimination(): Discrimination
      requires IsEnabled()
    {
      otherDiscrimination
    }

    /** `hasOtherDiscrimination()`: inherits the enabled precondition from
        `getOtherDiscrimination()`. */
    predicate HasOtherDiscrimination()
      requires IsEnabled()
    {
      GetOtherDiscrimination() != Discrimination.None
    }

    /** `getSoftKey()`: asserts that the kind is Soft. */
    function GetSoftKey(): SoftKey
      requires GetKind() == Kind.Soft
    {
      softKey
    }

    /** `getARM8_3Key()`: asserts that the kind is ARM8_3. */
    function GetARM8_3Key(): ARM8_3Key
      requires GetKind() == Kind.ARM8_3
    {
      arm8_3Key
    }

    /** `getKey()`: the key's numeric value, read through the accessor of
        the schema's kind; unreachable on a disabled schema. */
    function GetKey(): (k: nat)
      requires IsEnabled()
      ensures GetKind() == Kind.Soft ==> k <= 6
      ensures GetKind() == Kind.ARM8_3 ==> k <= 3
    {
      match GetKind()
      case Soft => GetSoftKey().Code()
      case ARM8_3 => GetARM8_3Key().Code()
    }
  }

  /** The default constructor: a disabled schema, on which none of the
      kind-specific accessors may be called. */
  function Default(): (s: Schema)
    ensures s.GetKind() == Kind.None
    ensures !s.IsEnabled()
  {
    Disabled
  }

  /** The constructor from a software key. */
  function MakeSoft(key: SoftKey, isAddressDiscriminated: bool, otherDiscrimination: Discrimination): (s: Schema)
    ensures s.GetKind() == Kind.Soft && s.IsEnabled()
    ensures s.IsAddressDiscriminated() == isAddressDiscriminated
    ensures s.GetOtherDiscrimination() == otherDiscrimination
    ensures s.HasOtherDiscrimination() <==> otherDiscrimination != Discrimination.None
    ensures s.GetSoftKey() == key
    ensures s.GetKey() == key.Code()
  {
    SoftSchema(key, isAddressDiscriminated, otherDiscrimination)
  }

  /** The constructor from an ARMv8.3 key. */
  function MakeARM8_3(key: ARM8_3Key, isAddressDiscriminated: bool, otherDiscrimination: Discrimination): (s: Schema)
    ensures s.GetKind() == Kind.ARM8_3 && s.IsEnabled()
    ensures s.IsAddressDiscriminated() == isAddressDiscriminated
    ensures s.GetOtherDiscrimination() == otherDiscrimination
    ensures s.HasOtherDiscrimination() <==> otherDiscrimination != Discrimination.None
    ensures s.GetARM8_3Key() == key
    ensures s.GetKey() == key.Code()
  {
    ARM8_3Schema(key, isAddressDiscriminated, otherDiscrimination)
  }

  /** The key numbers shared with <ptrauth.h>: ASIA, ASIB, ASDA and ASDB
      read back from `getKey()` as exactly 0, 1, 2 and 3, and conversely
      every number 0..3 names exactly one key; the code key 0 and the data
      key 2 used with the ptrauth intrinsics are ASIA and ASDA. */
  lemma ARM8_3KeyNumbering(a: bool, d: Discrimination)
    ensures MakeARM8_3(ASIA, a, d).GetKey() == 0
    ensures MakeARM8_3(ASIB, a, d).GetKey() == 1
    ensures MakeARM8_3(ASDA, a, d).GetKey() == 2
    ensures MakeARM8_3(ASDB, a, d).GetKey() == 3
    ensures forall c: nat :: c <= 3 ==> ARM8_3KeyOfCode(c).Code() == c
    ensures forall k: ARM8_3Key :: ARM8_3KeyOfCode(k.Code()) == k
    ensures ARM8_3KeyOfCode(0).IsInstructionKey() && !ARM8_3KeyOfCode(2).IsInstructionKey()
  {
  }

  /** A schema's key number determines its key, within each kind. */
  lemma KeyDeterminesKey(s: Schema, t: Schema)
    requires s.IsEnabled() && s.GetKind() == t.GetKind()
    requires s.GetKey() == t.GetKey()
    ensures s.GetKind() == Kind.Soft ==> s.GetSoftKey() == t.GetSoftKey()
    ensures s.GetKind() == Kind.ARM8_3 ==> s.GetARM8_3Key() == t.GetARM8_3Key()
  {
    if s.GetKind() == Kind.Soft {
      assert SoftKeyOfCode(s.GetSoftKey().Code()) == s.GetSoftKey();
      assert SoftKeyOfCode(t.GetSoftKey().Code()) == t.GetSoftKey();
    } else {
      assert ARM8_3KeyOfCode(s.GetARM8_3Key().Code()) == s.GetARM8_3Key();
      assert ARM8_3KeyOfCode(t.GetARM8_3Key().Code()) == t.GetARM8_3Key();
    }
  }

  /** Every enabled schema is the result of one of the two key
      constructors, applied to what its accessors report. */
  lemma EnabledSchemaReconstructs(s: Schema)
    requires s.IsEnabled()
    ensures s.GetKind() == Kind.Soft ==>
      s == MakeSoft(s.GetSoftKey(), s.IsAddressDiscriminated(), s.GetOtherDiscrimination())
    ensures s.GetKind() == Kind.ARM8_3 ==>
      s == MakeARM8_3(s.GetARM8_3Key(), s.IsAddressDiscriminated(), s.GetOtherDiscrimination())
  {
  }
}
