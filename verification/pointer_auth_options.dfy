/** `PointerAuthOptions`: one schema per recognised pointer category and
    four independent ABI toggles.  It is a plain aggregate with no
    cross-field logic; its default state is "pointer authentication off". */
module PointerAuthOptions {
  import PointerAuthSchema

  datatype Options = Options(
    thunkCXXVirtualMemberPointers: bool,
    returnAddresses: bool,
    indirectGotos: bool,
    authTraps: bool,
    functionPointers: PointerAuthSchema.Schema,
    blockInvocationFunctionPointers: PointerAuthSchema.Schema,
    blockHelperFunctionPointers: PointerAuthSchema.Schema,
    blockByrefHelperFunctionPointers: PointerAuthSchema.Schema,
    objCMethodListFunctionPointers: PointerAuthSchema.Schema,
    cxxVTablePointers: PointerAuthSchema.Schema,
    cxxVTTVTablePointers: PointerAuthSchema.Schema,
    cxxVirtualFunctionPointers: PointerAuthSchema.Schema,
    cxxVirtualVariadicFunctionPointers: PointerAuthSchema.Schema,
    cxxMemberFunctionPointers: PointerAuthSchema.Schema)

  /** The four boolean members. */
  datatype Toggle =
    | ThunkCXXVirtualMemberPointers
    | ReturnAddresses
    | IndirectGotos
    | AuthTraps

  /** The ten schema members. */
  datatype Slot =
    | FunctionPointers
    | BlockInvocationFunctionPointers
    | BlockHelperFunctionPointers
    | BlockByrefHelperFunctionPointers
    | ObjCMethodListFunctionPointers
    | CXXVTablePointers
    | CXXVTTVTablePointers
    | CXXVirtualFunctionPointers
    | CXXVirtualVariadicFunctionPointers
    | CXXMemberFunctionPointers

  function GetToggle(o: Options, t: Toggle): bool {
    match t
    case ThunkCXXVirtualMemberPointers => o.thunkCXXVirtualMemberPointers
    case ReturnAddresses => o.returnAddresses
    case IndirectGotos => o.indirectGotos
    case AuthTraps => o.authTraps
  }

  function GetSchema(o: Options, f: Slot): PointerAuthSchema.Schema {
    match f
    case FunctionPointers => o.functionPointers
    case BlockInvocationFunctionPointers => o.blockInvocationFunctionPointers
    case BlockHelperFunctionPointers => o.blockHelperFunctionPointers
    case BlockByrefHelperFunctionPointers => o.blockByrefHelperFunctionPointers
    case ObjCMethodListFunctionPointers => o.objCMethodListFunctionPointers
    case CXXVTablePointers => o.cxxVTablePointers
    case CXXVTTVTablePointers => o.cxxVTTVTablePointers
    case CXXVirtualFunctionPointers => o.cxxVirtualFunctionPointers
    case CXXVirtualVariadicFunctionPointers => o.cxxVirtualVariadicFunctionPointers
    case CXXMemberFunctionPointers => o.cxxMemberFunctionPointers
  }

  /** A freshly constructed record: every toggle false, every schema the
      default (disabled) one. */
  function Default(): (o: Options)
    ensures forall t: Toggle :: !GetToggle(o, t)
    ensures forall f: Slot :: !GetSchema(o, f).IsEnabled()
  {
    var off := PointerAuthSchema.Default();
    Options(false, false, false, false, off, off, off, off, off, off, off, off, off, off)
  }

  /** Assigning one boolean member. */
  function SetToggle(o: Options, t: Toggle, v: bool): (r: Options)
    ensures GetToggle(r, t) == v
    ensures forall u: Toggle :: u != t ==> GetToggle(r, u) == GetToggle(o, u)
    ensures forall f: Slot :: GetSchema(r, f) == GetSchema(o, f)
  {
    match t
    case ThunkCXXVirtualMemberPointers => o.(thunkCXXVirtualMemberPointers := v)
    case ReturnAddresses => o.(returnAddresses := v)
    case IndirectGotos => o.(indirectGotos := v)
    case AuthTraps => o.(authTraps := v)
  }

  /** Assigning one schema member. */
  function SetSchema(o: Options, f: Slot, s: PointerAuthSchema.Schema): (r: Options)
    ensures GetSchema(r, f) == s
    ensures forall g: Slot :: g != f ==> GetSchema(r, g) == GetSchema(o, g)
    ensures forall t: Toggle :: GetToggle(r, t) == GetToggle(o, t)
  {
    match f
    case FunctionPointers => o.(functionPointers := s)
    case BlockInvocationFunctionPointers => o.(blockInvocationFunctionPointers := s)
    case BlockHelperFunctionPointers => o.(blockHelperFunctionPointers := s)
    case BlockByrefHelperFunctionPointers => o.(blockByrefHelperFunctionPointers := s)
    case ObjCMethodListFunctionPointers => o.(objCMethodListFunctionPointers := s)
    case CXXVTablePointers => o.(cxxVTablePointers := s)
    case CXXVTTVTablePointers => o.(cxxVTTVTablePointers := s)
    case CXXVirtualFunctionPointers => o.(cxxVirtualFunctionPointers := s)
    case CXXVirtualVariadicFunctionPointers => o.(cxxVirtualVariadicFunctionPointers := s)
    case CXXMemberFunctionPointers => o.(cxxMemberFunctionPointers := s)
  }

  /** A record is determined by its fourteen members. */
  lemma {:induction false} Extensionality(o: Options, p: Options)
    requires forall t: Toggle :: GetToggle(o, t) == GetToggle(p, t)
    requires forall f: Slot :: GetSchema(o, f) == GetSchema(p, f)
    ensures o == p
  {
    assert GetToggle(o, ThunkCXXVirtualMemberPointers) == GetToggle(p, ThunkCXXVirtualMemberPointers);
    assert GetToggle(o, ReturnAddresses) == GetToggle(p, ReturnAddresses);
    assert GetToggle(o, IndirectGotos) == GetToggle(p, IndirectGotos);
    assert GetToggle(o, AuthTraps) == GetToggle(p, AuthTraps);
    assert GetSchema(o, FunctionPointers) == GetSchema(p, FunctionPointers);
    assert GetSchema(o, BlockInvocationFunctionPointers) == GetSchema(p, BlockInvocationFunctionPointers);
    assert GetSchema(o, BlockHelperFunctionPointers) == GetSchema(p, BlockHelperFunctionPointers);
    assert GetSchema(o, BlockByrefHelperFunctionPointers) == GetSchema(p, BlockByrefHelperFunctionPointers);
    assert GetSchema(o, ObjCMethodListFunctionPointers) == GetSchema(p, ObjCMethodListFunctionPointers);
    assert GetSchema(o, CXXVTablePointers) == GetSchema(p, CXXVTablePointers);
    assert GetSchema(o, CXXVTTVTablePointers) == GetSchema(p, CXXVTTVTablePointers);
    assert GetSchema(o, CXXVirtualFunctionPointers) == GetSchema(p, CXXVirtualFunctionPointers);
    assert GetSchema(o, CXXVirtualVariadicFunctionPointers) == GetSchema(p, CXXVirtualVariadicFunctionPointers);
    assert GetSchema(o, CXXMemberFunctionPointers) == GetSchema(p, CXXMemberFunctionPointers);
  }

  /** Assignments to two different members commute. */
  lemma SetSchemaCommutes(o: Options, f: Slot, g: Slot, s: PointerAuthSchema.Schema, t: PointerAuthSchema.Schema)
    requires f != g
    ensures SetSchema(SetSchema(o, f, s), g, t) == SetSchema(SetSchema(o, g, t), f, s)
  {
    var a, b := SetSchema(SetSchema(o, f, s), g, t), SetSchema(SetSchema(o, g, t), f, s);
    forall h: Slot ensures GetSchema(a, h) == GetSchema(b, h) {
    }
    Extensionality(a, b);
  }

  /** Re-assigning a member its own value changes nothing. */
  lemma SetSchemaOwnValue(o: Options, f: Slot)
    ensures SetSchema(o, f, GetSchema(o, f)) == o
  {
    Extensionality(SetSchema(o, f, GetSchema(o, f)), o);
  }

  /** Switching pointer authentication off again, member by member, gives
      back the default record: the all-off state stays reachable. */
  lemma ResetToDefault(o: Options)
    ensures SetToggle(SetToggle(SetToggle(SetToggle(
              ClearSchemas(o), ThunkCXXVirtualMemberPointers, false),
              ReturnAddresses, false), IndirectGotos, false), AuthTraps, false) == Default()
  {
    var r := SetToggle(SetToggle(SetToggle(SetToggle(
              ClearSchemas(o), ThunkCXXVirtualMemberPointers, false),
              ReturnAddresses, false), IndirectGotos, false), AuthTraps, false);
    Extensionality(r, Default());
  }

  /** Every schema member set to the default schema, one assignment each. */
  function ClearSchemas(o: Options): (r: Options)
    ensures forall f: Slot :: GetSchema(r, f) == PointerAuthSchema.Default()
    ensures forall t: Toggle :: GetToggle(r, t) == GetToggle(o, t)
  {
    var off := PointerAuthSchema.Default();
    var o1 := SetSchema(SetSchema(SetSchema(SetSchema(SetSchema(o,
                FunctionPointers, off), BlockInvocationFunctionPointers, off),
                BlockHelperFunctionPointers, off), BlockByrefHelperFunctionPointers, off),
                ObjCMethodListFunctionPointers, off);
    SetSchema(SetSchema(SetSchema(SetSchema(SetSchema(o1,
      CXXVTablePointers, off), CXXVTTVTablePointers, off),
      CXXVirtualFunctionPointers, off), CXXVirtualVariadicFunctionPointers, off),
      CXXMemberFunctionPointers, off)
  }
}
