# Pointer authentication: schemas, signed constants, hardened jump tables

A Dafny model of three pieces of the ARMv8.3-A pointer-authentication
(PAuth) support in the Clang/LLVM toolchain. Each piece comes with proofs
about it.

- **`PointerAuthSchema` and `PointerAuthOptions`**
  (`clang/include/clang/Basic/PointerAuthOptions.h`).
  - A schema says how one category of pointer is signed. It has three kinds:
    - disabled (`None`);
    - software signing with one of seven `SoftKey`s;
    - ARMv8.3 hardware signing with one of the keys ASIA, ASIB, ASDA, ASDB.
  - An enabled schema also has an address-discrimination flag and an
    extra-discrimination mode (`None`, `Type`, `Decl`).
  - Module `PointerAuthSchema` models the schema as a sum type. Its
    accessors are member functions whose `requires` are the header's
    `assert`s and `llvm_unreachable`s.
  - Module `SchemaLayout` models the header's union of bit-field structs:
    - a 32-bit storage word, with fields allocated from bit 0 (a modelling
      choice: the real order is the host ABI's, and no property depends on it);
    - the bit-field stores done by each constructor;
    - the reads done by each accessor.
  - Module `PointerAuthOptions` models the options record: four booleans
    and ten schema members, all off by default.
- **Signed pointer constants** (`clang/lib/CodeGen/CGPointerAuth.cpp`),
  module `CGPointerAuth`.
  - `buildConstantSignedPointer` emits a four-field record:
    - the pointer;
    - the key;
    - the storage address;
    - the extra discriminator.
  - The record goes into a private constant global named `<base>.ptrauth`,
    in section `llvm.ptrauth`.
  - `getConstantSignedPointer` uniques these globals through a
    side-allocated cache. The cache maps a pointer, with its casts
    stripped, to a list of (key, discriminator, global) entries.
  - The cache is modelled as an `Option<map<...>>` threaded through a
    `CodeGenModule` value. The module's globals are a sequence, and each
    global is identified by its position.
- **Hardened jump-table dispatch**
  (`llvm/lib/Target/AArch64/AArch64ExpandHardenedPseudos.cpp`), module
  `ExpandHardenedPseudos`.
  - `expandMI` replaces the pseudo-instruction `BR_JumpTable` by a compare
    against `MaxTableEntry = NumTableEntries - 1`:
    - a 12-bit immediate compare when the value fits;
    - otherwise a MOVZ/MOVK materialisation into X17 and a register compare.
  - The compare is followed by:
    - a `CSEL ... LS` that clamps an out-of-range index to 0;
    - ADRP/ADD of the table address;
    - LDRSW of the entry;
    - ADD;
    - BR.
  - Instructions are an abstract datatype. A small 64-bit semantics gives
    them meaning: registers X16 and X17, the Z and C flags, the addresses
    loaded from, and the branch target.
  - 64-bit registers are modelled as integers in `[0, 2^64)`. Every
    operation that can leave that range wraps modulo 2^64 explicitly.
    `MaxTableEntry` is therefore 2^64 - 1 for an empty table, as the
    source's `uint64_t` subtraction gives.

The code and its own comment disagree on the order of the jump-table
sequence:

- The comment at `AArch64ExpandHardenedPseudos.cpp:82-90` lists adrp/add
  before the mov/cmp.
- The code emits the compare first, then csel, then adrp and add.

The model follows the code.

Module `Wrappers` supplies the `Option` type.

## Model

| member | source | states |
|---|---|---|
| PointerAuthSchema.SoftKeyOfCode | clang/include/clang/Basic/PointerAuthOptions.h:38-46 | converting an in-range value 0..6 to a `SoftKey` gives the enumerator with exactly that value |
| PointerAuthSchema.ARM8_3KeyOfCode | clang/include/clang/Basic/PointerAuthOptions.h:48-56 | converting an in-range value 0..3 to an `ARM8_3Key` gives the enumerator with exactly that value |
| PointerAuthSchema.Schema.GetKey | clang/include/clang/Basic/PointerAuthOptions.h:144-151 | `getKey()` may only be called on an enabled schema; it is a SoftKey value (at most 6) for a Soft schema and a hardware key number (at most 3) for an ARM8_3 schema |
| PointerAuthSchema.Default | clang/include/clang/Basic/PointerAuthOptions.h:98-100 | the default constructor makes a schema of kind None, for which `isEnabled()` and `operator bool` are false; so the preconditions of `isAddressDiscriminated`, `getOtherDiscrimination`, `hasOtherDiscrimination`, `getKey` (kind not None, lines 131, 140, 146), `getSoftKey` (kind Soft, 154) and `getARM8_3Key` (kind ARM8_3, 159) all fail on it |
| PointerAuthSchema.MakeSoft | clang/include/clang/Basic/PointerAuthOptions.h:102-108 | a schema built from a software key reports kind Soft and is enabled, so it meets the preconditions of every accessor but `getARM8_3Key` (kind ARM8_3, line 159); its accessors give back the flag, the discrimination mode and the key; `hasOtherDiscrimination()` holds iff the mode is not None; `getKey()` is the key's value |
| PointerAuthSchema.MakeARM8_3 | clang/include/clang/Basic/PointerAuthOptions.h:110-116 | the same for a hardware key: kind ARM8_3 and enabled, so it meets the preconditions of every accessor but `getSoftKey` (kind Soft, line 154), and each accessor gives back what was passed in, with `getKey()` the key's number |
| PointerAuthSchema.ARM8_3KeyNumbering | clang/test/Sema/ptrauth-intrinsics-macro.c:8-9 | `getKey()` is exactly 0, 1, 2, 3 for ASIA, ASIB, ASDA, ASDB, and the numbers 0..3 and the keys correspond one to one; key 0 (the code key the intrinsics use) is an instruction key and key 2 (the data key) is not |
| PointerAuthSchema.KeyDeterminesKey | clang/include/clang/Basic/PointerAuthOptions.h:144-161 | within one kind, two schemas with the same `getKey()` have the same `getSoftKey()` or `getARM8_3Key()` |
| PointerAuthSchema.EnabledSchemaReconstructs | clang/include/clang/Basic/PointerAuthOptions.h:102-161 | every enabled schema equals the constructor of its kind applied to what its accessors report, so the accessors lose nothing |
| SchemaLayout.MasksMatchWidths | clang/include/clang/Basic/PointerAuthOptions.h:71-95 | the named masks that every field read and store uses keep exactly 2^width values for the declared widths 2, 1, 2, 3 and 2 |
| SchemaLayout.EnumeratorsFitFields | clang/include/clang/Basic/PointerAuthOptions.h:71-95 | every Kind and Discrimination value fits 2 bits, every SoftKey 3 bits and every ARM8_3Key 2 bits, so storing one into its bit-field never truncates it |
| SchemaLayout.SoftFieldsReadBack | clang/include/clang/Basic/PointerAuthOptions.h:104-107 | after the Soft constructor's four bit-field stores, the kind, flag, discrimination and key fields read back the values stored, whatever the word held before |
| SchemaLayout.ARM8_3FieldsReadBack | clang/include/clang/Basic/PointerAuthOptions.h:112-115 | the same for the ARM8_3 constructor, whose key field is 2 bits wide |
| SchemaLayout.SoftReadsBack | clang/include/clang/Basic/PointerAuthOptions.h:102-108 | the storage word written by the Soft constructor decodes, through the accessors' reads, to the schema it was given |
| SchemaLayout.ARM8_3ReadsBack | clang/include/clang/Basic/PointerAuthOptions.h:110-116 | the storage word written by the ARM8_3 constructor decodes to the schema it was given; the Soft key's top bit, which it leaves alone, does not matter |
| SchemaLayout.ConstructReadsBack | clang/include/clang/Basic/PointerAuthOptions.h:98-161 | store-then-read: for every schema and every prior content of the storage, the constructed word decodes to that schema |
| SchemaLayout.DisabledIgnoresOtherBits | clang/include/clang/Basic/PointerAuthOptions.h:98-100 | a word whose kind field is 0 is a disabled schema, whatever its other bits are, which is why the default constructor stores only the kind |
| SchemaLayout.ConstructInjective | clang/include/clang/Basic/PointerAuthOptions.h:71-116 | two constructed words decode to the same schema exactly when they were built from the same schema |
| PointerAuthOptions.Default | clang/include/clang/Basic/PointerAuthOptions.h:165-209 | a fresh options record has all four booleans false and all ten schemas disabled |
| PointerAuthOptions.SetToggle | clang/include/clang/Basic/PointerAuthOptions.h:165-177 | assigning one boolean member sets it and leaves the other three booleans and every schema unchanged |
| PointerAuthOptions.SetSchema | clang/include/clang/Basic/PointerAuthOptions.h:179-208 | assigning one schema member sets it and leaves the other nine schemas and every boolean unchanged |
| PointerAuthOptions.Extensionality | clang/include/clang/Basic/PointerAuthOptions.h:165-209 | a record is determined by its fourteen members: it has no state besides them |
| PointerAuthOptions.SetSchemaCommutes | clang/include/clang/Basic/PointerAuthOptions.h:179-208 | assignments to two different schema members commute |
| PointerAuthOptions.SetSchemaOwnValue | clang/include/clang/Basic/PointerAuthOptions.h:179-208 | assigning a schema member its own value changes nothing |
| PointerAuthOptions.ClearSchemas | clang/include/clang/Basic/PointerAuthOptions.h:179-208 | assigning the default schema to each of the ten members disables every schema and keeps every boolean |
| PointerAuthOptions.ResetToDefault | clang/include/clang/Basic/PointerAuthOptions.h:165-209 | from any record, switching every member off again gives exactly the default record |
| CGPointerAuth.StripPointerCasts | clang/lib/CodeGen/CGPointerAuth.cpp:131 | the stripped value is never itself a pointer cast, and a value that is not a cast is its own stripped value |
| CGPointerAuth.StripPointerCastsIdempotent | clang/lib/CodeGen/CGPointerAuth.cpp:107 | stripping twice is stripping once, and an extra cast does not change the stripped value, so a pointer and its casts are uniqued together |
| CGPointerAuth.BuildConstantSignedPointer | clang/lib/CodeGen/CGPointerAuth.cpp:79-123 | an integer storage address must be non-zero; the record has exactly four fields in the order pointer, key, storage address, discriminator, and reads back as that request, with 0 for an absent address or discriminator; the global is constant, named after the stripped pointer's global (or GEP base) plus `.ptrauth`, and placed in section `llvm.ptrauth` |
| CGPointerAuth.ZeroFieldsCoincide | clang/lib/CodeGen/CGPointerAuth.cpp:89-105 | a zero integer storage address would be stored like no address at all, which is why it is ruled out; an absent discriminator builds the same record as a zero one |
| CGPointerAuth.GetOrCreateCache | clang/lib/CodeGen/CGPointerAuth.cpp:48-55 | afterwards the storage refers to the cache returned; an existing cache is returned as it is, and a new empty one is allocated only when the storage was empty |
| CGPointerAuth.DestroyConstantSignedPointerCaches | clang/lib/CodeGen/CGPointerAuth.cpp:57-61 | destroying the caches resets the storage to empty and keeps every global |
| CGPointerAuth.FindEntry | clang/lib/CodeGen/CGPointerAuth.cpp:150-155 | the position found is that of the first entry with the same key and the identical discriminator; none is found exactly when no entry matches |
| CGPointerAuth.FindCachedEntry | clang/lib/CodeGen/CGPointerAuth.cpp:150-155 | the search loop returns the first matching entry, the same answer as `FindEntry` |
| CGPointerAuth.GetConstantSignedPointer | clang/lib/CodeGen/CGPointerAuth.cpp:125-170 | a request adds at most one global and never removes one; a request that cannot be cached keeps the cache storage as it was and always builds a new global; a cacheable request leaves a cache allocated; a new global is the one built for the stripped pointer |
| CGPointerAuth.EmptyCacheSound | clang/lib/CodeGen/CGPointerAuth.cpp:48-61 | a module with no cache, or with the fresh empty cache `getOrCreateCache` allocates, satisfies the memoisation invariant, so the invariant holds from the start and after the caches are destroyed |
| CGPointerAuth.GetConstantSignedPointerTransparent | clang/lib/CodeGen/CGPointerAuth.cpp:125-170 | from a sound cache, every request, hit or miss, returns a global equal to the one a fresh build would give, and leaves the cache sound: memoising never changes the answer |
| CGPointerAuth.CacheableMissAppendsOne | clang/lib/CodeGen/CGPointerAuth.cpp:149-166 | a cacheable miss builds one new global and appends exactly one entry (key, discriminator, that global) to the stripped pointer's list; no other pointer's list changes |
| CGPointerAuth.CacheableHitUnchanged | clang/lib/CodeGen/CGPointerAuth.cpp:149-155 | a cacheable hit changes nothing and returns the global of the first entry with the same key and discriminator |
| CGPointerAuth.GetConstantSignedPointerIdempotent | clang/lib/CodeGen/CGPointerAuth.cpp:130-166 | repeating a cacheable request, through the same pointer or any pointer that strips to the same value, returns the same global and changes nothing, so the list does not grow |
| CGPointerAuth.NonCacheableIgnoresCache | clang/lib/CodeGen/CGPointerAuth.cpp:140-142 | a request with a storage address or a non-integer discriminator neither reads nor writes the cache: its result is the same whatever the cache holds |
| CGPointerAuth.AddSignedPointer | clang/lib/CodeGen/CGPointerAuth.cpp:181-193 | exactly one field, a reference to a signed-pointer global, is appended to the aggregate, and the earlier fields are kept; with address discrimination, the request is not cached and builds a new global |
| CGPointerAuth.AddSignedPointerStorage | clang/lib/CodeGen/CGPointerAuth.cpp:184-191 | the global behind the added field signs the stripped pointer with the given key and discriminator, and its storage address is the field's own address exactly when address discrimination is used |
| ExpandHardenedPseudos.MaxTableEntryInverse | llvm/lib/Target/AArch64/AArch64ExpandHardenedPseudos.cpp:95-99 | `MaxTableEntry` plus one is the number of table entries again in uint64; for a non-empty table it is the last index, and for an empty one it wraps to 2^64 - 1 |
| ExpandHardenedPseudos.MovKChain | llvm/lib/Target/AArch64/AArch64ExpandHardenedPseudos.cpp:112-119 | the MOVK loop emits, for offsets 16, 32, 48 in increasing order, one MOVK into X17 of the value's 16 bits at that offset, exactly while the value shifted right by the offset is non-zero |
| ExpandHardenedPseudos.ExpansionShape | llvm/lib/Target/AArch64/AArch64ExpandHardenedPseudos.cpp:99-156 | the replacement ends with csel, adrp, add, ldrsw, add, br; it starts with a single immediate compare iff `MaxTableEntry` fits 12 bits; otherwise it is MOVZ, at most three MOVKs at strictly increasing multiples of 16, then a register compare |
| ExpandHardenedPseudos.ExpansionHasNoPseudo | llvm/lib/Target/AArch64/AArch64ExpandHardenedPseudos.cpp:99-156 | the replacement contains no BR_JumpTable |
| ExpandHardenedPseudos.RunAppend | llvm/lib/Target/AArch64/AArch64ExpandHardenedPseudos.cpp:99-156 | running two sequences one after the other is running their concatenation |
| ExpandHardenedPseudos.MovKInsertsChunk | llvm/lib/Target/AArch64/AArch64ExpandHardenedPseudos.cpp:115-118 | one MOVK of the chunk at offset 16k extends the bits already in place below that offset by that chunk |
| ExpandHardenedPseudos.NoHighBits | llvm/lib/Target/AArch64/AArch64ExpandHardenedPseudos.cpp:113-114 | when the value shifted right by the offset is zero, the bits below the offset are the whole value, so the loop may stop |
| ExpandHardenedPseudos.MovKChainCompletes | llvm/lib/Target/AArch64/AArch64ExpandHardenedPseudos.cpp:112-119 | from X17 holding the value's bits below offset 16k, the remaining MOVKs leave exactly the value in X17 and change nothing else |
| ExpandHardenedPseudos.MaterializationExact | llvm/lib/Target/AArch64/AArch64ExpandHardenedPseudos.cpp:105-119 | the MOVZ/MOVK sequence leaves exactly `MaxTableEntry` in X17 and changes nothing else |
| ExpandHardenedPseudos.CompareSetsFlags | llvm/lib/Target/AArch64/AArch64ExpandHardenedPseudos.cpp:100-123 | either form of the compare sets C to "index is unsigned at least `MaxTableEntry`" and Z to "index equals it", and leaves the index, the loads and the branch untouched |
| ExpandHardenedPseudos.SelectClamps | llvm/lib/Target/AArch64/AArch64ExpandHardenedPseudos.cpp:126-131 | after that compare, `CSEL X16, X16, XZR, LS` replaces X16 by the clamped index and changes nothing else |
| ExpandHardenedPseudos.TableAddressRebuilt | llvm/lib/Target/AArch64/AArch64ExpandHardenedPseudos.cpp:138-143 | ADRP of the table's page plus ADD of its offset in the page leave exactly the table address in X17 |
| ExpandHardenedPseudos.LoadAndBranch | llvm/lib/Target/AArch64/AArch64ExpandHardenedPseudos.cpp:145-156 | LDRSW, ADD and BR load one word at X17 + 4 * X16 and branch to X17 plus that word sign-extended |
| ExpandHardenedPseudos.ClampThenAddress | llvm/lib/Target/AArch64/AArch64ExpandHardenedPseudos.cpp:126-143 | after the compare, the CSEL and ADRP/ADD leave the clamped index in X16 and the table address in X17 |
| ExpandHardenedPseudos.DispatchReadsClampedSlot | llvm/lib/Target/AArch64/AArch64ExpandHardenedPseudos.cpp:95-156 | the whole replacement runs to the branch; its only load reads the table slot of the clamped index, and it branches to the table address plus that slot's sign-extended entry |
| ExpandHardenedPseudos.ClampedIndexBounded | llvm/lib/Target/AArch64/AArch64ExpandHardenedPseudos.cpp:126-131 | the index that reaches the load is at most `MaxTableEntry`; an index within bounds passes unchanged, and any other becomes 0 |
| ExpandHardenedPseudos.ClampedIndexInTable | llvm/lib/Target/AArch64/AArch64ExpandHardenedPseudos.cpp:95-99 | for a non-empty table the index that reaches the load is below the number of entries |
| ExpandHardenedPseudos.EmptyTableIsNotClamped | llvm/lib/Target/AArch64/AArch64ExpandHardenedPseudos.cpp:99-104 | for an empty table `MaxTableEntry` wraps to 2^64 - 1, the long compare form is used, and no index is clamped |
| ExpandHardenedPseudos.ExpandMI | llvm/lib/Target/AArch64/AArch64ExpandHardenedPseudos.cpp:65-163 | `expandMI` reports a change exactly for BR_JumpTable; a BR_JumpTable is replaced by the clamped dispatch for its own table's entry count; any other instruction stays in place alone; what stands in place of the instruction contains no BR_JumpTable |
| ExpandHardenedPseudos.ExpandMIDispatchesInTable | llvm/lib/Target/AArch64/AArch64ExpandHardenedPseudos.cpp:95-159 | what `expandMI` puts in place of a BR_JumpTable runs to the branch; its only load reads the slot of the clamped index, which is at most `MaxTableEntry` and, for a non-empty table, an index of the table; it branches to the table address plus that slot's sign-extended entry |
| ExpandHardenedPseudos.ExpandBlock | llvm/lib/Target/AArch64/AArch64ExpandHardenedPseudos.cpp:171-174 | an expanded block contains no BR_JumpTable, and a block without one is left as it is |
| ExpandHardenedPseudos.HasPseudoExtend | llvm/lib/Target/AArch64/AArch64ExpandHardenedPseudos.cpp:171-174 | a prefix one instruction longer holds a BR_JumpTable exactly when the shorter prefix does or the new instruction is one |
| ExpandHardenedPseudos.ExpandBlockExtend | llvm/lib/Target/AArch64/AArch64ExpandHardenedPseudos.cpp:171-174 | expanding a prefix one instruction longer appends that instruction's expansion |
| ExpandHardenedPseudos.ExpandBlockInstrs | llvm/lib/Target/AArch64/AArch64ExpandHardenedPseudos.cpp:171-174 | the loop over one block offers each instruction to `expandMI` in order; the block counts as modified exactly when it holds a BR_JumpTable |
| ExpandHardenedPseudos.RunOnMachineFunction | llvm/lib/Target/AArch64/AArch64ExpandHardenedPseudos.cpp:166-177 | the pass returns true exactly when some block held a BR_JumpTable; it expands every block and keeps the jump tables; an unmodified function comes out identical |

## Left out

- The SipHash-based stable string hash (`computeStableStringHash`, `clang/include/clang/AST/StableHash.h`) is not modelled, because only its declaration is present.
- `getPointerAuthTypeDiscriminator` is not modelled: it delegates to `ASTContext`, and `ASTContext` is not part of this model.
- The free function `CodeGen::getConstantSignedPointer` is not a separate member. It only forwards to the `CodeGenModule` method.
- The schema has no `operator==` in the header. The model claims no equality beyond Dafny's structural equality of datatypes.
- LLVM IR types are not modelled: bitcasts to `i8*` and to the pointer's own type, `IntPtrTy`, `SizeTy` and alignment.
  - The first record field is the pointer itself.
  - The result of a request is the global's position, not a bitcast constant.
  - The assert that the discriminator has type `SizeTy` is not modelled, because types are not modelled.
- Private linkage and LLVM's renaming of clashing global names are not modelled. A global's name is the name it is created with.
- `llvm::ValueMap`'s handling of replaced or deleted values (RAUW) is not modelled. The cache is a plain map keyed by the stripped constant.
- `StripPointerCasts`: does not model everything LLVM's `stripPointerCasts` strips. The `PointerCast` node stands for a bitcast or an address-space cast, and only those are removed. LLVM also strips getelementptr expressions whose indices are all zero; the model keys `GetElementPtr(g, 0)` separately from `g`.
- `getAddrOfCurrentPosition` is a parameter (`currentPosition`) of `AddSignedPointer`. Its placeholder machinery is not modelled.
- `new` and `delete` of the cache are not modelled. The storage is an `Option`, and destroying it sets it to `None`.
- `BuildMI` plumbing is not modelled, and neither are iterators or debug locations.
  - Operand target flags (`MO_PAGE`, `MO_PAGEOFF`) are implicit in the `ADRP` and `ADDXri` constructors.
  - Shift and extend immediates that the expansion always passes as 0 are implicit, as is the scaling flag of LDRSW.
- Pass registration, `createAArch64ExpandHardenedPseudosPass`, `LLVM_DEBUG` output and register liveness are not modelled.
- The asserts that the function has jump-table info and a non-empty jump-table list are a single precondition: the pseudo's table index must name an existing jump table.
- `Step`: does not model the AArch64 instruction set beyond the instructions the expansion emits. Any other instruction, and the pseudo itself, has no semantics here. The N and V flags are not modelled because condition LS reads only C and Z.
