/** Emission of signed pointer constants (CGPointerAuth.cpp): each signed
    constant is a private global in section "llvm.ptrauth" holding the
    pointer, the key, the storage address and the extra discriminator, and
    such globals are uniqued through a side-allocated cache keyed by the
    pointer with its casts stripped. */
module CGPointerAuth {
  import opened Wrappers

  /** A 32-bit `unsigned`. */
  type Unsigned = k: nat | k < 0x1_0000_0000

  /** LLVM constants, as far as this code inspects them.  LLVM uniques its
      constants, so identity of `llvm::Constant *` is equality here. */
  datatype Constant =
    | ConstantInt(value: int)                      // an llvm::ConstantInt
    | GlobalValue(name: string)                    // a named global of the module
    | SignedPointerGlobal(index: nat, name: string) // a global built by BuildConstantSignedPointer
    | GetElementPtr(base: Constant, offset: int)   // a getelementptr constant expression
    | PointerCast(operand: Constant)               // a bitcast or address-space cast
    | PtrToInt(operand: Constant)                  // ptrtoint to the pointer-sized integer
    | OtherConstant(id: nat)                       // any other constant, unnamed

  /** `stripPointerCasts()`: the value under all pointer casts. */
  function StripPointerCasts(c: Constant): (r: Constant)
    ensures !r.PointerCast?
    ensures !c.PointerCast? ==> r == c
  {
    if c.PointerCast? then StripPointerCasts(c.operand) else c
  }

  /** Stripping is idempotent, and a cast does not change what is stripped. */
  lemma {:induction false} StripPointerCastsIdempotent(c: Constant)
    ensures StripPointerCasts(StripPointerCasts(c)) == StripPointerCasts(c)
    ensures StripPointerCasts(PointerCast(c)) == StripPointerCasts(c)
  {
  }

  /** `getName()`: globals are named, constant expressions are not. */
  function ValueName(c: Constant): string {
    match c
    case GlobalValue(name) => name
    case SignedPointerGlobal(_, name) => name
    case _ => ""
  }

  /** The name a signed-pointer global is derived from: the global itself,
      or the base pointer of a getelementptr expression, else empty. */
  function BaseName(stripped: Constant): string {
    match stripped
    case GlobalValue(name) => name
    case SignedPointerGlobal(_, name) => name
    case GetElementPtr(base, _) => ValueName(base)
    case _ => ""
  }

  const PtrAuthSuffix := ".ptrauth"
  const PtrAuthSection := "llvm.ptrauth"

  /** A global built for one signed constant. */
  datatype SignedGlobal = SignedGlobal(name: string, section: string, isConstant: bool, init: seq<Constant>)

  /** An integer-constant storage address is a special indicator and must
      not be zero, which is what an absent address is stored as. */
  predicate ValidStorageAddress(storageAddress: Option<Constant>) {
    storageAddress.Some? && storageAddress.value.ConstantInt? ==> storageAddress.value.value != 0
  }

  /** Field 3: the storage address, as itself when it is an integer
      indicator and through ptrtoint otherwise; 0 when absent. */
  function StorageField(storageAddress: Option<Constant>): Constant {
    match storageAddress
    case None => ConstantInt(0)
    case Some(a) => if a.ConstantInt? then a else PtrToInt(a)
  }

  /** Field 4: the discriminator, or 0 when absent. */
  function DiscriminatorField(otherDiscriminator: Option<Constant>): Constant {
    otherDiscriminator.GetOr(ConstantInt(0))
  }

  /** What a signed-pointer record asks the back end to sign. */
  datatype SigningRequest = SigningRequest(
    pointer: Constant, key: Unsigned, storageAddress: Option<Constant>, discriminator: Constant)

  /** Reads the four fields of a signed-pointer record back; None for a
      sequence that no record has. */
  function ReadSigningRecord(init: seq<Constant>): Option<SigningRequest> {
    if |init| != 4 then Option.None
    else if !init[1].ConstantInt? || !(0 <= init[1].value < 0x1_0000_0000) then Option.None
    else
      var storage :=
        match init[2]
        case ConstantInt(v) => if v == 0 then Some(Option.None) else Some(Some(init[2]))
        case PtrToInt(a) => Some(Some(a))
        case _ => Option.None;
      match storage
      case None => Option.None
      case Some(s) => Some(SigningRequest(init[0], init[1].value, s, init[3]))
  }

  /** `buildConstantSignedPointer`: a record of exactly four fields, in the
      order pointer, key as i32, storage address, discriminator, placed in a
      constant global named after the pointer, with its casts stripped, and
      ".ptrauth" appended. */
  function BuildConstantSignedPointer(pointer: Constant, key: Unsigned, storageAddress: Option<Constant>,
                                      otherDiscriminator: Option<Constant>): (g: SignedGlobal)
    requires ValidStorageAddress(storageAddress)
    ensures |g.init| == 4 && g.init[0] == pointer && g.init[1] == ConstantInt(key)
    ensures ReadSigningRecord(g.init)
            == Some(SigningRequest(pointer, key, storageAddress, DiscriminatorField(otherDiscriminator)))
    ensures g.name == BaseName(StripPointerCasts(pointer)) + PtrAuthSuffix
    ensures g.section == PtrAuthSection && g.isConstant
  {
    var init := [pointer, ConstantInt(key), StorageField(storageAddress), DiscriminatorField(otherDiscriminator)];
    SignedGlobal(BaseName(StripPointerCasts(pointer)) + PtrAuthSuffix, PtrAuthSection, true, init)
  }

  /** Why the indicator must be non-zero: a zero indicator would build the
      same record as no storage address at all.  Likewise an absent
      discriminator and a zero one build the same record. */
  lemma ZeroFieldsCoincide(pointer: Constant, key: Unsigned, storageAddress: Option<Constant>)
    requires ValidStorageAddress(storageAddress)
    ensures StorageField(Some(ConstantInt(0))) == StorageField(Option.None)
    ensures BuildConstantSignedPointer(pointer, key, storageAddress, Option.None)
         == BuildConstantSignedPointer(pointer, key, storageAddress, Some(ConstantInt(0)))
  {
  }

  /** One cached signing of a pointer. */
  datatype Entry = Entry(key: Unsigned, otherDiscriminator: Option<Constant>, global: nat)

  /** The by-constant cache: signings keyed by the stripped pointer. */
  type Cache = map<Constant, seq<Entry>>

  /** The part of CodeGenModule this code touches: the abstract cache
      storage (None for a null pointer) and the globals built so far, each
      identified by its position. */
  datatype CodeGenModule = CodeGenModule(cacheStorage: Option<Cache>, globals: seq<SignedGlobal>)

  /** `getOrCreateCache`: the storage and the cache it now refers to.  A new,
      empty cache is allocated only when the storage is empty. */
  function GetOrCreateCache(storage: Option<Cache>): (r: (Option<Cache>, Cache))
    ensures r.0 == Some(r.1)
    ensures storage.Some? ==> r == (storage, storage.value)
    ensures storage.None? ==> r.1 == map[]
  {
    match storage
    case Some(cache) => (storage, cache)
    case None => (Some(map[]), map[])
  }

  /** `destroyConstantSignedPointerCaches`: the storage is reset to empty
      and nothing else changes. */
  function DestroyConstantSignedPointerCaches(m: CodeGenModule): (r: CodeGenModule)
    ensures r.cacheStorage.None? && r.globals == m.globals
  {
    m.(cacheStorage := Option.None)
  }

  /** A request can be cached when it has no storage address and its
      discriminator is absent or an integer constant. */
  predicate IsCacheable(storageAddress: Option<Constant>, otherDiscriminator: Option<Constant>) {
    storageAddress.None? && (otherDiscriminator.None? || otherDiscriminator.value.ConstantInt?)
  }

  /** `cache[stripped]`: the entries of a pointer, empty when it has none. */
  function EntriesOf(cache: Cache, stripped: Constant): seq<Entry> {
    if stripped in cache then cache[stripped] else []
  }

  predicate Matches(e: Entry, key: Unsigned, otherDiscriminator: Option<Constant>) {
    e.key == key && e.otherDiscriminator == otherDiscriminator
  }

  /** The position of the first entry with the same key and the identical
      discriminator. */
  function FindEntry(entries: seq<Entry>, key: Unsigned, otherDiscriminator: Option<Constant>): (r: Option<nat>)
    ensures r.Some? ==> r.value < |entries| && Matches(entries[r.value], key, otherDiscriminator)
    ensures r.Some? ==> forall j :: 0 <= j < r.value ==> !Matches(entries[j], key, otherDiscriminator)
    ensures r.None? <==> forall j :: 0 <= j < |entries| ==> !Matches(entries[j], key, otherDiscriminator)
  {
    if |entries| == 0 then Option.None
    else if Matches(entries[0], key, otherDiscriminator) then Some(0)
    else match FindEntry(entries[1..], key, otherDiscriminator)
      case None => Option.None
      case Some(i) => Some(i + 1)
  }

  /** The search loop over a pointer's entries. */
  method FindCachedEntry(entries: seq<Entry>, key: Unsigned, otherDiscriminator: Option<Constant>)
    returns (found: Option<nat>)
    ensures found == FindEntry(entries, key, otherDiscriminator)
  {
    var i := 0;
    while i < |entries|
      invariant 0 <= i <= |entries|
      invariant forall j :: 0 <= j < i ==> !Matches(entries[j], key, otherDiscriminator)
    {
      if entries[i].key == key && entries[i].otherDiscriminator == otherDiscriminator {
        return Some(i);
      }
      i := i + 1;
    }
    return Option.None;
  }

  /** The module after a request, and the position of the global that
      signs the pointer. */
  datatype Signed = Signed(state: CodeGenModule, global: nat)

  /** `CodeGenModule::getConstantSignedPointer`.  A cacheable request looks
      for an entry with the same key and discriminator among the stripped
      pointer's entries and returns its global; on a miss, and for every
      request that cannot be cached, it builds a new global, and a
      cacheable miss records it. */
  function GetConstantSignedPointer(m: CodeGenModule, pointer: Constant, key: Unsigned,
                                    storageAddress: Option<Constant>,
                                    otherDiscriminator: Option<Constant>): (r: Signed)
    requires ValidStorageAddress(storageAddress)
    ensures m.globals <= r.state.globals && |r.state.globals| <= |m.globals| + 1
    ensures !IsCacheable(storageAddress, otherDiscriminator) ==>
      r.state.cacheStorage == m.cacheStorage && r.global == |m.globals| && |r.state.globals| == |m.globals| + 1
    ensures IsCacheable(storageAddress, otherDiscriminator) ==> r.state.cacheStorage.Some?
    ensures |r.state.globals| == |m.globals| + 1 ==>
      r.global == |m.globals|
      && r.state.globals[r.global]
         == BuildConstantSignedPointer(StripPointerCasts(pointer), key, storageAddress, otherDiscriminator)
  {
    var stripped := StripPointerCasts(pointer);
    if IsCacheable(storageAddress, otherDiscriminator) then
      var (storage, cache) := GetOrCreateCache(m.cacheStorage);
      var entries := EntriesOf(cache, stripped);
      match FindEntry(entries, key, otherDiscriminator)
      case Some(i) => Signed(m.(cacheStorage := storage), entries[i].global)
      case None =>
        var g := |m.globals|;
        var built := BuildConstantSignedPointer(stripped, key, storageAddress, otherDiscriminator);
        Signed(CodeGenModule(Some(cache[stripped := entries + [Entry(key, otherDiscriminator, g)]]),
                             m.globals + [built]), g)
    else
      var built := BuildConstantSignedPointer(stripped, key, storageAddress, otherDiscriminator);
      Signed(m.(globals := m.globals + [built]), |m.globals|)
  }

  /** The constant a request evaluates to: a reference to the global, cast
      back to the pointer's type. */
  function SignedReference(r: Signed): Constant
    requires r.global < |r.state.globals|
  {
    SignedPointerGlobal(r.global, r.state.globals[r.global].name)
  }

  function CacheOf(m: CodeGenModule): Cache {
    m.cacheStorage.GetOr(map[])
  }

  /** A cached entry refers to a global that is exactly what building the
      cached request would produce. */
  predicate EntrySound(globals: seq<SignedGlobal>, stripped: Constant, e: Entry) {
    && e.global < |globals|
    && IsCacheable(Option.None, e.otherDiscriminator)
    && globals[e.global] == BuildConstantSignedPointer(stripped, e.key, Option.None, e.otherDiscriminator)
  }

  /** The memoisation invariant: every cached entry is sound. */
  ghost predicate CacheSound(m: CodeGenModule) {
    forall p, i :: p in CacheOf(m) && 0 <= i < |CacheOf(m)[p]| ==> EntrySound(m.globals, p, CacheOf(m)[p][i])
  }

  /** A fresh module, and one whose cache was destroyed, are sound. */
  lemma EmptyCacheSound(globals: seq<SignedGlobal>)
    ensures CacheSound(CodeGenModule(Option.None, globals))
    ensures CacheSound(CodeGenModule(Some(map[]), globals))
  {
  }

  /** Entries stay sound as the global list grows. */
  lemma EntrySoundGrows(globals: seq<SignedGlobal>, more: seq<SignedGlobal>, p: Constant, e: Entry)
    requires EntrySound(globals, p, e)
    ensures EntrySound(globals + more, p, e)
  {
  }

  /** Memoisation is transparent: from a sound cache every request, hit or
      miss, yields a global equal to a freshly built one, and leaves the
      cache sound. */
  lemma {:induction false} GetConstantSignedPointerTransparent(m: CodeGenModule, pointer: Constant, key: Unsigned,
                                                               storageAddress: Option<Constant>,
                                                               otherDiscriminator: Option<Constant>)
    requires ValidStorageAddress(storageAddress)
    requires CacheSound(m)
    ensures var r := GetConstantSignedPointer(m, pointer, key, storageAddress, otherDiscriminator);
            && r.global < |r.state.globals|
            && r.state.globals[r.global]
               == BuildConstantSignedPointer(StripPointerCasts(pointer), key, storageAddress, otherDiscriminator)
            && CacheSound(r.state)
  {
    var r := GetConstantSignedPointer(m, pointer, key, storageAddress, otherDiscriminator);
    var stripped := StripPointerCasts(pointer);
    if IsCacheable(storageAddress, otherDiscriminator) {
      var cache := CacheOf(m);
      var entries := EntriesOf(cache, stripped);
      match FindEntry(entries, key, otherDiscriminator)
      case Some(i) =>
        assert EntrySound(m.globals, stripped, cache[stripped][i]);
        assert CacheOf(r.state) == cache;
      case None =>
        var built := BuildConstantSignedPointer(stripped, key, storageAddress, otherDiscriminator);
        var cache' := CacheOf(r.state);
        assert cache' == cache[stripped := entries + [Entry(key, otherDiscriminator, |m.globals|)]];
        assert r.state.globals == m.globals + [built];
        forall p, i | p in cache' && 0 <= i < |cache'[p]|
          ensures EntrySound(r.state.globals, p, cache'[p][i])
        {
          if p == stripped && i == |entries| {
          } else {
            assert cache'[p][i] == cache[p][i];
            EntrySoundGrows(m.globals, [built], p, cache[p][i]);
          }
        }
    } else {
      var built := BuildConstantSignedPointer(stripped, key, storageAddress, otherDiscriminator);
      forall p, i | p in CacheOf(r.state) && 0 <= i < |CacheOf(r.state)[p]|
        ensures EntrySound(r.state.globals, p, CacheOf(r.state)[p][i])
      {
        EntrySoundGrows(m.globals, [built], p, CacheOf(m)[p][i]);
      }
    }
  }

  /** A cacheable miss appends exactly one entry, for the request, to the
      stripped pointer's list and touches no other list. */
  lemma CacheableMissAppendsOne(m: CodeGenModule, pointer: Constant, key: Unsigned, otherDiscriminator: Option<Constant>)
    requires IsCacheable(Option.None, otherDiscriminator)
    requires FindEntry(EntriesOf(CacheOf(m), StripPointerCasts(pointer)), key, otherDiscriminator).None?
    ensures var r := GetConstantSignedPointer(m, pointer, key, Option.None, otherDiscriminator);
            var stripped := StripPointerCasts(pointer);
            && r.global == |m.globals| && |r.state.globals| == |m.globals| + 1
            && EntriesOf(CacheOf(r.state), stripped)
               == EntriesOf(CacheOf(m), stripped) + [Entry(key, otherDiscriminator, r.global)]
            && forall p :: p != stripped ==> EntriesOf(CacheOf(r.state), p) == EntriesOf(CacheOf(m), p)
  {
  }

  /** A cacheable hit changes nothing and returns the first matching
      entry's global. */
  lemma CacheableHitUnchanged(m: CodeGenModule, pointer: Constant, key: Unsigned, otherDiscriminator: Option<Constant>)
    requires IsCacheable(Option.None, otherDiscriminator)
    requires FindEntry(EntriesOf(CacheOf(m), StripPointerCasts(pointer)), key, otherDiscriminator).Some?
    ensures var r := GetConstantSignedPointer(m, pointer, key, Option.None, otherDiscriminator);
            var entries := EntriesOf(CacheOf(m), StripPointerCasts(pointer));
            && r.state == m
            && r.global == entries[FindEntry(entries, key, otherDiscriminator).value].global
  {
  }

  /** Idempotence: repeating a cacheable request, through the same pointer
      or through any cast of it, returns the same global and changes
      nothing. */
  lemma {:induction false} GetConstantSignedPointerIdempotent(m: CodeGenModule, pointer: Constant, pointer': Constant,
                                                              key: Unsigned, otherDiscriminator: Option<Constant>)
    requires IsCacheable(Option.None, otherDiscriminator)
    requires StripPointerCasts(pointer') == StripPointerCasts(pointer)
    ensures var r1 := GetConstantSignedPointer(m, pointer, key, Option.None, otherDiscriminator);
            var r2 := GetConstantSignedPointer(r1.state, pointer', key, Option.None, otherDiscriminator);
            r2 == r1
  {
    var r1 := GetConstantSignedPointer(m, pointer, key, Option.None, otherDiscriminator);
    var stripped := StripPointerCasts(pointer);
    var entries := EntriesOf(CacheOf(m), stripped);
    match FindEntry(entries, key, otherDiscriminator)
    case Some(i) =>
      CacheableHitUnchanged(m, pointer, key, otherDiscriminator);
    case None =>
      CacheableMissAppendsOne(m, pointer, key, otherDiscriminator);
      var entries' := EntriesOf(CacheOf(r1.state), stripped);
      assert entries' == entries + [Entry(key, otherDiscriminator, r1.global)];
      assert Matches(entries'[|entries|], key, otherDiscriminator);
      assert FindEntry(entries', key, otherDiscriminator) == Some(|entries|);
      CacheableHitUnchanged(r1.state, pointer', key, otherDiscriminator);
  }

  /** A request that cannot be cached neither reads nor writes the cache:
      its result is the same whatever the cache holds. */
  lemma NonCacheableIgnoresCache(m: CodeGenModule, other: Option<Cache>, pointer: Constant, key: Unsigned,
                                 storageAddress: Option<Constant>, otherDiscriminator: Option<Constant>)
    requires ValidStorageAddress(storageAddress)
    requires !IsCacheable(storageAddress, otherDiscriminator)
    ensures var r := GetConstantSignedPointer(m, pointer, key, storageAddress, otherDiscriminator);
            var r' := GetConstantSignedPointer(m.(cacheStorage := other), pointer, key, storageAddress, otherDiscriminator);
            r'.global == r.global && r'.state == r.state.(cacheStorage := other)
  {
  }

  /** The aggregate being built, as the sequence of its fields. */
  datatype AggregateBuilder = AggregateBuilder(fields: seq<Constant>)

  /** `ConstantAggregateBuilderBase::addSignedPointer`: signs the pointer,
      with the address of the field being added as storage address exactly
      when address discrimination is asked for, and adds the signed
      constant as the next field.  `currentPosition` stands for the
      placeholder that `getAddrOfCurrentPosition` returns. */
  function AddSignedPointer(m: CodeGenModule, b: AggregateBuilder, currentPosition: Constant,
                            pointer: Constant, key: Unsigned, useAddressDiscrimination: bool,
                            otherDiscriminator: Option<Constant>): (r: (CodeGenModule, AggregateBuilder))
    requires useAddressDiscrimination ==> ValidStorageAddress(Some(currentPosition))
    ensures |r.1.fields| == |b.fields| + 1 && r.1.fields[..|b.fields|] == b.fields
    ensures r.1.fields[|b.fields|].SignedPointerGlobal?
    ensures useAddressDiscrimination ==> r.0.cacheStorage == m.cacheStorage && |r.0.globals| == |m.globals| + 1
  {
    var storageAddress := if useAddressDiscrimination then Some(currentPosition) else Option.None;
    var s := GetConstantSignedPointer(m, pointer, key, storageAddress, otherDiscriminator);
    var field := if s.global < |s.state.globals| then SignedReference(s) else SignedPointerGlobal(s.global, "");
    (s.state, AggregateBuilder(b.fields + [field]))
  }

  /** The signed field added by addSignedPointer records the field's own
      address as storage address exactly when address discrimination is
      used. */
  lemma AddSignedPointerStorage(m: CodeGenModule, b: AggregateBuilder, currentPosition: Constant,
                                pointer: Constant, key: Unsigned, useAddressDiscrimination: bool,
                                otherDiscriminator: Option<Constant>)
    requires useAddressDiscrimination ==> ValidStorageAddress(Some(currentPosition))
    requires CacheSound(m)
    ensures var r := AddSignedPointer(m, b, currentPosition, pointer, key, useAddressDiscrimination, otherDiscriminator);
            var g := r.1.fields[|b.fields|].index;
            && g < |r.0.globals|
            && ReadSigningRecord(r.0.globals[g].init)
               == Some(SigningRequest(StripPointerCasts(pointer), key,
                                      if useAddressDiscrimination then Some(currentPosition) else Option.None,
                                      DiscriminatorField(otherDiscriminator)))
            && CacheSound(r.0)
  {
    var storageAddress := if useAddressDiscrimination then Some(currentPosition) else Option.None;
    GetConstantSignedPointerTransparent(m, pointer, key, storageAddress, otherDiscriminator);
  }
}
