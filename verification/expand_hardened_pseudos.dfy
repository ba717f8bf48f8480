/** The AArch64 pass that expands hardened pseudo-instructions
    (AArch64ExpandHardenedPseudos.cpp).  Its one expansion turns the
    jump-table dispatch pseudo BR_JumpTable into a sequence that clamps the
    index to the table before loading the entry, so that an out-of-range
    index dispatches through entry 0 instead of reading outside the table.

    Register values are 64-bit unsigned integers; every operation that can
    leave that range wraps explicitly modulo 2^64. */
module ExpandHardenedPseudos {
  import opened Wrappers

  const U64Modulus: int := 0x1_0000_0000_0000_0000

  type U64 = x: int | 0 <= x < 0x1_0000_0000_0000_0000
  type U32 = x: int | 0 <= x < 0x1_0000_0000
  type U16 = x: int | 0 <= x < 0x1_0000

  /** uint64 arithmetic: the value modulo 2^64. */
  function Wrap(x: int): (r: U64)
    ensures 0 <= x < U64Modulus ==> r == x
  {
    x % U64Modulus
  }

  datatype Reg = X16 | X17 | XZR

  datatype CondCode = LS

  /** The machine instructions the expansion emits, with the operands it
      gives them; every shift or extend operand the expansion passes as 0
      is left implicit. */
  datatype Instr =
    | BR_JumpTable(jti: nat)                        // the pseudo: dispatch through table jti on X16
    | SUBSXri(rn: Reg, imm: U64)                    // subs xzr, rn, #imm
    | MOVZXi(rd: Reg, imm16: U16, shift: nat)       // movz rd, #imm16, lsl #shift
    | MOVKXi(rd: Reg, imm16: U16, shift: nat)       // movk rd, #imm16, lsl #shift
    | SUBSXrs(rn: Reg, rm: Reg)                     // subs xzr, rn, rm
    | CSELXr(rd: Reg, rn: Reg, rm: Reg, cc: CondCode) // csel rd, rn, rm, cc
    | ADRP(rd: Reg, jti: nat)                       // adrp rd, table@PAGE
    | ADDXri(rd: Reg, rn: Reg, jti: nat)            // add rd, rn, table@PAGEOFF
    | LDRSWroX(rd: Reg, rn: Reg, rm: Reg)           // ldrsw rd, [rn, rm, lsl #2]
    | ADDXrs(rd: Reg, rn: Reg, rm: Reg)             // add rd, rn, rm
    | BR(rn: Reg)                                   // br rn
    | Other(opcode: nat)                            // any other instruction

  // ---------------------------------------------------------------------
  // The expansion

  /** `static_cast<uint16_t>`: the low 16 bits. */
  function Low16(v: U64): U16 {
    v % 0x1_0000
  }

  /** `isUInt<12>`: fits the 12-bit immediate of a compare. */
  predicate IsUInt12(v: U64) {
    v < 0x1000
  }

  /** The value shifted right by `chunk` 16-bit chunks (`>> 16 * chunk`). */
  function Above(v: U64, chunk: nat): U64
    requires chunk <= 4
  {
    if chunk == 0 then v
    else if chunk == 1 then v / 0x1_0000
    else if chunk == 2 then v / 0x1_0000_0000
    else if chunk == 3 then v / 0x1_0000_0000_0000
    else 0
  }

  /** The MOVK loop from offset `16 * chunk` on: one MOVK per 16-bit chunk
      while the value shifted right by the chunk's offset is non-zero,
      stopping below offset 64.  Its closed form: the chunks in increasing
      order, each inserting its own 16 bits, exactly as long as bits
      remain. */
  function MovKChain(maxEntry: U64, chunk: nat): (r: seq<Instr>)
    requires 1 <= chunk <= 4
    decreases 4 - chunk
    ensures chunk + |r| <= 4
    ensures forall k :: 0 <= k < |r| ==>
      r[k] == MOVKXi(X17, Low16(Above(maxEntry, chunk + k)), 16 * (chunk + k))
    ensures forall j :: chunk <= j < chunk + |r| ==> Above(maxEntry, j) != 0
    ensures chunk + |r| < 4 ==> Above(maxEntry, chunk + |r|) == 0
  {
    if chunk == 4 || Above(maxEntry, chunk) == 0 then []
    else [MOVKXi(X17, Low16(Above(maxEntry, chunk)), 16 * chunk)] + MovKChain(maxEntry, chunk + 1)
  }

  /** The bounds compare against `maxEntry`: a single immediate compare
      when it fits 12 bits, otherwise MOVZ/MOVK into X17 and a register
      compare. */
  function CompareSequence(maxEntry: U64): seq<Instr> {
    if IsUInt12(maxEntry) then [SUBSXri(X16, maxEntry)]
    else [MOVZXi(X17, Low16(maxEntry), 0)] + MovKChain(maxEntry, 1) + [SUBSXrs(X16, X17)]
  }

  /** The clamp: X16 is kept when the compare found it lower than or equal
      to the maximum entry, replaced by XZR otherwise. */
  function ClampSequence(): seq<Instr> {
    [CSELXr(X16, X16, XZR, LS)]
  }

  /** The table's address into X17, as page plus offset in page. */
  function TableAddressSequence(jti: nat): seq<Instr> {
    [ADRP(X17, jti), ADDXri(X17, X17, jti)]
  }

  /** The entry load, the target computation and the branch. */
  function EntryBranchSequence(): seq<Instr> {
    [LDRSWroX(X16, X17, X16), ADDXrs(X16, X17, X16), BR(X16)]
  }

  /** Clamp, table address, entry load, target computation and branch. */
  function DispatchSequence(jti: nat): seq<Instr> {
    ClampSequence() + TableAddressSequence(jti) + EntryBranchSequence()
  }

  /** `MaxTableEntry = NumTableEntries - 1`, computed in uint64 and so
      2^64 - 1 for an empty table. */
  function MaxTableEntry(numEntries: U64): U64 {
    Wrap(numEntries - 1)
  }

  /** `MaxTableEntry` undoes the table size: adding one back in uint64
      gives the size, and for a non-empty table it is the last index. */
  lemma MaxTableEntryInverse(numEntries: U64)
    ensures Wrap(MaxTableEntry(numEntries) + 1) == numEntries
    ensures numEntries >= 1 ==> MaxTableEntry(numEntries) == numEntries - 1
    ensures numEntries == 0 ==> MaxTableEntry(numEntries) == U64Modulus - 1
  {
  }

  /** The replacement of `BR_JumpTable` for a table of `numEntries`
      entries. */
  function ExpandJumpTable(numEntries: U64, jti: nat): seq<Instr> {
    CompareSequence(MaxTableEntry(numEntries)) + DispatchSequence(jti)
  }

  /** The shape of the expansion: an immediate compare exactly when the
      maximum entry fits 12 bits; otherwise MOVZ, at most three MOVKs at
      increasing multiples of 16 below 64, and a register compare; then
      the fixed dispatch tail. */
  lemma ExpansionShape(numEntries: U64, jti: nat)
    ensures var e := ExpandJumpTable(numEntries, jti);
            var maxEntry := MaxTableEntry(numEntries);
            && e[|e| - 6..] == DispatchSequence(jti)
            && (IsUInt12(maxEntry) <==> |e| == 7 && e[0] == SUBSXri(X16, maxEntry))
            && (!IsUInt12(maxEntry) ==>
                  && 8 <= |e| <= 11
                  && e[0] == MOVZXi(X17, Low16(maxEntry), 0)
                  && e[|e| - 7] == SUBSXrs(X16, X17)
                  && (forall k :: 1 <= k < |e| - 7 ==> e[k].MOVKXi? && e[k].shift == 16 * k)
                  && (forall k, l :: 1 <= k < l < |e| - 7 ==> e[k].shift < e[l].shift))
  {
    var maxEntry := MaxTableEntry(numEntries);
    var e := ExpandJumpTable(numEntries, jti);
    if !IsUInt12(maxEntry) {
      var chain := MovKChain(maxEntry, 1);
      assert e == [MOVZXi(X17, Low16(maxEntry), 0)] + chain + [SUBSXrs(X16, X17)] + DispatchSequence(jti);
      forall k | 1 <= k < |e| - 7 ensures e[k].MOVKXi? && e[k].shift == 16 * k {
        assert e[k] == chain[k - 1];
      }
    }
  }

  /** The expansion emits no BR_JumpTable of its own. */
  lemma ExpansionHasNoPseudo(numEntries: U64, jti: nat)
    ensures forall k :: 0 <= k < |ExpandJumpTable(numEntries, jti)| ==> !ExpandJumpTable(numEntries, jti)[k].BR_JumpTable?
  {
    var maxEntry := MaxTableEntry(numEntries);
    var cmp := CompareSequence(maxEntry);
    assert forall k :: 0 <= k < |cmp| ==> !cmp[k].BR_JumpTable? by {
      if !IsUInt12(maxEntry) {
        var chain := MovKChain(maxEntry, 1);
        assert cmp == [MOVZXi(X17, Low16(maxEntry), 0)] + chain + [SUBSXrs(X16, X17)];
      }
    }
  }

  // ---------------------------------------------------------------------
  // A 64-bit semantics of the emitted instructions

  /** The registers the expansion uses, the Z and C flags, the addresses
      loaded from, and the branch target once the branch is taken. */
  datatype Machine = Machine(x16: U64, x17: U64, z: bool, c: bool,
                             loads: seq<U64>, branchTarget: Option<U64>)

  /** The addresses of the jump tables and the 32-bit words in memory. */
  datatype Env = Env(tableAddress: nat -> U64, memory: U64 -> U32)

  function Read(m: Machine, r: Reg): U64 {
    match r
    case X16 => m.x16
    case X17 => m.x17
    case XZR => 0
  }

  function Write(m: Machine, r: Reg, v: U64): Machine {
    match r
    case X16 => m.(x16 := v)
    case X17 => m.(x17 := v)
    case XZR => m
  }

  /** SUBS into XZR: Z when equal, C when no borrow (unsigned a >= b). */
  function Compare(m: Machine, a: U64, b: U64): Machine {
    m.(z := a == b, c := a >= b)
  }

  /** Condition LS: C clear or Z set, i.e. unsigned lower or same. */
  predicate Holds(m: Machine, cc: CondCode) {
    !m.c || m.z
  }

  /** A 32-bit word sign-extended to 64 bits. */
  function SignExtend(w: U32): U64 {
    if w < 0x8000_0000 then w else w + 0xFFFF_FFFF_0000_0000
  }

  predicate IsMoveShift(shift: nat) {
    shift == 0 || shift == 16 || shift == 32 || shift == 48
  }

  /** `imm16 << shift`, the value MOVZ writes. */
  function Place(imm16: U16, shift: nat): U64
    requires IsMoveShift(shift)
  {
    if shift == 0 then imm16
    else if shift == 16 then imm16 * 0x1_0000
    else if shift == 32 then imm16 * 0x1_0000_0000
    else imm16 * 0x1_0000_0000_0000
  }

  /** `x` with bits shift..shift+15 replaced by `imm16`, what MOVK writes:
      the bits above, the new chunk, the bits below. */
  function Insert(x: U64, imm16: U16, shift: nat): U64
    requires IsMoveShift(shift)
  {
    if shift == 0 then (x / 0x1_0000) * 0x1_0000 + imm16
    else if shift == 16 then (x / 0x1_0000_0000) * 0x1_0000_0000 + imm16 * 0x1_0000 + x % 0x1_0000
    else if shift == 32 then
      (x / 0x1_0000_0000_0000) * 0x1_0000_0000_0000 + imm16 * 0x1_0000_0000 + x % 0x1_0000_0000
    else imm16 * 0x1_0000_0000_0000 + x % 0x1_0000_0000_0000
  }

  /** One instruction; None for an unencodable operand or an instruction
      this semantics does not cover. */
  function Step(env: Env, m: Machine, i: Instr): Option<Machine> {
    match i
    case SUBSXri(rn, imm) =>
      if IsUInt12(imm) then Some(Compare(m, Read(m, rn), imm)) else Option.None
    case SUBSXrs(rn, rm) => Some(Compare(m, Read(m, rn), Read(m, rm)))
    case MOVZXi(rd, imm16, shift) =>
      if IsMoveShift(shift) then Some(Write(m, rd, Place(imm16, shift))) else Option.None
    case MOVKXi(rd, imm16, shift) =>
      if IsMoveShift(shift) then Some(Write(m, rd, Insert(Read(m, rd), imm16, shift))) else Option.None
    case CSELXr(rd, rn, rm, cc) =>
      Some(Write(m, rd, if Holds(m, cc) then Read(m, rn) else Read(m, rm)))
    case ADRP(rd, jti) =>
      var address := env.tableAddress(jti);
      Some(Write(m, rd, address - address % 0x1000))
    case ADDXri(rd, rn, jti) => Some(Write(m, rd, Wrap(Read(m, rn) + env.tableAddress(jti) % 0x1000)))
    case LDRSWroX(rd, rn, rm) =>
      var address := Wrap(Read(m, rn) + 4 * Read(m, rm));
      Some(Write(m.(loads := m.loads + [address]), rd, SignExtend(env.memory(address))))
    case ADDXrs(rd, rn, rm) => Some(Write(m, rd, Wrap(Read(m, rn) + Read(m, rm))))
    case BR(rn) => Some(m.(branchTarget := Some(Read(m, rn))))
    case BR_JumpTable(_) => Option.None
    case Other(_) => Option.None
  }

  function Run(env: Env, m: Machine, code: seq<Instr>): Option<Machine>
    decreases |code|
  {
    if |code| == 0 then Some(m)
    else match Step(env, m, code[0])
      case None => Option.None
      case Some(m') => Run(env, m', code[1..])
  }

  lemma {:induction false} RunAppend(env: Env, m: Machine, a: seq<Instr>, b: seq<Instr>)
    ensures Run(env, m, a + b) == (match Run(env, m, a) case None => Option.None case Some(m') => Run(env, m', b))
    decreases |a|
  {
    if |a| == 0 {
      assert a + b == b;
    } else {
      assert (a + b)[1..] == a[1..] + b;
      match Step(env, m, a[0])
      case None =>
      case Some(m') => RunAppend(env, m', a[1..], b);
    }
  }

  /** The bits of a value below offset `16 * chunk`. */
  function LowBits(v: U64, chunk: nat): U64
    requires chunk <= 4
  {
    if chunk == 0 then 0
    else if chunk == 1 then v % 0x1_0000
    else if chunk == 2 then v % 0x1_0000_0000
    else if chunk == 3 then v % 0x1_0000_0000_0000
    else v
  }

  lemma InsertChunk1(v: U64)
    ensures Insert(v % 0x1_0000, (v / 0x1_0000) % 0x1_0000, 16) == v % 0x1_0000_0000
  {
  }

  lemma InsertChunk2(v: U64)
    ensures Insert(v % 0x1_0000_0000, (v / 0x1_0000_0000) % 0x1_0000, 32) == v % 0x1_0000_0000_0000
  {
  }

  lemma InsertChunk3(v: U64)
    ensures Insert(v % 0x1_0000_0000_0000, (v / 0x1_0000_0000_0000) % 0x1_0000, 48) == v
  {
  }

  /** A MOVK of the chunk at `chunk` extends the low bits already in
      place by that chunk. */
  lemma MovKInsertsChunk(maxEntry: U64, chunk: nat)
    requires 1 <= chunk <= 3
    ensures Insert(LowBits(maxEntry, chunk), Low16(Above(maxEntry, chunk)), 16 * chunk)
            == LowBits(maxEntry, chunk + 1)
  {
    if chunk == 1 {
      InsertChunk1(maxEntry);
    } else if chunk == 2 {
      InsertChunk2(maxEntry);
    } else {
      InsertChunk3(maxEntry);
    }
  }

  /** No bits at or above the chunk means the low bits are the value. */
  lemma NoHighBits(maxEntry: U64, chunk: nat)
    requires 1 <= chunk <= 3
    requires Above(maxEntry, chunk) == 0
    ensures LowBits(maxEntry, chunk) == maxEntry
  {
  }

  /** Each MOVK of the chain fills in its chunk, so once the chain stops
      X17 holds the whole value; nothing else changes. */
  lemma {:induction false} MovKChainCompletes(env: Env, maxEntry: U64, chunk: nat, m: Machine)
    requires 1 <= chunk <= 4
    requires m.x17 == LowBits(maxEntry, chunk)
    ensures Run(env, m, MovKChain(maxEntry, chunk)) == Some(m.(x17 := maxEntry))
    decreases 4 - chunk
  {
    var chain := MovKChain(maxEntry, chunk);
    if chunk == 4 {
    } else if Above(maxEntry, chunk) == 0 {
      NoHighBits(maxEntry, chunk);
    } else {
      MovKInsertsChunk(maxEntry, chunk);
      var m' := m.(x17 := LowBits(maxEntry, chunk + 1));
      assert Step(env, m, chain[0]) == Some(m');
      assert chain[1..] == MovKChain(maxEntry, chunk + 1);
      MovKChainCompletes(env, maxEntry, chunk + 1, m');
    }
  }

  /** The MOVZ/MOVK sequence leaves exactly `maxEntry` in X17. */
  lemma MaterializationExact(env: Env, maxEntry: U64, m: Machine)
    ensures Run(env, m, [MOVZXi(X17, Low16(maxEntry), 0)] + MovKChain(maxEntry, 1))
            == Some(m.(x17 := maxEntry))
  {
    var m' := m.(x17 := LowBits(maxEntry, 1));
    assert Step(env, m, MOVZXi(X17, Low16(maxEntry), 0)) == Some(m');
    RunAppend(env, m, [MOVZXi(X17, Low16(maxEntry), 0)], MovKChain(maxEntry, 1));
    MovKChainCompletes(env, maxEntry, 1, m');
  }

  /** The index the CSEL leaves in X16: the original one when it is
      unsigned lower than or equal to `maxEntry`, 0 otherwise. */
  function Clamp(index: U64, maxEntry: U64): U64 {
    if index <= maxEntry then index else 0
  }

  /** The compare sets the flags from X16 against `maxEntry`, touching
      only X17 besides. */
  lemma CompareSetsFlags(env: Env, maxEntry: U64, m: Machine)
    ensures var r := Run(env, m, CompareSequence(maxEntry));
            && r.Some?
            && r.value.x16 == m.x16 && r.value.loads == m.loads && r.value.branchTarget == m.branchTarget
            && r.value.c == (m.x16 >= maxEntry) && r.value.z == (m.x16 == maxEntry)
  {
    var cmp := CompareSequence(maxEntry);
    if IsUInt12(maxEntry) {
      assert Run(env, m, cmp) == Some(Compare(m, m.x16, maxEntry));
    } else {
      var movs := [MOVZXi(X17, Low16(maxEntry), 0)] + MovKChain(maxEntry, 1);
      MaterializationExact(env, maxEntry, m);
      RunAppend(env, m, movs, [SUBSXrs(X16, X17)]);
      assert cmp == movs + [SUBSXrs(X16, X17)];
      assert Run(env, m, cmp) == Some(Compare(m.(x17 := maxEntry), m.x16, maxEntry));
    }
  }

  /** CSEL on LS after that compare performs the clamp. */
  lemma SelectClamps(env: Env, maxEntry: U64, m: Machine)
    requires m.c == (m.x16 >= maxEntry) && m.z == (m.x16 == maxEntry)
    ensures Step(env, m, CSELXr(X16, X16, XZR, LS)) == Some(m.(x16 := Clamp(m.x16, maxEntry)))
  {
  }

  /** ADRP and ADD of the page offset rebuild the table address. */
  lemma TableAddressRebuilt(env: Env, jti: nat, m: Machine)
    ensures Run(env, m, TableAddressSequence(jti)) == Some(m.(x17 := env.tableAddress(jti)))
  {
    var table := env.tableAddress(jti);
    var code := TableAddressSequence(jti);
    var m1 := m.(x17 := table - table % 0x1000);
    assert Step(env, m, code[0]) == Some(m1);
    assert Step(env, m1, code[1]) == Some(m.(x17 := table));
    assert code[1..][0] == code[1] && code[1..][1..] == [];
    assert Run(env, m1, code[1..]) == Some(m.(x17 := table));
  }

  /** The entry load and the branch: one load at X17 + 4 * X16, then the
      branch to X17 plus the loaded word sign-extended. */
  lemma LoadAndBranch(env: Env, m: Machine)
    ensures var slot := Wrap(m.x17 + 4 * m.x16);
            var r := Run(env, m, EntryBranchSequence());
            && r.Some?
            && r.value.loads == m.loads + [slot]
            && r.value.branchTarget == Some(Wrap(m.x17 + SignExtend(env.memory(slot))))
  {
    var code := EntryBranchSequence();
    var slot := Wrap(m.x17 + 4 * m.x16);
    var m1 := m.(loads := m.loads + [slot], x16 := SignExtend(env.memory(slot)));
    var m2 := m1.(x16 := Wrap(m.x17 + SignExtend(env.memory(slot))));
    assert Step(env, m, code[0]) == Some(m1);
    assert Step(env, m1, code[1]) == Some(m2);
    assert code[1..][1..] == [BR(X16)];
  }

  /** After the compare: the CSEL clamps X16 and ADRP/ADD put the table
      address in X17. */
  lemma ClampThenAddress(env: Env, maxEntry: U64, jti: nat, m: Machine)
    requires m.c == (m.x16 >= maxEntry) && m.z == (m.x16 == maxEntry)
    ensures Run(env, m, ClampSequence() + TableAddressSequence(jti))
            == Some(m.(x16 := Clamp(m.x16, maxEntry), x17 := env.tableAddress(jti)))
  {
    SelectClamps(env, maxEntry, m);
    var m2 := m.(x16 := Clamp(m.x16, maxEntry));
    RunAppend(env, m, ClampSequence(), TableAddressSequence(jti));
    assert Run(env, m, ClampSequence()) == Some(m2) by {
      assert ClampSequence()[1..] == [];
    }
    TableAddressRebuilt(env, jti, m2);
  }

  /** The dispatch the expansion performs: the only load reads the table
      slot of the clamped index, and the branch goes to the table address
      plus that slot's sign-extended offset. */
  lemma {:induction false} DispatchReadsClampedSlot(env: Env, numEntries: U64, jti: nat, m: Machine)
    ensures var table := env.tableAddress(jti);
            var slot := Wrap(table + 4 * Clamp(m.x16, MaxTableEntry(numEntries)));
            var r := Run(env, m, ExpandJumpTable(numEntries, jti));
            && r.Some?
            && r.value.loads == m.loads + [slot]
            && r.value.branchTarget == Some(Wrap(table + SignExtend(env.memory(slot))))
  {
    var maxEntry := MaxTableEntry(numEntries);
    var cmp := CompareSequence(maxEntry);
    var head := ClampSequence() + TableAddressSequence(jti);
    CompareSetsFlags(env, maxEntry, m);
    var m1 := Run(env, m, cmp).value;
    RunAppend(env, m, cmp, head + EntryBranchSequence());
    ClampThenAddress(env, maxEntry, jti, m1);
    RunAppend(env, m1, head, EntryBranchSequence());
    LoadAndBranch(env, m1.(x16 := Clamp(m.x16, maxEntry), x17 := env.tableAddress(jti)));
  }

  /** The index that reaches the load is at most `MaxTableEntry`, and an
      index within it passes unchanged. */
  lemma ClampedIndexBounded(index: U64, maxEntry: U64)
    ensures Clamp(index, maxEntry) <= maxEntry
    ensures index <= maxEntry ==> Clamp(index, maxEntry) == index
    ensures index > maxEntry ==> Clamp(index, maxEntry) == 0
  {
  }

  /** For a non-empty table the clamped index is inside the table. */
  lemma ClampedIndexInTable(numEntries: U64, index: U64)
    requires numEntries >= 1
    ensures Clamp(index, MaxTableEntry(numEntries)) < numEntries
  {
  }

  /** For an empty table `MaxTableEntry` wraps to 2^64 - 1: the compare
      is the long form and the clamp keeps every index. */
  lemma EmptyTableIsNotClamped(index: U64)
    ensures MaxTableEntry(0) == 0xFFFF_FFFF_FFFF_FFFF
    ensures !IsUInt12(MaxTableEntry(0))
    ensures Clamp(index, MaxTableEntry(0)) == index
  {
  }

  // ---------------------------------------------------------------------
  // The pass

  /** A jump table, as its list of target blocks. */
  datatype JumpTable = JumpTable(targets: seq<nat>)

  /** `MBBs.size()` as the pass's uint64. */
  function NumTableEntries(jt: JumpTable): U64 {
    Wrap(|jt.targets|)
  }

  datatype MachineFunction = MachineFunction(blocks: seq<seq<Instr>>, jumpTables: seq<JumpTable>)

  predicate HasPseudo(block: seq<Instr>) {
    exists i :: 0 <= i < |block| && block[i].BR_JumpTable?
  }

  /** The pass asserts that a function with jump-table dispatch has jump
      tables, and indexes them with the pseudo's operand. */
  predicate JumpTableRefValid(jumpTables: seq<JumpTable>, mi: Instr) {
    mi.BR_JumpTable? ==> mi.jti < |jumpTables|
  }

  predicate BlockRefsValid(jumpTables: seq<JumpTable>, block: seq<Instr>) {
    forall i :: 0 <= i < |block| ==> JumpTableRefValid(jumpTables, block[i])
  }

  /** `expandMI`: whether the instruction was expanded, and what stands in
      its place.  Only BR_JumpTable is rewritten; anything else stays. */
  function ExpandMI(jumpTables: seq<JumpTable>, mi: Instr): (r: (bool, seq<Instr>))
    requires JumpTableRefValid(jumpTables, mi)
    ensures r.0 <==> mi.BR_JumpTable?
    ensures !r.0 ==> r.1 == [mi]
    ensures r.0 ==> r.1 == ExpandJumpTable(NumTableEntries(jumpTables[mi.jti]), mi.jti)
    ensures forall k :: 0 <= k < |r.1| ==> !r.1[k].BR_JumpTable?
  {
    if mi.BR_JumpTable? then
      var numEntries := NumTableEntries(jumpTables[mi.jti]);
      ExpansionHasNoPseudo(numEntries, mi.jti);
      (true, ExpandJumpTable(numEntries, mi.jti))
    else (false, [mi])
  }

  /** What `expandMI` puts in place of a BR_JumpTable dispatches safely:
      it runs to the branch, its only load reads the table slot of the
      clamped index, that index is at most `MaxTableEntry` and so, for a
      non-empty table, one of the table's entries, and the branch goes to
      the table address plus that slot's sign-extended entry. */
  lemma ExpandMIDispatchesInTable(env: Env, jumpTables: seq<JumpTable>, mi: Instr, m: Machine)
    requires mi.BR_JumpTable? && JumpTableRefValid(jumpTables, mi)
    ensures var jt := jumpTables[mi.jti];
            var index := Clamp(m.x16, MaxTableEntry(NumTableEntries(jt)));
            var table := env.tableAddress(mi.jti);
            var slot := Wrap(table + 4 * index);
            var r := Run(env, m, ExpandMI(jumpTables, mi).1);
            && r.Some?
            && r.value.loads == m.loads + [slot]
            && r.value.branchTarget == Some(Wrap(table + SignExtend(env.memory(slot))))
            && index <= MaxTableEntry(NumTableEntries(jt))
            && (1 <= |jt.targets| < U64Modulus ==> index < |jt.targets|)
  {
    var numEntries := NumTableEntries(jumpTables[mi.jti]);
    DispatchReadsClampedSlot(env, numEntries, mi.jti, m);
    ClampedIndexBounded(m.x16, MaxTableEntry(numEntries));
    if 1 <= |jumpTables[mi.jti].targets| < U64Modulus {
      ClampedIndexInTable(numEntries, m.x16);
    }
  }

  /** A block with every instruction replaced by its expansion, in order. */
  function ExpandBlock(jumpTables: seq<JumpTable>, block: seq<Instr>): (r: seq<Instr>)
    requires BlockRefsValid(jumpTables, block)
    ensures !HasPseudo(r)
    ensures !HasPseudo(block) ==> r == block
    decreases |block|
  {
    if |block| == 0 then []
    else
      var last := |block| - 1;
      ExpandBlock(jumpTables, block[..last]) + ExpandMI(jumpTables, block[last]).1
  }

  /** A prefix one longer has a pseudo exactly when the shorter one does or
      the new instruction is one. */
  lemma HasPseudoExtend(block: seq<Instr>, i: nat)
    requires i < |block|
    ensures HasPseudo(block[..i + 1]) <==> HasPseudo(block[..i]) || block[i].BR_JumpTable?
  {
    if block[i].BR_JumpTable? {
      assert block[..i + 1][i] == block[i];
    }
    if HasPseudo(block[..i + 1]) && !block[i].BR_JumpTable? {
      var k :| 0 <= k < i + 1 && block[..i + 1][k].BR_JumpTable?;
      assert block[..i][k] == block[k];
    }
    if HasPseudo(block[..i]) {
      var k :| 0 <= k < i && block[..i][k].BR_JumpTable?;
      assert block[..i + 1][k] == block[k];
    }
  }

  /** Expanding a prefix one longer appends the new instruction's
      expansion. */
  lemma ExpandBlockExtend(jumpTables: seq<JumpTable>, block: seq<Instr>, i: nat)
    requires BlockRefsValid(jumpTables, block) && i < |block|
    ensures BlockRefsValid(jumpTables, block[..i]) && BlockRefsValid(jumpTables, block[..i + 1])
    ensures ExpandBlock(jumpTables, block[..i + 1])
            == ExpandBlock(jumpTables, block[..i]) + ExpandMI(jumpTables, block[i]).1
  {
    assert block[..i + 1][..i] == block[..i];
  }

  /** The inner loop of `runOnMachineFunction` over one block: every
      instruction offered to expandMI once, in order. */
  method ExpandBlockInstrs(jumpTables: seq<JumpTable>, block: seq<Instr>) returns (modified: bool, expanded: seq<Instr>)
    requires BlockRefsValid(jumpTables, block)
    ensures modified <==> HasPseudo(block)
    ensures expanded == ExpandBlock(jumpTables, block)
  {
    modified := false;
    expanded := [];
    var i := 0;
    while i < |block|
      invariant 0 <= i <= |block|
      invariant expanded == ExpandBlock(jumpTables, block[..i])
      invariant modified <==> HasPseudo(block[..i])
    {
      var (changed, replacement) := ExpandMI(jumpTables, block[i]);
      ExpandBlockExtend(jumpTables, block, i);
      HasPseudoExtend(block, i);
      expanded := expanded + replacement;
      modified := modified || changed;
      i := i + 1;
    }
    assert block[..|block|] == block;
  }

  /** `runOnMachineFunction`: every block expanded; the result is true
      exactly when some instruction was. */
  method RunOnMachineFunction(mf: MachineFunction) returns (modified: bool, out: MachineFunction)
    requires forall b :: 0 <= b < |mf.blocks| ==> BlockRefsValid(mf.jumpTables, mf.blocks[b])
    ensures modified <==> exists b :: 0 <= b < |mf.blocks| && HasPseudo(mf.blocks[b])
    ensures out.jumpTables == mf.jumpTables && |out.blocks| == |mf.blocks|
    ensures forall b :: 0 <= b < |mf.blocks| ==> out.blocks[b] == ExpandBlock(mf.jumpTables, mf.blocks[b])
    ensures !modified ==> out == mf
  {
    modified := false;
    var blocks: seq<seq<Instr>> := [];
    var b := 0;
    while b < |mf.blocks|
      invariant 0 <= b <= |mf.blocks| && |blocks| == b
      invariant forall pb :: 0 <= pb < b ==> blocks[pb] == ExpandBlock(mf.jumpTables, mf.blocks[pb])
      invariant modified <==> exists pb :: 0 <= pb < b && HasPseudo(mf.blocks[pb])
    {
      var blockModified, expanded := ExpandBlockInstrs(mf.jumpTables, mf.blocks[b]);
      blocks := blocks + [expanded];
      modified := modified || blockModified;
      b := b + 1;
    }
    out := MachineFunction(blocks, mf.jumpTables);
    if !modified {
      assert blocks == mf.blocks;
    }
  }
}
