/** The storage of a schema in PointerAuthOptions.h: a union of three
    bit-field structs sharing one `unsigned` word.  The common header holds
    Kind (2 bits), AddressDiscriminated (1 bit) and Discrimination (2 bits);
    the Soft struct adds a 3-bit Key and the ARM8_3 struct a 2-bit Key after
    it.  The model allocates fields from the least significant bit, so the
    offsets are 0, 2, 3 and 5; the real order is the host ABI's, and none
    of the read-back properties depends on it. */
module SchemaLayout {
  import opened Wrappers
  import opened PointerAuthSchema

  /** The `unsigned` storage unit of the union. */
  type Word = bv32

  /** The declared field widths. */
  const NumKindBits: nat := 2
  const AddressDiscriminatedBits: nat := 1
  const DiscriminationBits: nat := 2
  const SoftKeyBits: nat := 3
  const ARM8_3KeyBits: nat := 2

  /** 2^n */
  function Pow2(n: nat): (p: nat)
    ensures p >= 1
  {
    if n == 0 then 1 else 2 * Pow2(n - 1)
  }

  /** The value mask of each field, at bit 0. */
  const KindMask: Word := 0x3
  const AddressDiscriminatedMask: Word := 0x1
  const DiscriminationMask: Word := 0x3
  const SoftKeyMask: Word := 0x7
  const ARM8_3KeyMask: Word := 0x3

  // Reading an unsigned bit-field: shift it down and keep its width.

  function ReadKind(w: Word): Word { w & KindMask }
  function ReadAddressDiscriminated(w: Word): Word { (w >> 2) & AddressDiscriminatedMask }
  function ReadDiscrimination(w: Word): Word { (w >> 3) & DiscriminationMask }
  function ReadSoftKey(w: Word): Word { (w >> 5) & SoftKeyMask }
  function ReadARM8_3Key(w: Word): Word { (w >> 5) & ARM8_3KeyMask }

  // Assigning an unsigned bit-field: the value is truncated to the field's
  // width and every other bit of the word is kept.

  function StoreKind(w: Word, v: Word): Word { (w & !KindMask) | (v & KindMask) }
  function StoreAddressDiscriminated(w: Word, v: Word): Word
  {
    (w & !(AddressDiscriminatedMask << 2)) | ((v & AddressDiscriminatedMask) << 2)
  }
  function StoreDiscrimination(w: Word, v: Word): Word
  {
    (w & !(DiscriminationMask << 3)) | ((v & DiscriminationMask) << 3)
  }
  function StoreSoftKey(w: Word, v: Word): Word { (w & !(SoftKeyMask << 5)) | ((v & SoftKeyMask) << 5) }
  function StoreARM8_3Key(w: Word, v: Word): Word { (w & !(ARM8_3KeyMask << 5)) | ((v & ARM8_3KeyMask) << 5) }

  /** The masks the accessors and stores use are the declared widths: each
      keeps exactly 2^width values. */
  lemma {:induction false} MasksMatchWidths()
    ensures Pow2(NumKindBits) == KindMask as nat + 1
    ensures Pow2(AddressDiscriminatedBits) == AddressDiscriminatedMask as nat + 1
    ensures Pow2(DiscriminationBits) == DiscriminationMask as nat + 1
    ensures Pow2(SoftKeyBits) == SoftKeyMask as nat + 1
    ensures Pow2(ARM8_3KeyBits) == ARM8_3KeyMask as nat + 1
  {
    assert Pow2(1) == 2;
    assert Pow2(2) == 4;
    assert Pow2(3) == 8;
  }

  /** Every enumerator's value is below 2^width of the field it is stored
      in, so the truncation of a bit-field assignment never changes it. */
  lemma {:induction false} EnumeratorsFitFields()
    ensures forall k: Kind :: k.Code() < Pow2(NumKindBits)
    ensures forall d: Discrimination :: d.Code() < Pow2(DiscriminationBits)
    ensures forall k: SoftKey :: k.Code() < Pow2(SoftKeyBits)
    ensures forall k: ARM8_3Key :: k.Code() < Pow2(ARM8_3KeyBits)
  {
    MasksMatchWidths();
  }

  function BoolBit(b: bool): Word {
    if b then 1 else 0
  }

  /** The bits a constructor writes into storage whose prior contents are
      `garbage`.  The default constructor writes only the kind; the ARM8_3
      constructor leaves the top bit of the Soft key untouched. */
  function Construct(s: Schema, garbage: Word): Word {
    match s
    case Disabled =>
      StoreKind(garbage, Kind.None.Code() as Word)
    case SoftSchema(key, a, d) =>
      var w0 := StoreKind(garbage, Kind.Soft.Code() as Word);
      var w1 := StoreAddressDiscriminated(w0, BoolBit(a));
      var w2 := StoreDiscrimination(w1, d.Code() as Word);
      StoreSoftKey(w2, key.Code() as Word)
    case ARM8_3Schema(key, a, d) =>
      var w0 := StoreKind(garbage, Kind.ARM8_3.Code() as Word);
      var w1 := StoreAddressDiscriminated(w0, BoolBit(a));
      var w2 := StoreDiscrimination(w1, d.Code() as Word);
      StoreARM8_3Key(w2, key.Code() as Word)
  }

  function DiscriminationOfCode(c: Word): Option<Discrimination> {
    if c == 0 then Some(Discrimination.None)
    else if c == 1 then Some(Discrimination.Type)
    else if c == 2 then Some(Discrimination.Decl)
    else Option.None
  }

  /** What the accessors make of the field values of a word: the kind from
      the common header, and the remaining fields only when the kind is
      enabled, the key through the struct of its kind.  None when a field
      holds a value that no enumerator has. */
  function DecodeFields(kind: Word, addressDiscriminated: Word, discrimination: Word,
                        softKey: Word, arm8_3Key: Word): Option<Schema>
    requires arm8_3Key <= ARM8_3KeyMask
  {
    if kind == 0 then Some(Disabled)
    else
      var a := addressDiscriminated == 1;
      match DiscriminationOfCode(discrimination)
      case None => Option.None
      case Some(d) =>
        if kind == 1 then
          if softKey <= 6 then Some(SoftSchema(SoftKeyOfCode(softKey as nat), a, d)) else Option.None
        else if kind == 2 then
          Some(ARM8_3Schema(ARM8_3KeyOfCode(arm8_3Key as nat), a, d))
        else Option.None
  }

  /** The schema a storage word holds, as its accessors read it. */
  function Decode(w: Word): Option<Schema> {
    DecodeFields(ReadKind(w), ReadAddressDiscriminated(w), ReadDiscrimination(w),
                 ReadSoftKey(w), ReadARM8_3Key(w))
  }

  /** The four stores of the Soft constructor read back field by field,
      for values that fit their fields. */
  lemma SoftFieldsReadBack(garbage: Word, kind: Word, a: Word, d: Word, key: Word)
    requires kind <= KindMask && a <= AddressDiscriminatedMask && d <= DiscriminationMask && key <= SoftKeyMask
    ensures var w := StoreSoftKey(StoreDiscrimination(StoreAddressDiscriminated(StoreKind(garbage, kind), a), d), key);
      ReadKind(w) == kind && ReadAddressDiscriminated(w) == a && ReadDiscrimination(w) == d && ReadSoftKey(w) == key
  {
  }

  /** The same for the ARM8_3 constructor, whose key is one bit narrower. */
  lemma ARM8_3FieldsReadBack(garbage: Word, kind: Word, a: Word, d: Word, key: Word)
    requires kind <= KindMask && a <= AddressDiscriminatedMask && d <= DiscriminationMask && key <= ARM8_3KeyMask
    ensures var w := StoreARM8_3Key(StoreDiscrimination(StoreAddressDiscriminated(StoreKind(garbage, kind), a), d), key);
      ReadKind(w) == kind && ReadAddressDiscriminated(w) == a && ReadDiscrimination(w) == d && ReadARM8_3Key(w) == key
  {
  }

  lemma SoftReadsBack(key: SoftKey, a: bool, d: Discrimination, garbage: Word)
    ensures Decode(Construct(SoftSchema(key, a, d), garbage)) == Some(SoftSchema(key, a, d))
  {
    var w := Construct(SoftSchema(key, a, d), garbage);
    var kc, dc := key.Code() as Word, d.Code() as Word;
    assert ReadKind(w) == 1 && ReadAddressDiscriminated(w) == BoolBit(a)
        && ReadDiscrimination(w) == dc && ReadSoftKey(w) == kc by {
      SoftFieldsReadBack(garbage, 1, BoolBit(a), dc, kc);
    }
    assert SoftKeyOfCode(kc as nat) == key;
    assert DecodeFields(1, BoolBit(a), dc, kc, ReadARM8_3Key(w)) == Some(SoftSchema(key, a, d));
  }

  lemma ARM8_3ReadsBack(key: ARM8_3Key, a: bool, d: Discrimination, garbage: Word)
    ensures Decode(Construct(ARM8_3Schema(key, a, d), garbage)) == Some(ARM8_3Schema(key, a, d))
  {
    var w := Construct(ARM8_3Schema(key, a, d), garbage);
    var kc, dc := key.Code() as Word, d.Code() as Word;
    assert ReadKind(w) == 2 && ReadAddressDiscriminated(w) == BoolBit(a)
        && ReadDiscrimination(w) == dc && ReadARM8_3Key(w) == kc by {
      ARM8_3FieldsReadBack(garbage, 2, BoolBit(a), dc, kc);
    }
    assert ARM8_3KeyOfCode(kc as nat) == key;
    assert DecodeFields(2, BoolBit(a), dc, ReadSoftKey(w), kc) == Some(ARM8_3Schema(key, a, d));
  }

  /** Store-then-read: whatever the storage held before, the word a
      constructor leaves behind reads back as the schema it was given. */
  lemma ConstructReadsBack(s: Schema, garbage: Word)
    ensures Decode(Construct(s, garbage)) == Some(s)
  {
    match s
    case Disabled =>
    case SoftSchema(key, a, d) => SoftReadsBack(key, a, d, garbage);
    case ARM8_3Schema(key, a, d) => ARM8_3ReadsBack(key, a, d, garbage);
  }

  /** A zero kind field makes a disabled schema, whatever the other bits. */
  lemma DisabledIgnoresOtherBits(w: Word)
    requires ReadKind(w) == 0
    ensures Decode(w) == Some(Disabled)
  {
  }

  /** Two constructed words read as the same schema exactly when they were
      built from the same schema. */
  lemma ConstructInjective(s: Schema, t: Schema, g: Word, h: Word)
    ensures Decode(Construct(s, g)) == Decode(Construct(t, h)) <==> s == t
  {
    ConstructReadsBack(s, g);
    ConstructReadsBack(t, h);
  }
}
