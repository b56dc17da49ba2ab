/**
  How much looser than the standard the import check is (artifactbundle/bundle.go:213-289). The
  WebAssembly Core Specification 1.0 fixes bytes that the check skips unread: the flags of limits
  (section 5.3.4), the element type (5.3.6), the value type and mutability of globals (5.3.1, 5.3.7)
  and the UTF-8 form of names (5.2.4). An accepted section is standard exactly when those bytes are.
*/
module WasmStandard {
  import opened Identifiers
  import opened WasmImports

  // ----- Names (section 5.2.4) -----

  predicate Tail(b: byte) { 0x80 <= b <= 0xBF }

  // The bytes a UTF-8 sequence starting with lead has, or 0 for a byte that starts none.
  function SequenceLength(lead: byte): nat {
    if lead < 0x80 then 1
    else if 0xC2 <= lead <= 0xDF then 2
    else if 0xE0 <= lead <= 0xEF then 3
    else if 0xF0 <= lead <= 0xF4 then 4
    else 0
  }

  // No overlong forms, no surrogates, nothing above the last code point.
  predicate SecondByte(lead: byte, b: byte) {
    Tail(b) && (lead == 0xE0 ==> b >= 0xA0) && (lead == 0xED ==> b <= 0x9F)
    && (lead == 0xF0 ==> b >= 0x90) && (lead == 0xF4 ==> b <= 0x8F)
  }

  ghost predicate Utf8(chars: seq<byte>) {
    chars == []
    || var n := SequenceLength(chars[0]);
       && 0 < n <= |chars|
       && (n > 1 ==> SecondByte(chars[0], chars[1]))
       && (forall i | 2 <= i < n :: Tail(chars[i]))
       && Utf8(chars[n..])
  }

  lemma {:induction false} AsciiIsUtf8(chars: seq<byte>)
    requires forall i | 0 <= i < |chars| :: chars[i] < 0x80
    ensures Utf8(chars)
  {
    if chars != [] { AsciiIsUtf8(chars[1..]); }
  }

  // ----- Limits and descriptions (sections 5.3.1, 5.3.4, 5.3.6 and 5.3.7) -----

  const FUNCREF := 0x70
  const VALUE_TYPES: set<byte> := {0x7F, 0x7E, 0x7D, 0x7C}

  // The grammar, byte by byte.
  ghost predicate EncodesLimits(data: seq<byte>) {
    || (exists min: U32 :: min.Valid() && data == [0] + min.bytes)
    || (exists min: U32, max: U32 :: min.Valid() && max.Valid() && data == [1] + (min.bytes + max.bytes))
  }

  ghost predicate EncodesDesc(data: seq<byte>) {
    || (exists index: U32 :: index.Valid() && data == [0] + index.bytes)
    || (|data| >= 2 && data[..2] == [1, FUNCREF] && EncodesLimits(data[2..]))
    || (|data| >= 1 && data[0] == 2 && EncodesLimits(data[1..]))
    || (|data| == 3 && data[0] == 3 && data[1] in VALUE_TYPES && data[2] in {0, 1})
  }

  // The same on the trees the check reads: what it must have found in the bytes it does not look at.
  ghost predicate StandardLimits(limits: Limits) { limits.flags.bytes in {[0], [1]} }

  ghost predicate StandardDesc(desc: ImportDesc) {
    match desc
    case FuncImport(_) => true
    case TableImport(elemType, limits) => elemType == FUNCREF && StandardLimits(limits)
    case MemoryImport(limits) => StandardLimits(limits)
    case GlobalImport(valType, mutability) => valType in VALUE_TYPES && mutability in {0, 1}
  }

  lemma OneByteValue(u: U32)
    requires |u.bytes| == 1 && u.bytes[0] < 0x80
    ensures u.Value() == u.bytes[0]
  {
    assert u.bytes[1..] == [] && Sum128([]) == 0;
    assert Sum128(u.bytes) == Low(u.bytes[0]) + 128 * Sum128(u.bytes[1..]);
  }

  // A byte without a continuation bit is a whole integer.
  lemma OneByteInteger(u: U32, b: byte)
    requires u.Valid() && u.bytes[0] == b && b < 0x80
    ensures u.bytes == [b]
  {
  }

  lemma StandardLimitsIff(limits: Limits)
    requires limits.Valid()
    ensures StandardLimits(limits) <==> EncodesLimits(limits.Bytes())
  {
    hide U32.Valid, U32.Value;
    LimitsFlags(limits);
    if EncodesLimits(limits.Bytes()) {
      assert limits.Bytes()[0] == limits.flags.bytes[0];
      OneByteInteger(limits.flags, limits.flags.bytes[0]);
    }
    if StandardLimits(limits) {
      if limits.flags.bytes == [0] {
        assert limits.Bytes() == [0] + limits.min.bytes;
      } else {
        assert limits.Bytes() == [1] + (limits.min.bytes + limits.max.value.bytes);
      }
    }
  }

  lemma LimitsFlags(limits: Limits)
    requires limits.Valid()
    ensures |limits.flags.bytes| >= 1 && |limits.min.bytes| >= 1
    ensures limits.flags.bytes == [0] ==> limits.max.None?
    ensures limits.flags.bytes == [1] ==> limits.max.Some?
  {
    if |limits.flags.bytes| == 1 { OneByteValue(limits.flags); }
  }

  lemma StandardDescIff(desc: ImportDesc)
    requires desc.Valid()
    ensures StandardDesc(desc) <==> EncodesDesc(desc.Bytes())
  {
    hide U32.Valid, U32.Value, Limits.Valid, Limits.Bytes, StandardLimits, EncodesLimits;
    var data := desc.Bytes();
    match desc
    case FuncImport(index) =>
    case TableImport(elemType, limits) =>
      assert data[2..] == limits.Bytes() && data[0] == 1 && data[1] == elemType;
      assert data[..2] == [1, elemType];
      StandardLimitsIff(limits);
    case MemoryImport(limits) =>
      assert data[1..] == limits.Bytes() && data[0] == 2;
      StandardLimitsIff(limits);
    case GlobalImport(valType, mutability) =>
      assert data == [3, valType, mutability];
  }

  // ----- Import sections -----

  ghost predicate StandardImport(imp: Import) { Utf8(imp.mod.chars) && Utf8(imp.field.chars) && StandardDesc(imp.desc) }

  ghost predicate StandardSection(section: ImportSection) {
    section.Valid() && forall i | 0 <= i < |section.imports| :: StandardImport(section.imports[i])
  }

  // Every import of the allowed module has a standard name; what is left open is the field and the description.
  lemma WasiIsUtf8(name: Name)
    requires name.chars == WASI_PREVIEW1
    ensures Utf8(name.chars)
  {
    AsciiIsUtf8(name.chars);
  }

  // ----- One encoding, one section -----

  lemma {:induction false} SameImports(a: seq<Import>, b: seq<Import>)
    requires |a| == |b| && ImportsBytes(a) == ImportsBytes(b)
    requires forall i | 0 <= i < |a| :: a[i].Valid() && a[i].Small() && b[i].Valid()
    ensures a == b
  {
    hide Import.Bytes, Import.Valid, Import.Small, TakeImport;
    if a != [] {
      ImportComplete(a[0], ImportsBytes(a[1..]));
      ImportComplete(b[0], ImportsBytes(b[1..]));
      var data := ImportsBytes(a);
      assert data == a[0].Bytes() + ImportsBytes(a[1..]) == b[0].Bytes() + ImportsBytes(b[1..]);
      assert a[0] == b[0];
      assert ImportsBytes(a[1..]) == data[|a[0].Bytes()|..] == ImportsBytes(b[1..]);
      SameImports(a[1..], b[1..]);
      assert a == [a[0]] + a[1..] && b == [b[0]] + b[1..];
    }
  }

  lemma SameSection(s: ImportSection, t: ImportSection)
    requires s.Valid() && s.Small() && t.Valid() && s.Bytes() == t.Bytes()
    ensures s == t
  {
    hide Import.Valid, Import.Small, U32.Valid, U32.Small, U32.Value, TakeU32;
    assert s.count.Valid() && t.count.Valid();
    ReadsExactlySmall(s.count, ImportsBytes(s.imports));
    ReadsExactlySmall(t.count, ImportsBytes(t.imports));
    assert s.count == t.count;
    assert ImportsBytes(s.imports) == s.Bytes()[|s.count.bytes|..] == ImportsBytes(t.imports);
    SameImports(s.imports, t.imports);
  }

  ghost predicate IsStandard(data: seq<byte>) {
    exists section: ImportSection :: StandardSection(section) && section.Bytes() == data
  }

  // Accepted bytes are a standard section exactly when each import has a UTF-8 field name and a
  // description from the standard's grammar.
  lemma AcceptedIsStandardIff(data: seq<byte>, section: ImportSection)
    requires IsWasiSection(section, data)
    ensures CheckSection(data).Accepted?
    ensures IsStandard(data) <==> forall i | 0 <= i < |section.imports| ::
              Utf8(section.imports[i].field.chars) && EncodesDesc(section.imports[i].desc.Bytes())
  {
    hide Import.Small, U32.Valid, U32.Small, U32.Value, Utf8, EncodesDesc, StandardDesc, WASI_PREVIEW1, CheckSection;
    EncodedSectionVerdict(section);
    forall i | 0 <= i < |section.imports|
      ensures Utf8(section.imports[i].mod.chars)
      ensures StandardDesc(section.imports[i].desc) <==> EncodesDesc(section.imports[i].desc.Bytes())
    {
      assert section.imports[i].Valid() && section.imports[i].Wasi();
      WasiIsUtf8(section.imports[i].mod);
      StandardDescIff(section.imports[i].desc);
    }
    hide Import.Valid;
    if IsStandard(data) {
      var standard: ImportSection :| StandardSection(standard) && standard.Bytes() == data;
      SameSection(section, standard);
    }
  }

  // A standard section in the reader's range is accepted exactly when its modules are the allowed one.
  lemma StandardVerdict(section: ImportSection)
    requires StandardSection(section) && section.Small()
    ensures CheckSection(section.Bytes()).Accepted? <==> section.AllWasi()
  {
    EncodedSectionVerdict(section);
  }

  // ----- What the check lets through -----

  ghost function OneImport(desc: ImportDesc): ImportSection {
    ImportSection(U32([1]), [Import(Name(U32([22]), WASI_PREVIEW1), Name(U32([0]), []), desc)])
  }

  // Every description in the reader's range is accepted, standard or not.
  lemma LooseDescriptionsAreAccepted(desc: ImportDesc)
    requires desc.Valid() && desc.Small()
    ensures CheckSection(OneImport(desc).Bytes()).Accepted?
    ensures IsStandard(OneImport(desc).Bytes()) <==> EncodesDesc(desc.Bytes())
  {
    hide EncodesDesc, CheckSection, ImportDesc.Valid, ImportDesc.Small, ImportDesc.Bytes;
    var section := OneImport(desc);
    OneByteValue(section.count);
    OneByteValue(section.imports[0].mod.size);
    OneByteValue(section.imports[0].field.size);
    assert Utf8(section.imports[0].field.chars);
    assert IsWasiSection(section, section.Bytes());
    AcceptedIsStandardIff(section.Bytes(), section);
  }

  // Flags 2 and padded flags, an unknown element type, value type or mutability: all are accepted.
  lemma NotStandardButAccepted()
    ensures forall desc | desc in {MemoryImport(Limits(U32([2]), U32([0]), None)),
                                   MemoryImport(Limits(U32([0x80, 0]), U32([0]), None)),
                                   TableImport(0, Limits(U32([0]), U32([0]), None)),
                                   GlobalImport(0, 0), GlobalImport(0x7F, 2)} ::
              CheckSection(OneImport(desc).Bytes()).Accepted? && !IsStandard(OneImport(desc).Bytes())
  {
    hide CheckSection, IsStandard, OneImport;
    var padded := U32([0x80, 0]);
    assert padded.bytes[1..] == [0] && [0][1..] == [] && padded.Value() == 0;
    OneByteValue(U32([2]));
    OneByteValue(U32([0]));
    forall desc | desc in {MemoryImport(Limits(U32([2]), U32([0]), None)), MemoryImport(Limits(padded, U32([0]), None)),
                           TableImport(0, Limits(U32([0]), U32([0]), None)),
                           GlobalImport(0, 0), GlobalImport(0x7F, 2)}
      ensures CheckSection(OneImport(desc).Bytes()).Accepted? && !IsStandard(OneImport(desc).Bytes())
    {
      StandardDescIff(desc);
      LooseDescriptionsAreAccepted(desc);
    }
  }

  // ----- Section ids (section 5.5.2) -----

  const LAST_STANDARD_SECTION := 11

  // Beside the sections of the standard the scan passes over sections of one more id, of any size it
  // can read and whatever follows; a section of any other id beyond them ends the scan.
  lemma ForeignSectionIsSkipped(id: byte, size: U32, payload: seq<byte>, rest: seq<byte>)
    requires LAST_STANDARD_SECTION < id && size.Valid() && size.Value() == |payload|
    ensures CheckSections(Other(id, size, payload).Bytes() + rest)
         == if size.Small() && id == LAST_SECTION then CheckSections(rest) else InvalidSection
  {
    hide TakeU32, U32.Valid, U32.Small, U32.Value, CheckSection;
    var data := Other(id, size, payload).Bytes() + rest;
    ReadsExactlySmall(size, payload + rest);
    assert data[0] == id && data[1..] == size.bytes + (payload + rest);
    assert (size.bytes + (payload + rest))[|size.bytes|..] == payload + rest;
    assert (payload + rest)[..|payload|] == payload && (payload + rest)[|payload|..] == rest;
  }
}
