/**
  The import check of the artifact bundle validator: an unsigned LEB128 reader, the import
  section parser built on it, and the section scan (artifactbundle/bundle.go:193-308).

  The parser is specified against the grammar it reads, given here as concrete syntax trees that
  remember every byte, so that each tree has one encoding and padded integers are covered. It is that
  of the WebAssembly Core Specification 1.0 (sections 5.2.2, 5.2.4, 5.3.4, 5.5.2 and 5.5.5) except for
  what the check skips unread, which WasmStandard makes exact.
*/
module WasmImports {
  import opened Identifiers

  const U32_BYTES := 5

  type byte = b: int | 0 <= b < 0x100

  // ---------------------------------------------------------------------------------------
  // Go's uint32 shift and or, written out on naturals
  // ---------------------------------------------------------------------------------------

  const WORD := 0x1_0000_0000

  ghost function Pow2(k: nat): (r: nat)
    ensures r >= 1
  {
    if k == 0 then 1 else 2 * Pow2(k - 1)
  }

  // x * 2^k.
  ghost function Scale2(x: nat, k: nat): nat
    decreases k
  {
    if k == 0 then x else 2 * Scale2(x, k - 1)
  }

  function ShiftLeft32(x: nat, k: nat): nat
    decreases k
  {
    if k == 0 then x % WORD else 2 * ShiftLeft32(x, k - 1) % WORD
  }

  function BitOr(a: nat, b: nat): nat {
    if a == 0 && b == 0 then 0
    else (if a % 2 == 1 || b % 2 == 1 then 1 else 0) + 2 * BitOr(a / 2, b / 2)
  }

  lemma {:induction false} ShiftIsScaling(x: nat, k: nat)
    requires Scale2(x, k) < WORD
    ensures ShiftLeft32(x, k) == Scale2(x, k)
    decreases k
  {
    if k > 0 { ShiftIsScaling(x, k - 1); }
  }

  lemma {:induction false} OrWithZero(b: nat)
    ensures BitOr(0, b) == b
  {
    if b != 0 { OrWithZero(b / 2); }
  }

  // Setting bits from k on in a number below 2^k adds them.
  lemma {:induction false} OrIsSum(a: nat, b: nat, k: nat)
    requires a < Pow2(k)
    ensures BitOr(a, Scale2(b, k)) == a + Scale2(b, k)
    decreases k
  {
    if k == 0 {
      OrWithZero(b);
    } else {
      var shifted := Scale2(b, k - 1);
      assert (2 * shifted) / 2 == shifted && (2 * shifted) % 2 == 0;
      OrIsSum(a / 2, b, k - 1);
    }
  }

  // ---------------------------------------------------------------------------------------
  // Unsigned LEB128 (section 5.2.2)
  // ---------------------------------------------------------------------------------------

  // The continuation bit and the digit of a byte: b & 0x80 != 0 and b & 0x7f.
  predicate More(b: byte) { b >= 0x80 }

  function Low(b: byte): (r: nat)
    ensures r < 128
  {
    b % 0x80
  }

  lemma MasksOnBits(b: bv8)
    ensures More(b as byte) <==> b & 0x80 != 0
    ensures Low(b as byte) == (b & 0x7f) as nat
  {
  }

  // The base-128 sum of the low seven bits, least significant first.
  ghost function Sum128(bytes: seq<byte>): nat {
    if bytes == [] then 0 else Low(bytes[0]) + 128 * Sum128(bytes[1..])
  }

  // A u32 as the standard writes it: at most five bytes, the fifth below 16, padding allowed.
  datatype U32 = U32(bytes: seq<byte>) {
    ghost predicate Valid() {
      && 1 <= |bytes| <= 5
      && (forall i | 0 <= i < |bytes| - 1 :: More(bytes[i]))
      && !More(bytes[|bytes| - 1])
      && (|bytes| == 5 ==> bytes[4] < 16)
    }

    ghost function Value(): nat { Sum128(bytes) }

    // The reader's own bound: it refuses a fifth byte above 1.
    ghost predicate Small() { Value() < 0x2000_0000 }
  }

  // The shortest encoding of n.
  ghost function Shortest(n: nat): seq<byte> {
    if n < 128 then [n] else [128 + n % 128] + Shortest(n / 128)
  }

  ghost function Prefixed(b: byte, u: Option<U32>): Option<U32> {
    match u
    case None => None
    case Some(rest) => Some(U32([b] + rest.bytes))
  }

  // What the reader takes from the front of data when at most budget bytes may still follow.
  ghost function TakeU32(data: seq<byte>, budget: nat): (r: Option<U32>)
    ensures r.Some? ==> 1 <= |r.value.bytes| <= |data|
  {
    if budget == 0 || data == [] then None
    else if budget == 1 && (More(data[0]) || data[0] > 1) then None
    else if !More(data[0]) then Some(U32([data[0]]))
    else Prefixed(data[0], TakeU32(data[1..], budget - 1))
  }

  // A digit in position i, worth digit * 128^i.
  ghost function Place(digit: nat, i: nat): nat
    decreases i
  {
    if i == 0 then digit else 128 * Place(digit, i - 1)
  }

  lemma {:induction false} PlaceIsScaled(digit: nat, i: nat)
    ensures Place(digit, i) == Scale2(digit, 7 * i)
    decreases i
  {
    if i > 0 {
      PlaceIsScaled(digit, i - 1);
      var k := 7 * (i - 1);
      assert Scale2(digit, k + 7) == 2 * Scale2(digit, k + 6) == 4 * Scale2(digit, k + 5)
          == 8 * Scale2(digit, k + 4) == 16 * Scale2(digit, k + 3) == 32 * Scale2(digit, k + 2)
          == 64 * Scale2(digit, k + 1) == 128 * Scale2(digit, k);
    }
  }

  lemma {:induction false} PlaceCarries(low: nat, tail: nat, i: nat)
    ensures Place(low + 128 * tail, i) == Place(low, i) + Place(tail, i + 1)
    decreases i
  {
    if i > 0 { PlaceCarries(low, tail, i - 1); }
  }

  // A digit leaves room below the next position, and a digit of at most 1 only doubles it.
  lemma {:induction false} PlaceBound(digit: nat, i: nat)
    requires digit < 128
    ensures Place(digit, i) + Pow2(7 * i) <= Pow2(7 * (i + 1))
    ensures digit <= 1 ==> Place(digit, i) <= Pow2(7 * i)
    decreases i
  {
    Pow2Step(i);
    if i > 0 {
      Pow2Step(i - 1);
      PlaceBound(digit, i - 1);
    }
  }

  lemma {:induction false} SumAppend(a: seq<byte>, b: seq<byte>)
    ensures Sum128(a + b) == Sum128(a) + Place(Sum128(b), |a|)
  {
    if a == [] {
      assert a + b == b;
    } else {
      assert (a + b)[1..] == a[1..] + b;
      SumAppend(a[1..], b);
    }
  }

  lemma SumFirst(part: byte, rest: seq<byte>)
    ensures Sum128([part] + rest) == Low(part) + 128 * Sum128(rest)
    ensures rest == [] ==> Sum128([part] + rest) == Low(part)
  {
    assert ([part] + rest)[1..] == rest;
  }

  lemma Pow2Step(n: nat)
    ensures Pow2(7 * (n + 1)) == 128 * Pow2(7 * n)
  {
    var k := 7 * n;
    assert Pow2(k + 7) == 2 * Pow2(k + 6) == 4 * Pow2(k + 5) == 8 * Pow2(k + 4)
        == 16 * Pow2(k + 3) == 32 * Pow2(k + 2) == 64 * Pow2(k + 1) == 128 * Pow2(k);
  }

  lemma {:induction false} SumBound(a: seq<byte>)
    ensures Sum128(a) < Pow2(7 * |a|)
  {
    if a != [] {
      SumBound(a[1..]);
      Pow2Step(|a| - 1);
    }
  }

  // A standard u32 is below 2^29 exactly when the reader's fifth-byte test lets it pass.
  lemma SmallIsFifthByte(u: U32)
    requires u.Valid()
    ensures u.Small() <==> |u.bytes| < 5 || u.bytes[4] <= 1
  {
    hide Sum128, Pow2, More;
    Powers();
    if |u.bytes| < 5 {
      SumBound(u.bytes);
      if |u.bytes| == 1 {} else if |u.bytes| == 2 {} else if |u.bytes| == 3 {}
    } else {
      FifthByte(u.bytes);
    }
  }

  lemma PowZero()
    ensures Pow2(0) == 1
  {
  }

  lemma Powers()
    ensures Pow2(7) == 0x80 && Pow2(14) == 0x4000 && Pow2(21) == 0x20_0000 && Pow2(28) == 0x1000_0000
  {
    Pow2Step(0);
    Pow2Step(1);
    Pow2Step(2);
    Pow2Step(3);
  }

  // Reading stops exactly at the end of a well-formed integer, whatever follows it.
  lemma {:induction false} TakeStops(bytes: seq<byte>, rest: seq<byte>, budget: nat)
    requires 1 <= |bytes| <= budget
    requires forall i | 0 <= i < |bytes| - 1 :: More(bytes[i])
    requires !More(bytes[|bytes| - 1])
    ensures TakeU32(bytes + rest, budget)
         == if |bytes| == budget && bytes[|bytes| - 1] > 1 then None else Some(U32(bytes))
  {
    var data := bytes + rest;
    assert data[0] == bytes[0];
    if |bytes| == 1 {
      assert bytes == [bytes[0]];
    } else {
      assert data[1..] == bytes[1..] + rest;
      TakeStops(bytes[1..], rest, budget - 1);
      assert bytes == [bytes[0]] + bytes[1..];
    }
  }

  // What is taken is a prefix of the input, has the standard's shape, and its last byte of a
  // full-length integer is at most 1.
  lemma {:induction false} TakenShape(data: seq<byte>, budget: nat)
    requires TakeU32(data, budget).Some?
    ensures var taken := TakeU32(data, budget).value.bytes;
            && 1 <= |taken| <= budget
            && taken <= data
            && (forall i | 0 <= i < |taken| - 1 :: More(taken[i]))
            && !More(taken[|taken| - 1])
            && (|taken| == budget ==> taken[budget - 1] <= 1)
  {
    hide More;
    if budget > 1 && More(data[0]) {
      TakenShape(data[1..], budget - 1);
    }
  }

  // For every standard u32 the reader succeeds if and only if the value is below 2^29, and then
  // it returns that very integer.
  lemma ReadsExactlySmall(u: U32, rest: seq<byte>)
    requires u.Valid()
    ensures TakeU32(u.bytes + rest, 5) == if u.Small() then Some(u) else None
  {
    SmallIsFifthByte(u);
    TakeStops(u.bytes, rest, 5);
  }

  lemma TakenIsSmall(data: seq<byte>)
    requires TakeU32(data, 5).Some?
    ensures TakeU32(data, 5).value.Valid() && TakeU32(data, 5).value.Small()
    ensures TakeU32(data, 5).value.bytes <= data
  {
    TakenShape(data, 5);
    SmallIsFifthByte(TakeU32(data, 5).value);
  }

  lemma {:induction false} ShortestIsStandard(n: nat, width: nat)
    requires n < Pow2(7 * width)
    requires width >= 1
    ensures var bytes := Shortest(n);
            && 1 <= |bytes| <= width
            && (forall i | 0 <= i < |bytes| - 1 :: More(bytes[i]))
            && !More(bytes[|bytes| - 1])
            && Sum128(bytes) == n
  {
    var bytes := Shortest(n);
    if n < 128 {
      assert bytes[1..] == [];
    } else {
      if width == 1 { Powers(); }
      Pow2Step(width - 1);
      DivisionBound(n, Pow2(7 * (width - 1)));
      ShortestIsStandard(n / 128, width - 1);
      assert bytes[1..] == Shortest(n / 128);
    }
  }

  lemma DivisionBound(n: nat, bound: nat)
    requires n < 128 * bound
    ensures n / 128 < bound
  {
  }

  // The shortest encoding of every u32 is standard; the reader decodes it to its value and the
  // exact next offset below 2^29 and rejects it from 2^29 on.
  lemma ReadsShortest(n: nat, rest: seq<byte>)
    requires n < WORD
    ensures var u := U32(Shortest(n));
            && u.Valid() && u.Value() == n
            && TakeU32(u.bytes + rest, 5) == if n < 0x2000_0000 then Some(u) else None
  {
    hide Shortest, Sum128, TakeU32, Pow2, Low, More;
    Powers();
    Pow2Step(4);
    ShortestIsStandard(n, 5);
    var u := U32(Shortest(n));
    if |u.bytes| == 5 { FifthByte(u.bytes); }
    ReadsExactlySmall(u, rest);
  }

  // The fifth byte of a five-byte integer carries its bits from 2^28 on.
  lemma FifthByte(bytes: seq<byte>)
    requires |bytes| == 5 && !More(bytes[4])
    ensures var top: int := bytes[4]; 0x1000_0000 * top <= Sum128(bytes) < 0x1000_0000 * top + 0x1000_0000
  {
    hide Pow2;
    hide Sum128;
    Powers();
    var front, last := bytes[..4], bytes[4..];
    assert bytes == front + last && last == [bytes[4]];
    SumAppend(front, last);
    SumBound(front);
    SumOne(bytes[4]);
  }

  ghost function Suffix(data: seq<byte>, offset: nat): seq<byte> {
    if offset <= |data| then data[offset..] else []
  }

  datatype Reading = Reading(value: nat, next: nat)

  // The value and the next offset that the front of the suffix encodes.
  ghost function ReadAt(data: seq<byte>, offset: nat): Option<Reading> {
    match TakeU32(Suffix(data, offset), U32_BYTES)
    case None => None
    case Some(u) => Some(Reading(u.Value(), offset + |u.bytes|))
  }

  // The reader's loop from round i on, with the digits so far summed up in value.
  ghost function Rounds(data: seq<byte>, at: nat, i: nat, value: nat): Option<Reading>
    decreases 5 - i
  {
    if i >= 5 || at >= |data| || (i == 4 && (More(data[at]) || data[at] > 1)) then None
    else if !More(data[at]) then Some(Reading(value + Place(Low(data[at]), i), at + 1))
    else Rounds(data, at + 1, i + 1, value + Place(Low(data[at]), i))
  }

  ghost function Added(u: Option<U32>, at: nat, i: nat, value: nat): Option<Reading> {
    match u
    case None => None
    case Some(u) => Some(Reading(value + Place(Sum128(u.bytes), i), at + |u.bytes|))
  }

  lemma {:induction false} RoundsRead(data: seq<byte>, at: nat, i: nat, value: nat)
    requires i <= 5
    ensures Rounds(data, at, i, value) == Added(TakeU32(Suffix(data, at), 5 - i), at, i, value)
    decreases 5 - i
  {
    hide TakeU32, Sum128, Place, Low, More, Suffix;
    if i < 5 && at < |data| {
      TakeStep(data, at, 5 - i);
      SumOne(data[at]);
      if i == 4 && (More(data[at]) || data[at] > 1) {
      } else if More(data[at]) {
        MoreRounds(data[at], TakeU32(Suffix(data, at + 1), 4 - i), at, i, value);
        RoundsRead(data, at + 1, i + 1, value + Place(Low(data[at]), i));
      }
    } else {
      TakeNothing(data, at, 5 - i);
    }
  }

  lemma SumOne(part: byte)
    ensures Sum128([part]) == Low(part)
  {
    SumFirst(part, []);
    assert [part] + [] == [part];
  }

  lemma TakeNothing(data: seq<byte>, at: nat, budget: nat)
    requires budget == 0 || at >= |data|
    ensures TakeU32(Suffix(data, at), budget) == None
  {
  }

  lemma TakeStep(data: seq<byte>, at: nat, budget: nat)
    requires at < |data| && budget >= 1
    ensures TakeU32(Suffix(data, at), budget)
         == if budget == 1 && (More(data[at]) || data[at] > 1) then None
            else if !More(data[at]) then Some(U32([data[at]]))
            else Prefixed(data[at], TakeU32(Suffix(data, at + 1), budget - 1))
  {
    hide More;
    assert Suffix(data, at)[1..] == Suffix(data, at + 1);
  }

  lemma MoreRounds(part: byte, rest: Option<U32>, at: nat, i: nat, value: nat)
    requires i < 4
    ensures Added(Prefixed(part, rest), at, i, value) == Added(rest, at + 1, i + 1, value + Place(Low(part), i))
  {
    hide Sum128, Place, Low, More;
    if rest.Some? {
      SumFirst(part, rest.value.bytes);
      PlaceCarries(Low(part), Sum128(rest.value.bytes), i);
    }
  }

  // One round of the reader: or-ing the shifted digit in is adding it, and nothing wraps.
  lemma DigitStep(value: nat, i: nat, part: byte)
    requires i < 5 && value < Pow2(7 * i)
    requires i == 4 ==> part <= 1
    ensures BitOr(value, ShiftLeft32(Low(part), 7 * i)) == value + Place(Low(part), i)
    ensures value + Place(Low(part), i) < Pow2(7 * (i + 1))
    ensures value + Place(Low(part), i) < WORD
  {
    hide Place, Scale2, Pow2, BitOr, ShiftLeft32;
    PlaceBound(Low(part), i);
    RoundFits(i);
    PlaceIsScaled(Low(part), i);
    ShiftIsScaling(Low(part), 7 * i);
    OrIsSum(value, Low(part), 7 * i);
  }

  lemma RoundFits(i: nat)
    requires i < 5
    ensures i < 4 ==> Pow2(7 * (i + 1)) <= 0x1000_0000
    ensures i == 4 ==> Pow2(7 * i) == 0x1000_0000
  {
    Powers();
    if i == 0 {} else if i == 1 {} else if i == 2 {} else if i == 3 {}
  }

  /** artifactbundle/bundle.go:291-308, with the uint32 shift and or on their 32-bit meaning. */
  method ReadU32(data: seq<byte>, offset: nat) returns (r: Option<Reading>)
    ensures r == ReadAt(data, offset)
  {
    hide ReadAt, Place, Low, Pow2, BitOr, ShiftLeft32;
    ghost var goal := ReadAt(data, offset);
    var value: nat, at: nat := 0, offset;
    ReadIsRounds(data, offset, value);
    assert value < Pow2(0) by { PowZero(); }
    for i := 0 to 5
      invariant value < Pow2(7 * i)
      invariant goal == Rounds(data, at, i, value)
    {
      if at >= |data| { return None; }
      var part := data[at];
      at := at + 1;
      if i == 4 && (More(part) || part > 1) { return None; }
      DigitStep(value, i, part);
      value := BitOr(value, ShiftLeft32(Low(part), 7 * i));
      if !More(part) { return Some(Reading(value, at)); }
    }
    return None;
  }

  lemma ReadIsRounds(data: seq<byte>, offset: nat, value: nat)
    requires value == 0
    ensures ReadAt(data, offset) == Rounds(data, offset, 0, value)
  {
    RoundsRead(data, offset, 0, value);
  }

  // ---------------------------------------------------------------------------------------
  // Concrete syntax of the import section as the check reads it
  // ---------------------------------------------------------------------------------------

  datatype Name = Name(size: U32, chars: seq<byte>) {
    ghost predicate Valid() { size.Valid() && size.Value() == |chars| }
    ghost predicate Small() { size.Small() }
    ghost function Bytes(): seq<byte> { size.bytes + chars }
  }

  datatype Limits = Limits(flags: U32, min: U32, max: Option<U32>) {
    ghost predicate Valid() {
      && flags.Valid() && min.Valid()
      && (flags.Value() % 2 == 1 <==> max.Some?)
      && (max.Some? ==> max.value.Valid())
    }
    ghost predicate Small() {
      flags.Small() && min.Small() && (max.Some? ==> max.value.Small())
    }
    ghost function Bytes(): seq<byte> {
      flags.bytes + (min.bytes + if max.Some? then max.value.bytes else [])
    }
  }

  datatype ImportDesc =
    | FuncImport(typeIndex: U32)
    | TableImport(elemType: byte, limits: Limits)
    | MemoryImport(limits: Limits)
    | GlobalImport(valType: byte, mutability: byte)
  {
    ghost predicate Valid() {
      match this
      case FuncImport(index) => index.Valid()
      case TableImport(_, limits) => limits.Valid()
      case MemoryImport(limits) => limits.Valid()
      case GlobalImport(_, _) => true
    }
    ghost predicate Small() {
      match this
      case FuncImport(index) => index.Small()
      case TableImport(_, limits) => limits.Small()
      case MemoryImport(limits) => limits.Small()
      case GlobalImport(_, _) => true
    }
    ghost function Bytes(): seq<byte> {
      match this
      case FuncImport(index) => [0] + index.bytes
      case TableImport(elemType, limits) => [1] + ([elemType] + limits.Bytes())
      case MemoryImport(limits) => [2] + limits.Bytes()
      case GlobalImport(valType, mutability) => [3] + [valType, mutability]
    }
  }

  datatype Import = Import(mod: Name, field: Name, desc: ImportDesc) {
    ghost predicate Valid() { mod.Valid() && field.Valid() && desc.Valid() }
    ghost predicate Small() { mod.Small() && field.Small() && desc.Small() }
    ghost predicate Wasi() { mod.chars == WASI_PREVIEW1 }
    ghost function Bytes(): seq<byte> { mod.Bytes() + (field.Bytes() + desc.Bytes()) }
  }

  ghost function ImportsBytes(imports: seq<Import>): seq<byte> {
    if imports == [] then [] else imports[0].Bytes() + ImportsBytes(imports[1..])
  }

  datatype ImportSection = ImportSection(count: U32, imports: seq<Import>) {
    ghost predicate Valid() {
      && count.Valid() && count.Value() == |imports|
      && (forall i | 0 <= i < |imports| :: imports[i].Valid())
    }
    ghost predicate Small() {
      count.Small() && forall i | 0 <= i < |imports| :: imports[i].Small()
    }
    ghost predicate AllWasi() { forall i | 0 <= i < |imports| :: imports[i].Wasi() }
    ghost function Bytes(): seq<byte> { count.bytes + ImportsBytes(imports) }
  }

  function Ascii(s: string): seq<byte> {
    seq(|s|, i requires 0 <= i < |s| => (s[i] as int) % 0x80)
  }

  const WASI_PREVIEW1 := Ascii("wasi_snapshot_preview1")

  // ---------------------------------------------------------------------------------------
  // What the parser takes from the front of its input
  // ---------------------------------------------------------------------------------------

  ghost function TakeName(data: seq<byte>): (r: Option<Name>)
    ensures r.Some? ==> |r.value.Bytes()| <= |data|
  {
    match TakeU32(data, U32_BYTES)
    case None => None
    case Some(size) =>
      var rest := data[|size.bytes|..];
      if size.Value() > |rest| then None else Some(Name(size, rest[..size.Value()]))
  }

  ghost function TakeLimits(data: seq<byte>): (r: Option<Limits>)
    ensures r.Some? ==> |r.value.Bytes()| <= |data|
  {
    match TakeU32(data, U32_BYTES)
    case None => None
    case Some(flags) =>
      var afterFlags := data[|flags.bytes|..];
      match TakeU32(afterFlags, U32_BYTES)
      case None => None
      case Some(min) =>
        if flags.Value() % 2 == 0 then Some(Limits(flags, min, None))
        else match TakeU32(afterFlags[|min.bytes|..], U32_BYTES)
          case None => None
          case Some(max) => Some(Limits(flags, min, Some(max)))
  }

  ghost function TakeDesc(data: seq<byte>): (r: Option<ImportDesc>)
    ensures r.Some? ==> |r.value.Bytes()| <= |data|
  {
    if data == [] then None
    else if data[0] == 0 then
      match TakeU32(data[1..], U32_BYTES)
      case None => None
      case Some(index) => Some(FuncImport(index))
    else if data[0] == 1 then
      if |data| < 2 then None
      else match TakeLimits(data[2..])
        case None => None
        case Some(limits) => Some(TableImport(data[1], limits))
    else if data[0] == 2 then
      match TakeLimits(data[1..])
      case None => None
      case Some(limits) => Some(MemoryImport(limits))
    else if data[0] == 3 && |data| >= 3 then Some(GlobalImport(data[1], data[2]))
    else None
  }

  lemma NameComplete(name: Name, rest: seq<byte>)
    requires name.Valid()
    ensures TakeName(name.Bytes() + rest) == if name.Small() then Some(name) else None
  {
    var data := name.Bytes() + rest;
    assert data == name.size.bytes + (name.chars + rest);
    ReadsExactlySmall(name.size, name.chars + rest);
    assert data[|name.size.bytes|..] == name.chars + rest;
  }

  lemma NameSound(data: seq<byte>)
    requires TakeName(data).Some?
    ensures var name := TakeName(data).value; name.Valid() && name.Small() && name.Bytes() <= data
  {
    TakenIsSmall(data);
    var name := TakeName(data).value;
    assert data == name.size.bytes + data[|name.size.bytes|..];
  }

  lemma LimitsComplete(limits: Limits, rest: seq<byte>)
    requires limits.Valid()
    ensures TakeLimits(limits.Bytes() + rest) == if limits.Small() then Some(limits) else None
  {
    var data := limits.Bytes() + rest;
    var maxBytes := if limits.max.Some? then limits.max.value.bytes else [];
    assert data == limits.flags.bytes + (limits.min.bytes + (maxBytes + rest));
    ReadsExactlySmall(limits.flags, limits.min.bytes + (maxBytes + rest));
    ReadsExactlySmall(limits.min, maxBytes + rest);
    assert data[|limits.flags.bytes|..] == limits.min.bytes + (maxBytes + rest);
    assert (limits.min.bytes + (maxBytes + rest))[|limits.min.bytes|..] == maxBytes + rest;
    if limits.max.Some? {
      ReadsExactlySmall(limits.max.value, rest);
    }
  }

  lemma FrontThenInner(front: seq<byte>, inner: seq<byte>, data: seq<byte>)
    requires front <= data && inner <= data[|front|..]
    ensures front + inner <= data
  {
    assert data == front + (inner + data[|front|..][|inner|..]);
  }

  lemma LimitsParts(data: seq<byte>)
    requires TakeLimits(data).Some?
    ensures var limits := TakeLimits(data).value;
            && (limits.flags.Value() % 2 == 1 <==> limits.max.Some?)
            && TakeU32(data, U32_BYTES) == Some(limits.flags)
            && TakeU32(data[|limits.flags.bytes|..], U32_BYTES) == Some(limits.min)
            && (limits.max.Some? ==>
                  TakeU32(data[|limits.flags.bytes|..][|limits.min.bytes|..], U32_BYTES) == limits.max)
  {
    hide TakeU32, U32.Value, U32.Valid, U32.Small;
  }

  lemma LimitsSound(data: seq<byte>)
    requires TakeLimits(data).Some?
    ensures var limits := TakeLimits(data).value;
            limits.Valid() && limits.Small() && limits.Bytes() <= data
  {
    hide TakeLimits, TakeU32, U32.Value, U32.Valid, U32.Small;
    LimitsParts(data);
    var limits := TakeLimits(data).value;
    var afterFlags := data[|limits.flags.bytes|..];
    var maxBytes := if limits.max.Some? then limits.max.value.bytes else [];
    TakenIsSmall(data);
    TakenIsSmall(afterFlags);
    if limits.max.Some? { TakenIsSmall(afterFlags[|limits.min.bytes|..]); }
    FrontThenInner(limits.min.bytes, maxBytes, afterFlags);
    FrontThenInner(limits.flags.bytes, limits.min.bytes + maxBytes, data);
  }

  lemma FuncComplete(index: U32, rest: seq<byte>)
    requires index.Valid()
    ensures TakeDesc([0] + index.bytes + rest) == if index.Small() then Some(FuncImport(index)) else None
  {
    hide TakeU32, TakeLimits, U32.Valid, U32.Small, U32.Value;
    assert ([0] + index.bytes + rest)[1..] == index.bytes + rest;
    ReadsExactlySmall(index, rest);
  }

  lemma TableComplete(elemType: byte, limits: Limits, rest: seq<byte>)
    requires limits.Valid()
    ensures TakeDesc([1] + ([elemType] + limits.Bytes()) + rest)
         == if limits.Small() then Some(TableImport(elemType, limits)) else None
  {
    hide TakeU32, TakeLimits, Limits.Valid, Limits.Small, Limits.Bytes;
    var data := [1] + ([elemType] + limits.Bytes()) + rest;
    assert data[1] == elemType && data[2..] == limits.Bytes() + rest;
    LimitsComplete(limits, rest);
  }

  lemma MemoryComplete(limits: Limits, rest: seq<byte>)
    requires limits.Valid()
    ensures TakeDesc([2] + limits.Bytes() + rest) == if limits.Small() then Some(MemoryImport(limits)) else None
  {
    hide TakeU32, TakeLimits, Limits.Valid, Limits.Small, Limits.Bytes;
    assert ([2] + limits.Bytes() + rest)[1..] == limits.Bytes() + rest;
    LimitsComplete(limits, rest);
  }

  lemma DescComplete(desc: ImportDesc, rest: seq<byte>)
    requires desc.Valid()
    ensures TakeDesc(desc.Bytes() + rest) == if desc.Small() then Some(desc) else None
  {
    hide TakeU32, TakeLimits, U32.Valid, U32.Small, Limits.Valid, Limits.Small, Limits.Bytes;
    match desc
    case FuncImport(index) => FuncComplete(index, rest);
    case TableImport(elemType, limits) => TableComplete(elemType, limits, rest);
    case MemoryImport(limits) => MemoryComplete(limits, rest);
    case GlobalImport(valType, mutability) =>
  }

  lemma DescSound(data: seq<byte>)
    requires TakeDesc(data).Some?
    ensures var desc := TakeDesc(data).value; desc.Valid() && desc.Small() && desc.Bytes() <= data
  {
    hide TakeU32, TakeLimits, Limits.Bytes, Limits.Valid, Limits.Small, U32.Valid, U32.Small, U32.Value;
    match TakeDesc(data).value
    case FuncImport(index) =>
      TakenIsSmall(data[1..]);
      FrontThenInner([0], index.bytes, data);
    case TableImport(elemType, limits) =>
      LimitsSound(data[2..]);
      assert data[1..][1..] == data[2..];
      FrontThenInner([elemType], limits.Bytes(), data[1..]);
      FrontThenInner([1], [elemType] + limits.Bytes(), data);
    case MemoryImport(limits) =>
      LimitsSound(data[1..]);
      FrontThenInner([2], limits.Bytes(), data);
    case GlobalImport(valType, mutability) =>
      FrontThenInner([3], [valType, mutability], data);
  }

  ghost function TakeImport(data: seq<byte>): (r: Option<Import>) {
    match TakeName(data)
    case None => None
    case Some(mod) =>
      var afterMod := data[|mod.Bytes()|..];
      match TakeName(afterMod)
      case None => None
      case Some(field) =>
        match TakeDesc(afterMod[|field.Bytes()|..])
        case None => None
        case Some(desc) => Some(Import(mod, field, desc))
  }

  lemma ImportComplete(imp: Import, rest: seq<byte>)
    requires imp.Valid()
    ensures TakeImport(imp.Bytes() + rest) == if imp.Small() then Some(imp) else None
  {
    hide TakeName, TakeDesc, Name.Bytes, Name.Valid, Name.Small, ImportDesc.Bytes, ImportDesc.Valid, ImportDesc.Small;
    var data := imp.Bytes() + rest;
    var afterField := imp.desc.Bytes() + rest;
    var afterMod := imp.field.Bytes() + afterField;
    assert data == imp.mod.Bytes() + afterMod;
    NameComplete(imp.mod, afterMod);
    assert data[|imp.mod.Bytes()|..] == afterMod;
    NameComplete(imp.field, afterField);
    assert afterMod[|imp.field.Bytes()|..] == afterField;
    DescComplete(imp.desc, rest);
  }

  lemma ImportSound(data: seq<byte>)
    requires TakeImport(data).Some?
    ensures var imp := TakeImport(data).value; imp.Valid() && imp.Small() && imp.Bytes() <= data
  {
    hide TakeName, TakeDesc, Name.Bytes, Name.Valid, Name.Small, ImportDesc.Bytes, ImportDesc.Valid, ImportDesc.Small;
    var imp := TakeImport(data).value;
    var afterMod := data[|imp.mod.Bytes()|..];
    var afterField := afterMod[|imp.field.Bytes()|..];
    NameSound(data);
    NameSound(afterMod);
    DescSound(afterField);
    FrontThenInner(imp.field.Bytes(), imp.desc.Bytes(), afterMod);
    FrontThenInner(imp.mod.Bytes(), imp.field.Bytes() + imp.desc.Bytes(), data);
  }

  // ---------------------------------------------------------------------------------------
  // The verdict on an import section
  // ---------------------------------------------------------------------------------------

  datatype Verdict = Accepted | UnsupportedModule(name: seq<byte>) | InvalidImports | InvalidSection

  datatype Step = Passed(rest: seq<byte>) | Refused(verdict: Verdict)

  // The validator's handling of one import: what is left after it, or why it is refused.
  ghost function CheckImport(data: seq<byte>): Step {
    match TakeName(data)
    case None => Refused(InvalidImports)
    case Some(mod) =>
      var afterMod := data[|mod.Bytes()|..];
      match TakeName(afterMod)
      case None => Refused(InvalidImports)
      case Some(field) =>
        var afterField := afterMod[|field.Bytes()|..];
        if mod.chars != WASI_PREVIEW1 then Refused(UnsupportedModule(mod.chars))
        else match TakeDesc(afterField)
          case None => Refused(InvalidImports)
          case Some(desc) => Passed(afterField[|desc.Bytes()|..])
  }

  // The verdict on count imports that must fill data exactly.
  ghost function CheckImports(data: seq<byte>, count: nat): Verdict
    decreases count
  {
    if count == 0 then
      if data == [] then Accepted else InvalidImports
    else match CheckImport(data)
      case Refused(verdict) => verdict
      case Passed(rest) => CheckImports(rest, count - 1)
  }

  ghost function CheckSection(section: seq<byte>): Verdict {
    match TakeU32(section, U32_BYTES)
    case None => InvalidImports
    case Some(count) => CheckImports(section[|count.bytes|..], count.Value())
  }

  // An import passes exactly when it parses and its module is the allowed one.
  lemma CheckedImport(data: seq<byte>)
    ensures CheckImport(data).Refused? ==> CheckImport(data).verdict != Accepted
    ensures CheckImport(data).Passed? <==> TakeImport(data).Some? && TakeImport(data).value.Wasi()
    ensures CheckImport(data).Passed? ==> data == TakeImport(data).value.Bytes() + CheckImport(data).rest
  {
    hide TakeU32, TakeName, TakeDesc, Name.Bytes, ImportDesc.Bytes, U32.Valid, U32.Small, U32.Value, WASI_PREVIEW1;
    if TakeImport(data).Some? {
      var imp := TakeImport(data).value;
      ImportSound(data);
      assert data[|imp.Bytes()|..]
          == data[|imp.mod.Bytes()|..][|imp.field.Bytes()|..][|imp.desc.Bytes()|..];
    }
  }

  lemma CheckedEncoding(imp: Import, rest: seq<byte>)
    requires imp.Valid()
    ensures CheckImport(imp.Bytes() + rest).Refused? ==> CheckImport(imp.Bytes() + rest).verdict != Accepted
    ensures CheckImport(imp.Bytes() + rest).Passed? <==> imp.Small() && imp.Wasi()
    ensures imp.Small() && imp.Wasi() ==> CheckImport(imp.Bytes() + rest) == Passed(rest)
  {
    ImportComplete(imp, rest);
    CheckedImport(imp.Bytes() + rest);
    if imp.Small() && imp.Wasi() {
      var left := CheckImport(imp.Bytes() + rest).rest;
      assert left == (imp.Bytes() + left)[|imp.Bytes()|..] == (imp.Bytes() + rest)[|imp.Bytes()|..] == rest;
    }
  }

  lemma {:induction false} ImportsComplete(imports: seq<Import>)
    requires forall i | 0 <= i < |imports| :: imports[i].Valid()
    ensures CheckImports(ImportsBytes(imports), |imports|).Accepted?
       <==> forall i | 0 <= i < |imports| :: imports[i].Small() && imports[i].Wasi()
  {
    hide CheckImport, Import.Bytes;
    if imports != [] {
      var first, rest := imports[0], imports[1..];
      CheckedEncoding(first, ImportsBytes(rest));
      ImportsComplete(rest);
      assert forall i | 0 < i < |imports| :: imports[i] == rest[i - 1];
    }
  }

  // Accepted bytes are the encoding of imports, all of them of the one allowed module.
  lemma {:induction false} ImportsSound(data: seq<byte>, count: nat) returns (imports: seq<Import>)
    ensures CheckImports(data, count).Accepted? ==> |imports| == count && ImportsBytes(imports) == data
    ensures forall i | 0 <= i < |imports| :: imports[i].Valid() && imports[i].Small() && imports[i].Wasi()
    decreases count
  {
    hide CheckImport, Import.Bytes, TakeImport;
    imports := [];
    CheckedImport(data);
    if count > 0 && CheckImport(data).Passed? {
      ImportSound(data);
      var tail := ImportsSound(CheckImport(data).rest, count - 1);
      imports := [TakeImport(data).value] + tail;
      assert imports[1..] == tail;
    }
  }

  // For every well-formed section: accepted exactly when its integers are in the reader's range
  // and every module is the allowed one.
  lemma EncodedSectionVerdict(section: ImportSection)
    requires section.Valid()
    ensures CheckSection(section.Bytes()).Accepted? <==> section.Small() && section.AllWasi()
  {
    ReadsExactlySmall(section.count, ImportsBytes(section.imports));
    assert section.Bytes()[|section.count.bytes|..] == ImportsBytes(section.imports);
    ImportsComplete(section.imports);
  }

  ghost predicate IsWasiSection(section: ImportSection, data: seq<byte>) {
    section.Valid() && section.Small() && section.AllWasi() && section.Bytes() == data
  }

  // For every byte string: accepted exactly when it is the encoding of such a section.
  lemma AcceptedIffEncodesWasiSection(data: seq<byte>)
    ensures CheckSection(data).Accepted? <==> exists section :: IsWasiSection(section, data)
  {
    if CheckSection(data).Accepted? {
      var count := TakeU32(data, U32_BYTES).value;
      TakenIsSmall(data);
      var imports := ImportsSound(data[|count.bytes|..], count.Value());
      assert IsWasiSection(ImportSection(count, imports), data);
    }
    if section :| IsWasiSection(section, data) {
      EncodedSectionVerdict(section);
    }
  }

  // ---------------------------------------------------------------------------------------
  // The parser itself
  // ---------------------------------------------------------------------------------------

  ghost function NameAt(data: seq<byte>, offset: nat): Option<(seq<byte>, nat)> {
    match TakeName(Suffix(data, offset))
    case None => None
    case Some(name) => Some((name.chars, offset + |name.Bytes()|))
  }

  /** artifactbundle/bundle.go:261-268 */
  method ReadName(data: seq<byte>, offset: nat) returns (r: Option<(seq<byte>, nat)>)
    ensures r == NameAt(data, offset)
    ensures r.Some? ==> offset <= r.value.1 <= |data|
  {
    var size := ReadU32(data, offset);
    if size.None? || size.value.next > |data| || size.value.value > |data| - size.value.next {
      return None;
    }
    var end := size.value.next + size.value.value;
    ghost var taken := TakeU32(Suffix(data, offset), U32_BYTES).value;
    assert Suffix(data, offset)[|taken.bytes|..] == data[size.value.next..];
    assert data[size.value.next..][..taken.Value()] == data[size.value.next..end];
    return Some((data[size.value.next..end], end));
  }

  ghost function LimitsEnd(data: seq<byte>, offset: nat): Option<nat> {
    match TakeLimits(Suffix(data, offset))
    case None => None
    case Some(limits) => Some(offset + |limits.Bytes()|)
  }

  /** artifactbundle/bundle.go:277-289; flags & 1 is the parity of the flags. */
  method SkipLimits(data: seq<byte>, offset: nat) returns (r: Option<nat>)
    ensures r == LimitsEnd(data, offset)
    ensures r.Some? ==> offset <= r.value <= |data|
  {
    hide TakeU32, U32.Value;
    var flags := ReadU32(data, offset);
    if flags.None? { return None; }
    var min := ReadU32(data, flags.value.next);
    ghost var suffix := Suffix(data, offset);
    ghost var flagBytes := TakeU32(suffix, U32_BYTES).value.bytes;
    assert suffix[|flagBytes|..] == Suffix(data, flags.value.next);
    if min.None? { return None; }
    if flags.value.value % 2 == 0 { return Some(min.value.next); }
    var max := ReadU32(data, min.value.next);
    ghost var minBytes := TakeU32(Suffix(data, flags.value.next), U32_BYTES).value.bytes;
    assert Suffix(data, flags.value.next)[|minBytes|..] == Suffix(data, min.value.next);
    if max.None? { return None; }
    return Some(max.value.next);
  }

  /** artifactbundle/bundle.go:270-275 */
  method SkipTableType(data: seq<byte>, offset: nat) returns (r: Option<nat>)
    ensures r == if offset < |data| then LimitsEnd(data, offset + 1) else None
    ensures r.Some? ==> offset <= r.value <= |data|
  {
    if offset >= |data| { return None; }
    r := SkipLimits(data, offset + 1);
  }

  /** artifactbundle/bundle.go:230-254: the kind byte and the type it announces. */
  method SkipDesc(data: seq<byte>, offset: nat) returns (r: Option<nat>)
    requires offset <= |data|
    ensures r == match TakeDesc(data[offset..])
                 case None => None
                 case Some(desc) => Some(offset + |desc.Bytes()|)
    ensures r.Some? ==> offset <= r.value <= |data|
  {
    if offset >= |data| { return None; }
    var kind, at := data[offset], offset + 1;
    assert data[offset..][1..] == data[at..];
    if kind == 0 {
      var index := ReadU32(data, at);
      r := if index.None? then None else Some(index.value.next);
    } else if kind == 1 {
      r := SkipTableType(data, at);
      if at < |data| { assert data[offset..][2..] == Suffix(data, at + 1); }
    } else if kind == 2 {
      r := SkipLimits(data, at);
    } else if kind == 3 && at + 2 <= |data| {
      r := Some(at + 2);
    } else {
      r := None;
    }
  }

  ghost function Remaining(data: seq<byte>, offset: Option<nat>, verdict: Verdict): Step {
    match offset
    case None => Refused(verdict)
    case Some(at) => if at <= |data| then Passed(data[at..]) else Refused(verdict)
  }

  /** artifactbundle/bundle.go:219-254: one round of the section loop. */
  method ValidateImport(section: seq<byte>, offset: nat) returns (next: Option<nat>, verdict: Verdict)
    requires offset <= |section|
    ensures CheckImport(section[offset..]) == Remaining(section, next, verdict)
    ensures next.Some? ==> next.value <= |section|
  {
    hide TakeU32, TakeName, TakeDesc, WASI_PREVIEW1, Name.Bytes, ImportDesc.Bytes;
    next, verdict := None, InvalidImports;
    ghost var left := section[offset..];
    var mod := ReadName(section, offset);
    if mod.None? { return; }
    ghost var afterMod := section[mod.value.1..];
    assert left[|TakeName(left).value.Bytes()|..] == afterMod;
    var field := ReadName(section, mod.value.1);
    if field.None? { return; }
    ghost var afterField := section[field.value.1..];
    assert afterMod[|TakeName(afterMod).value.Bytes()|..] == afterField;
    if mod.value.0 != WASI_PREVIEW1 { return None, UnsupportedModule(mod.value.0); }
    next := SkipDesc(section, field.value.1);
    if next.Some? {
      assert afterField[|TakeDesc(afterField).value.Bytes()|..] == section[next.value..];
    }
  }

  /** artifactbundle/bundle.go:213-259 */
  method ValidateImportSection(section: seq<byte>) returns (verdict: Verdict)
    ensures verdict == CheckSection(section)
  {
    hide TakeU32, CheckImport;
    var count := ReadU32(section, 0);
    assert Suffix(section, 0) == section;
    if count.None? { return InvalidImports; }
    var offset: nat := count.value.next;
    for i := 0 to count.value.value
      invariant offset <= |section|
      invariant CheckSection(section) == CheckImports(section[offset..], count.value.value - i)
    {
      var next, refusal := ValidateImport(section, offset);
      if next.None? { return refusal; }
      offset := next.value;
    }
    if offset != |section| { return InvalidImports; }
    return Accepted;
  }

  // ---------------------------------------------------------------------------------------
  // The module: an 8-byte header and a sequence of sections (section 5.5.2)
  // ---------------------------------------------------------------------------------------

  const HEADER_BYTES := 8
  const IMPORT_SECTION := 2
  const LAST_SECTION := 12

  datatype Section = Imports(size: U32, body: ImportSection) | Other(id: byte, size: U32, payload: seq<byte>)
  {
    ghost predicate Valid() {
      && size.Valid()
      && size.Value() == |Payload()|
      && match this
         case Imports(_, body) => body.Valid()
         case Other(id, _, _) => id != IMPORT_SECTION && id <= LAST_SECTION
    }
    ghost predicate Small() { size.Small() && (Imports? ==> body.Small()) }
    ghost function Payload(): seq<byte> { if Imports? then body.Bytes() else payload }
    ghost function Bytes(): seq<byte> {
      [if Imports? then IMPORT_SECTION else id] + (size.bytes + Payload())
    }
  }

  ghost function SectionsBytes(sections: seq<Section>): seq<byte> {
    if sections == [] then [] else sections[0].Bytes() + SectionsBytes(sections[1..])
  }

  datatype Cut = Cut(id: byte, payload: seq<byte>, rest: seq<byte>)

  // The first section of nonempty input: its id, its payload and what follows.
  ghost function CutSection(data: seq<byte>): (r: Option<Cut>)
    requires data != []
    ensures r.Some? ==> |r.value.rest| < |data|
  {
    match TakeU32(data[1..], U32_BYTES)
    case None => None
    case Some(size) =>
      var rest := data[1 + |size.bytes|..];
      if size.Value() > |rest| then None
      else Some(Cut(data[0], rest[..size.Value()], rest[size.Value()..]))
  }

  ghost function CheckSections(data: seq<byte>): Verdict
    decreases |data|
  {
    if data == [] then Accepted
    else match CutSection(data)
      case None => InvalidSection
      case Some(cut) =>
        if cut.id == IMPORT_SECTION then CheckSection(cut.payload)
        else if cut.id > LAST_SECTION then InvalidSection
        else CheckSections(cut.rest)
  }

  // The section that starts at an offset, in terms of the size read behind its id.
  lemma CutAt(wasm: seq<byte>, offset: nat)
    requires offset < |wasm|
    ensures CutSection(wasm[offset..])
         == match ReadAt(wasm, offset + 1)
            case None => None
            case Some(size) =>
              if size.next > |wasm| || size.value > |wasm| - size.next then None
              else
                Some(Cut(wasm[offset], wasm[size.next..size.next + size.value], wasm[size.next + size.value..]))
  {
    hide TakeU32, U32.Value;
    var data := wasm[offset..];
    assert data[1..] == Suffix(wasm, offset + 1);
    var size := TakeU32(data[1..], U32_BYTES);
    if size.Some? {
      var next, value := offset + 1 + |size.value.bytes|, size.value.Value();
      assert data[1 + |size.value.bytes|..] == wasm[next..];
      if value <= |wasm| - next {
        assert wasm[next..][..value] == wasm[next..next + value];
        assert wasm[next..][value..] == wasm[next + value..];
      }
    }
  }

  /** artifactbundle/bundle.go:193-211 */
  method ValidateImports(wasm: seq<byte>) returns (verdict: Verdict)
    ensures verdict == CheckSections(Suffix(wasm, HEADER_BYTES))
  {
    hide CutSection, CheckSection, ReadAt;
    var offset: nat := HEADER_BYTES;
    while offset < |wasm|
      invariant offset <= |wasm| || Suffix(wasm, HEADER_BYTES) == []
      invariant CheckSections(Suffix(wasm, HEADER_BYTES)) == CheckSections(Suffix(wasm, offset))
      decreases |wasm| - offset
    {
      CutAt(wasm, offset);
      var sectionID := wasm[offset];
      var size := ReadU32(wasm, offset + 1);
      if size.None? || size.value.next > |wasm| || size.value.value > |wasm| - size.value.next {
        return InvalidSection;
      }
      var next := size.value.next;
      var end := next + size.value.value;
      if sectionID == IMPORT_SECTION {
        verdict := ValidateImportSection(wasm[next..end]);
        return;
      }
      if sectionID > LAST_SECTION { return InvalidSection; }
      offset := end;
    }
    return Accepted;
  }

  lemma CutEncoded(section: Section, rest: seq<byte>)
    requires section.Valid()
    ensures CutSection(section.Bytes() + rest)
         == if section.size.Small()
            then Some(Cut(if section.Imports? then IMPORT_SECTION else section.id, section.Payload(), rest))
            else None
  {
    hide TakeU32, ImportSection.Valid, ImportSection.Bytes, U32.Small, U32.Value, U32.Valid;
    var data, payload := section.Bytes() + rest, section.Payload();
    assert section.size.Valid();
    assert data[1..] == section.size.bytes + (payload + rest);
    ReadsExactlySmall(section.size, payload + rest);
    assert data[1 + |section.size.bytes|..] == payload + rest;
    assert (payload + rest)[..|payload|] == payload && (payload + rest)[|payload|..] == rest;
  }

  // What decides: every integer up to and including the first import section is in the reader's
  // range, and the imports of that section are all of the allowed module.
  ghost predicate Admissible(sections: seq<Section>) {
    sections == []
    || (&& sections[0].Small()
        && if sections[0].Imports? then sections[0].body.AllWasi() else Admissible(sections[1..]))
  }

  lemma {:induction false} EncodedModuleVerdict(sections: seq<Section>)
    requires forall i | 0 <= i < |sections| :: sections[i].Valid()
    ensures CheckSections(SectionsBytes(sections)).Accepted? <==> Admissible(sections)
  {
    hide CutSection, CheckSection, ImportSection.Small, ImportSection.AllWasi, U32.Small;
    if sections != [] {
      var first, rest := sections[0], sections[1..];
      assert first.Bytes() + SectionsBytes(rest) != [];
      CutEncoded(first, SectionsBytes(rest));
      if first.Imports? {
        EncodedSectionVerdict(first.body);
      } else {
        EncodedModuleVerdict(rest);
      }
    }
  }

  // With at most one import section and every integer below 2^29: accepted if and only if every
  // import of the module is of the allowed module.
  lemma {:induction false} AcceptedIffEveryImportIsWasi(header: seq<byte>, sections: seq<Section>)
    requires |header| == HEADER_BYTES
    requires forall i | 0 <= i < |sections| :: sections[i].Valid() && sections[i].Small()
    requires forall i, j | 0 <= i < j < |sections| :: !(sections[i].Imports? && sections[j].Imports?)
    ensures CheckSections(Suffix(header + SectionsBytes(sections), HEADER_BYTES)).Accepted?
       <==> forall i | 0 <= i < |sections| && sections[i].Imports? :: sections[i].body.AllWasi()
  {
    assert Suffix(header + SectionsBytes(sections), HEADER_BYTES) == SectionsBytes(sections);
    EncodedModuleVerdict(sections);
    OneImportSection(sections);
  }

  lemma {:induction false} OneImportSection(sections: seq<Section>)
    requires forall i | 0 <= i < |sections| :: sections[i].Small()
    requires forall i, j | 0 <= i < j < |sections| :: !(sections[i].Imports? && sections[j].Imports?)
    ensures Admissible(sections)
       <==> forall i | 0 <= i < |sections| && sections[i].Imports? :: sections[i].body.AllWasi()
  {
    hide Section.Small, ImportSection.AllWasi;
    if sections != [] {
      var rest := sections[1..];
      assert forall i | 0 < i < |sections| :: sections[i] == rest[i - 1];
      if !sections[0].Imports? { OneImportSection(rest); }
    }
  }

  // For arbitrary bytes: an accepted module is sections without imports, ended either by the end
  // of the module or by an encoded import section whose imports are all of the allowed module;
  // what follows that section is not looked at.
  lemma {:induction false} AcceptedModuleShape(data: seq<byte>)
      returns (sections: seq<Section>, imports: Option<Section>, unread: seq<byte>)
    requires CheckSections(data).Accepted?
    ensures forall i | 0 <= i < |sections| :: sections[i].Other? && sections[i].Valid() && sections[i].Small()
    ensures match imports
            case None => data == SectionsBytes(sections)
            case Some(section) =>
              && section.Imports? && section.Valid() && section.Small() && section.body.AllWasi()
              && data == SectionsBytes(sections) + (section.Bytes() + unread)
    decreases |data|
  {
    hide TakeU32, CheckSection, CutSection, ImportSection.Valid, ImportSection.Small, ImportSection.AllWasi,
         ImportSection.Bytes, U32.Valid, U32.Small, U32.Value, Section.Valid, Section.Small, Section.Bytes;
    sections, imports, unread := [], None, [];
    if data != [] {
      var cut := CutSection(data).value;
      if cut.id == IMPORT_SECTION {
        var section := CutImports(data);
        imports, unread := Some(section), cut.rest;
        assert SectionsBytes([]) + (section.Bytes() + unread) == section.Bytes() + unread;
      } else {
        var first := CutOther(data);
        sections, imports, unread := AcceptedModuleShape(cut.rest);
        assert ([first] + sections)[1..] == sections;
        if imports.Some? {
          assert first.Bytes() + (SectionsBytes(sections) + (imports.value.Bytes() + unread))
              == first.Bytes() + SectionsBytes(sections) + (imports.value.Bytes() + unread);
        }
        sections := [first] + sections;
      }
    }
  }

  // A cut leaves the section's size, payload and rest side by side.
  lemma CutParts(data: seq<byte>) returns (size: U32)
    requires data != [] && CutSection(data).Some?
    ensures var cut := CutSection(data).value;
            && size.Valid() && size.Small() && size.Value() == |cut.payload|
            && data == [cut.id] + (size.bytes + cut.payload) + cut.rest
  {
    hide TakeU32, U32.Valid, U32.Small, U32.Value;
    var cut := CutSection(data).value;
    size := TakeU32(data[1..], U32_BYTES).value;
    TakenIsSmall(data[1..]);
    assert data == [data[0]] + data[1..] && data[1..] == size.bytes + data[1 + |size.bytes|..];
    assert data == [cut.id] + (size.bytes + cut.payload) + cut.rest;
  }

  lemma CutImports(data: seq<byte>) returns (section: Section)
    requires data != [] && CutSection(data).Some? && CutSection(data).value.id == IMPORT_SECTION
    requires CheckSection(CutSection(data).value.payload).Accepted?
    ensures section.Imports? && section.Valid() && section.Small() && section.body.AllWasi()
    ensures data == section.Bytes() + CutSection(data).value.rest
  {
    hide TakeU32, CheckSection, CutSection, U32.Valid, U32.Small, U32.Value;
    hide ImportSection.Valid, ImportSection.Small, ImportSection.AllWasi, ImportSection.Bytes;
    var cut := CutSection(data).value;
    var size := CutParts(data);
    AcceptedIffEncodesWasiSection(cut.payload);
    var body :| IsWasiSection(body, cut.payload);
    section := Imports(size, body);
  }

  lemma CutOther(data: seq<byte>) returns (section: Section)
    requires data != [] && CutSection(data).Some?
    requires CutSection(data).value.id != IMPORT_SECTION && CutSection(data).value.id <= LAST_SECTION
    ensures section.Other? && section.Valid() && section.Small()
    ensures data == section.Bytes() + CutSection(data).value.rest
  {
    hide TakeU32, CutSection, U32.Valid, U32.Small, U32.Value;
    var cut := CutSection(data).value;
    var size := CutParts(data);
    section := Other(cut.id, size, cut.payload);
  }
}
