/**
 * What the two binding engines share: the reflection facts they read about
 * a destination struct (field kinds, values, tags, visibility, companion
 * Set<Name> methods), the errors and panics they produce, the Decoder
 * interface, and the helper that capitalises a field name.
 *
 * Go reflection is replaced by explicit data: a StructType lists the fields
 * in declaration order and the methods declared on *T by name; the
 * destination itself is the sequence (in the engines, an array) of the
 * fields' current values.
 */
module Binding {
  import opened Wrappers
  import Strconv

  /**
   * reflect.Kind. Array, Chan, Func, Interface, Map, Ptr, Slice, Struct
   * and the unsafe kind, which no engine converts to, are folded into Composite.
   */
  datatype Kind =
    | Bool | Int | Int8 | Int16 | Int32 | Int64
    | Uint | Uint8 | Uint16 | Uint32 | Uint64 | Uintptr
    | Float32 | Float64 | Complex64 | Complex128
    | String
    | Composite(name: string)

  predicate IsSignedInt(k: Kind) {
    k == Int || k == Int8 || k == Int16 || k == Int32 || k == Int64
  }

  /** The unsigned kinds with an explicit width (not uint or uintptr). */
  predicate IsSizedUint(k: Kind) {
    k == Uint8 || k == Uint16 || k == Uint32 || k == Uint64
  }

  /** Bit width of an integer kind; int, uint and uintptr are 64 bits wide (a 64-bit platform). */
  function Width(k: Kind): Strconv.BitSize
    requires IsSignedInt(k) || IsSizedUint(k) || k == Uint || k == Uintptr
  {
    match k
    case Int8 | Uint8 => 8
    case Int16 | Uint16 => 16
    case Int32 | Uint32 => 32
    case _ => 64
  }

  /** The value a field holds. */
  datatype FieldValue =
    | BoolVal(b: bool)
    | IntVal(i: int)
    | UintVal(n: nat)
    | FloatVal(x: real)
    | ComplexVal(re: real, im: real)
    | StringVal(s: string)
    | OpaqueVal(id: nat)

  /** 2^(width - 1) for a signed kind: its values lie in [-SignedLimit, SignedLimit). */
  function SignedLimit(k: Kind): nat
    requires IsSignedInt(k)
  {
    match k
    case Int8 => 0x80
    case Int16 => 0x8000
    case Int32 => 0x8000_0000
    case _ => 0x8000_0000_0000_0000
  }

  /** 2^width - 1 for an unsigned kind: its largest value. */
  function UnsignedMax(k: Kind): nat
    requires IsSizedUint(k) || k == Uint || k == Uintptr
  {
    match k
    case Uint8 => 0xFF
    case Uint16 => 0xFFFF
    case Uint32 => 0xFFFF_FFFF
    case _ => 0xFFFF_FFFF_FFFF_FFFF
  }

  /** The signed table is the power of two that strconv's ParseInt range check uses. */
  lemma SignedLimitIsPower(k: Kind)
    requires IsSignedInt(k)
    ensures SignedLimit(k) == Strconv.Pow2(Width(k) - 1)
  {
    Strconv.Pow2Widths();
    match k
    case Int8 => assert Width(k) - 1 == 7;
    case Int16 => assert Width(k) - 1 == 15;
    case Int32 => assert Width(k) - 1 == 31;
    case Int | Int64 => assert Width(k) - 1 == 63;
  }

  /** The unsigned table is the maximum that strconv's ParseUint range check uses. */
  lemma UnsignedMaxIsPower(k: Kind)
    requires IsSizedUint(k) || k == Uint || k == Uintptr
    ensures UnsignedMax(k) == Strconv.MaxUint(Width(k))
  {
    Strconv.Pow2Widths();
    match k
    case Uint8 => assert Strconv.MaxUint(8) == 0xFF;
    case Uint16 => assert Strconv.MaxUint(16) == 0xFFFF;
    case Uint32 => assert Strconv.MaxUint(32) == 0xFFFF_FFFF;
    case Uint64 | Uint | Uintptr => assert Strconv.MaxUint(64) == 0xFFFF_FFFF_FFFF_FFFF;
  }

  /** A value a field of the given kind can hold: the right variant, within the kind's width. */
  predicate Fits(k: Kind, v: FieldValue) {
    if IsSignedInt(k) then v.IntVal? && -(SignedLimit(k) as int) <= v.i < SignedLimit(k)
    else if IsSizedUint(k) || k == Uint || k == Uintptr then v.UintVal? && v.n <= UnsignedMax(k)
    else match k
      case Bool => v.BoolVal?
      case Float32 | Float64 => v.FloatVal?
      case Complex64 | Complex128 => v.ComplexVal?
      case String => v.StringVal?
      case _ => v.OpaqueVal?
  }

  /** A struct tag, already split into its key:"value" pairs. */
  type Tags = map<string, string>

  /** reflect.StructTag.Get: the value for key, or "" when the key is absent. */
  function TagGet(tags: Tags, key: string): (v: string)
    ensures key !in tags ==> v == ""
    ensures key in tags ==> v == tags[key]
  {
    if key in tags then tags[key] else ""
  }

  /** reflect.StructTag.Lookup: tells an absent key apart from an empty value. */
  function TagLookup(tags: Tags, key: string): (v: Option<string>)
    ensures v.Some? <==> key in tags
    ensures v.Some? ==> v.value == tags[key]
  {
    if key in tags then Some(tags[key]) else None
  }

  /** Go field names are never empty. */
  type FieldName = s: string | |s| > 0 witness "X"

  /**
   * reflect.StructField: its name, the name of its declared type
   * ("pkg.Type", the key of the setter registry), its kind, the package
   * path (non-empty exactly for unexported fields) and its tag.
   */
  datatype FieldDesc = FieldDesc(name: FieldName, typeName: string, kind: Kind, pkgPath: string, tags: Tags)

  /** A field that reflection cannot set: one whose PkgPath is not empty. */
  predicate IsPrivate(f: FieldDesc): (b: bool)
    ensures b <==> |f.pkgPath| > 0
  {
    f.pkgPath != ""
  }

  /** One value a method returned, as far as the engines look at it. */
  datatype Ret =
    | NilRet                 // a nil error, reference or interface
    | ErrorRet(msg: string)  // a non-nil error
    | NonNilRet              // a non-nil reference or interface that is not an error
    | NonNillableRet         // a value of a kind IsNil cannot inspect (int, string, struct, ...)

  /** What calling a method did: the fields it wrote (by index) and what it returned. */
  datatype Call = Call(writes: map<nat, FieldValue>, results: seq<Ret>)

  /** A method declared on the destination's *T, called with one string argument. */
  type Method = (seq<FieldValue>, string) -> Call

  /** The destination struct type: its name, its fields in declaration order, its methods by name. */
  datatype StructType = StructType(name: string, fields: seq<FieldDesc>, methods: map<string, Method>)

  /** The errors the engines return (the Cause of a PickError, or the error itself in decode.go). */
  datatype Cause =
    | NumErr(e: Strconv.NumError)              // a strconv parse failure
    | UnsupportedKind(kind: Kind)              // pick.go: "set <kind>: unsupported"
    | UnsupportedVType(kind: Kind)             // decode.go: "Unsupported VType <kind>"
    | MinLengthExceeded
    | MaxLengthExceeded
    | MinimumExceeded(value: real, bound: real)
    | MaximumExceeded
    | External(msg: string)                    // returned by a decoder, a setter or a Set<Name> method

  /** The reasons the engines panic. */
  datatype Panic =
    | PrivateField(field: string, setter: string)  // "private field <f>, missing <Set...>"
    | DuplicateSetter(typ: string)                 // "UseSetter(<typ>): already exists"
    | IsNilOnNonNillable                           // reflect.Value.IsNil on e.g. an int result
    | NotAnError                                   // the type assertion .(error) failed

  /** What setting one field came to. */
  datatype SetOutcome = SetOk | SetErr(cause: Cause) | SetPanic(panic: Panic)

  /**
   * How both engines read the results of a Set<Name> method: only the last
   * result matters; nil means success, an error is returned, anything else
   * panics (IsNil on a non-nillable value, or the failed type assertion).
   */
  function CallOutcome(results: seq<Ret>): (o: SetOutcome)
    ensures results == [] ==> o == SetOk
    ensures o.SetErr? <==> results != [] && results[|results| - 1].ErrorRet?
    ensures o.SetErr? ==> o.cause == External(results[|results| - 1].msg)
    ensures o.SetOk? <==> results == [] || results[|results| - 1] == NilRet
  {
    if results == [] then SetOk
    else
      match results[|results| - 1]
      case NilRet => SetOk
      case ErrorRet(msg) => SetErr(External(msg))
      case NonNilRet => SetPanic(NotAnError)
      case NonNillableRet => SetPanic(IsNilOnNonNillable)
  }

  /** The field values after the given writes. */
  function Apply(values: seq<FieldValue>, writes: map<nat, FieldValue>): (r: seq<FieldValue>)
    ensures |r| == |values|
    ensures forall i :: 0 <= i < |r| && i in writes ==> r[i] == writes[i]
    ensures forall i :: 0 <= i < |r| && i !in writes ==> r[i] == values[i]
  {
    seq(|values|, i requires 0 <= i < |values| => if i in writes then writes[i] else values[i])
  }

  /**
   * bytes.ToUpper applied to a one-byte slice. An ASCII byte is upper-cased;
   * a byte of 0x80 or more is not valid UTF-8 on its own, so it becomes
   * U+FFFD, whose first byte is 0xEF. Go strings are modelled one char per byte.
   */
  function UpperByte(c: char): (u: char)
    ensures 'a' <= c <= 'z' ==> u as int == c as int - 32 && 'A' <= u <= 'Z'
    ensures c as int < 0x80 && !('a' <= c <= 'z') ==> u == c
    ensures c as int >= 0x80 ==> u as int == 0xEF
  {
    if 'a' <= c <= 'z' then (c as int - 32) as char
    else if c as int >= 0x80 then 0xEF as char
    else c
  }

  /** capitalizeFirstLetter: the first byte upper-cased by bytes.ToUpper, the rest as it was. */
  function CapitalizeFirstLetter(s: string): (r: string)
    requires |s| > 0
    ensures |r| == |s|
    ensures r[1..] == s[1..]
    ensures 'a' <= s[0] <= 'z' ==> r[0] as int == s[0] as int - 32
    ensures 'A' <= s[0] <= 'Z' || s[0] == '_' || IsDigitChar(s[0]) ==> r == s
    ensures s[0] as int >= 0x80 ==> r[0] as int == 0xEF
  {
    [UpperByte(s[0])] + s[1..]
  }

  predicate IsDigitChar(c: char) { '0' <= c <= '9' }

  /** Capitalising twice is capitalising once. */
  lemma CapitalizeIdempotent(s: string)
    requires |s| > 0
    ensures CapitalizeFirstLetter(CapitalizeFirstLetter(s)) == CapitalizeFirstLetter(s)
  {
  }

  /** The Decoder interface: decoding writes some fields of the destination and may fail. */
  datatype DecodeResult = DecodeResult(writes: map<nat, FieldValue>, err: Option<string>)

  type Decoder = seq<FieldValue> -> DecodeResult

  /** A registered factory: it wraps the request body in a Decoder. */
  type Factory = string -> Decoder

  /** noop: succeeds and writes nothing. */
  function Noop(values: seq<FieldValue>): (r: DecodeResult)
    ensures r.err == None && r.writes == map[]
  {
    DecodeResult(map[], None)
  }
}
