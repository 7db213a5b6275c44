/**
 * The Picker of pick.go: it binds an HTTP request to a destination struct.
 *
 * A Picker holds two registries: body decoders by content type, and
 * setter overrides by type name. Pick first decodes the body (unless the
 * method is GET, HEAD or DELETE), then walks the fields in declaration
 * order: it reads each field's value from the source its tag names, sets
 * the field, and runs the four validators (minLength, maxLength, minimum,
 * maximum). The first failure ends the walk with a PickError; a panic of
 * the source is the Fatal outcome.
 *
 * The specification functions below (NewDecoder, ReadValue, SetField,
 * the validators, PickField, PickFields, PickSpec) say what each step
 * does; the class's methods do it in place and are proved against them.
 */
module PickEngine {
  import opened Wrappers
  import opened Binding
  import opened Http
  import Strconv

  /** What a setter override (a setfn) did: the field's new value and the error it returned, if any. */
  datatype SetterResult = SetterResult(value: FieldValue, err: Option<string>)

  /** A setfn registered with UseSetter: it gets the field and the raw string. */
  type SetFn = (FieldValue, string) -> SetterResult

  /** PickError: the field ("Type.Field", or the type for the body), the source locator, and the cause. */
  datatype PickError = PickError(dest: string, source: string, cause: Cause)

  /** How a Pick ends: success, a returned PickError, or a panic. */
  datatype Outcome = Done | Failed(err: PickError) | Fatal(panic: Panic)

  /** An iteration order of the valueReaders map of pick.go. */
  type Order = o: seq<Source> | IsOrder(o, {Path, Query, Header, Form}) witness [Path, Query, Header, Form]

  /** The methods for which Pick does not decode a body. */
  predicate SkipsBody(verb: string): (b: bool)
    ensures b <==> verb in ["GET", "HEAD", "DELETE"]
  {
    verb == "GET" || verb == "HEAD" || verb == "DELETE"
  }

  /** newDecoder: the registered factory for exactly this content type, applied to the body, or noop. */
  function NewDecoder(registry: map<string, Factory>, contentType: string, body: string): (d: Decoder)
    ensures contentType in registry ==> d == registry[contentType](body)
    ensures contentType !in registry ==> forall vs :: d(vs) == DecodeResult(map[], None)
  {
    if contentType in registry then registry[contentType](body) else Noop
  }

  // -----------------------------------------------------------------------
  // Reading a field's value.

  datatype Read = Found(value: string, source: string) | TagNotFound

  /**
   * readValue: the first source, in the map's iteration order, whose tag
   * key is non-empty, read from the request; TagNotFound when there is none.
   */
  function ReadValue(r: Request, tags: Tags, order: seq<Source>): (rd: Read)
  {
    if order == [] then TagNotFound
    else
      var key := TagGet(tags, SourceName(order[0]));
      if key != "" then Found(ReadSource(r, order[0], key), Locator(order[0], key))
      else ReadValue(r, tags, order[1..])
  }

  // -----------------------------------------------------------------------
  // Setting a field.

  /** The per-kind conversion of set: the strconv parse for the kind, or unsupported. */
  function Coerce(kind: Kind, val: string): (r: Result<FieldValue, Cause>)
    ensures r.Ok? ==> Fits(kind, r.value)
    ensures kind == String ==> r == Ok(StringVal(val))
    ensures r.Err? ==> r.error.NumErr? || r.error == UnsupportedKind(kind)
    ensures r == Err(UnsupportedKind(kind)) <==> kind == Uint || kind == Uintptr || kind.Composite?
  {
    match kind
    case Int | Int8 | Int16 | Int32 | Int64 => CoerceSigned(kind, val)
    case Uint8 | Uint16 | Uint32 | Uint64 => CoerceUnsigned(kind, val)
    case Bool => CoerceBool(val)
    case Float32 | Float64 => CoerceFloat(kind, val)
    case Complex64 | Complex128 => CoerceComplex(kind, val)
    case String => Ok(StringVal(val))
    case _ => Err(UnsupportedKind(kind))
  }

  /** The bool kind: ParseBool. */
  function CoerceBool(val: string): (r: Result<FieldValue, Cause>)
    ensures r.Ok? ==> Fits(Bool, r.value)
    ensures r.Err? <==> Strconv.ParseBool(val).Err?
    ensures r.Ok? ==> r.value == BoolVal(Strconv.ParseBool(val).value)
    ensures r.Err? ==> r.error == NumErr(Strconv.ParseBool(val).error)
  {
    match Strconv.ParseBool(val)
    case Ok(b) => Ok(BoolVal(b))
    case Err(e) => Err(NumErr(e))
  }

  /** The float kinds: ParseFloat (exact, see ParseFloat). */
  function CoerceFloat(kind: Kind, val: string): (r: Result<FieldValue, Cause>)
    requires kind == Float32 || kind == Float64
    ensures r.Ok? ==> Fits(kind, r.value)
    ensures r.Err? <==> Strconv.ParseFloat(val).Err?
    ensures r.Ok? ==> r.value == FloatVal(Strconv.ParseFloat(val).value)
    ensures r.Err? ==> r.error == NumErr(Strconv.ParseFloat(val).error)
  {
    match Strconv.ParseFloat(val)
    case Ok(x) => Ok(FloatVal(x))
    case Err(e) => Err(NumErr(e))
  }

  /** The complex kinds: ParseComplex (exact, see ParseComplex). */
  function CoerceComplex(kind: Kind, val: string): (r: Result<FieldValue, Cause>)
    requires kind == Complex64 || kind == Complex128
    ensures r.Ok? ==> Fits(kind, r.value)
    ensures r.Err? <==> Strconv.ParseComplex(val).Err?
    ensures r.Ok? ==> r.value == ComplexVal(Strconv.ParseComplex(val).value.0, Strconv.ParseComplex(val).value.1)
    ensures r.Err? ==> r.error == NumErr(Strconv.ParseComplex(val).error)
  {
    match Strconv.ParseComplex(val)
    case Ok(c) => Ok(ComplexVal(c.0, c.1))
    case Err(e) => Err(NumErr(e))
  }

  /** The signed integer kinds: ParseInt at the kind's width. */
  function CoerceSigned(kind: Kind, val: string): (r: Result<FieldValue, Cause>)
    requires IsSignedInt(kind)
    ensures r.Ok? ==> Fits(kind, r.value)
    ensures r.Err? <==> Strconv.ParseInt(val, Width(kind)).Err?
    ensures r.Ok? ==> r.value == IntVal(Strconv.ParseInt(val, Width(kind)).value)
    ensures r.Err? ==> r.error == NumErr(Strconv.ParseInt(val, Width(kind)).error)
  {
    SignedLimitIsPower(kind);
    match Strconv.ParseInt(val, Width(kind))
    case Ok(v) => Ok(IntVal(v))
    case Err(e) => Err(NumErr(e))
  }

  /** The sized unsigned integer kinds: ParseUint at the kind's width. */
  function CoerceUnsigned(kind: Kind, val: string): (r: Result<FieldValue, Cause>)
    requires IsSizedUint(kind)
    ensures r.Ok? ==> Fits(kind, r.value)
    ensures r.Err? <==> Strconv.ParseUint(val, Width(kind)).Err?
    ensures r.Ok? ==> r.value == UintVal(Strconv.ParseUint(val, Width(kind)).value)
    ensures r.Err? ==> r.error == NumErr(Strconv.ParseUint(val, Width(kind)).error)
  {
    UnsignedMaxIsPower(kind);
    match Strconv.ParseUint(val, Width(kind))
    case Ok(v) => Ok(UintVal(v))
    case Err(e) => Err(NumErr(e))
  }

  /** The name of the companion method set looks for: "Set" and the field name, capitalised for a private field. */
  function SetterName(f: FieldDesc): (n: string)
    ensures |n| == 3 + |f.name| && n[..3] == "Set"
    ensures !IsPrivate(f) ==> n == "Set" + f.name
  {
    "Set" + (if IsPrivate(f) then CapitalizeFirstLetter(f.name) else f.name)
  }

  /**
   * Every companion Set<Name> method of the type writes at most the field it
   * is named after, whatever the field values and the argument.
   */
  ghost predicate MethodsWriteOwnField(t: StructType)
  {
    forall j: nat, vs: seq<FieldValue>, v: string, k: nat ::
      (j < |t.fields| && SetterName(t.fields[j]) in t.methods &&
       k in t.methods[SetterName(t.fields[j])](vs, v).writes) ==> k == j
  }

  /**
   * set: what setting field i to val does to the field values. An empty
   * value changes nothing. Otherwise, in this order: a companion Set<Name>
   * method is called; a private field without one panics; a setter
   * registered for the field's type name is called; the kind's conversion
   * is stored.
   */
  function SetField(setters: map<string, SetFn>, t: StructType, i: nat, val: string, values: seq<FieldValue>)
    : (r: (SetOutcome, seq<FieldValue>))
    requires i < |t.fields| == |values|
    ensures |r.1| == |values|
    ensures val == "" ==> r == (SetOk, values)
    ensures val != "" && SetterName(t.fields[i]) in t.methods ==>
              var call := t.methods[SetterName(t.fields[i])](values, val);
              r == (CallOutcome(call.results), Apply(values, call.writes))
    ensures val != "" && SetterName(t.fields[i]) !in t.methods && IsPrivate(t.fields[i]) ==>
              r == (SetPanic(PrivateField(t.fields[i].name, SetterName(t.fields[i]))), values)
    ensures SetterName(t.fields[i]) in t.methods || IsPrivate(t.fields[i]) || val == "" ||
            (forall j :: 0 <= j < |values| && j != i ==> r.1[j] == values[j])
    ensures val != "" && SetterName(t.fields[i]) !in t.methods && !IsPrivate(t.fields[i])
            && t.fields[i].typeName in setters ==>
              var res := setters[t.fields[i].typeName](values[i], val);
              r == (if res.err.Some? then SetErr(External(res.err.value)) else SetOk, values[i := res.value])
    ensures val != "" && SetterName(t.fields[i]) !in t.methods && !IsPrivate(t.fields[i])
            && t.fields[i].typeName !in setters ==>
              match Coerce(t.fields[i].kind, val)
              case Ok(v) => r == (SetOk, values[i := v])
              case Err(c) => r == (SetErr(c), values)
  {
    if val == "" then (SetOk, values)
    else
      var f := t.fields[i];
      var name := SetterName(f);
      if name in t.methods then
        var call := t.methods[name](values, val);
        (CallOutcome(call.results), Apply(values, call.writes))
      else if IsPrivate(f) then (SetPanic(PrivateField(f.name, name)), values)
      else if f.typeName in setters then
        var res := setters[f.typeName](values[i], val);
        (if res.err.Some? then SetErr(External(res.err.value)) else SetOk, values[i := res.value])
      else
        match Coerce(f.kind, val)
        case Ok(v) => (SetOk, values[i := v])
        case Err(c) => (SetErr(c), values)
  }

  // -----------------------------------------------------------------------
  // Validators.

  /**
   * minLength: with a minLength tag, the byte length of the raw value must
   * be at least the tag's decimal value; a tag that is not a 64-bit decimal
   * integer is itself the error.
   */
  function MinLength(tags: Tags, value: string): (c: Option<Cause>)
    ensures "minLength" !in tags ==> c == None
    ensures "minLength" in tags ==>
              match Strconv.ParseInt(tags["minLength"], 64)
              case Err(e) => c == Some(NumErr(e))
              case Ok(min) => c == (if |value| < min then Some(MinLengthExceeded) else None)
  {
    match TagLookup(tags, "minLength")
    case None => None
    case Some(bound) =>
      match Strconv.ParseInt(bound, 64)
      case Err(e) => Some(NumErr(e))
      case Ok(min) => if |value| < min then Some(MinLengthExceeded) else None
  }

  /** maxLength: the byte length of the raw value must be at most the tag's decimal value. */
  function MaxLength(tags: Tags, value: string): (c: Option<Cause>)
    ensures "maxLength" !in tags ==> c == None
    ensures "maxLength" in tags ==>
              match Strconv.ParseInt(tags["maxLength"], 64)
              case Err(e) => c == Some(NumErr(e))
              case Ok(max) => c == (if |value| > max then Some(MaxLengthExceeded) else None)
  {
    match TagLookup(tags, "maxLength")
    case None => None
    case Some(bound) =>
      match Strconv.ParseInt(bound, 64)
      case Err(e) => Some(NumErr(e))
      case Ok(max) => if |value| > max then Some(MaxLengthExceeded) else None
  }

  /**
   * The number minimumField and maximumField compare: the value already
   * stored in the field, read by kind; 0 for every kind that is not a
   * sized unsigned integer, a signed integer or a float.
   */
  function StoredNumber(kind: Kind, stored: FieldValue): (x: real)
    ensures !(IsSizedUint(kind) || IsSignedInt(kind) || kind == Float32 || kind == Float64) ==> x == 0.0
    ensures Fits(kind, stored) && IsSizedUint(kind) ==> x == stored.n as real
    ensures Fits(kind, stored) && IsSignedInt(kind) ==> x == stored.i as real
    ensures Fits(kind, stored) && (kind == Float32 || kind == Float64) ==> x == stored.x
  {
    if IsSizedUint(kind) then (if stored.UintVal? then stored.n as real else 0.0)
    else if IsSignedInt(kind) then (if stored.IntVal? then stored.i as real else 0.0)
    else if kind == Float32 || kind == Float64 then (if stored.FloatVal? then stored.x else 0.0)
    else 0.0
  }

  /** minimumField: the stored number must not be below the tag's bound (inclusive). */
  function MinimumField(f: FieldDesc, stored: FieldValue): (c: Option<Cause>)
    ensures "minimum" !in f.tags ==> c == None
    ensures "minimum" in f.tags ==>
              match Strconv.ParseFloat(f.tags["minimum"])
              case Err(e) => c == Some(NumErr(e))
              case Ok(min) => c.None? <==> StoredNumber(f.kind, stored) >= min
  {
    match TagLookup(f.tags, "minimum")
    case None => None
    case Some(bound) =>
      match Strconv.ParseFloat(bound)
      case Err(e) => Some(NumErr(e))
      case Ok(min) =>
        var value := StoredNumber(f.kind, stored);
        if value < min then Some(MinimumExceeded(value, min)) else None
  }

  /** maximumField: the stored number must not be above the tag's bound (inclusive). */
  function MaximumField(f: FieldDesc, stored: FieldValue): (c: Option<Cause>)
    ensures "maximum" !in f.tags ==> c == None
    ensures "maximum" in f.tags ==>
              match Strconv.ParseFloat(f.tags["maximum"])
              case Err(e) => c == Some(NumErr(e))
              case Ok(max) => c.None? <==> StoredNumber(f.kind, stored) <= max
  {
    match TagLookup(f.tags, "maximum")
    case None => None
    case Some(bound) =>
      match Strconv.ParseFloat(bound)
      case Err(e) => Some(NumErr(e))
      case Ok(max) =>
        var value := StoredNumber(f.kind, stored);
        if value > max then Some(MaximumExceeded) else None
  }

  /** The four validators in the order Pick runs them; the first error wins. */
  function Validate(f: FieldDesc, val: string, stored: FieldValue): (c: Option<Cause>)
    ensures c.None? <==> MinLength(f.tags, val).None? && MaxLength(f.tags, val).None?
                         && MinimumField(f, stored).None? && MaximumField(f, stored).None?
    ensures MinLength(f.tags, val).Some? ==> c == MinLength(f.tags, val)
    ensures MinLength(f.tags, val).None? && MaxLength(f.tags, val).Some? ==> c == MaxLength(f.tags, val)
    ensures MinLength(f.tags, val).None? && MaxLength(f.tags, val).None? && MinimumField(f, stored).Some?
            ==> c == MinimumField(f, stored)
    ensures MinLength(f.tags, val).None? && MaxLength(f.tags, val).None? && MinimumField(f, stored).None?
            ==> c == MaximumField(f, stored)
  {
    if MinLength(f.tags, val).Some? then MinLength(f.tags, val)
    else if MaxLength(f.tags, val).Some? then MaxLength(f.tags, val)
    else if MinimumField(f, stored).Some? then MinimumField(f, stored)
    else MaximumField(f, stored)
  }

  // -----------------------------------------------------------------------
  // The whole of Pick.

  /** Dest of a field's PickError: "<type>.<field>". */
  function FieldDest(t: StructType, i: nat): (d: string)
    requires i < |t.fields|
    ensures |d| == |t.name| + 1 + |t.fields[i].name|
    ensures d[..|t.name|] == t.name && d[|t.name|] == '.' && d[|t.name| + 1..] == t.fields[i].name
  {
    t.name + "." + t.fields[i].name
  }

  /** One round of the field loop: go on with new values, or stop with an outcome. */
  datatype Step = Next(values: seq<FieldValue>) | Stop(outcome: Outcome, values: seq<FieldValue>)

  /**
   * One iteration of Pick's loop for field i: read the value; unless no
   * source tag was found, set it; then validate, whether or not anything
   * was read or set, against the raw value and the stored value.
   */
  function PickField(setters: map<string, SetFn>, t: StructType, r: Request, ord: Order, i: nat,
                     values: seq<FieldValue>): (s: Step)
    requires i < |t.fields| == |values|
    ensures |s.values| == |values|
  {
    var f := t.fields[i];
    var rd := ReadValue(r, f.tags, ord);
    var val := if rd.Found? then rd.value else "";
    var source := if rd.Found? then rd.source else "";
    var (so, v1) := if rd.Found? then SetField(setters, t, i, val, values) else (SetOk, values);
    match so
    case SetPanic(p) => Stop(Fatal(p), v1)
    case SetErr(c) => Stop(Failed(PickError(FieldDest(t, i), source, c)), v1)
    case SetOk =>
      match Validate(f, val, v1[i])
      case Some(c) => Stop(Failed(PickError(FieldDest(t, i), source, c)), v1)
      case None => Next(v1)
  }

  /** Round j of the field loop, as a function of the values it starts from. */
  function Round(setters: map<string, SetFn>, t: StructType, r: Request, order: nat -> Order): (nat, seq<FieldValue>) -> Step
  {
    (j: nat, vs: seq<FieldValue>) =>
      if j < |t.fields| == |vs| then PickField(setters, t, r, order(j), j, vs) else Next(vs)
  }

  /** A round never changes the number of fields. */
  ghost predicate KeepsLength(round: (nat, seq<FieldValue>) -> Step) {
    forall j: nat, vs: seq<FieldValue> :: |round(j, vs).values| == |vs|
  }

  /** A loop running rounds i, i + 1, ..., n - 1 until one of them stops. */
  function Run(round: (nat, seq<FieldValue>) -> Step, n: nat, i: nat, values: seq<FieldValue>): (res: (Outcome, seq<FieldValue>))
    requires i <= n
    ensures KeepsLength(round) ==> |res.1| == |values|
    decreases n - i
  {
    if i == n then (Done, values)
    else
      match round(i, values)
      case Stop(o, vs) => (o, vs)
      case Next(vs) => Run(round, n, i + 1, vs)
  }

  /** The field loop from field i on; order(j) is the reader order of field j. */
  function PickFields(setters: map<string, SetFn>, t: StructType, r: Request, order: nat -> Order, i: nat,
                      values: seq<FieldValue>): (res: (Outcome, seq<FieldValue>))
    requires i <= |t.fields| == |values|
    ensures |res.1| == |values|
  {
    RoundKeepsLength(setters, t, r, order);
    Run(Round(setters, t, r, order), |t.fields|, i, values)
  }

  /** No round of Pick's loop changes the number of fields. */
  lemma RoundKeepsLength(setters: map<string, SetFn>, t: StructType, r: Request, order: nat -> Order)
    ensures KeepsLength(Round(setters, t, r, order))
  {
    forall j: nat, vs: seq<FieldValue>
      ensures |Round(setters, t, r, order)(j, vs).values| == |vs|
    {
      if j < |t.fields| == |vs| {
        assert Round(setters, t, r, order)(j, vs) == PickField(setters, t, r, order(j), j, vs);
      }
    }
  }

  /** One unfolding of the field loop: field i's round either stops the loop or hands on to field i + 1. */
  lemma PickFieldsStep(setters: map<string, SetFn>, t: StructType, r: Request, order: nat -> Order, i: nat,
                       values: seq<FieldValue>)
    requires i < |t.fields| == |values|
    ensures PickFields(setters, t, r, order, i, values)
            == match PickField(setters, t, r, order(i), i, values)
               case Stop(o, vs) => (o, vs)
               case Next(vs) => PickFields(setters, t, r, order, i + 1, vs)
  {
    assert Round(setters, t, r, order)(i, values) == PickField(setters, t, r, order(i), i, values);
  }

  /** The body phase: for methods other than GET, HEAD and DELETE, run the decoder for the content type. */
  function DecodeBody(registry: map<string, Factory>, t: StructType, r: Request, values: seq<FieldValue>): (s: Step)
    ensures |s.values| == |values|
    ensures SkipsBody(r.verb) ==> s == Next(values)
    ensures !SkipsBody(r.verb) ==>
              var res := NewDecoder(registry, ContentType(r), r.body)(values);
              && s.values == Apply(values, res.writes)
              && (s.Stop? <==> res.err.Some?)
              && (s.Stop? ==> s.outcome == Failed(PickError(t.name, "body", External(res.err.value))))
  {
    if SkipsBody(r.verb) then Next(values)
    else
      var res := NewDecoder(registry, ContentType(r), r.body)(values);
      var vs := Apply(values, res.writes);
      if res.err.Some? then Stop(Failed(PickError(t.name, "body", External(res.err.value))), vs)
      else Next(vs)
  }

  /** Pick: the body phase, then the field loop. */
  function PickSpec(registry: map<string, Factory>, setters: map<string, SetFn>, t: StructType, r: Request,
                    order: nat -> Order, values: seq<FieldValue>): (res: (Outcome, seq<FieldValue>))
    requires |t.fields| == |values|
    ensures |res.1| == |values|
  {
    match DecodeBody(registry, t, r, values)
    case Stop(o, vs) => (o, vs)
    case Next(vs) => PickFields(setters, t, r, order, 0, vs)
  }

  // -----------------------------------------------------------------------
  // The Picker.

  class Picker {
    var registry: map<string, Factory>
    var setters: map<string, SetFn>

    /** NewPicker: no decoders and no setters. */
    constructor ()
      ensures registry == map[] && setters == map[]
    {
      registry := map[];
      setters := map[];
    }

    /** Register: the decoder for exactly this content type now comes from fn; a previous one is replaced. */
    method Register(contentType: string, fn: Factory)
      modifies this
      ensures registry == old(registry)[contentType := fn]
      ensures setters == old(setters)
    {
      registry := registry[contentType := fn];
    }

    /** UseSetter: adds the setter for a type name, or panics if that name already has one. */
    method UseSetter(typ: string, fn: SetFn) returns (p: Option<Panic>)
      modifies this
      ensures typ in old(setters) ==> p == Some(DuplicateSetter(typ)) && setters == old(setters)
      ensures typ !in old(setters) ==> p == None && setters == old(setters)[typ := fn]
      ensures registry == old(registry)
    {
      if typ in setters {
        return Some(DuplicateSetter(typ));
      }
      setters := setters[typ := fn];
      p := None;
    }

    /** set: sets field i of the destination in place. */
    method Set(dst: array<FieldValue>, t: StructType, i: nat, val: string) returns (o: SetOutcome)
      requires i < |t.fields| == dst.Length
      modifies dst
      ensures (o, dst[..]) == SetField(setters, t, i, val, old(dst[..]))
    {
      if val == "" {
        return SetOk;
      }
      var f := t.fields[i];
      var name := SetterName(f);
      if name in t.methods {
        ghost var before := dst[..];
        var call := t.methods[name](dst[..], val);
        forall j | 0 <= j < dst.Length && j in call.writes {
          dst[j] := call.writes[j];
        }
        assert dst[..] == Apply(before, call.writes);
        return CallOutcome(call.results);
      }
      if IsPrivate(f) {
        return SetPanic(PrivateField(f.name, name));
      }
      if f.typeName in setters {
        var res := setters[f.typeName](dst[i], val);
        dst[i] := res.value;
        if res.err.Some? {
          return SetErr(External(res.err.value));
        }
        return SetOk;
      }
      match Coerce(f.kind, val)
      case Ok(v) =>
        dst[i] := v;
        o := SetOk;
      case Err(c) =>
        o := SetErr(c);
    }

    /**
     * One iteration of Pick's loop, in place: read field i's value, set it
     * unless no source tag was found, then validate it.
     */
    method PickFieldInPlace(dst: array<FieldValue>, t: StructType, r: Request, ord: Order, i: nat)
      returns (stop: Option<Outcome>)
      requires i < |t.fields| == dst.Length
      modifies dst
      ensures match PickField(setters, t, r, ord, i, old(dst[..]))
              case Stop(o, vs) => stop == Some(o) && dst[..] == vs
              case Next(vs) => stop == None && dst[..] == vs
    {
      var f := t.fields[i];
      var rd := ReadValue(r, f.tags, ord);
      var val := if rd.Found? then rd.value else "";
      var source := if rd.Found? then rd.source else "";
      if rd.Found? {
        var so := Set(dst, t, i, val);
        match so {
          case SetPanic(p) => return Some(Fatal(p));
          case SetErr(c) => return Some(Failed(PickError(FieldDest(t, i), source, c)));
          case SetOk =>
        }
      }
      // minLength, maxLength, minimum, maximum, for every field
      var c := Validate(f, val, dst[i]);
      if c.Some? {
        return Some(Failed(PickError(FieldDest(t, i), source, c.value)));
      }
      stop := None;
    }

    /** The body phase in place: the decoder's writes land in the destination. */
    method DecodeBodyInPlace(dst: array<FieldValue>, t: StructType, r: Request) returns (stop: Option<Outcome>)
      modifies dst
      ensures match DecodeBody(registry, t, r, old(dst[..]))
              case Stop(o, vs) => stop == Some(o) && dst[..] == vs
              case Next(vs) => stop == None && dst[..] == vs
    {
      stop := None;
      if !SkipsBody(r.verb) {
        ghost var before := dst[..];
        var dec := NewDecoder(registry, ContentType(r), r.body);
        var res := dec(dst[..]);
        forall j | 0 <= j < dst.Length && j in res.writes {
          dst[j] := res.writes[j];
        }
        assert dst[..] == Apply(before, res.writes);
        if res.err.Some? {
          stop := Some(Failed(PickError(t.name, "body", External(res.err.value))));
        }
      }
    }

    /**
     * Pick: binds the request into the destination in place; order(i) is
     * the order in which the readers were ranged over for field i.
     */
    method Pick(dst: array<FieldValue>, t: StructType, r: Request, order: nat -> Order) returns (o: Outcome)
      requires |t.fields| == dst.Length
      modifies dst
      ensures (o, dst[..]) == PickSpec(registry, setters, t, r, order, old(dst[..]))
    {
      var stop := DecodeBodyInPlace(dst, t, r);
      if stop.Some? {
        return stop.value;
      }
      ghost var decoded := dst[..];
      for i := 0 to dst.Length
        invariant PickFields(setters, t, r, order, 0, decoded) == PickFields(setters, t, r, order, i, dst[..])
      {
        PickFieldsStep(setters, t, r, order, i, dst[..]);
        stop := PickFieldInPlace(dst, t, r, order(i), i);
        if stop.Some? {
          return stop.value;
        }
      }
      o := Done;
    }
  }
}
