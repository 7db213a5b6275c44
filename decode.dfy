/**
 * The earlier binding engine of decode.go: a package-level decoder registry
 * preloaded with JSON, a body that is decoded for every method, three value
 * sources (no form), and a set that knows only int, string and bool.
 */
module DecodeEngine {
  import opened Wrappers
  import opened Binding
  import opened Http
  import opened Strconv
  import PickEngine

  /** An order in which decode.go's three readers may be ranged over. */
  type LegacyOrder = o: seq<Source> | IsOrder(o, {Path, Query, Header}) witness [Path, Query, Header]

  /** What Pick returns: nil, the error unwrapped, or a panic. */
  datatype Outcome = Done | Failed(cause: Cause) | Fatal(panic: Panic)

  /** The registry a fresh process starts with: only application/json, served by the given JSON factory. */
  function InitialRegistry(json: Factory): (m: map<string, Factory>)
    ensures m.Keys == {"application/json"} && m["application/json"] == json
  {
    map["application/json" := json]
  }

  /**
   * set's conversion by kind: int through Atoi, string verbatim, bool
   * through ParseBool; every other kind is "Unsupported VType".
   */
  function Coerce(kind: Kind, val: string): (r: Result<FieldValue, Cause>)
    ensures kind != Int && kind != String && kind != Bool ==> r == Err(UnsupportedVType(kind))
    ensures kind == String ==> r == Ok(StringVal(val))
    ensures r.Ok? ==> Fits(kind, r.value)
    ensures (kind == Int || kind == Bool) && r.Err? ==> r.error.NumErr?
  {
    match kind
    case Int => CoerceInt(val)
    case String => Ok(StringVal(val))
    case Bool => CoerceBool(val)
    case _ => Err(UnsupportedVType(kind))
  }

  /** The int kind: Atoi, so a 64-bit signed decimal. */
  function CoerceInt(val: string): (r: Result<FieldValue, Cause>)
    ensures r.Ok? ==> Fits(Int, r.value)
    ensures r.Err? <==> Atoi(val).Err?
    ensures r.Ok? ==> r.value == IntVal(Atoi(val).value)
    ensures r.Err? ==> r.error == NumErr(Atoi(val).error)
  {
    Strconv.Pow2Widths();
    match Atoi(val)
    case Ok(v) => Ok(IntVal(v))
    case Err(e) => Err(NumErr(e))
  }

  /** The bool kind: ParseBool. */
  function CoerceBool(val: string): (r: Result<FieldValue, Cause>)
    ensures r.Ok? ==> r.value.BoolVal?
    ensures r.Err? <==> ParseBool(val).Err?
    ensures r.Ok? ==> r.value == BoolVal(ParseBool(val).value)
    ensures r.Err? ==> r.error == NumErr(ParseBool(val).error)
  {
    match ParseBool(val)
    case Ok(b) => Ok(BoolVal(b))
    case Err(e) => Err(NumErr(e))
  }

  /**
   * set: an empty value changes nothing; the companion Set<Name> method
   * wins; a private field without one panics; otherwise the kind decides.
   */
  function SetField(t: StructType, i: nat, val: string, values: seq<FieldValue>): (r: (SetOutcome, seq<FieldValue>))
    requires i < |t.fields| == |values|
    ensures |r.1| == |values|
    ensures val == "" ==> r == (SetOk, values)
    ensures val != "" && PickEngine.SetterName(t.fields[i]) in t.methods ==>
              var call := t.methods[PickEngine.SetterName(t.fields[i])](values, val);
              r == (CallOutcome(call.results), Apply(values, call.writes))
    ensures val != "" && PickEngine.SetterName(t.fields[i]) !in t.methods && IsPrivate(t.fields[i]) ==>
              r == (SetPanic(PrivateField(t.fields[i].name, PickEngine.SetterName(t.fields[i]))), values)
    ensures val != "" && PickEngine.SetterName(t.fields[i]) !in t.methods && !IsPrivate(t.fields[i]) ==>
              match Coerce(t.fields[i].kind, val)
              case Ok(v) => r == (SetOk, values[i := v])
              case Err(c) => r == (SetErr(c), values)
  {
    if val == "" then (SetOk, values)
    else
      var f := t.fields[i];
      var name := PickEngine.SetterName(f);
      if name in t.methods then
        var call := t.methods[name](values, val);
        (CallOutcome(call.results), Apply(values, call.writes))
      else if IsPrivate(f) then (SetPanic(PrivateField(f.name, name)), values)
      else
        match Coerce(f.kind, val)
        case Ok(v) => (SetOk, values[i := v])
        case Err(c) => (SetErr(c), values)
  }

  /** One round of the field loop: a field with no source tag is skipped, any other is set. */
  function PickField(t: StructType, r: Request, ord: LegacyOrder, i: nat, values: seq<FieldValue>)
    : (s: (SetOutcome, seq<FieldValue>))
    requires i < |t.fields| == |values|
    ensures |s.1| == |values|
    ensures PickEngine.ReadValue(r, t.fields[i].tags, ord).TagNotFound? ==> s == (SetOk, values)
    ensures PickEngine.ReadValue(r, t.fields[i].tags, ord).Found?
            ==> s == SetField(t, i, PickEngine.ReadValue(r, t.fields[i].tags, ord).value, values)
  {
    match PickEngine.ReadValue(r, t.fields[i].tags, ord)
    case TagNotFound => (SetOk, values)
    case Found(val, _) => SetField(t, i, val, values)
  }

  /** Round j of the field loop, as a function of the values it starts from. */
  function Round(t: StructType, r: Request, order: nat -> LegacyOrder): (nat, seq<FieldValue>) -> (SetOutcome, seq<FieldValue>)
  {
    (j: nat, vs: seq<FieldValue>) =>
      if j < |t.fields| == |vs| then PickField(t, r, order(j), j, vs) else (SetOk, vs)
  }

  /** A round never changes the number of fields. */
  ghost predicate KeepsLength(round: (nat, seq<FieldValue>) -> (SetOutcome, seq<FieldValue>)) {
    forall j: nat, vs: seq<FieldValue> :: |round(j, vs).1| == |vs|
  }

  /** A loop running rounds i, i + 1, ..., n - 1 until one of them does not return SetOk. */
  function Run(round: (nat, seq<FieldValue>) -> (SetOutcome, seq<FieldValue>), n: nat, i: nat, values: seq<FieldValue>)
    : (res: (Outcome, seq<FieldValue>))
    requires i <= n
    ensures KeepsLength(round) ==> |res.1| == |values|
    decreases n - i
  {
    if i == n then (Done, values)
    else
      match round(i, values)
      case (SetOk, vs) => Run(round, n, i + 1, vs)
      case (SetErr(c), vs) => (Failed(c), vs)
      case (SetPanic(p), vs) => (Fatal(p), vs)
  }

  /** The field loop from field i on; it stops at the first error or panic. */
  function PickFields(t: StructType, r: Request, order: nat -> LegacyOrder, i: nat, values: seq<FieldValue>)
    : (res: (Outcome, seq<FieldValue>))
    requires i <= |t.fields| == |values|
    ensures |res.1| == |values|
  {
    RoundKeepsLength(t, r, order);
    Run(Round(t, r, order), |t.fields|, i, values)
  }

  /** No round of the loop changes the number of fields. */
  lemma RoundKeepsLength(t: StructType, r: Request, order: nat -> LegacyOrder)
    ensures KeepsLength(Round(t, r, order))
  {
    forall j: nat, vs: seq<FieldValue>
      ensures |Round(t, r, order)(j, vs).1| == |vs|
    {
      if j < |t.fields| == |vs| {
        assert Round(t, r, order)(j, vs) == PickField(t, r, order(j), j, vs);
      }
    }
  }

  /** One unfolding of the field loop: field i's round either stops the loop or hands on to field i + 1. */
  lemma PickFieldsStep(t: StructType, r: Request, order: nat -> LegacyOrder, i: nat, values: seq<FieldValue>)
    requires i < |t.fields| == |values|
    ensures PickFields(t, r, order, i, values)
            == match PickField(t, r, order(i), i, values)
               case (SetOk, vs) => PickFields(t, r, order, i + 1, vs)
               case (SetErr(c), vs) => (Failed(c), vs)
               case (SetPanic(p), vs) => (Fatal(p), vs)
  {
    assert Round(t, r, order)(i, values) == PickField(t, r, order(i), i, values);
  }

  /** Pick: decode the body whatever the method, then the field loop. */
  function PickSpec(registry: map<string, Factory>, t: StructType, r: Request, order: nat -> LegacyOrder,
                    values: seq<FieldValue>): (res: (Outcome, seq<FieldValue>))
    requires |t.fields| == |values|
    ensures |res.1| == |values|
  {
    var dec := PickEngine.NewDecoder(registry, ContentType(r), r.body)(values);
    var vs := Apply(values, dec.writes);
    if dec.err.Some? then (Failed(External(dec.err.value)), vs)
    else PickFields(t, r, order, 0, vs)
  }

  /** set, writing field i of the destination in place. */
  method Set(dst: array<FieldValue>, t: StructType, i: nat, val: string) returns (o: SetOutcome)
    requires i < |t.fields| == dst.Length
    modifies dst
    ensures (o, dst[..]) == SetField(t, i, val, old(dst[..]))
  {
    if val == "" {
      return SetOk;
    }
    var f := t.fields[i];
    var name := PickEngine.SetterName(f);
    if name in t.methods {
      ghost var before := dst[..];
      var call := t.methods[name](dst[..], val);
      forall j | 0 <= j < dst.Length && j in call.writes {
        dst[j] := call.writes[j];
      }
      assert dst[..] == Apply(before, call.writes);
      return CallOutcome(call.results);
    }
    if IsPrivate(f) {
      return SetPanic(PrivateField(f.name, name));
    }
    match Coerce(f.kind, val)
    case Ok(v) =>
      dst[i] := v;
      o := SetOk;
    case Err(c) =>
      o := SetErr(c);
  }

  /** The package state of decode.go: its decoder registry. */
  class Package {
    var registry: map<string, Factory>

    /** The package at start-up: the registry holds only application/json. */
    constructor (json: Factory)
      ensures registry == InitialRegistry(json)
    {
      registry := InitialRegistry(json);
    }

    /** Register: the decoder for exactly this content type now comes from fn. */
    method Register(contentType: string, fn: Factory)
      modifies this
      ensures registry == old(registry)[contentType := fn]
    {
      registry := registry[contentType := fn];
    }

    /** Pick, writing the destination in place; order(i) is the readers' order for field i. */
    method Pick(dst: array<FieldValue>, t: StructType, r: Request, order: nat -> LegacyOrder) returns (o: Outcome)
      requires |t.fields| == dst.Length
      modifies dst
      ensures (o, dst[..]) == PickSpec(registry, t, r, order, old(dst[..]))
    {
      ghost var before := dst[..];
      var dec := PickEngine.NewDecoder(registry, ContentType(r), r.body);
      var res := dec(dst[..]);
      forall j | 0 <= j < dst.Length && j in res.writes {
        dst[j] := res.writes[j];
      }
      assert dst[..] == Apply(before, res.writes);
      if res.err.Some? {
        return Failed(External(res.err.value));
      }
      ghost var decoded := dst[..];
      for i := 0 to dst.Length
        invariant PickFields(t, r, order, 0, decoded) == PickFields(t, r, order, i, dst[..])
      {
        PickFieldsStep(t, r, order, i, dst[..]);
        var rd := PickEngine.ReadValue(r, t.fields[i].tags, order(i));
        if rd.Found? {
          var so := Set(dst, t, i, rd.value);
          match so {
            case SetErr(c) => return Failed(c);
            case SetPanic(p) => return Fatal(p);
            case SetOk =>
          }
        }
      }
      o := Done;
    }
  }
}
