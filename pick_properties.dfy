/** Properties of the Picker of pick.go, stated over its specification functions. */
module PickProperties {
  import opened Wrappers
  import opened Binding
  import opened Http
  import opened Strconv
  import opened PickEngine

  // -----------------------------------------------------------------------
  // Registries and the body phase.

  /** After Register(ct, f), the decoder for ct comes from f and every other content type resolves as before. */
  lemma RegisterResolves(registry: map<string, Factory>, ct: string, f: Factory, other: string, body: string)
    ensures NewDecoder(registry[ct := f], ct, body) == f(body)
    ensures other != ct ==> NewDecoder(registry[ct := f], other, body) == NewDecoder(registry, other, body)
  {
  }

  /** An unregistered content type decodes nothing and does not fail. */
  lemma UnregisteredContentTypeIsNoop(registry: map<string, Factory>, t: StructType, r: Request, values: seq<FieldValue>)
    requires ContentType(r) !in registry
    ensures DecodeBody(registry, t, r, values) == Next(values)
  {
    assert Apply(values, map[]) == values;
  }

  /** GET, HEAD and DELETE never consult the decoder registry: any two registries give the same result. */
  lemma NoBodyForGetHeadDelete(reg1: map<string, Factory>, reg2: map<string, Factory>, setters: map<string, SetFn>,
                               t: StructType, r: Request, order: nat -> Order, values: seq<FieldValue>)
    requires |t.fields| == |values|
    requires SkipsBody(r.verb)
    ensures PickSpec(reg1, setters, t, r, order, values) == PickSpec(reg2, setters, t, r, order, values)
    ensures PickSpec(reg1, setters, t, r, order, values) == PickFields(setters, t, r, order, 0, values)
  {
  }

  /** For other methods a failing decoder ends Pick with a "body" PickError before any field is read. */
  lemma BodyErrorComesFirst(registry: map<string, Factory>, setters: map<string, SetFn>,
                            t: StructType, r: Request, order: nat -> Order, values: seq<FieldValue>)
    requires |t.fields| == |values|
    requires !SkipsBody(r.verb)
    requires NewDecoder(registry, ContentType(r), r.body)(values).err.Some?
    ensures var res := NewDecoder(registry, ContentType(r), r.body)(values);
            PickSpec(registry, setters, t, r, order, values)
            == (Failed(PickError(t.name, "body", External(res.err.value))), Apply(values, res.writes))
  {
  }

  // -----------------------------------------------------------------------
  // Reading values.

  /** The key of source s in a field's tags; "" means the field is not read from s. */
  function KeyOf(tags: Tags, s: Source): string {
    TagGet(tags, SourceName(s))
  }

  /**
   * readValue reads from the first source in the order whose tag key is
   * non-empty, and reports TagNotFound exactly when there is none.
   */
  lemma ReadValueFirstTag(r: Request, tags: Tags, order: seq<Source>)
    ensures ReadValue(r, tags, order).TagNotFound? <==> forall s :: s in order ==> KeyOf(tags, s) == ""
    ensures ReadValue(r, tags, order).Found? ==>
              exists k :: 0 <= k < |order| && KeyOf(tags, order[k]) != ""
                          && (forall j :: 0 <= j < k ==> KeyOf(tags, order[j]) == "")
                          && ReadValue(r, tags, order) == Found(ReadSource(r, order[k], KeyOf(tags, order[k])),
                                                                Locator(order[k], KeyOf(tags, order[k])))
  {
    ReadValueNotFound(r, tags, order);
    ReadValueFound(r, tags, order);
  }

  /** readValue finds nothing exactly when no source in the order has a tag key. */
  lemma {:induction false} ReadValueNotFound(r: Request, tags: Tags, order: seq<Source>)
    ensures ReadValue(r, tags, order).TagNotFound? <==> forall s :: s in order ==> KeyOf(tags, s) == ""
  {
    if order != [] && KeyOf(tags, order[0]) == "" {
      assert ReadValue(r, tags, order) == ReadValue(r, tags, order[1..]);
      ReadValueNotFound(r, tags, order[1..]);
      forall s | s in order && s != order[0]
        ensures s in order[1..]
      {
      }
    } else if order != [] {
      assert ReadValue(r, tags, order).Found?;
    }
  }

  /** What readValue finds comes from the first source in the order with a tag key. */
  lemma {:induction false} ReadValueFound(r: Request, tags: Tags, order: seq<Source>)
    ensures ReadValue(r, tags, order).Found? ==>
              exists k :: 0 <= k < |order| && KeyOf(tags, order[k]) != ""
                          && (forall j :: 0 <= j < k ==> KeyOf(tags, order[j]) == "")
                          && ReadValue(r, tags, order) == Found(ReadSource(r, order[k], KeyOf(tags, order[k])),
                                                                Locator(order[k], KeyOf(tags, order[k])))
  {
    if order != [] && KeyOf(tags, order[0]) == "" {
      var rest := order[1..];
      assert ReadValue(r, tags, order) == ReadValue(r, tags, rest);
      ReadValueFound(r, tags, rest);
      if ReadValue(r, tags, rest).Found? {
        var k :| 0 <= k < |rest| && KeyOf(tags, rest[k]) != ""
                 && (forall j :: 0 <= j < k ==> KeyOf(tags, rest[j]) == "")
                 && ReadValue(r, tags, rest) == Found(ReadSource(r, rest[k], KeyOf(tags, rest[k])),
                                                      Locator(rest[k], KeyOf(tags, rest[k])));
        assert order[k + 1] == rest[k];
        assert forall j :: 0 <= j < k + 1 ==> KeyOf(tags, order[j]) == "" by {
          forall j | 0 <= j < k + 1
            ensures KeyOf(tags, order[j]) == ""
          {
            if j > 0 {
              assert order[j] == rest[j - 1];
            }
          }
        }
      }
    } else if order != [] {
      assert ReadValue(r, tags, order) == Found(ReadSource(r, order[0], KeyOf(tags, order[0])),
                                                Locator(order[0], KeyOf(tags, order[0])));
    }
  }

  /** With exactly one non-empty source tag, the map's iteration order does not matter. */
  lemma ReadValueOneSource(r: Request, tags: Tags, ord: Order, s: Source)
    requires KeyOf(tags, s) != ""
    requires forall s' :: s' != s ==> KeyOf(tags, s') == ""
    ensures ReadValue(r, tags, ord) == Found(ReadSource(r, s, KeyOf(tags, s)), Locator(s, KeyOf(tags, s)))
  {
    ReadValueFirstTag(r, tags, ord);
    assert s in ord;
  }

  /** With two source tags the iteration order picks the source: the nondeterminism of ranging over a Go map. */
  lemma ReadValueOrderMatters(r: Request)
    requires r.query == map["id" := "q"] && r.header == map["id" := "h"]
    ensures ReadValue(r, map["query" := "id", "header" := "id"], [Query, Header, Path, Form]) == Found("q", "query[id]")
    ensures ReadValue(r, map["query" := "id", "header" := "id"], [Header, Query, Path, Form]) == Found("h", "header[id]")
  {
    var tags := map["query" := "id", "header" := "id"];
    assert TagGet(tags, SourceName(Query)) == "id";
    assert TagGet(tags, SourceName(Header)) == "id";
    assert Locator(Query, "id") == "query[id]";
    assert Locator(Header, "id") == "header[id]";
  }

  // -----------------------------------------------------------------------
  // Dispatch in set.

  /** A private field is looked up as Set + its capitalised name: "token" needs SetToken. */
  lemma PrivateSetterName(typeName: string, tags: Tags)
    ensures SetterName(FieldDesc("token", typeName, String, "xr", tags)) == "SetToken"
    ensures SetterName(FieldDesc("Token", typeName, String, "", tags)) == "SetToken"
  {
  }

  /** A private field's companion method is "Set", its first byte upper-cased, then the rest of its name. */
  lemma PrivateSetterCapitalised(f: FieldDesc)
    requires IsPrivate(f)
    ensures SetterName(f) == "Set" + [UpperByte(f.name[0])] + f.name[1..]
  {
  }

  /** A private field without its Set method panics even when its type has a registered setter. */
  lemma PrivateFieldPanicsDespiteOverride(setters: map<string, SetFn>, t: StructType, i: nat, val: string,
                                          values: seq<FieldValue>)
    requires i < |t.fields| == |values|
    requires val != "" && IsPrivate(t.fields[i]) && SetterName(t.fields[i]) !in t.methods
    requires t.fields[i].typeName in setters
    ensures SetField(setters, t, i, val, values).0 == SetPanic(PrivateField(t.fields[i].name, SetterName(t.fields[i])))
  {
  }

  /** The companion method wins over the setter registry and over the kind: neither is consulted. */
  lemma CompanionWins(s1: map<string, SetFn>, s2: map<string, SetFn>, t: StructType, i: nat, k: Kind, val: string,
                      values: seq<FieldValue>)
    requires i < |t.fields| == |values|
    requires SetterName(t.fields[i]) in t.methods
    ensures var t' := t.(fields := t.fields[i := t.fields[i].(kind := k)]);
            SetField(s1, t, i, val, values) == SetField(s2, t', i, val, values)
  {
    var t' := t.(fields := t.fields[i := t.fields[i].(kind := k)]);
    assert SetterName(t'.fields[i]) == SetterName(t.fields[i]);
  }

  /** A registered setter wins over the kind conversion: the kind is not consulted. */
  lemma OverrideBeforeKind(setters: map<string, SetFn>, t: StructType, i: nat, k: Kind, val: string,
                           values: seq<FieldValue>)
    requires i < |t.fields| == |values|
    requires val != "" && SetterName(t.fields[i]) !in t.methods && !IsPrivate(t.fields[i])
    requires t.fields[i].typeName in setters
    ensures var t' := t.(fields := t.fields[i := t.fields[i].(kind := k)]);
            SetField(setters, t, i, val, values) == SetField(setters, t', i, val, values)
    ensures var res := setters[t.fields[i].typeName](values[i], val);
            SetField(setters, t, i, val, values).1 == values[i := res.value]
  {
    var t' := t.(fields := t.fields[i := t.fields[i].(kind := k)]);
    assert SetterName(t'.fields[i]) == SetterName(t.fields[i]);
  }

  // -----------------------------------------------------------------------
  // Integer widths.

  /** A signed integer field accepts exactly the decimals of its width's range. */
  lemma CoerceSignedWidth(k: Kind, v: int)
    requires IsSignedInt(k)
    ensures -(Pow2(Width(k) - 1) as int) <= v < Pow2(Width(k) - 1) ==> Coerce(k, FormatInt(v)) == Ok(IntVal(v))
    ensures !(-(Pow2(Width(k) - 1) as int) <= v < Pow2(Width(k) - 1)) ==>
              Coerce(k, FormatInt(v)) == Err(NumErr(NumError("ParseInt", FormatInt(v), ErrRange)))
  {
    ParseIntFormat(v, Width(k));
    CoerceFollowsParseInt(k, FormatInt(v));
  }

  /** A sized unsigned field accepts exactly the decimals up to 2^width - 1. */
  lemma CoerceUnsignedWidth(k: Kind, n: nat)
    requires IsSizedUint(k)
    ensures n <= MaxUint(Width(k)) ==> Coerce(k, FormatUint(n)) == Ok(UintVal(n))
    ensures n > MaxUint(Width(k)) ==> Coerce(k, FormatUint(n)) == Err(NumErr(NumError("ParseUint", FormatUint(n), ErrRange)))
  {
    ParseUintFormat(n, Width(k));
    CoerceFollowsParseUint(k, FormatUint(n));
  }

  /** A sized unsigned field rejects a value with a leading sign. */
  lemma CoerceUnsignedRejectsSign(k: Kind, signed: string)
    requires IsSizedUint(k)
    requires |signed| > 0 && (signed[0] == '+' || signed[0] == '-')
    ensures Coerce(k, signed).Err?
  {
    ParseUintRejectsSign(signed, Width(k));
    CoerceFollowsParseUint(k, signed);
  }

  /** A signed integer field fails exactly when ParseInt at its width does, with its error, and otherwise stores its value. */
  lemma CoerceFollowsParseInt(kind: Kind, val: string)
    requires IsSignedInt(kind)
    ensures Coerce(kind, val).Err? <==> ParseInt(val, Width(kind)).Err?
    ensures Coerce(kind, val).Ok? ==> Coerce(kind, val).value == IntVal(ParseInt(val, Width(kind)).value)
    ensures Coerce(kind, val).Err? ==> Coerce(kind, val).error == NumErr(ParseInt(val, Width(kind)).error)
  {
    assert Coerce(kind, val) == CoerceSigned(kind, val);
  }

  /** A sized unsigned field fails exactly when ParseUint at its width does, with its error, and otherwise stores its value. */
  lemma CoerceFollowsParseUint(kind: Kind, val: string)
    requires IsSizedUint(kind)
    ensures Coerce(kind, val).Err? <==> ParseUint(val, Width(kind)).Err?
    ensures Coerce(kind, val).Ok? ==> Coerce(kind, val).value == UintVal(ParseUint(val, Width(kind)).value)
    ensures Coerce(kind, val).Err? ==> Coerce(kind, val).error == NumErr(ParseUint(val, Width(kind)).error)
  {
    assert Coerce(kind, val) == CoerceUnsigned(kind, val);
  }

  /** A bool field fails exactly when ParseBool does, with its error, and otherwise stores its value. */
  lemma CoerceFollowsParseBool(val: string)
    ensures Coerce(Bool, val).Err? <==> ParseBool(val).Err?
    ensures Coerce(Bool, val).Ok? ==> Coerce(Bool, val).value == BoolVal(ParseBool(val).value)
    ensures Coerce(Bool, val).Err? ==> Coerce(Bool, val).error == NumErr(ParseBool(val).error)
  {
    assert Coerce(Bool, val) == CoerceBool(val);
  }

  /** A float field of either width fails exactly when ParseFloat does, with its error, and otherwise stores its value. */
  lemma CoerceFollowsParseFloat(val: string)
    ensures Coerce(Float32, val).Err? <==> ParseFloat(val).Err?
    ensures Coerce(Float32, val).Ok? ==> Coerce(Float32, val).value == FloatVal(ParseFloat(val).value)
    ensures Coerce(Float32, val).Err? ==> Coerce(Float32, val).error == NumErr(ParseFloat(val).error)
    ensures Coerce(Float64, val) == Coerce(Float32, val)
  {
    assert Coerce(Float32, val) == CoerceFloat(Float32, val);
    assert Coerce(Float64, val) == CoerceFloat(Float64, val);
  }

  /** A complex field of either width fails exactly when ParseComplex does, with its error, and otherwise stores its value. */
  lemma CoerceFollowsParseComplex(val: string)
    ensures Coerce(Complex64, val).Err? <==> ParseComplex(val).Err?
    ensures Coerce(Complex64, val).Ok? ==>
              Coerce(Complex64, val).value == ComplexVal(ParseComplex(val).value.0, ParseComplex(val).value.1)
    ensures Coerce(Complex64, val).Err? ==> Coerce(Complex64, val).error == NumErr(ParseComplex(val).error)
    ensures Coerce(Complex128, val) == Coerce(Complex64, val)
  {
    assert Coerce(Complex64, val) == CoerceComplex(Complex64, val);
    assert Coerce(Complex128, val) == CoerceComplex(Complex128, val);
  }

  /** Malformed input fails: "jibberish" on an int field is a syntax error of ParseInt. */
  lemma MalformedIntFails()
    ensures Coerce(Int, "jibberish") == Err(NumErr(NumError("ParseInt", "jibberish", ErrSyntax)))
  {
    CoerceFollowsParseInt(Int, "jibberish");
    assert Unsigned("jibberish") == "jibberish";
    assert ScanUint("jibberish", 0, 0, MaxUint(64)) == Err(ErrSyntax);
    assert ParseUint("jibberish", 64) == Err(NumError("ParseUint", "jibberish", ErrSyntax));
  }

  /** Malformed input fails: "not an int" on a bool field is a syntax error of ParseBool. */
  lemma MalformedBoolFails()
    ensures Coerce(Bool, "not an int") == Err(NumErr(NumError("ParseBool", "not an int", ErrSyntax)))
  {
    CoerceFollowsParseBool("not an int");
  }

  /** The int8 edges of the tests: -128 is stored, -129 is a range error. */
  lemma Int8Field()
    ensures Coerce(Int8, "-128") == Ok(IntVal(-128))
    ensures Coerce(Int8, "-129") == Err(NumErr(NumError("ParseInt", "-129", ErrRange)))
  {
    Int8Edges();
  }

  /** The uint8 edges of the tests: 255 is stored, 256 is a range error. */
  lemma Uint8Field()
    ensures Coerce(Uint8, "255") == Ok(UintVal(255))
    ensures Coerce(Uint8, "256") == Err(NumErr(NumError("ParseUint", "256", ErrRange)))
  {
    Uint8Edges();
  }

  // -----------------------------------------------------------------------
  // Validators.

  /** minLength is inclusive and counts bytes of the raw value. */
  lemma MinLengthInclusive(tags: Tags, value: string, k: int)
    requires "minLength" in tags && tags["minLength"] == FormatInt(k)
    requires -(Pow2(63) as int) <= k < Pow2(63)
    ensures MinLength(tags, value) == if |value| >= k then None else Some(MinLengthExceeded)
  {
    ParseIntFormat(k, 64);
    assert Strconv.ParseInt(tags["minLength"], 64) == Ok(k);
  }

  /** maxLength is inclusive and counts bytes of the raw value. */
  lemma MaxLengthInclusive(tags: Tags, value: string, k: int)
    requires "maxLength" in tags && tags["maxLength"] == FormatInt(k)
    requires -(Pow2(63) as int) <= k < Pow2(63)
    ensures MaxLength(tags, value) == if |value| <= k then None else Some(MaxLengthExceeded)
  {
    ParseIntFormat(k, 64);
    assert Strconv.ParseInt(tags["maxLength"], 64) == Ok(k);
  }

  /** minimum is inclusive: a stored number equal to the bound passes, anything below fails. */
  lemma MinimumInclusive(f: FieldDesc, stored: FieldValue, b: int)
    requires "minimum" in f.tags && f.tags["minimum"] == FormatInt(b)
    ensures MinimumField(f, stored).None? <==> StoredNumber(f.kind, stored) >= b as real
  {
    ParseFloatFormat(b);
  }

  /** maximum is inclusive: a stored number equal to the bound passes, anything above fails. */
  lemma MaximumInclusive(f: FieldDesc, stored: FieldValue, b: int)
    requires "maximum" in f.tags && f.tags["maximum"] == FormatInt(b)
    ensures MaximumField(f, stored).None? <==> StoredNumber(f.kind, stored) <= b as real
  {
    ParseFloatFormat(b);
  }

  /** A bound that is not a number is itself the error. */
  lemma MalformedBoundFails(f: FieldDesc, stored: FieldValue)
    requires f.tags == map["minimum" := "jibberish", "maxLength" := "jibberish"]
    ensures MinimumField(f, stored) == Some(NumErr(NumError("ParseFloat", "jibberish", ErrSyntax)))
    ensures MaxLength(f.tags, "John Doe") == Some(NumErr(NumError("ParseInt", "jibberish", ErrSyntax)))
  {
  }

  /** A field of a non-numeric kind counts as 0 for minimum and maximum. */
  lemma NonNumericCountsAsZero(f: FieldDesc, stored: FieldValue)
    requires f.kind == String && f.tags == map["minimum" := "1"]
    ensures MinimumField(f, stored) == Some(MinimumExceeded(0.0, 1.0))
  {
    ParseFloatFormat(1);
    assert FormatInt(1) == "1";
  }

  /** A field whose value is missing leaves the values alone and stops exactly where a validator fails. */
  lemma MissingValueValidated(setters: map<string, SetFn>, t: StructType, r: Request, ord: Order, i: nat,
                              values: seq<FieldValue>)
    requires i < |t.fields| == |values|
    requires ReadValue(r, t.fields[i].tags, ord).TagNotFound? || ReadValue(r, t.fields[i].tags, ord).value == ""
    ensures var rd := ReadValue(r, t.fields[i].tags, ord);
            var c := Validate(t.fields[i], "", values[i]);
            PickField(setters, t, r, ord, i, values)
            == if c.Some? then Stop(Failed(PickError(FieldDest(t, i), if rd.Found? then rd.source else "", c.value)), values)
               else Next(values)
  {
  }

  /** A field whose value was found and set without error stops exactly where a validator fails. */
  lemma FoundValueValidated(setters: map<string, SetFn>, t: StructType, r: Request, ord: Order, i: nat,
                            values: seq<FieldValue>, v1: seq<FieldValue>)
    requires i < |t.fields| == |values|
    requires ReadValue(r, t.fields[i].tags, ord).Found?
    requires SetField(setters, t, i, ReadValue(r, t.fields[i].tags, ord).value, values) == (SetOk, v1)
    ensures var rd := ReadValue(r, t.fields[i].tags, ord);
            var c := Validate(t.fields[i], rd.value, v1[i]);
            PickField(setters, t, r, ord, i, values)
            == if c.Some? then Stop(Failed(PickError(FieldDest(t, i), rd.source, c.value)), v1) else Next(v1)
  {
  }

  /**
   * A set that returns an error stops Pick with a PickError naming the
   * field, the locator of the source the value came from and the cause;
   * the validators do not run.
   */
  lemma SetErrorStops(setters: map<string, SetFn>, t: StructType, r: Request, ord: Order, i: nat,
                      values: seq<FieldValue>, c: Cause, v1: seq<FieldValue>)
    requires i < |t.fields| == |values|
    requires ReadValue(r, t.fields[i].tags, ord).Found?
    requires SetField(setters, t, i, ReadValue(r, t.fields[i].tags, ord).value, values) == (SetErr(c), v1)
    ensures PickField(setters, t, r, ord, i, values)
            == Stop(Failed(PickError(FieldDest(t, i), ReadValue(r, t.fields[i].tags, ord).source, c)), v1)
  {
  }

  /** A set that panics stops Pick with that panic; no PickError wraps it. */
  lemma SetPanicStops(setters: map<string, SetFn>, t: StructType, r: Request, ord: Order, i: nat,
                      values: seq<FieldValue>, p: Panic, v1: seq<FieldValue>)
    requires i < |t.fields| == |values|
    requires ReadValue(r, t.fields[i].tags, ord).Found?
    requires SetField(setters, t, i, ReadValue(r, t.fields[i].tags, ord).value, values) == (SetPanic(p), v1)
    ensures PickField(setters, t, r, ord, i, values) == Stop(Fatal(p), v1)
  {
  }

  /**
   * The validators run for a field whose value is missing, whether its
   * source tag is absent or the source holds no value: under a positive
   * minLength the field fails although nothing was set.
   */
  lemma MinLengthOnMissingValue(setters: map<string, SetFn>, t: StructType, r: Request, ord: Order, i: nat,
                                values: seq<FieldValue>, k: int)
    requires i < |t.fields| == |values|
    requires ReadValue(r, t.fields[i].tags, ord).TagNotFound? || ReadValue(r, t.fields[i].tags, ord).value == ""
    requires "minLength" in t.fields[i].tags && t.fields[i].tags["minLength"] == FormatInt(k)
    requires 0 < k < Pow2(63)
    ensures var rd := ReadValue(r, t.fields[i].tags, ord);
            PickField(setters, t, r, ord, i, values)
            == Stop(Failed(PickError(FieldDest(t, i), if rd.Found? then rd.source else "", MinLengthExceeded)), values)
  {
    MissingValueValidated(setters, t, r, ord, i, values);
    MinLengthInclusive(t.fields[i].tags, "", k);
  }

  /**
   * The bounds read the value already stored, even in a field with no
   * source tag: minimum on an untagged field fails when what it holds is
   * below the bound.
   */
  lemma MinimumOnUntaggedField(setters: map<string, SetFn>, t: StructType, r: Request, ord: Order, i: nat,
                               values: seq<FieldValue>, b: int)
    requires i < |t.fields| == |values|
    requires forall s :: KeyOf(t.fields[i].tags, s) == ""
    requires "minLength" !in t.fields[i].tags && "maxLength" !in t.fields[i].tags
    requires "minimum" in t.fields[i].tags && t.fields[i].tags["minimum"] == FormatInt(b)
    requires StoredNumber(t.fields[i].kind, values[i]) < b as real
    ensures PickField(setters, t, r, ord, i, values)
            == Stop(Failed(PickError(FieldDest(t, i), "", MinimumExceeded(StoredNumber(t.fields[i].kind, values[i]), b as real))),
                    values)
  {
    ReadValueFirstTag(r, t.fields[i].tags, ord);
    MissingValueValidated(setters, t, r, ord, i, values);
    assert Validate(t.fields[i], "", values[i])
           == Some(MinimumExceeded(StoredNumber(t.fields[i].kind, values[i]), b as real)) by {
      ParseFloatFormat(b);
    }
  }

  // -----------------------------------------------------------------------
  // The field loop.

  /** The index of the round at which the loop stopped, or n when it ran to the end. */
  function Frontier(round: (nat, seq<FieldValue>) -> Step, n: nat, i: nat, values: seq<FieldValue>): (k: nat)
    requires i <= n
    ensures i <= k <= n
    decreases n - i
  {
    if i == n then i
    else
      match round(i, values)
      case Stop(_, _) => i
      case Next(vs) => Frontier(round, n, i + 1, vs)
  }

  /** Rounds that stop report an error or a panic, never success. */
  ghost predicate StopsOnlyOnFailure(round: (nat, seq<FieldValue>) -> Step) {
    forall j: nat, vs: seq<FieldValue> :: round(j, vs).Stop? ==> round(j, vs).outcome != Done
  }

  /** A round changes at most the field it is for. */
  ghost predicate Local(round: (nat, seq<FieldValue>) -> Step) {
    forall j: nat, vs: seq<FieldValue>, k: nat :: k < |vs| && k != j && k < |round(j, vs).values| ==> round(j, vs).values[k] == vs[k]
  }

  /** The loop succeeds exactly when no round stops it. */
  lemma {:induction false} RunStops(round: (nat, seq<FieldValue>) -> Step, n: nat, i: nat, values: seq<FieldValue>)
    requires i <= n
    requires StopsOnlyOnFailure(round)
    ensures Run(round, n, i, values).0 == Done <==> Frontier(round, n, i, values) == n
    decreases n - i
  {
    if i < n && round(i, values).Next? {
      RunStops(round, n, i + 1, round(i, values).values);
    }
  }

  /** A field outside the stretch of rounds the loop went through keeps its value. */
  lemma {:induction false} FieldUntouched(round: (nat, seq<FieldValue>) -> Step, n: nat, i: nat, values: seq<FieldValue>,
                                          k: nat)
    requires i <= n
    requires KeepsLength(round) && Local(round)
    requires k < |values| && (k < i || k > Frontier(round, n, i, values))
    ensures Run(round, n, i, values).1[k] == values[k]
    decreases n - i
  {
    if i < n {
      var vs := round(i, values).values;
      assert vs[k] == values[k];
      if round(i, values).Next? {
        FieldUntouched(round, n, i + 1, vs, k);
      }
    }
  }

  /** No round of Pick's loop stops with success. */
  lemma RoundStopsOnlyOnFailure(setters: map<string, SetFn>, t: StructType, r: Request, order: nat -> Order)
    ensures StopsOnlyOnFailure(Round(setters, t, r, order))
  {
    forall j: nat, vs: seq<FieldValue> | Round(setters, t, r, order)(j, vs).Stop?
      ensures Round(setters, t, r, order)(j, vs).outcome != Done
    {
      assert j < |t.fields| == |vs|;
      StopIsNotDone(setters, t, r, order(j), j, vs);
    }
  }

  /** A round of the loop that stops reports an error or a panic, never success. */
  lemma StopIsNotDone(setters: map<string, SetFn>, t: StructType, r: Request, ord: Order, i: nat, values: seq<FieldValue>)
    requires i < |t.fields| == |values|
    ensures PickField(setters, t, r, ord, i, values).Stop? ==> PickField(setters, t, r, ord, i, values).outcome != Done
  {
  }

  /** Stop on the first error: Pick succeeds exactly when no field stops the loop. */
  lemma StopOnFirstError(setters: map<string, SetFn>, t: StructType, r: Request,
                         order: nat -> Order, i: nat, values: seq<FieldValue>)
    requires i <= |t.fields| == |values|
    ensures PickFields(setters, t, r, order, i, values).0 == Done
            <==> Frontier(Round(setters, t, r, order), |t.fields|, i, values) == |t.fields|
  {
    RoundStopsOnlyOnFailure(setters, t, r, order);
    RunStops(Round(setters, t, r, order), |t.fields|, i, values);
  }

  /** When each Set<Name> method writes only its own field, every round of Pick's loop is local. */
  lemma RoundIsLocal(setters: map<string, SetFn>, t: StructType, r: Request, order: nat -> Order)
    requires MethodsWriteOwnField(t)
    ensures Local(Round(setters, t, r, order))
  {
    forall j: nat, vs: seq<FieldValue>, k: nat | k < |vs| && k != j && k < |Round(setters, t, r, order)(j, vs).values|
      ensures Round(setters, t, r, order)(j, vs).values[k] == vs[k]
    {
      if j < |t.fields| == |vs| {
        StepIsLocal(setters, t, r, order(j), j, vs);
      }
    }
  }

  /**
   * When each Set<Name> method writes only its own field, the fields
   * before the start and after the stopping one keep their prior values.
   */
  lemma LaterFieldsUntouched(setters: map<string, SetFn>, t: StructType, r: Request,
                             order: nat -> Order, i: nat, values: seq<FieldValue>)
    requires i <= |t.fields| == |values|
    requires MethodsWriteOwnField(t)
    ensures var k := Frontier(Round(setters, t, r, order), |t.fields|, i, values);
            var w := PickFields(setters, t, r, order, i, values).1;
            forall j :: 0 <= j < |values| && (j < i || j > k) ==> w[j] == values[j]
  {
    var round := Round(setters, t, r, order);
    RoundKeepsLength(setters, t, r, order);
    RoundIsLocal(setters, t, r, order);
    forall j | 0 <= j < |values| && (j < i || j > Frontier(round, |t.fields|, i, values))
      ensures PickFields(setters, t, r, order, i, values).1[j] == values[j]
    {
      FieldUntouched(round, |t.fields|, i, values, j);
    }
  }

  /** When each Set<Name> method writes only its own field, one round of the loop changes at most its own field. */
  lemma StepIsLocal(setters: map<string, SetFn>, t: StructType, r: Request, ord: Order, i: nat, values: seq<FieldValue>)
    requires i < |t.fields| == |values|
    requires MethodsWriteOwnField(t)
    ensures forall j :: 0 <= j < |values| && j != i ==> PickField(setters, t, r, ord, i, values).values[j] == values[j]
  {
  }

  // -----------------------------------------------------------------------
  // End to end.

  /** A public signed integer field without companion or setter stores the number its decimal denotes. */
  lemma SignedFieldSet(setters: map<string, SetFn>, t: StructType, i: nat, values: seq<FieldValue>, v: int)
    requires i < |t.fields| == |values|
    requires var f := t.fields[i];
             IsSignedInt(f.kind) && !IsPrivate(f) && SetterName(f) !in t.methods && f.typeName !in setters
    requires -(Pow2(Width(t.fields[i].kind) - 1) as int) <= v < Pow2(Width(t.fields[i].kind) - 1)
    ensures SetField(setters, t, i, FormatInt(v), values) == (SetOk, values[i := IntVal(v)])
  {
    CoerceSignedWidth(t.fields[i].kind, v);
  }

  /** A field without minLength, maxLength, minimum or maximum tags passes validation whatever it holds. */
  lemma UnconstrainedFieldValid(f: FieldDesc, val: string, stored: FieldValue)
    requires "minLength" !in f.tags && "maxLength" !in f.tags && "minimum" !in f.tags && "maximum" !in f.tags
    ensures Validate(f, val, stored).None?
  {
  }

  /** The unsigned counterpart of SignedFieldSet: a decimal up to 2^width - 1 is stored as that number. */
  lemma UnsignedFieldSet(setters: map<string, SetFn>, t: StructType, i: nat, values: seq<FieldValue>, n: nat)
    requires i < |t.fields| == |values|
    requires var f := t.fields[i];
             IsSizedUint(f.kind) && !IsPrivate(f) && SetterName(f) !in t.methods && f.typeName !in setters
    requires n <= MaxUint(Width(t.fields[i].kind))
    ensures SetField(setters, t, i, FormatUint(n), values) == (SetOk, values[i := UintVal(n)])
  {
    CoerceUnsignedWidth(t.fields[i].kind, n);
  }

  /**
   * Round trip: a public signed integer field whose only source tag is one
   * header, with no companion method and no registered setter, ends up
   * holding exactly the number whose decimal the header carries, when it is
   * in the kind's range and the field's validators accept it.
   */
  lemma HeaderIntegerRoundTrip(setters: map<string, SetFn>, t: StructType, r: Request, ord: Order, i: nat,
                               values: seq<FieldValue>, key: string, v: int)
    requires i < |t.fields| == |values|
    requires var f := t.fields[i];
             && IsSignedInt(f.kind) && !IsPrivate(f) && SetterName(f) !in t.methods && f.typeName !in setters
             && KeyOf(f.tags, Header) == key != "" && forall s :: s != Header ==> KeyOf(f.tags, s) == ""
    requires key in r.header && r.header[key] == FormatInt(v)
    requires -(Pow2(Width(t.fields[i].kind) - 1) as int) <= v < Pow2(Width(t.fields[i].kind) - 1)
    requires Validate(t.fields[i], FormatInt(v), IntVal(v)).None?
    ensures PickField(setters, t, r, ord, i, values) == Next(values[i := IntVal(v)])
  {
    var f := t.fields[i];
    assert ReadValue(r, f.tags, ord) == Found(FormatInt(v), Locator(Header, key)) by {
      ReadValueOneSource(r, f.tags, ord, Header);
    }
    SignedFieldSet(setters, t, i, values, v);
    FoundValueValidated(setters, t, r, ord, i, values, values[i := IntVal(v)]);
  }

  /** The same round trip for a sized unsigned field and a decimal up to 2^width - 1. */
  lemma HeaderUnsignedRoundTrip(setters: map<string, SetFn>, t: StructType, r: Request, ord: Order, i: nat,
                                values: seq<FieldValue>, key: string, n: nat)
    requires i < |t.fields| == |values|
    requires var f := t.fields[i];
             && IsSizedUint(f.kind) && !IsPrivate(f) && SetterName(f) !in t.methods && f.typeName !in setters
             && KeyOf(f.tags, Header) == key != "" && forall s :: s != Header ==> KeyOf(f.tags, s) == ""
    requires key in r.header && r.header[key] == FormatUint(n)
    requires n <= MaxUint(Width(t.fields[i].kind))
    requires Validate(t.fields[i], FormatUint(n), UintVal(n)).None?
    ensures PickField(setters, t, r, ord, i, values) == Next(values[i := UintVal(n)])
  {
    var f := t.fields[i];
    assert ReadValue(r, f.tags, ord) == Found(FormatUint(n), Locator(Header, key)) by {
      ReadValueOneSource(r, f.tags, ord, Header);
    }
    UnsignedFieldSet(setters, t, i, values, n);
    FoundValueValidated(setters, t, r, ord, i, values, values[i := UintVal(n)]);
  }

  /** For a GET of a one-field struct, Pick is that field's round of the loop. */
  lemma OneFieldGet(registry: map<string, Factory>, setters: map<string, SetFn>, t: StructType, r: Request,
                    order: nat -> Order, values: seq<FieldValue>)
    requires |t.fields| == |values| == 1
    requires r.verb == "GET"
    ensures PickSpec(registry, setters, t, r, order, values)
            == match PickField(setters, t, r, order(0), 0, values)
               case Stop(o, vs) => (o, vs)
               case Next(vs) => (Done, vs)
  {
    assert SkipsBody(r.verb);
    assert PickSpec(registry, setters, t, r, order, values) == PickFields(setters, t, r, order, 0, values);
    match PickField(setters, t, r, order(0), 0, values)
    case Stop(o, vs) =>
    case Next(vs) =>
      assert PickFields(setters, t, r, order, 1, vs) == (Done, vs);
  }

  /** The one field of the Flag scenario. */
  function FlagField(): FieldDesc {
    FieldDesc("Flag", "bool", Bool, "", map["header" := "flag"])
  }

  /** The Flag scenario's field reads "true" from its header. */
  lemma FlagFieldIsRead(r: Request, ord: Order)
    requires r.header == map["flag" := "true"]
    ensures ReadValue(r, FlagField().tags, ord) == Found("true", "header[flag]")
  {
    var tags := FlagField().tags;
    assert TagGet(tags, SourceName(Header)) == "flag";
    assert TagGet(tags, "path") == "" && TagGet(tags, "query") == "" && TagGet(tags, "form") == "";
    ReadValueOneSource(r, tags, ord, Header);
    assert Locator(Header, "flag") == "header[flag]";
  }

  /** The Flag scenario's field is set from "true". */
  lemma FlagFieldIsSet(setters: map<string, SetFn>, t: StructType, values: seq<FieldValue>)
    requires t.fields == [FlagField()] && t.methods == map[]
    requires |values| == 1 && "bool" !in setters
    ensures SetField(setters, t, 0, "true", values) == (SetOk, [BoolVal(true)])
  {
    assert Coerce(Bool, "true") == Ok(BoolVal(true));
    assert values[0 := BoolVal(true)] == [BoolVal(true)];
  }

  /** Scenario: a bool field tagged header:"flag" and the header flag=true; Pick succeeds and stores true. */
  lemma ScenarioFlag(registry: map<string, Factory>, setters: map<string, SetFn>, t: StructType, r: Request,
                     order: nat -> Order, values: seq<FieldValue>)
    requires t.fields == [FlagField()] && t.methods == map[]
    requires r.verb == "GET" && r.header == map["flag" := "true"]
    requires |values| == 1 && "bool" !in setters
    ensures PickSpec(registry, setters, t, r, order, values) == (Done, [BoolVal(true)])
  {
    FlagFieldIsRead(r, order(0));
    FlagFieldIsSet(setters, t, values);
    assert Validate(FlagField(), "true", BoolVal(true)).None?;
    FoundValueValidated(setters, t, r, order(0), 0, values, [BoolVal(true)]);
    OneFieldGet(registry, setters, t, r, order, values);
  }

  /** The decimals of the Age scenario. */
  lemma AgeDecimals()
    ensures FormatInt(0) == "0" && FormatInt(130) == "130" && FormatInt(200) == "200"
  {
    assert FormatUint(13) == "13";
    assert FormatUint(20) == "20";
  }

  /** The one field of the Age scenario. */
  function AgeField(): FieldDesc {
    FieldDesc("Age", "int", Int, "", map["header" := "age", "minimum" := "0", "maximum" := "130"])
  }

  /** The Age scenario's field reads "200" from its header. */
  lemma AgeFieldIsRead(r: Request, ord: Order)
    requires r.header == map["age" := "200"]
    ensures ReadValue(r, AgeField().tags, ord) == Found("200", "header[age]")
  {
    var tags := AgeField().tags;
    assert TagGet(tags, SourceName(Header)) == "age";
    assert TagGet(tags, "path") == "" && TagGet(tags, "query") == "" && TagGet(tags, "form") == "";
    ReadValueOneSource(r, tags, ord, Header);
    assert Locator(Header, "age") == "header[age]";
  }

  /** The Age scenario's field is set from "200". */
  lemma AgeFieldIsSet(setters: map<string, SetFn>, t: StructType, values: seq<FieldValue>)
    requires t.fields == [AgeField()] && t.methods == map[]
    requires |values| == 1 && "int" !in setters
    ensures SetField(setters, t, 0, "200", values) == (SetOk, [IntVal(200)])
  {
    AgeDecimals();
    CoerceSignedWidth(Int, 200);
    assert values[0 := IntVal(200)] == [IntVal(200)];
  }

  /** The Age bounds: 200 passes minimum:"0" and fails maximum:"130". */
  lemma AgeBounds()
    ensures Validate(AgeField(), "200", IntVal(200)) == Some(MaximumExceeded)
  {
    AgeDecimals();
    MinimumInclusive(AgeField(), IntVal(200), 0);
    MaximumInclusive(AgeField(), IntVal(200), 130);
  }

  /** Scenario: Age int with minimum:"0" maximum:"130" and the header age=200; Pick fails with maximum exceeded. */
  lemma ScenarioAge(registry: map<string, Factory>, setters: map<string, SetFn>, t: StructType, r: Request,
                    order: nat -> Order, values: seq<FieldValue>)
    requires t.name == "T" && t.fields == [AgeField()] && t.methods == map[]
    requires r.verb == "GET" && r.header == map["age" := "200"]
    requires |values| == 1 && "int" !in setters
    ensures PickSpec(registry, setters, t, r, order, values)
            == (Failed(PickError("T.Age", "header[age]", MaximumExceeded)), [IntVal(200)])
  {
    assert FieldDest(t, 0) == "T.Age";
    AgeFieldIsRead(r, order(0));
    AgeFieldIsSet(setters, t, values);
    AgeBounds();
    FoundValueValidated(setters, t, r, order(0), 0, values, [IntVal(200)]);
    OneFieldGet(registry, setters, t, r, order, values);
  }

  /** Scenario: a private field with no Set method, its header present; Pick panics whatever setters are registered. */
  lemma ScenarioPrivateField(registry: map<string, Factory>, setters: map<string, SetFn>, t: StructType, r: Request,
                             order: nat -> Order, values: seq<FieldValue>)
    requires t.methods == map[]
    requires t.fields == [FieldDesc("token", "string", String, "xr", map["header" := "authorization"])]
    requires r.verb == "GET" && r.header == map["authorization" := "Bearer"]
    requires |values| == 1
    ensures PickSpec(registry, setters, t, r, order, values) == (Fatal(PrivateField("token", "SetToken")), values)
  {
    var f := t.fields[0];
    assert ReadValue(r, f.tags, order(0)) == Found("Bearer", Locator(Header, "authorization")) by {
      ReadValueOneSource(r, f.tags, order(0), Header);
    }
    PrivateSetterName(f.typeName, f.tags);
    OneFieldGet(registry, setters, t, r, order, values);
  }
}
