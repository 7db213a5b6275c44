/** Properties of the decode.go engine, and how it relates to the Picker. */
module DecodeProperties {
  import opened Wrappers
  import opened Binding
  import opened Http
  import opened Strconv
  import PickEngine
  import PickProperties
  import opened DecodeEngine

  /** At start-up only application/json has a decoder; every other content type gets noop. */
  lemma JsonOnlyAtStart(json: Factory, ct: string, body: string, values: seq<FieldValue>)
    ensures ct == "application/json" ==> PickEngine.NewDecoder(InitialRegistry(json), ct, body) == json(body)
    ensures ct != "application/json" ==>
              PickEngine.NewDecoder(InitialRegistry(json), ct, body)(values) == DecodeResult(map[], None)
  {
  }

  /** The body is decoded whatever the method, GET included, and its error is returned unwrapped. */
  lemma DecodeErrorForEveryMethod(registry: map<string, Factory>, t: StructType, r: Request,
                                  order: nat -> LegacyOrder, values: seq<FieldValue>)
    requires |t.fields| == |values|
    requires PickEngine.NewDecoder(registry, ContentType(r), r.body)(values).err.Some?
    ensures var dec := PickEngine.NewDecoder(registry, ContentType(r), r.body)(values);
            PickSpec(registry, t, r, order, values) == (Failed(External(dec.err.value)), Apply(values, dec.writes))
  {
  }

  /** An unregistered content type decodes nothing: Pick is the field loop on the values as they were. */
  lemma UnregisteredContentTypeIsNoop(registry: map<string, Factory>, t: StructType, r: Request,
                                      order: nat -> LegacyOrder, values: seq<FieldValue>)
    requires |t.fields| == |values|
    requires ContentType(r) !in registry
    ensures PickSpec(registry, t, r, order, values) == PickFields(t, r, order, 0, values)
  {
    assert Apply(values, map[]) == values;
  }

  /** Reading over sources that exclude Form never looks at the form values. */
  lemma {:induction false} ReadValueIgnoresForm(r: Request, form: map<string, string>, tags: Tags, order: seq<Source>)
    requires Form !in order
    ensures PickEngine.ReadValue(r.(form := form), tags, order) == PickEngine.ReadValue(r, tags, order)
    ensures (forall s :: s in order ==> TagGet(tags, SourceName(s)) == "") ==>
              PickEngine.ReadValue(r, tags, order) == PickEngine.TagNotFound
  {
    if order != [] {
      assert order[0] in order;
      assert forall s :: s in order[1..] ==> s in order;
      ReadValueIgnoresForm(r, form, tags, order[1..]);
    }
  }

  /** There is no form source: a field tagged only form:"…" is skipped and keeps its value. */
  lemma FormOnlyFieldSkipped(t: StructType, r: Request, ord: LegacyOrder, i: nat, values: seq<FieldValue>)
    requires i < |t.fields| == |values|
    requires TagGet(t.fields[i].tags, "path") == "" && TagGet(t.fields[i].tags, "query") == ""
    requires TagGet(t.fields[i].tags, "header") == ""
    ensures PickField(t, r, ord, i, values) == (SetOk, values)
  {
    ReadValueIgnoresForm(r, r.form, t.fields[i].tags, ord);
  }

  /** An int field accepts exactly the decimals of a 64-bit int; outside, Atoi reports a range error. */
  lemma IntRoundTrip(v: int)
    ensures -(Pow2(63) as int) <= v < Pow2(63) ==> Coerce(Int, FormatInt(v)) == Ok(IntVal(v))
    ensures !(-(Pow2(63) as int) <= v < Pow2(63)) ==>
              Coerce(Int, FormatInt(v)) == Err(NumErr(NumError("Atoi", FormatInt(v), ErrRange)))
  {
    ParseIntFormat(v, 64);
  }

  /** A bool field stores the boolean whose Go spelling it is given. */
  lemma BoolRoundTrip(b: bool)
    ensures Coerce(Bool, FormatBool(b)) == Ok(BoolVal(b))
  {
  }

  /** Sized integers, unsigned integers and floats are all "Unsupported VType" here. */
  lemma OnlyThreeKinds(val: string)
    ensures Coerce(Int8, val) == Err(UnsupportedVType(Int8))
    ensures Coerce(Uint, val) == Err(UnsupportedVType(Uint))
    ensures Coerce(Float64, val) == Err(UnsupportedVType(Float64))
  {
  }

  /**
   * The Picker's conversions extend this engine's: whatever decode.go
   * stores, the Picker stores the same for the same kind and value.
   */
  lemma PickerExtendsCoerce(kind: Kind, val: string)
    requires Coerce(kind, val).Ok?
    ensures PickEngine.Coerce(kind, val) == Coerce(kind, val)
  {
    if kind == Int {
      assert PickEngine.Coerce(kind, val) == PickEngine.CoerceSigned(Int, val);
    } else {
      assert kind == String || kind == Bool;
    }
  }

  /** A private field is looked up under its capitalised name, as in the Picker. */
  lemma PrivateSetterName(f: FieldDesc)
    requires IsPrivate(f)
    ensures PickEngine.SetterName(f) == "Set" + [UpperByte(f.name[0])] + f.name[1..]
  {
    PickProperties.PrivateSetterCapitalised(f);
  }

  /** The index of the round at which the loop stopped, or n when it ran to the end. */
  function Frontier(round: (nat, seq<FieldValue>) -> (SetOutcome, seq<FieldValue>), n: nat, i: nat,
                    values: seq<FieldValue>): (k: nat)
    requires i <= n
    ensures i <= k <= n
    decreases n - i
  {
    if i == n then i
    else
      match round(i, values)
      case (SetOk, vs) => Frontier(round, n, i + 1, vs)
      case (_, _) => i
  }

  /** A round changes at most the field it is for. */
  ghost predicate Local(round: (nat, seq<FieldValue>) -> (SetOutcome, seq<FieldValue>)) {
    forall j: nat, vs: seq<FieldValue>, k: nat :: k < |vs| && k != j && k < |round(j, vs).1| ==> round(j, vs).1[k] == vs[k]
  }

  /** The loop succeeds exactly when every round returns SetOk. */
  lemma {:induction false} RunStops(round: (nat, seq<FieldValue>) -> (SetOutcome, seq<FieldValue>), n: nat, i: nat,
                                    values: seq<FieldValue>)
    requires i <= n
    ensures Run(round, n, i, values).0 == Done <==> Frontier(round, n, i, values) == n
    decreases n - i
  {
    if i < n && round(i, values).0.SetOk? {
      RunStops(round, n, i + 1, round(i, values).1);
    }
  }

  /** Stop on the first error: Pick succeeds exactly when no field stops the loop. */
  lemma StopOnFirstError(t: StructType, r: Request, order: nat -> LegacyOrder, i: nat, values: seq<FieldValue>)
    requires i <= |t.fields| == |values|
    ensures PickFields(t, r, order, i, values).0 == Done <==> Frontier(Round(t, r, order), |t.fields|, i, values) == |t.fields|
  {
    RunStops(Round(t, r, order), |t.fields|, i, values);
  }

  /** A field outside the stretch of rounds the loop went through keeps its value. */
  lemma {:induction false} FieldUntouched(round: (nat, seq<FieldValue>) -> (SetOutcome, seq<FieldValue>), n: nat, i: nat,
                                          values: seq<FieldValue>, k: nat)
    requires i <= n
    requires KeepsLength(round) && Local(round)
    requires k < |values| && (k < i || k > Frontier(round, n, i, values))
    ensures Run(round, n, i, values).1[k] == values[k]
    decreases n - i
  {
    if i < n {
      var vs := round(i, values).1;
      assert vs[k] == values[k];
      if round(i, values).0.SetOk? {
        FieldUntouched(round, n, i + 1, vs, k);
      }
    }
  }

  /** When each Set<Name> method writes only its own field, every round of the loop is local. */
  lemma RoundIsLocal(t: StructType, r: Request, order: nat -> LegacyOrder)
    requires PickEngine.MethodsWriteOwnField(t)
    ensures Local(Round(t, r, order))
  {
    forall j: nat, vs: seq<FieldValue>, k: nat | k < |vs| && k != j && k < |Round(t, r, order)(j, vs).1|
      ensures Round(t, r, order)(j, vs).1[k] == vs[k]
    {
      if j < |t.fields| == |vs| {
        StepIsLocal(t, r, order(j), j, vs);
      }
    }
  }

  /**
   * When each Set<Name> method writes only its own field, the fields
   * before the start and after the stopping one keep their prior values.
   */
  lemma LaterFieldsUntouched(t: StructType, r: Request, order: nat -> LegacyOrder, i: nat, values: seq<FieldValue>)
    requires i <= |t.fields| == |values|
    requires PickEngine.MethodsWriteOwnField(t)
    ensures var k := Frontier(Round(t, r, order), |t.fields|, i, values);
            var w := PickFields(t, r, order, i, values).1;
            forall j :: 0 <= j < |values| && (j < i || j > k) ==> w[j] == values[j]
  {
    var round := Round(t, r, order);
    RoundKeepsLength(t, r, order);
    RoundIsLocal(t, r, order);
    forall j | 0 <= j < |values| && (j < i || j > Frontier(round, |t.fields|, i, values))
      ensures PickFields(t, r, order, i, values).1[j] == values[j]
    {
      FieldUntouched(round, |t.fields|, i, values, j);
    }
  }

  /** When each Set<Name> method writes only its own field, one round of the loop changes at most its own field. */
  lemma StepIsLocal(t: StructType, r: Request, ord: LegacyOrder, i: nat, values: seq<FieldValue>)
    requires i < |t.fields| == |values|
    requires PickEngine.MethodsWriteOwnField(t)
    ensures forall j :: 0 <= j < |values| && j != i ==> PickField(t, r, ord, i, values).1[j] == values[j]
  {
  }
}
