# xr request binding, modelled in Dafny

This project models the request-to-struct binding engine of the Go package
`xr` (gregoryv/xr). It covers two engines.

- The `Picker` of `pick.go`. It holds a registry of body decoders keyed by
  content type and a registry of setters keyed by type name. Its `Pick`
  decodes the request body, except for GET, HEAD and DELETE. It then walks
  the destination struct's fields in declaration order. For each field it
  reads a value from the path, query, header or form, as the field's tags
  say, and `set`s it. `set` tries, in this order: a companion `Set<Name>`
  method, a panic for a private field, a registered setter for the field's
  type, and a conversion by kind. Then it runs the `minLength`,
  `maxLength`, `minimum` and `maximum` validators. The first error stops
  `Pick` with a `PickError`.
- The older engine of `decode.go` (module `DecodeEngine`). It has a
  package-level registry preloaded with `application/json`. It decodes the
  body for every method and reads only path, query and header. It converts
  only `int`, `string` and `bool` fields and has no validators.

Reflection is replaced by explicit data. A struct type is a `StructType`
holding `FieldDesc`s (name, type name, kind, package path, tags) and its
companion methods. The destination is an `array<FieldValue>` written in
place. A request is a method, a body and four string maps. Body decoders,
companion methods and registered setters are oracles: functions that
return the field writes they make and an optional error. A panic is the
distinct outcome `Fatal`, apart from a returned error. Go's `strconv`
parsers used by `set` and the validators are modelled in `Strconv`: base-10
`ParseUint`, `ParseInt` and `Atoi` with Go's width checks and error kinds,
`ParseBool`, and `ParseFloat` and `ParseComplex` on decimal literals as
exact rationals.

Files: `wrappers.dfy` (Option, Result), `strconv.dfy`, `binding.dfy`
(kinds, values, field descriptors, causes, companion-method results,
`capitalizeFirstLetter`, decoders), `http.dfy` (request, value readers),
`pick_engine.dfy` (the Picker), `pick_properties.dfy`, `decode.dfy` (the
decode.go engine), `decode_properties.dfy`.

Behaviour of the code that the model keeps as written:

- The validators run for every field, even one with no source tag or an
  empty value (pick.go:84-112).
- `minLength` and `maxLength` count bytes of the raw value, and apply to
  fields of every kind (pick.go:305-333).
- `minimum` and `maximum` compare the value already stored in the field,
  read by kind (pick.go:335-389). Only the sized unsigned integers, the
  signed integers and the floats are read. Every other kind counts as 0,
  plain `uint` and `uintptr` included. The raw value is not used.
- `set` consults the registry of setters by type name after the
  companion-method and private-field checks and before the kind switch
  (pick.go:172-196).
- The last result of a companion method must be nil or an `error`. A
  non-nil result of another type panics on the type assertion
  (pick.go:173-179).
- Go strings are modelled one `char` per byte. Characters above 0xFF are
  outside the model.

## Model

| member | source | states |
|---|---|---|
| `PickEngine.Picker.constructor` | pick.go:23-28 | NewPicker: both registries start empty |
| `PickEngine.Picker.Register` | pick.go:36-38 | the decoder factory for exactly this content type is replaced or added; the setters are unchanged |
| `PickEngine.Picker.UseSetter` | pick.go:41-46 | a type name already present panics and leaves the setters alone; otherwise exactly that one entry is added |
| `PickEngine.NewDecoder` | pick.go:119-124 | a registered content type gets its factory applied to the body; any other gets a decoder that writes nothing and succeeds |
| `Binding.Noop` | pick.go:397 | noop succeeds and writes no field |
| `PickProperties.RegisterResolves` | pick.go:36-38 | after Register(ct, f) the decoder for ct is f(body), and every other content type resolves as before |
| `PickProperties.UnregisteredContentTypeIsNoop` | pick.go:119-124 | with an unregistered content type the body phase goes on with the destination untouched |
| `PickEngine.SkipsBody` | pick.go:55-57 | exactly GET, HEAD and DELETE skip the body |
| `PickEngine.DecodeBody` | pick.go:55-68 | GET, HEAD and DELETE go on with the values unchanged; any other method applies the decoder's writes to the values and stops exactly when the decoder returns an error, with a PickError naming the struct, the source "body" and that error |
| `PickProperties.NoBodyForGetHeadDelete` | pick.go:55-57 | for GET, HEAD and DELETE the result of Pick does not depend on the decoder registry: it is the field loop on the values as they were |
| `PickProperties.BodyErrorComesFirst` | pick.go:58-67 | for other methods a decoder error ends Pick with a PickError of source "body" and the type's name, before any field is read |
| `PickEngine.ReadValue` | pick.go:126-133 | readValue over one iteration order of the readers; it has no contract of its own, and ReadValueFirstTag, ReadValueNotFound and ReadValueFound state what it returns |
| `Http.ReadSource` | pick.go:138-151 | a reader returns the request's value under the key from its own source's values, or "" when that source has none |
| `PickProperties.ReadValueFirstTag` | pick.go:126-133 | readValue reads the first source in the iteration order whose tag key is non-empty, and reports tag-not-found exactly when no source tag is non-empty |
| `PickProperties.ReadValueNotFound` | pick.go:126-133 | readValue reports tag-not-found exactly when no source in the iteration order has a non-empty tag key |
| `PickProperties.ReadValueFound` | pick.go:126-133 | a value readValue finds comes from a source with a non-empty key, every source before it in the order having none, with the locator "source[key]" |
| `PickProperties.ReadValueOneSource` | pick.go:126-133 | with exactly one non-empty source tag the value and the locator "source[key]" do not depend on the iteration order |
| `PickProperties.ReadValueOrderMatters` | pick.go:127 | with a query and a header tag both set, the two iteration orders read different sources |
| `Http.Lookup` | pick.go:138-151 | a reader returns the value under the key, or "" when the request has none |
| `Binding.TagGet` | pick.go:129 | tag.Get: the tag's value, or "" when the key is absent |
| `Binding.TagLookup` | pick.go:306 | tag.Lookup tells an absent key apart from an empty value |
| `PickEngine.SetField` | pick.go:158-303 | an empty value changes nothing; a companion Set method decides the outcome from its last result and its writes; a private field without one panics naming the field and the method; otherwise only field i can change: a setter registered for the field's type stores what it returns and its error becomes the cause, and with no registered setter the kind's conversion is stored or its error returned |
| `Binding.IsPrivate` | pick.go:164 | a field is private exactly when it carries a package path, as decode.go's isPrivateField (decode.go:136-139) |
| `PickEngine.SetterName` | pick.go:164-170 | the companion method's name is "Set" followed by the field name; the capitalisation for a private field is stated by `PickProperties.PrivateSetterCapitalised` |
| `PickEngine.Picker.Set` | pick.go:158-303 | set writes the destination in place exactly as SetField describes |
| `PickEngine.CoerceSigned` | pick.go:204-237 | a signed integer kind stores exactly the value ParseInt gives at the kind's width, which lies in the width's range, and fails exactly when ParseInt does, with ParseInt's error |
| `PickEngine.CoerceUnsigned` | pick.go:239-265 | a sized unsigned kind stores exactly the value ParseUint gives at the kind's width, at most 2^width - 1, and fails exactly when ParseUint does, with ParseUint's error |
| `PickEngine.CoerceBool` | pick.go:197-203 | a bool field stores exactly the boolean ParseBool gives, and fails exactly when ParseBool does, with ParseBool's error |
| `PickEngine.CoerceFloat` | pick.go:267-280 | a float field of either width stores exactly the value ParseFloat gives, and fails exactly when ParseFloat does, with ParseFloat's error |
| `PickEngine.CoerceComplex` | pick.go:281-294 | a complex field of either width stores exactly the pair ParseComplex gives, and fails exactly when ParseComplex does, with ParseComplex's error |
| `PickEngine.Coerce` | pick.go:195-301 | a stored value always fits the field's kind; a failure is a parse error or the unsupported-kind error; strings are stored verbatim; the unsupported-kind error is returned exactly for uint, uintptr and composite kinds (the per-parser agreement is stated by the `CoerceFollowsParse*` lemmas) |
| `Binding.CallOutcome` | pick.go:173-179 | no results or a nil last result is success; an error last result is returned; any other last result panics |
| `Binding.Apply` | pick.go:61 | the writes of a decoder or companion method land on their fields and leave every other field as it was |
| `PickProperties.PrivateSetterCapitalised` | pick.go:164-170 | every private field's companion method is "Set", the name's first byte upper-cased, then the rest of the name |
| `PickProperties.PrivateSetterName` | pick.go:164-170 | a private field "token" looks for SetToken, as a public field "Token" does |
| `PickProperties.PrivateFieldPanicsDespiteOverride` | pick.go:182-193 | a private field without its Set method panics even when its type has a registered setter |
| `PickProperties.CompanionWins` | pick.go:172-180 | with a companion method the setter registry and the field's kind are not consulted |
| `PickProperties.OverrideBeforeKind` | pick.go:189-196 | a registered setter for the field's type decides the field's new value and the kind is not consulted |
| `PickProperties.CoerceSignedWidth` | pick.go:204-237 | a signed integer field stores a decimal exactly when it lies in its width's range, and otherwise fails with a ParseInt range error |
| `PickProperties.CoerceUnsignedWidth` | pick.go:239-265 | a sized unsigned field stores a decimal exactly up to 2^width - 1 and fails with a range error above |
| `PickProperties.CoerceUnsignedRejectsSign` | pick.go:239-265 | a sized unsigned field rejects a value with a leading '+' or '-' |
| `PickProperties.CoerceFollowsParseInt` | pick.go:204-237 | on every signed integer kind, Coerce fails exactly when ParseInt at the kind's width fails, with its error, and otherwise stores its value |
| `PickProperties.CoerceFollowsParseUint` | pick.go:239-265 | on every sized unsigned kind, Coerce fails exactly when ParseUint at the kind's width fails, with its error, and otherwise stores its value |
| `PickProperties.CoerceFollowsParseBool` | pick.go:197-203 | on a bool field, Coerce fails exactly when ParseBool fails, with its error, and otherwise stores its boolean |
| `PickProperties.CoerceFollowsParseFloat` | pick.go:267-280 | on float32 and float64 alike, Coerce fails exactly when ParseFloat fails, with its error, and otherwise stores its value |
| `PickProperties.CoerceFollowsParseComplex` | pick.go:281-294 | on complex64 and complex128 alike, Coerce fails exactly when ParseComplex fails, with its error, and otherwise stores its pair |
| `PickProperties.MalformedIntFails` | pick.go:204-209 | "jibberish" on an int field fails with ParseInt's syntax error |
| `PickProperties.MalformedBoolFails` | pick.go:197-202 | "not an int" on a bool field fails with ParseBool's syntax error |
| `PickProperties.Int8Field` | pick.go:211-216 | int8 stores -128 and fails on -129 with a range error |
| `PickProperties.Uint8Field` | pick.go:239-244 | uint8 stores 255 and fails on 256 with a range error |
| `PickProperties.SignedFieldSet` | pick.go:204-237 | a public signed integer field with no companion and no setter stores the number its in-range decimal denotes |
| `PickEngine.MinLength` | pick.go:305-318 | no minLength tag passes; a bound that is not a 64-bit decimal is its parse error; otherwise the raw value fails when it has fewer bytes than the bound |
| `PickEngine.MaxLength` | pick.go:320-333 | no maxLength tag passes; a malformed bound is its parse error; otherwise the raw value fails when it has more bytes than the bound |
| `PickEngine.StoredNumber` | pick.go:348-356 | the number the bounds compare: the stored value for the sized unsigned integers, the signed integers and the floats; 0 for every other kind, plain uint and uintptr included |
| `PickEngine.MinimumField` | pick.go:335-361 | no minimum tag passes; a malformed bound is its parse error; otherwise it passes exactly when the stored number is at least the bound |
| `PickEngine.MaximumField` | pick.go:363-389 | no maximum tag passes; a malformed bound is its parse error; otherwise it passes exactly when the stored number is at most the bound |
| `PickEngine.Validate` | pick.go:84-112 | a field passes exactly when all four validators pass; the error reported is the first failing one in the order minLength, maxLength, minimum, maximum |
| `PickProperties.MinLengthInclusive` | pick.go:305-318 | with minLength the decimal of k, the value passes exactly when its byte length is at least k |
| `PickProperties.MaxLengthInclusive` | pick.go:320-333 | with maxLength the decimal of k, the value passes exactly when its byte length is at most k |
| `PickProperties.MinimumInclusive` | pick.go:335-361 | with minimum the decimal of b, the field passes exactly when its stored number is at least b |
| `PickProperties.MaximumInclusive` | pick.go:363-389 | with maximum the decimal of b, the field passes exactly when its stored number is at most b |
| `PickProperties.MalformedBoundFails` | pick.go:342-345 | a bound "jibberish" fails with the syntax error of ParseFloat (minimum) or ParseInt (maxLength) |
| `PickProperties.NonNumericCountsAsZero` | pick.go:348-359 | a string field under minimum:"1" fails as if it held 0 |
| `PickEngine.FieldDest` | pick.go:78 | the Dest of a field's PickError is the type name, a dot and the field name, each recoverable from it |
| `PickEngine.PickField` | pick.go:73-112 | one round of the loop for a field; it preserves the number of fields |
| `PickProperties.MissingValueValidated` | pick.go:74-112 | a field with no source tag or an empty value keeps its value, and stops Pick exactly when a validator fails on the empty value and the stored one |
| `PickProperties.FoundValueValidated` | pick.go:74-112 | a field that was read and set without error stops Pick exactly when a validator fails, with the reader's locator as the source |
| `PickProperties.SetErrorStops` | pick.go:76-80 | a set that returns an error stops Pick with a PickError naming the field, the reader's locator and that error |
| `PickProperties.SetPanicStops` | pick.go:76-82 | a set that panics stops Pick with that panic, unwrapped |
| `PickProperties.MinLengthOnMissingValue` | pick.go:84-91 | a missing value under a positive minLength fails with minLength exceeded, though nothing was set |
| `PickProperties.MinimumOnUntaggedField` | pick.go:99-105 | an untagged field whose stored number is below its minimum fails, with an empty source |
| `PickEngine.Run` | pick.go:71-114 | the loop over fields i to n - 1, stopping at the first round that stops; when no round changes the number of fields, neither does the loop |
| `PickEngine.RoundKeepsLength` | pick.go:73-112 | no round of Pick's loop changes the number of fields |
| `PickEngine.PickFields` | pick.go:71-114 | the field loop; it preserves the number of fields |
| `PickEngine.PickFieldsStep` | pick.go:71-112 | field i's round either ends the loop with its outcome or hands its values on to field i + 1 |
| `PickEngine.PickSpec` | pick.go:49-117 | the body phase, then the field loop; it preserves the number of fields |
| `PickEngine.Picker.DecodeBodyInPlace` | pick.go:55-68 | the body phase, in place: the decoder's writes land in the destination and its error stops Pick, exactly as DecodeBody describes |
| `PickEngine.Picker.PickFieldInPlace` | pick.go:73-112 | one round of the loop, in place, ends exactly as PickField describes |
| `PickEngine.Picker.Pick` | pick.go:49-117 | Pick leaves the destination and returns the outcome that PickSpec gives for the old destination |
| `PickProperties.Frontier` | pick.go:71-112 | the index of the round at which the loop stopped lies between the start and the number of rounds |
| `PickProperties.RunStops` | pick.go:71-112 | when no round stops with success, the loop succeeds exactly when it ran through every round |
| `PickProperties.StopIsNotDone` | pick.go:76-112 | a round of Pick's loop that stops reports an error or a panic, never success |
| `PickProperties.RoundStopsOnlyOnFailure` | pick.go:76-112 | no round of Pick's loop stops with success |
| `PickProperties.FieldUntouched` | pick.go:71-112 | when every round changes only its own field, a field before the start or after the stopping round keeps its value |
| `PickProperties.RoundIsLocal` | pick.go:73-112 | when each companion Set method writes only its own field, every round of Pick's loop changes at most its own field |
| `PickProperties.StopOnFirstError` | pick.go:71-112 | the loop ends in success exactly when no field stops it, that is when the stopping index is the number of fields |
| `PickProperties.LaterFieldsUntouched` | pick.go:71-112 | when each companion Set method writes only its own field, every field after the one that stopped the loop keeps its prior value |
| `PickProperties.StepIsLocal` | pick.go:73-112 | when each companion Set method writes only its own field, one round of the loop changes at most its own field |
| `PickProperties.UnconstrainedFieldValid` | pick.go:84-112 | a field with none of the four validator tags passes validation whatever it holds |
| `PickProperties.HeaderIntegerRoundTrip` | pick.go:73-112 | a signed integer field whose only source tag is one header holding the decimal of an in-range number ends up holding that number, whatever validator tags it carries as long as they accept it |
| `PickProperties.UnsignedFieldSet` | pick.go:158-303 | a sized unsigned field stores the number whose decimal it is given, up to 2^width - 1 |
| `PickProperties.HeaderUnsignedRoundTrip` | pick.go:73-112 | the same round trip for a sized unsigned field and a number up to 2^width - 1 |
| `PickProperties.OneFieldGet` | pick.go:49-117 | for a GET of a one-field struct, Pick is that field's round of the loop |
| `PickProperties.FlagFieldIsRead` | pick.go:126-133 | the field tagged header:"flag" reads "true" from header[flag] |
| `PickProperties.FlagFieldIsSet` | pick.go:197-202 | the bool field is set to true from "true" |
| `PickProperties.ScenarioFlag` | pick.go:49-117 | a GET with header flag=true binds a bool field to true and succeeds |
| `PickProperties.AgeFieldIsRead` | pick.go:126-133 | the field tagged header:"age" reads "200" from header[age] |
| `PickProperties.AgeFieldIsSet` | pick.go:204-209 | the int field is set to 200 from "200" |
| `PickProperties.AgeBounds` | pick.go:335-389 | 200 passes minimum "0" and fails maximum "130" |
| `PickProperties.ScenarioAge` | pick.go:49-117 | header age=200 on an int field with minimum "0" and maximum "130" stores 200 and fails with maximum exceeded, Dest "T.Age" and source "header[age]" |
| `PickProperties.ScenarioPrivateField` | pick.go:182-187 | a private field with its header present and no Set method panics naming the field and SetToken, whatever setters are registered |
| `Binding.UpperByte` | pick.go:393 | bytes.ToUpper of one byte: a-z becomes A-Z, every other ASCII byte is kept, and a byte of 0x80 or more becomes 0xEF, the first byte of U+FFFD |
| `Binding.CapitalizeFirstLetter` | pick.go:391-395 | the length and every byte after the first are kept; a-z becomes A-Z; A-Z, '_' and digits are unchanged; a first byte of 0x80 or more becomes 0xEF |
| `Binding.CapitalizeIdempotent` | pick.go:391-395 | capitalising twice is capitalising once |
| `Strconv.ParseUint` | pick.go:239-265 | success means a non-empty all-digit decimal whose value is at most 2^bits - 1; errors name ParseUint and the input |
| `Strconv.ParseInt` | pick.go:204-237 | success means an optionally signed decimal whose value lies in the signed range of the width; errors name ParseInt and the input |
| `Strconv.Atoi` | decode.go:113 | Atoi succeeds exactly when the 64-bit ParseInt does, with its value, and reports its errors under the name Atoi |
| `Strconv.ParseBool` | pick.go:198 | exactly the twelve spellings of Go's ParseBool are accepted, six of them true; anything else is a syntax error |
| `Strconv.ParseUintFormat` | pick.go:239-265 | the decimal of n parses back to n when n fits the width, and is a range error otherwise |
| `Strconv.ParseIntFormat` | pick.go:204-237 | the decimal of v parses back to v when v fits the width, and is a range error otherwise |
| `Strconv.ParseUintRejectsSign` | pick.go:239-265 | an unsigned parse rejects a leading '+' or '-' |
| `Strconv.Int8Edges` | pick.go:211-216 | ParseInt with 8 bits accepts "-128" and rejects "-129" as out of range |
| `Strconv.Uint8Edges` | pick.go:239-244 | ParseUint with 8 bits accepts "255" and rejects "256" as out of range |
| `Strconv.ParseFloat` | pick.go:267-279 | a syntax error names ParseFloat and the input; success means the whole input was a decimal literal |
| `Strconv.ParseFloatFormat` | pick.go:342 | the decimal of an integer parses to that integer as a float |
| `Strconv.ParseComplex` | pick.go:281-293 | every failure is a syntax error naming ParseComplex and the input |
| `Strconv.ParseComplexFormat` | pick.go:281-293 | the decimal of v parses to (v, 0), and with a trailing 'i' to (0, v) |
| `DecodeEngine.InitialRegistry` | decode.go:158-163 | the registry starts with exactly one key, application/json |
| `DecodeEngine.Package.constructor` | decode.go:158-163 | the package starts with the preloaded registry |
| `DecodeEngine.Package.Register` | decode.go:154-156 | the factory for exactly this content type is replaced or added |
| `DecodeProperties.JsonOnlyAtStart` | decode.go:147-165 | at start-up application/json gets the JSON decoder and every other content type gets noop |
| `DecodeEngine.Coerce` | decode.go:109-132 | a stored value fits the kind; strings are stored verbatim; int and bool fail only with a parse error; every other kind is an unsupported-VType error naming the kind |
| `DecodeEngine.CoerceInt` | decode.go:112-117 | an int field stores exactly the value Atoi gives for the raw string, and fails exactly when Atoi does, with Atoi's error |
| `DecodeEngine.CoerceBool` | decode.go:122-127 | a bool field stores exactly the boolean ParseBool gives for the raw string, and fails exactly when ParseBool does, with ParseBool's error |
| `DecodeEngine.SetField` | decode.go:78-134 | an empty value changes nothing; the companion Set method wins; a private field without one panics; otherwise the kind's conversion is stored or its error returned |
| `DecodeEngine.Set` | decode.go:78-134 | set writes the destination in place exactly as SetField describes |
| `DecodeEngine.PickField` | decode.go:39-47 | one round of the loop: a field with no source tag is left as it is, a field that was read is set with the value read; it preserves the number of fields |
| `DecodeEngine.Run` | decode.go:38-48 | the loop over fields i to n - 1, stopping at the first round that does not succeed; when no round changes the number of fields, neither does the loop |
| `DecodeEngine.RoundKeepsLength` | decode.go:39-47 | no round of the loop changes the number of fields |
| `DecodeEngine.PickFields` | decode.go:38-48 | the field loop; it preserves the number of fields |
| `DecodeEngine.PickFieldsStep` | decode.go:38-48 | field i's round either ends the loop with its error or panic or hands its values on to field i + 1 |
| `DecodeEngine.PickSpec` | decode.go:24-50 | the body phase for every method, then the field loop; it preserves the number of fields |
| `DecodeEngine.Package.Pick` | decode.go:24-50 | Pick leaves the destination and returns the outcome that PickSpec gives for the old destination |
| `DecodeProperties.DecodeErrorForEveryMethod` | decode.go:26-32 | a decoder error is returned unwrapped, before any field is read, whatever the method, GET included |
| `DecodeProperties.UnregisteredContentTypeIsNoop` | decode.go:147-152 | with an unregistered content type Pick is the field loop on the destination as it was |
| `DecodeProperties.ReadValueIgnoresForm` | decode.go:52-74 | reading over path, query and header never looks at form values, and finds nothing when none of those tags is set |
| `DecodeProperties.FormOnlyFieldSkipped` | decode.go:41-44 | a field with no path, query or header tag is skipped and keeps its value |
| `DecodeProperties.IntRoundTrip` | decode.go:112-117 | an int field stores exactly the decimals of 64-bit ints; outside that range Atoi reports a range error |
| `DecodeProperties.BoolRoundTrip` | decode.go:122-127 | a bool field stores the boolean whose spelling it is given |
| `DecodeProperties.OnlyThreeKinds` | decode.go:130-131 | int8, uint and float64 fields are unsupported-VType errors |
| `DecodeProperties.PickerExtendsCoerce` | decode.go:109-132 | whatever decode.go's set stores, the Picker's set stores the same for that kind and value |
| `DecodeProperties.PrivateSetterName` | decode.go:141-145 | a private field's companion method is "Set" + the first byte upper-cased + the rest of the name |
| `DecodeProperties.Frontier` | decode.go:38-48 | the index of the round at which the loop stopped lies between the start and the number of rounds |
| `DecodeProperties.RunStops` | decode.go:38-48 | the loop succeeds exactly when it ran through every round |
| `DecodeProperties.FieldUntouched` | decode.go:38-48 | when every round changes only its own field, a field before the start or after the stopping round keeps its value |
| `DecodeProperties.RoundIsLocal` | decode.go:38-48 | when each companion Set method writes only its own field, every round of the loop changes at most its own field |
| `DecodeProperties.StopOnFirstError` | decode.go:38-48 | the loop ends in success exactly when no field stops it, that is when the stopping index is the number of fields |
| `DecodeProperties.LaterFieldsUntouched` | decode.go:38-48 | when each companion Set method writes only its own field, every field after the one that stopped the loop keeps its prior value |
| `DecodeProperties.StepIsLocal` | decode.go:38-48 | when each companion Set method writes only its own field, one round of the loop changes at most its own field |

## Left out

- Reflection: struct types, kinds, package paths, tags and methods are explicit data; `MethodByName`, `Call` and `IsValid` are a lookup in the type's method map.
- The panic when the type of `dst` is not of kind `reflect.Ptr` (pick.go:50-52) and the panics of a companion method whose signature does not take one string. Destinations are arrays of field values, and companion methods take the raw value by construction.
- net/http: header canonicalisation, `PathValue`, `URL.Query`, and the body consumption of `FormValue`. Each reader is an exact-key lookup in a map of first values.
- The JSON and XML body decoders and every registered factory or setter are oracles. The model fixes only what the engine does with their writes and errors.
- Go map iteration order in `readValue` is a parameter `order`, a permutation of the readers for each field. The model does not choose one.
- `Strconv.ParseFloat`: exact rationals without rounding to 32 or 64 bits, with no range errors, and no `inf`, `nan`, hexadecimal or underscore forms. The same holds for the `minimum`/`maximum` bounds, which Go parses with 32-bit rounding.
- `Strconv.ParseComplex`: exact rationals with the same restrictions; the bit size of the complex kind is not modelled.
- `PickEngine.StoredNumber`: the widening of 64-bit integers to float64 loses precision in Go; the model compares exact values.
- `int`, `uint` and `uintptr` are 64 bits wide (a 64-bit platform).
- The text of errors and panics and `PickError.Error()` are not modelled; causes and panics are data.
- default.go is not part of this model: it wraps one Picker with JSON registered.
- `UseSetter` is modelled as a method that returns the panic instead of raising it.
