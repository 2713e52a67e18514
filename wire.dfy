/**
 * Shared vocabulary of the Fedwire funds-transfer segment codec: strings, the error model,
 * FormatOptions, and the converter and validator primitives that every segment calls.
 *
 * The primitives live in the package's converters and validator files, which are not part of
 * this model. They are kept uninterpreted: each is a function-valued field of `Converters` or
 * `Validators`, so every segment's Parse, Format and Validate is proved for ANY choice of them.
 * What a segment needs of them is stated as a named predicate and required explicitly.
 *
 * Strings are sequences of characters assumed to be single bytes: Go's
 * `utf8.RuneCountInString(record)` (used by the minimum-length checks) and `len(record)`
 * (used for slicing and for the length reported in the error) are then both `|record|`.
 * For multi-byte input the two differ; that case is not modelled.
 */
module Wire {

  datatype Option<+T> = None | Some(value: T)

  /** The kind an error carries: the three kinds the segments raise themselves, plus an opaque
      kind for whatever a converter or validator primitive reports. */
  datatype Kind =
    | FieldRequired      // ErrFieldRequired
    | ValidTagForType    // ErrValidTagForType
    | IdentificationCode // ErrIdentificationCode
    | Reported(code: nat)

  /** Errors returned by Parse and Validate. */
  datatype WireError =
    | MinLength(min: nat, actual: nat)                       // NewTagMinLengthErr(min, len(record))
    | MaxLength(inner: Kind)                                 // NewTagMaxLengthErr(err)
    | Field(name: string, kind: Kind, value: Option<string>) // fieldError(name, err[, value])
    | Json                                                   // the error json.Unmarshal returned

  /** What a segment's Parse leaves behind: the (possibly partly updated) segment and the error. */
  datatype Parsed<T> = Parsed(state: T, err: Option<WireError>)

  /** The parse failed on the field called `name`. */
  predicate FailedOn<T>(r: Parsed<T>, name: string) {
    r.err.Some? && r.err.value.Field? && r.err.value.name == name
  }

  /** A field read by a parse primitive: its value and how many characters it consumed. */
  datatype FieldRead = FieldRead(value: string, read: nat)
  datatype ReadResult = Read(field: FieldRead) | ReadFailed(kind: Kind)

  /** What encoding/json's Unmarshal did to a segment's exported fields: it decoded them all,
      or it failed, possibly after setting some of them. It never sees the unexported tag. */
  datatype JsonOutcome<T> = Decoded(value: T) | DecodeFailed(partial: T)

  datatype FormatOptions = FormatOptions(VariableLengthFields: bool)

  /** The options String() passes to Format. */
  const Fixed := FormatOptions(false)
  const Variable := FormatOptions(true)

  /** The converter primitives, and the package constant Delimiter they work with. */
  datatype Converters = Converters(
    Delimiter: string,
    parseVariableStringField: (string, nat) -> ReadResult,
    parseFixedStringField: (string, nat) -> ReadResult,
    parseStringField: string -> string,
    alphaField: (string, nat) -> string,
    formatAlphaField: (string, nat, FormatOptions) -> string,
    numericStringField: (string, nat) -> string,
    stripDelimiters: string -> string,
    verifyDataWithReadLength: (string, nat) -> Option<Kind>)

  /** The validator primitives: None when the value is acceptable, else the kind of failure. */
  datatype Validators = Validators(
    isAlphanumeric: string -> Option<Kind>,
    isNumeric: string -> Option<Kind>,
    isAmount: string -> Option<Kind>,
    isCurrencyCode: string -> Option<Kind>,
    isIdentificationCode: string -> Option<Kind>,
    isAdviceCode: string -> Option<Kind>)

  /** Package constants the segments compare against. */
  datatype Constants = Constants(
    TagAccountDebitedDrawdown: string,
    TagFIBeneficiaryFIAdvice: string,
    TagAmountNegotiatedDiscount: string,
    TagCurrencyInstructedAmount: string,
    TagAccountCreditedDrawdown: string,
    DemandDepositAccountNumber: string)

  /** The one assumption every Parse needs: a parse primitive never reports having read more
      than it was given. Without it Go's `record[length:]` would panic. */
  ghost predicate ReadsWithin(conv: Converters) {
    && (forall rest: string, max: nat ::
          conv.parseVariableStringField(rest, max).Read? ==>
            conv.parseVariableStringField(rest, max).field.read <= |rest|)
    && (forall rest: string, max: nat ::
          conv.parseFixedStringField(rest, max).Read? ==>
            conv.parseFixedStringField(rest, max).field.read <= |rest|)
  }

  /** parseVariableStringField applied at cursor `at` of `record`. */
  function ReadVariableAt(conv: Converters, record: string, at: nat, max: nat): (r: ReadResult)
    requires ReadsWithin(conv) && at <= |record|
    ensures r.Read? ==> at + r.field.read <= |record|
  {
    conv.parseVariableStringField(record[at..], max)
  }

  /** parseFixedStringField applied at cursor `at` of `record`. */
  function ReadFixedAt(conv: Converters, record: string, at: nat, width: nat): (r: ReadResult)
    requires ReadsWithin(conv) && at <= |record|
    ensures r.Read? ==> at + r.field.read <= |record|
  {
    conv.parseFixedStringField(record[at..], width)
  }

  // ---------------------------------------------------------------------------------------
  // The cursor of a parse, field by field. `None` means that an earlier read failed (or that
  // the record was too short to read at all), so the parse never reached this point.

  /** The cursor after a variable read of at most `max` characters from cursor `at`. */
  function StepVariable(conv: Converters, record: string, at: Option<nat>, max: nat): (r: Option<nat>)
    requires ReadsWithin(conv) && (at.Some? ==> at.value <= |record|)
    ensures r.Some? <==> at.Some? && ReadVariableAt(conv, record, at.value, max).Read?
    ensures r.Some? ==> at.value <= r.value <= |record|
  {
    if at.None? then None
    else match ReadVariableAt(conv, record, at.value, max)
      case ReadFailed(_) => None
      case Read(f) => Some(at.value + f.read)
  }

  /** The cursor after a fixed read of `width` characters from cursor `at`. */
  function StepFixed(conv: Converters, record: string, at: Option<nat>, width: nat): (r: Option<nat>)
    requires ReadsWithin(conv) && (at.Some? ==> at.value <= |record|)
    ensures r.Some? <==> at.Some? && ReadFixedAt(conv, record, at.value, width).Read?
    ensures r.Some? ==> at.value <= r.value <= |record|
  {
    if at.None? then None
    else match ReadFixedAt(conv, record, at.value, width)
      case ReadFailed(_) => None
      case Read(f) => Some(at.value + f.read)
  }

  /** The value a successful variable read from cursor `at` returns. */
  function VariableValue(conv: Converters, record: string, at: Option<nat>, max: nat): string
    requires ReadsWithin(conv) && (at.Some? ==> at.value <= |record|)
    requires StepVariable(conv, record, at, max).Some?
  {
    ReadVariableAt(conv, record, at.value, max).field.value
  }

  /** The value a successful fixed read from cursor `at` returns. */
  function FixedValue(conv: Converters, record: string, at: Option<nat>, width: nat): string
    requires ReadsWithin(conv) && (at.Some? ==> at.value <= |record|)
    requires StepFixed(conv, record, at, width).Some?
  {
    ReadFixedAt(conv, record, at.value, width).field.value
  }

  // ---------------------------------------------------------------------------------------
  // Assumptions used only by the round-trip and length lemmas. They are what a segment needs
  // of the converters to read its own output back; they are assumptions about primitives this
  // model does not define, and none is used anywhere else.

  /** Fixed-width rendering pads (or cuts) to exactly the width, and formatAlphaField in fixed
      mode is alphaField. This is assumed for every value, including values longer than the
      width, which callers are expected not to pass. */
  ghost predicate FixedWidths(conv: Converters) {
    && (forall v: string, n: nat :: |conv.alphaField(v, n)| == n)
    && (forall v: string, n: nat :: conv.formatAlphaField(v, n, Fixed) == conv.alphaField(v, n))
  }

  /** parseFixedStringField reads back `v` from its n-wide rendering, whatever follows it. */
  ghost predicate FixedReadsBack(conv: Converters, v: string, n: nat) {
    && |conv.alphaField(v, n)| == n
    && forall rest: string ::
         conv.parseFixedStringField(conv.alphaField(v, n) + rest, n) == Read(FieldRead(v, n))
  }

  /** parseVariableStringField reads back `v` from its rendering under `options` followed by
      the delimiter, consuming both, whatever follows them. */
  ghost predicate VariableReadsBack(conv: Converters, v: string, n: nat, options: FormatOptions) {
    forall rest: string ::
      conv.parseVariableStringField(conv.formatAlphaField(v, n, options) + conv.Delimiter + rest, n)
        == Read(FieldRead(v, |conv.formatAlphaField(v, n, options)| + |conv.Delimiter|))
  }

  /** numericStringField renders to exactly the width. */
  ghost predicate NumericWidths(conv: Converters) {
    forall v: string, n: nat :: |conv.numericStringField(v, n)| == n
  }

  /** verifyDataWithReadLength accepts a record that was consumed completely. */
  ghost predicate AcceptsFullRead(conv: Converters) {
    forall record: string :: conv.verifyDataWithReadLength(record, |record|) == None
  }

  /** The cursor after a field rendered as `s` and its delimiter. */
  function After(conv: Converters, at: nat, s: string): nat {
    at + |s| + |conv.Delimiter|
  }

  /** Dropping a known head from the suffix at a cursor advances the cursor past it. */
  lemma SuffixStep(record: string, at: nat, head: string, rest: string)
    requires at <= |record| && record[at..] == head + rest
    ensures at + |head| <= |record| && record[at + |head|..] == rest
  {
    assert record[at + |head|..] == record[at..][|head|..];
  }

  /** One step of a round trip: at a cursor where the record holds a variable field's
      rendering and the delimiter, the variable read returns the value and moves past both. */
  lemma VariableReadAt(conv: Converters, record: string, at: nat, v: string, n: nat,
                       options: FormatOptions, rest: string)
    requires ReadsWithin(conv) && VariableReadsBack(conv, v, n, options)
    requires at <= |record|
    requires record[at..] == conv.formatAlphaField(v, n, options) + conv.Delimiter + rest
    ensures ReadVariableAt(conv, record, at, n) ==
              Read(FieldRead(v, |conv.formatAlphaField(v, n, options)| + |conv.Delimiter|))
    ensures at + |conv.formatAlphaField(v, n, options)| + |conv.Delimiter| <= |record|
    ensures record[at + |conv.formatAlphaField(v, n, options)| + |conv.Delimiter|..] == rest
  {
    SuffixStep(record, at, conv.formatAlphaField(v, n, options) + conv.Delimiter, rest);
  }
}
