/**
 * AmountNegotiatedDiscount: the tag, a fixed 3-character currency code and a
 * delimiter-terminated amount of at most 19 characters.
 */
module NegotiatedDiscount {
  import opened Wire

  datatype RemittanceAmount = RemittanceAmount(CurrencyCode: string, Amount: string)

  /** The value of an AmountNegotiatedDiscount struct. */
  datatype Data = Data(tag: string, RemittanceAmount: RemittanceAmount)

  const EmptyRemittanceAmount := RemittanceAmount("", "")

  /** Parse as a function of the segment before the call and the record. */
  function ParseOf(conv: Converters, d: Data, record: string): (r: Parsed<Data>)
    requires ReadsWithin(conv)
    ensures |record| < 8 <==> r.err == Some(MinLength(8, |record|))
    ensures |record| < 8 ==> r.state == d
    ensures |record| >= 8 ==> r.state.tag == record[..6]
  {
    // The source counts runes here but reports len(record); single-byte strings make them equal.
    if |record| < 8 then Parsed(d, Some(MinLength(8, |record|)))
    else
      var d1 := d.(tag := record[..6]);
      var length := 6;
      match ReadFixedAt(conv, record, length, 3)
      case ReadFailed(e) => Parsed(d1, Some(Field("CurrencyCode", e, None)))
      case Read(f1) =>
        var d2 := d1.(RemittanceAmount := d1.RemittanceAmount.(CurrencyCode := f1.value));
        var length := length + f1.read;
        match ReadVariableAt(conv, record, length, 19)
        case ReadFailed(e) => Parsed(d2, Some(Field("Amount", e, None)))
        case Read(f2) =>
          var d3 := d2.(RemittanceAmount := d2.RemittanceAmount.(Amount := f2.value));
          var length := length + f2.read;
          match conv.verifyDataWithReadLength(record, length)
          case Some(e) => Parsed(d3, Some(MaxLength(e)))
          case None => Parsed(d3, None)
  }

  // ---------------------------------------------------------------------------------------
  // The parse cursor, field by field: where each read of Parse leaves `length`, or None when
  // Parse stopped before getting there.

  /** The cursor after the tag, once the record is long enough. */
  function Start(record: string): (r: Option<nat>)
    ensures r.Some? <==> |record| >= 8
    ensures r.Some? ==> r.value == 6 <= |record|
  {
    if |record| < 8 then None else Some(6)
  }

  function AfterCurrencyCode(conv: Converters, record: string): (r: Option<nat>)
    requires ReadsWithin(conv)
    ensures r.Some? ==> Start(record).Some? && 6 <= r.value <= |record|
  {
    StepFixed(conv, record, Start(record), 3)
  }

  /** The cursor after the amount: the length Parse hands to verifyDataWithReadLength. */
  function Consumed(conv: Converters, record: string): (r: Option<nat>)
    requires ReadsWithin(conv)
    ensures r.Some? ==> AfterCurrencyCode(conv, record).Some? && 6 <= r.value <= |record|
  {
    StepVariable(conv, record, AfterCurrencyCode(conv, record), 19)
  }

  /** The 3-wide rendering of the currency code, the same in both modes. */
  function CurrencyCodeField(conv: Converters, d: Data): (r: string)
    ensures FixedWidths(conv) ==> |r| == 3
  {
    conv.alphaField(d.RemittanceAmount.CurrencyCode, 3)
  }

  /** The amount as Format writes it: 19 wide in fixed mode. */
  function FormatAmount(conv: Converters, d: Data, options: FormatOptions): (r: string)
    ensures FixedWidths(conv) && options == Fixed ==> |r| == 19
  {
    conv.formatAlphaField(d.RemittanceAmount.Amount, 19, options)
  }

  /** Format as a function of the segment: no call to stripDelimiters in either mode. */
  function FormatOf(conv: Converters, d: Data, options: FormatOptions): string {
    d.tag + CurrencyCodeField(conv, d) + (FormatAmount(conv, d, options) + conv.Delimiter)
  }

  /** fieldInclusion: the amount, then the currency code, are mandatory. */
  function FieldInclusion(d: Data): (r: Option<WireError>)
    ensures r.Some? <==> d.RemittanceAmount.Amount == "" || d.RemittanceAmount.CurrencyCode == ""
    ensures r.Some? ==> r.value.Field? && r.value.kind == FieldRequired && r.value.value == None
    ensures d.RemittanceAmount.Amount == "" ==> r == Some(Field("Amount", FieldRequired, None))
    ensures d.RemittanceAmount.Amount != "" && d.RemittanceAmount.CurrencyCode == "" ==>
              r == Some(Field("CurrencyCode", FieldRequired, None))
  {
    if d.RemittanceAmount.Amount == "" then Some(Field("Amount", FieldRequired, None))
    else if d.RemittanceAmount.CurrencyCode == "" then Some(Field("CurrencyCode", FieldRequired, None))
    else None
  }

  /** Everything Validate checks, stated as one condition. */
  ghost predicate Accepted(valid: Validators, k: Constants, d: Data) {
    && d.RemittanceAmount.Amount != ""
    && d.RemittanceAmount.CurrencyCode != ""
    && d.tag == k.TagAmountNegotiatedDiscount
    && valid.isCurrencyCode(d.RemittanceAmount.CurrencyCode) == None
    && valid.isAmount(d.RemittanceAmount.Amount) == None
  }

  /** Validate: mandatory fields, then the tag, then the currency code, then the amount; the
      first failure wins. */
  function Validate(valid: Validators, k: Constants, d: Data): (r: Option<WireError>)
    ensures r == None <==> Accepted(valid, k, d)
    ensures FieldInclusion(d).Some? ==> r == FieldInclusion(d)
    ensures FieldInclusion(d) == None && d.tag != k.TagAmountNegotiatedDiscount ==>
              r == Some(Field("tag", ValidTagForType, Some(d.tag)))
    ensures FieldInclusion(d) == None && d.tag == k.TagAmountNegotiatedDiscount &&
            valid.isCurrencyCode(d.RemittanceAmount.CurrencyCode) == None &&
            valid.isAmount(d.RemittanceAmount.Amount).Some? ==>
              r == Some(Field("Amount", valid.isAmount(d.RemittanceAmount.Amount).value,
                              Some(d.RemittanceAmount.Amount)))
    ensures r.Some? ==> r.value.Field?
  {
    var ra := d.RemittanceAmount;
    if FieldInclusion(d).Some? then FieldInclusion(d)
    else if d.tag != k.TagAmountNegotiatedDiscount then Some(Field("tag", ValidTagForType, Some(d.tag)))
    else if valid.isCurrencyCode(ra.CurrencyCode).Some? then
      Some(Field("CurrencyCode", valid.isCurrencyCode(ra.CurrencyCode).value, Some(ra.CurrencyCode)))
    else if valid.isAmount(ra.Amount).Some? then
      Some(Field("Amount", valid.isAmount(ra.Amount).value, Some(ra.Amount)))
    else None
  }

  class AmountNegotiatedDiscount {
    var tag: string
    var RemittanceAmount: RemittanceAmount

    function View(): Data
      reads this
    {
      Data(tag, RemittanceAmount)
    }

    /** NewAmountNegotiatedDiscount: an empty segment carrying its own tag. */
    constructor (k: Constants)
      ensures View() == Data(k.TagAmountNegotiatedDiscount, EmptyRemittanceAmount)
    {
      tag := k.TagAmountNegotiatedDiscount;
      RemittanceAmount := EmptyRemittanceAmount;
    }

    method Parse(conv: Converters, record: string) returns (err: Option<WireError>)
      requires ReadsWithin(conv)
      modifies this
      ensures Parsed(View(), err) == ParseOf(conv, old(View()), record)
    {
      if |record| < 8 {
        return Some(MinLength(8, |record|));
      }
      tag := record[..6];
      var length := 6;

      var r := ReadFixedAt(conv, record, length, 3);
      if r.ReadFailed? {
        return Some(Field("CurrencyCode", r.kind, None));
      }
      RemittanceAmount := RemittanceAmount.(CurrencyCode := r.field.value);
      length := length + r.field.read;

      r := ReadVariableAt(conv, record, length, 19);
      if r.ReadFailed? {
        return Some(Field("Amount", r.kind, None));
      }
      RemittanceAmount := RemittanceAmount.(Amount := r.field.value);
      length := length + r.field.read;

      var check := conv.verifyDataWithReadLength(record, length);
      if check.Some? {
        return Some(MaxLength(check.value));
      }
      return None;
    }

    /** UnmarshalJSON: the decoder fills the exported fields; on success the tag is reset to
        the segment's own, on failure the decoder's error is returned and the tag is untouched. */
    method UnmarshalJSON(k: Constants, decoded: JsonOutcome<Data>) returns (err: Option<WireError>)
      modifies this
      ensures decoded.DecodeFailed? ==> err == Some(Json) && View() == decoded.partial.(tag := old(tag))
      ensures decoded.Decoded? ==> err == None && View() == decoded.value.(tag := k.TagAmountNegotiatedDiscount)
    {
      match decoded
      case DecodeFailed(p) =>
        RemittanceAmount := p.RemittanceAmount;
        return Some(Json);
      case Decoded(v) =>
        RemittanceAmount := v.RemittanceAmount;
        tag := k.TagAmountNegotiatedDiscount;
        return None;
    }

    /** String: the fixed-width record. */
    method String(conv: Converters) returns (s: string)
      ensures s == FormatOf(conv, View(), Fixed)
    {
      s := Format(conv, Fixed);
    }

    method Format(conv: Converters, options: FormatOptions) returns (s: string)
      ensures s == FormatOf(conv, View(), options)
    {
      var buf := "";
      buf := buf + tag;
      buf := buf + CurrencyCodeField(conv, View());
      buf := buf + (FormatAmount(conv, View(), options) + conv.Delimiter);
      s := buf;
    }
  }

  // ---------------------------------------------------------------------------------------
  // Lemmas

  /** Format never strips delimiters, and in both modes it is the tag, the 3-wide currency
      field (which does not depend on the options) and the amount, ending in one delimiter. */
  lemma FormatShape(conv: Converters, d: Data, options: FormatOptions, strip: string -> string)
    requires FixedWidths(conv) && |d.tag| == 6
    ensures FormatOf(conv.(stripDelimiters := strip), d, options) == FormatOf(conv, d, options)
    ensures FormatOf(conv, d, options)[..6] == d.tag
    ensures FormatOf(conv, d, options)[6..9] == FormatOf(conv, d, Fixed)[6..9]
              == conv.alphaField(d.RemittanceAmount.CurrencyCode, 3)
    ensures FormatOf(conv, d, options)[9..] == FormatAmount(conv, d, options) + conv.Delimiter
  {
    var cc := CurrencyCodeField(conv, d);
    var tail := FormatAmount(conv, d, options) + conv.Delimiter;
    var fixedTail := FormatAmount(conv, d, Fixed) + conv.Delimiter;
    assert FormatOf(conv, d, options) == d.tag + cc + tail;
    assert (d.tag + cc + tail)[6..9] == cc;
    assert (d.tag + cc + fixedTail)[6..9] == cc;
  }

  /** In fixed mode every record is 29 characters long. */
  lemma FixedLength(conv: Converters, d: Data)
    requires FixedWidths(conv) && |d.tag| == 6 && |conv.Delimiter| == 1
    ensures |FormatOf(conv, d, Fixed)| == 29
  {
  }

  /** The final length check decides the outcome exactly when every read succeeded: then the
      error is MaxLength of what verifyDataWithReadLength reports at the cursor after the amount,
      and there is no error when it reports none. When a read fails, the error is not a
      MaxLength. */
  lemma MaxLengthFromVerify(conv: Converters, d: Data, record: string)
    requires ReadsWithin(conv)
    ensures var r := ParseOf(conv, d, record);
            Consumed(conv, record).None? <==> r.err.Some? && !r.err.value.MaxLength?
    ensures var r := ParseOf(conv, d, record);
            Consumed(conv, record).Some? ==>
              (r.err == None <==> conv.verifyDataWithReadLength(record, Consumed(conv, record).value) == None)
    ensures var r := ParseOf(conv, d, record);
            Consumed(conv, record).Some? &&
            conv.verifyDataWithReadLength(record, Consumed(conv, record).value).Some? ==>
              r.err == Some(MaxLength(conv.verifyDataWithReadLength(record, Consumed(conv, record).value).value))
  {
  }

  /** When both reads succeed, each field holds what its read returned, whatever the length
      check then says. */
  lemma CompleteReadsFillFields(conv: Converters, d: Data, record: string)
    requires ReadsWithin(conv) && Consumed(conv, record).Some?
    ensures ParseOf(conv, d, record).state ==
              Data(record[..6], RemittanceAmount(FixedValue(conv, record, Start(record), 3),
                                                 VariableValue(conv, record, AfterCurrencyCode(conv, record), 19)))
  {
  }

  /** A failing field stops the parse: the fields after it keep their old values, the ones
      before it hold what was read, and the error carries the field's name and no value. */
  lemma FailureStopsParse(conv: Converters, d: Data, record: string)
    requires ReadsWithin(conv)
    ensures var r := ParseOf(conv, d, record);
            r.err.Some? && r.err.value.Field? ==>
              r.err.value.name in {"CurrencyCode", "Amount"} && r.err.value.value == None
    ensures FailedOn(ParseOf(conv, d, record), "CurrencyCode") <==>
              Start(record).Some? && AfterCurrencyCode(conv, record).None?
    ensures FailedOn(ParseOf(conv, d, record), "Amount") <==>
              AfterCurrencyCode(conv, record).Some? && Consumed(conv, record).None?
    ensures var r := ParseOf(conv, d, record);
            FailedOn(r, "CurrencyCode") ==> r.state.RemittanceAmount == d.RemittanceAmount
    ensures var r := ParseOf(conv, d, record);
            FailedOn(r, "Amount") ==>
              && r.state.RemittanceAmount.Amount == d.RemittanceAmount.Amount
              && conv.parseFixedStringField(record[6..], 3).Read?
              && r.state.RemittanceAmount.CurrencyCode == conv.parseFixedStringField(record[6..], 3).field.value
  {
  }

  /** The outcome of Parse does not depend on the segment it started from, and a successful
      Parse overwrites every field. */
  lemma ParseOverwrites(conv: Converters, d1: Data, d2: Data, record: string)
    requires ReadsWithin(conv)
    ensures ParseOf(conv, d1, record).err == ParseOf(conv, d2, record).err
    ensures ParseOf(conv, d1, record).err == None ==>
              ParseOf(conv, d1, record).state == ParseOf(conv, d2, record).state
  {
  }

  /** Round trip in either mode: the currency code is written and read at fixed width, the
      amount is written with a delimiter that the variable read consumes. */
  lemma {:induction false} RoundTrip(conv: Converters, d: Data, start: Data, options: FormatOptions)
    requires ReadsWithin(conv) && AcceptsFullRead(conv)
    requires |d.tag| == 6
    requires FixedReadsBack(conv, d.RemittanceAmount.CurrencyCode, 3)
    requires VariableReadsBack(conv, d.RemittanceAmount.Amount, 19, options)
    ensures ParseOf(conv, start, FormatOf(conv, d, options)) == Parsed(d, None)
  {
    var cc := CurrencyCodeField(conv, d);
    var am := FormatAmount(conv, d, options);
    var record := FormatOf(conv, d, options);
    assert record == d.tag + (cc + (am + conv.Delimiter));
    assert record[..6] == d.tag;
    assert ReadFixedAt(conv, record, 6, 3) == Read(FieldRead(d.RemittanceAmount.CurrencyCode, 3)) by {
      assert record[6..] == cc + (am + conv.Delimiter);
    }
    assert record[9..] == am + conv.Delimiter + [];
    VariableReadAt(conv, record, 9, d.RemittanceAmount.Amount, 19, options, []);
    assert conv.verifyDataWithReadLength(record, |record|) == None;
  }

  /** Structure and content are checked separately: a record that parses cleanly is still
      rejected by Validate when its amount is not an amount (the ErrNonAmount scenario). */
  lemma ParseDoesNotValidate(conv: Converters, valid: Validators, k: Constants, d: Data,
                             record: string, e: Kind)
    requires ReadsWithin(conv)
    requires ParseOf(conv, d, record).err == None
    requires var p := ParseOf(conv, d, record).state;
             && p.tag == k.TagAmountNegotiatedDiscount
             && p.RemittanceAmount.CurrencyCode != ""
             && valid.isCurrencyCode(p.RemittanceAmount.CurrencyCode) == None
             && p.RemittanceAmount.Amount != ""
             && valid.isAmount(p.RemittanceAmount.Amount) == Some(e)
    ensures var p := ParseOf(conv, d, record).state;
            Validate(valid, k, p) == Some(Field("Amount", e, Some(p.RemittanceAmount.Amount)))
  {
  }

  /** An empty amount is the error whatever else the segment holds: the tag, the currency
      code and the validators then play no part. */
  lemma EmptyAmountReportedFirst(valid: Validators, other: Validators, k: Constants, d: Data,
                                 tag: string, code: string)
    requires d.RemittanceAmount.Amount == ""
    ensures Validate(valid, k, d) == Some(Field("Amount", FieldRequired, None))
    ensures Validate(valid, k, d) ==
              Validate(other, k, d.(tag := tag, RemittanceAmount := d.RemittanceAmount.(CurrencyCode := code)))
  {
  }

  /** With the mandatory fields and the tag in order, the currency code is checked before the
      amount. */
  lemma CurrencyBeforeAmount(valid: Validators, k: Constants, d: Data)
    requires FieldInclusion(d) == None && d.tag == k.TagAmountNegotiatedDiscount
    requires valid.isCurrencyCode(d.RemittanceAmount.CurrencyCode).Some?
    ensures Validate(valid, k, d) ==
              Some(Field("CurrencyCode", valid.isCurrencyCode(d.RemittanceAmount.CurrencyCode).value,
                         Some(d.RemittanceAmount.CurrencyCode)))
  {
  }
}
