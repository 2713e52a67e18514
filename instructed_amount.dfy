/**
 * CurrencyInstructedAmount: the tag, a delimiter-terminated SWIFT field tag of at most 5
 * characters and a delimiter-terminated amount of at most 18 characters.
 */
module InstructedAmount {
  import opened Wire

  /** The value of a CurrencyInstructedAmount struct. */
  datatype Data = Data(tag: string, SwiftFieldTag: string, Amount: string)

  /** Parse as a function of the segment before the call and the record. */
  function ParseOf(conv: Converters, d: Data, record: string): (r: Parsed<Data>)
    requires ReadsWithin(conv)
    ensures |record| < 25 <==> r.err == Some(MinLength(25, |record|))
    ensures |record| < 25 ==> r.state == d
    ensures |record| >= 25 ==> r.state.tag == record[..6]
  {
    // The source counts runes here but reports len(record); single-byte strings make them equal.
    if |record| < 25 then Parsed(d, Some(MinLength(25, |record|)))
    else
      var d1 := d.(tag := record[..6]);
      var length := 6;
      match ReadVariableAt(conv, record, length, 5)
      case ReadFailed(e) => Parsed(d1, Some(Field("SwiftFieldTag", e, None)))
      case Read(f1) =>
        var d2 := d1.(SwiftFieldTag := f1.value);
        var length := length + f1.read;
        match ReadVariableAt(conv, record, length, 18)
        case ReadFailed(e) => Parsed(d2, Some(Field("Amount", e, None)))
        case Read(f2) =>
          var d3 := d2.(Amount := f2.value);
          var length := length + f2.read;
          match conv.verifyDataWithReadLength(record, length)
          case Some(e) => Parsed(d3, Some(MaxLength(e)))
          case None => Parsed(d3, None)
  }

  // ---------------------------------------------------------------------------------------
  // The parse cursor, field by field: where each read of Parse leaves `length`, or None when
  // Parse stopped before getting there.

  /** The cursor after the tag, once the record is long enough. */
  function Start(record: string): (r: Option<nat>)
    ensures r.Some? <==> |record| >= 25
    ensures r.Some? ==> r.value == 6 <= |record|
  {
    if |record| < 25 then None else Some(6)
  }

  function AfterSwiftFieldTag(conv: Converters, record: string): (r: Option<nat>)
    requires ReadsWithin(conv)
    ensures r.Some? ==> Start(record).Some? && 6 <= r.value <= |record|
  {
    StepVariable(conv, record, Start(record), 5)
  }

  /** The cursor after the amount: the length Parse hands to verifyDataWithReadLength. */
  function Consumed(conv: Converters, record: string): (r: Option<nat>)
    requires ReadsWithin(conv)
    ensures r.Some? ==> AfterSwiftFieldTag(conv, record).Some? && 6 <= r.value <= |record|
  {
    StepVariable(conv, record, AfterSwiftFieldTag(conv, record), 18)
  }

  /** The SWIFT field tag as Format writes it: 5 wide in fixed mode. */
  function FormatSwiftFieldTag(conv: Converters, d: Data, options: FormatOptions): (r: string)
    ensures FixedWidths(conv) && options == Fixed ==> |r| == 5
  {
    conv.formatAlphaField(d.SwiftFieldTag, 5, options)
  }

  /** The amount as Format writes it: 18 wide in fixed mode. */
  function FormatAmount(conv: Converters, d: Data, options: FormatOptions): (r: string)
    ensures FixedWidths(conv) && options == Fixed ==> |r| == 18
  {
    conv.formatAlphaField(d.Amount, 18, options)
  }

  /** AmountField: the amount zero-padded to 18 by numericStringField. Format does not use it. */
  function AmountField(conv: Converters, d: Data): (r: string)
    ensures NumericWidths(conv) ==> |r| == 18
  {
    conv.numericStringField(d.Amount, 18)
  }

  /** Format as a function of the segment: no call to stripDelimiters in either mode. */
  function FormatOf(conv: Converters, d: Data, options: FormatOptions): string {
    d.tag + (FormatSwiftFieldTag(conv, d, options) + conv.Delimiter)
          + (FormatAmount(conv, d, options) + conv.Delimiter)
  }

  /** Everything Validate checks, stated as one condition. */
  ghost predicate Accepted(valid: Validators, k: Constants, d: Data) {
    && d.tag == k.TagCurrencyInstructedAmount
    && valid.isAlphanumeric(d.SwiftFieldTag) == None
    && valid.isAmount(d.Amount) == None
  }

  /** Validate has no mandatory-field step: the tag, then the SWIFT field tag, then the amount;
      the first failure wins. */
  function Validate(valid: Validators, k: Constants, d: Data): (r: Option<WireError>)
    ensures r == None <==> Accepted(valid, k, d)
    ensures d.tag != k.TagCurrencyInstructedAmount ==>
              r == Some(Field("tag", ValidTagForType, Some(d.tag)))
    ensures d.tag == k.TagCurrencyInstructedAmount && valid.isAlphanumeric(d.SwiftFieldTag).Some? ==>
              r == Some(Field("SwiftFieldTag", valid.isAlphanumeric(d.SwiftFieldTag).value, Some(d.SwiftFieldTag)))
    ensures d.tag == k.TagCurrencyInstructedAmount && valid.isAlphanumeric(d.SwiftFieldTag) == None &&
            valid.isAmount(d.Amount).Some? ==>
              r == Some(Field("Amount", valid.isAmount(d.Amount).value, Some(d.Amount)))
    ensures r.Some? ==> r.value.Field? && r.value.name in {"tag", "SwiftFieldTag", "Amount"}
  {
    if d.tag != k.TagCurrencyInstructedAmount then Some(Field("tag", ValidTagForType, Some(d.tag)))
    else if valid.isAlphanumeric(d.SwiftFieldTag).Some? then
      Some(Field("SwiftFieldTag", valid.isAlphanumeric(d.SwiftFieldTag).value, Some(d.SwiftFieldTag)))
    else if valid.isAmount(d.Amount).Some? then
      Some(Field("Amount", valid.isAmount(d.Amount).value, Some(d.Amount)))
    else None
  }

  class CurrencyInstructedAmount {
    var tag: string
    var SwiftFieldTag: string
    var Amount: string

    function View(): Data
      reads this
    {
      Data(tag, SwiftFieldTag, Amount)
    }

    /** NewCurrencyInstructedAmount: an empty segment carrying its own tag. */
    constructor (k: Constants)
      ensures View() == Data(k.TagCurrencyInstructedAmount, "", "")
    {
      tag := k.TagCurrencyInstructedAmount;
      SwiftFieldTag := "";
      Amount := "";
    }

    method Parse(conv: Converters, record: string) returns (err: Option<WireError>)
      requires ReadsWithin(conv)
      modifies this
      ensures Parsed(View(), err) == ParseOf(conv, old(View()), record)
    {
      if |record| < 25 {
        return Some(MinLength(25, |record|));
      }
      tag := record[..6];
      var length := 6;

      var r := ReadVariableAt(conv, record, length, 5);
      if r.ReadFailed? {
        return Some(Field("SwiftFieldTag", r.kind, None));
      }
      SwiftFieldTag := r.field.value;
      length := length + r.field.read;

      r := ReadVariableAt(conv, record, length, 18);
      if r.ReadFailed? {
        return Some(Field("Amount", r.kind, None));
      }
      Amount := r.field.value;
      length := length + r.field.read;

      var check := conv.verifyDataWithReadLength(record, length);
      if check.Some? {
        return Some(MaxLength(check.value));
      }
      return None;
    }

    /** UnmarshalJSON: the decoder fills the exported fields; on success the tag is reset to
        the segment's own, on failure the decoder's error is returned and the tag is untouched. */
    method UnmarshalJSON(k: Constants, decoded: JsonOutcome<Data>) returns (err: Option<WireError>)
      modifies this
      ensures decoded.DecodeFailed? ==> err == Some(Json) && View() == decoded.partial.(tag := old(tag))
      ensures decoded.Decoded? ==> err == None && View() == decoded.value.(tag := k.TagCurrencyInstructedAmount)
    {
      match decoded
      case DecodeFailed(p) =>
        SwiftFieldTag := p.SwiftFieldTag;
        Amount := p.Amount;
        return Some(Json);
      case Decoded(v) =>
        SwiftFieldTag := v.SwiftFieldTag;
        Amount := v.Amount;
        tag := k.TagCurrencyInstructedAmount;
        return None;
    }

    /** String: the fixed-width record. */
    method String(conv: Converters) returns (s: string)
      ensures s == FormatOf(conv, View(), Fixed)
    {
      s := Format(conv, Fixed);
    }

    method Format(conv: Converters, options: FormatOptions) returns (s: string)
      ensures s == FormatOf(conv, View(), options)
    {
      var buf := "";
      buf := buf + tag;
      buf := buf + (FormatSwiftFieldTag(conv, View(), options) + conv.Delimiter);
      buf := buf + (FormatAmount(conv, View(), options) + conv.Delimiter);
      s := buf;
    }
  }

  // ---------------------------------------------------------------------------------------
  // Lemmas

  /** Format never strips delimiters, and the amount is rendered by formatAlphaField: the
      zero-padding numericStringField behind AmountField never reaches the output. */
  lemma FormatIgnoresStripAndAmountField(conv: Converters, d: Data, options: FormatOptions,
                                         strip: string -> string, pad: (string, nat) -> string)
    ensures FormatOf(conv.(stripDelimiters := strip), d, options) == FormatOf(conv, d, options)
    ensures FormatOf(conv.(numericStringField := pad), d, options) == FormatOf(conv, d, options)
  {
  }

  /** Format writes a delimiter after each field in both modes: the record ends in one. */
  lemma FormatEndsWithDelimiter(conv: Converters, d: Data, options: FormatOptions)
    requires |conv.Delimiter| == 1
    ensures |FormatOf(conv, d, options)| >= 2 + |d.tag|
    ensures FormatOf(conv, d, options)[|FormatOf(conv, d, options)| - 1..] == conv.Delimiter
  {
  }

  /** In fixed mode every record is 31 characters long. */
  lemma FixedLength(conv: Converters, d: Data)
    requires FixedWidths(conv) && |d.tag| == 6 && |conv.Delimiter| == 1
    ensures |FormatOf(conv, d, Fixed)| == 31
  {
  }

  /** The final length check decides the outcome exactly when every read succeeded: then the
      error is MaxLength of what verifyDataWithReadLength reports at the cursor after the amount,
      and there is no error when it reports none. When a read fails, the error is not a
      MaxLength. */
  lemma MaxLengthFromVerify(conv: Converters, d: Data, record: string)
    requires ReadsWithin(conv)
    ensures var r := ParseOf(conv, d, record);
            Consumed(conv, record).None? <==> r.err.Some? && !r.err.value.MaxLength?
    ensures var r := ParseOf(conv, d, record);
            Consumed(conv, record).Some? ==>
              (r.err == None <==> conv.verifyDataWithReadLength(record, Consumed(conv, record).value) == None)
    ensures var r := ParseOf(conv, d, record);
            Consumed(conv, record).Some? &&
            conv.verifyDataWithReadLength(record, Consumed(conv, record).value).Some? ==>
              r.err == Some(MaxLength(conv.verifyDataWithReadLength(record, Consumed(conv, record).value).value))
  {
  }

  /** When both reads succeed, each field holds what its read returned, whatever the length
      check then says. */
  lemma CompleteReadsFillFields(conv: Converters, d: Data, record: string)
    requires ReadsWithin(conv) && Consumed(conv, record).Some?
    ensures ParseOf(conv, d, record).state ==
              Data(record[..6], VariableValue(conv, record, Start(record), 5),
                   VariableValue(conv, record, AfterSwiftFieldTag(conv, record), 18))
  {
  }

  /** A failing field stops the parse: the fields after it keep their old values, the ones
      before it hold what was read, and the error carries the field's name and no value. */
  lemma FailureStopsParse(conv: Converters, d: Data, record: string)
    requires ReadsWithin(conv)
    ensures var r := ParseOf(conv, d, record);
            r.err.Some? && r.err.value.Field? ==>
              r.err.value.name in {"SwiftFieldTag", "Amount"} && r.err.value.value == None
    ensures FailedOn(ParseOf(conv, d, record), "SwiftFieldTag") <==>
              Start(record).Some? && AfterSwiftFieldTag(conv, record).None?
    ensures FailedOn(ParseOf(conv, d, record), "Amount") <==>
              AfterSwiftFieldTag(conv, record).Some? && Consumed(conv, record).None?
    ensures var r := ParseOf(conv, d, record);
            FailedOn(r, "SwiftFieldTag") ==>
              r.state.SwiftFieldTag == d.SwiftFieldTag && r.state.Amount == d.Amount
    ensures var r := ParseOf(conv, d, record);
            FailedOn(r, "Amount") ==>
              && r.state.Amount == d.Amount
              && conv.parseVariableStringField(record[6..], 5).Read?
              && r.state.SwiftFieldTag == conv.parseVariableStringField(record[6..], 5).field.value
  {
  }

  /** The outcome of Parse does not depend on the segment it started from, and a successful
      Parse overwrites every field. */
  lemma ParseOverwrites(conv: Converters, d1: Data, d2: Data, record: string)
    requires ReadsWithin(conv)
    ensures ParseOf(conv, d1, record).err == ParseOf(conv, d2, record).err
    ensures ParseOf(conv, d1, record).err == None ==>
              ParseOf(conv, d1, record).state == ParseOf(conv, d2, record).state
  {
  }

  /** Round trip in fixed mode: String() output parses back to the same segment. */
  lemma {:induction false} FixedRoundTrip(conv: Converters, d: Data, start: Data)
    requires ReadsWithin(conv) && AcceptsFullRead(conv) && FixedWidths(conv)
    requires |d.tag| == 6
    requires VariableReadsBack(conv, d.SwiftFieldTag, 5, Fixed)
    requires VariableReadsBack(conv, d.Amount, 18, Fixed)
    ensures ParseOf(conv, start, FormatOf(conv, d, Fixed)) == Parsed(d, None)
  {
    var sw := FormatSwiftFieldTag(conv, d, Fixed);
    var am := FormatAmount(conv, d, Fixed);
    var delim := conv.Delimiter;
    var record := FormatOf(conv, d, Fixed);
    assert record == d.tag + (sw + delim + (am + delim));
    assert |record| >= 25;
    assert record[..6] == d.tag;
    assert record[6..] == sw + delim + (am + delim);
    VariableReadAt(conv, record, 6, d.SwiftFieldTag, 5, Fixed, am + delim);
    assert am + delim == am + delim + [];
    VariableReadAt(conv, record, After(conv, 6, sw), d.Amount, 18, Fixed, []);
    assert conv.verifyDataWithReadLength(record, |record|) == None;
  }

  /** The variable-mode rendering of a segment with short fields is shorter than the 25
      characters Parse demands, so Parse rejects it on length alone. Shown for renderings that
      keep the values as they are. */
  lemma ShortVariableRenderingRejected(conv: Converters, d: Data, start: Data)
    requires ReadsWithin(conv)
    requires |d.tag| == 6 && |conv.Delimiter| == 1
    requires FormatSwiftFieldTag(conv, d, Variable) == d.SwiftFieldTag
    requires FormatAmount(conv, d, Variable) == d.Amount
    requires |d.SwiftFieldTag| + |d.Amount| < 17
    ensures ParseOf(conv, start, FormatOf(conv, d, Variable)).err ==
              Some(MinLength(25, 8 + |d.SwiftFieldTag| + |d.Amount|))
  {
  }

  /** A wrong tag is reported first: the field values and the validators then play no part. */
  lemma WrongTagReportedFirst(valid: Validators, other: Validators, k: Constants, d: Data,
                              swift: string, amount: string)
    requires d.tag != k.TagCurrencyInstructedAmount
    ensures Validate(valid, k, d) == Validate(other, k, d.(SwiftFieldTag := swift, Amount := amount))
    ensures Validate(valid, k, d) == Some(Field("tag", ValidTagForType, Some(d.tag)))
  {
  }
}
