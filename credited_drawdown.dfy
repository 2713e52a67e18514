/**
 * AccountCreditedDrawdown: the tag followed by one fixed 9-character field, the drawdown
 * credit account number (a 9-character ABA).
 */
module CreditedDrawdown {
  import opened Wire

  /** The value of an AccountCreditedDrawdown struct. */
  datatype Data = Data(tag: string, DrawdownCreditAccountNumber: string)

  /** Parse as a function of the segment before the call and the record. The record is sliced
      at a cursor `length` that starts after the tag and advances by what each field read. */
  function ParseOf(conv: Converters, d: Data, record: string): (r: Parsed<Data>)
    requires ReadsWithin(conv)
    ensures |record| < 7 <==> r.err == Some(MinLength(7, |record|))
    ensures |record| < 7 ==> r.state == d
    ensures |record| >= 7 ==> r.state.tag == record[..6]
  {
    // The source counts runes here but reports len(record); single-byte strings make them equal.
    if |record| < 7 then Parsed(d, Some(MinLength(7, |record|)))
    else
      var d1 := d.(tag := record[..6]);
      var length := 6;
      match ReadFixedAt(conv, record, length, 9)
      case ReadFailed(e) => Parsed(d1, Some(Field("DrawdownCreditAccountNumber", e, None)))
      case Read(f) =>
        var d2 := d1.(DrawdownCreditAccountNumber := f.value);
        var length := length + f.read;
        match conv.verifyDataWithReadLength(record, length)
        case Some(e) => Parsed(d2, Some(MaxLength(e)))
        case None => Parsed(d2, None)
  }

  // ---------------------------------------------------------------------------------------
  // The parse cursor: where Parse leaves `length`, or None when it stopped before getting
  // there.

  /** The cursor after the tag, once the record is long enough. */
  function Start(record: string): (r: Option<nat>)
    ensures r.Some? <==> |record| >= 7
    ensures r.Some? ==> r.value == 6 <= |record|
  {
    if |record| < 7 then None else Some(6)
  }

  /** The cursor after the account number: the length Parse hands to
      verifyDataWithReadLength. */
  function Consumed(conv: Converters, record: string): (r: Option<nat>)
    requires ReadsWithin(conv)
    ensures r.Some? ==> Start(record).Some? && 6 <= r.value <= |record|
  {
    StepFixed(conv, record, Start(record), 9)
  }

  /** The 9-wide rendering of the account number. */
  function DrawdownCreditAccountNumberField(conv: Converters, d: Data): (r: string)
    ensures FixedWidths(conv) ==> |r| == 9
  {
    conv.alphaField(d.DrawdownCreditAccountNumber, 9)
  }

  /** Format as a function of the segment; the options are accepted and not consulted. */
  function FormatOf(conv: Converters, d: Data, options: FormatOptions): string {
    d.tag + DrawdownCreditAccountNumberField(conv, d)
  }

  /** fieldInclusion: the account number is mandatory. */
  function FieldInclusion(d: Data): (r: Option<WireError>)
    ensures r.Some? <==> d.DrawdownCreditAccountNumber == ""
    ensures r.Some? ==> r.value == Field("DrawdownCreditAccountNumber", FieldRequired, None)
  {
    if d.DrawdownCreditAccountNumber == "" then
      Some(Field("DrawdownCreditAccountNumber", FieldRequired, None))
    else
      None
  }

  /** Everything Validate checks, stated as one condition. */
  ghost predicate Accepted(valid: Validators, k: Constants, d: Data) {
    && d.DrawdownCreditAccountNumber != ""
    && d.tag == k.TagAccountCreditedDrawdown
    && valid.isNumeric(d.DrawdownCreditAccountNumber) == None
  }

  /** Validate: mandatory fields, then the tag, then the account number's digits; the first
      failure wins. */
  function Validate(valid: Validators, k: Constants, d: Data): (r: Option<WireError>)
    ensures r == None <==> Accepted(valid, k, d)
    ensures FieldInclusion(d).Some? ==> r == FieldInclusion(d)
    ensures FieldInclusion(d) == None && d.tag != k.TagAccountCreditedDrawdown ==>
              r == Some(Field("tag", ValidTagForType, Some(d.tag)))
  {
    if FieldInclusion(d).Some? then FieldInclusion(d)
    else if d.tag != k.TagAccountCreditedDrawdown then Some(Field("tag", ValidTagForType, Some(d.tag)))
    else if valid.isNumeric(d.DrawdownCreditAccountNumber).Some? then
      Some(Field("DrawdownCreditAccountNumber", valid.isNumeric(d.DrawdownCreditAccountNumber).value,
                 Some(d.DrawdownCreditAccountNumber)))
    else None
  }

  class AccountCreditedDrawdown {
    var tag: string
    var DrawdownCreditAccountNumber: string

    function View(): Data
      reads this
    {
      Data(tag, DrawdownCreditAccountNumber)
    }

    /** NewAccountCreditedDrawdown: an empty segment carrying its own tag. */
    constructor (k: Constants)
      ensures View() == Data(k.TagAccountCreditedDrawdown, "")
    {
      tag := k.TagAccountCreditedDrawdown;
      DrawdownCreditAccountNumber := "";
    }

    method Parse(conv: Converters, record: string) returns (err: Option<WireError>)
      requires ReadsWithin(conv)
      modifies this
      ensures Parsed(View(), err) == ParseOf(conv, old(View()), record)
    {
      if |record| < 7 {
        return Some(MinLength(7, |record|));
      }
      tag := record[..6];
      var length := 6;

      var r := ReadFixedAt(conv, record, length, 9);
      if r.ReadFailed? {
        return Some(Field("DrawdownCreditAccountNumber", r.kind, None));
      }
      DrawdownCreditAccountNumber := r.field.value;
      length := length + r.field.read;

      var check := conv.verifyDataWithReadLength(record, length);
      if check.Some? {
        return Some(MaxLength(check.value));
      }
      return None;
    }

    /** UnmarshalJSON: the decoder fills the exported fields; on success the tag is reset to
        the segment's own, on failure the decoder's error is returned and the tag is untouched. */
    method UnmarshalJSON(k: Constants, decoded: JsonOutcome<Data>) returns (err: Option<WireError>)
      modifies this
      ensures decoded.DecodeFailed? ==> err == Some(Json) && View() == decoded.partial.(tag := old(tag))
      ensures decoded.Decoded? ==> err == None && View() == decoded.value.(tag := k.TagAccountCreditedDrawdown)
    {
      match decoded
      case DecodeFailed(p) =>
        DrawdownCreditAccountNumber := p.DrawdownCreditAccountNumber;
        return Some(Json);
      case Decoded(v) =>
        DrawdownCreditAccountNumber := v.DrawdownCreditAccountNumber;
        tag := k.TagAccountCreditedDrawdown;
        return None;
    }

    /** String: the fixed-width record. */
    method String(conv: Converters) returns (s: string)
      ensures s == FormatOf(conv, View(), Fixed)
    {
      s := Format(conv, Fixed);
    }

    method Format(conv: Converters, options: FormatOptions) returns (s: string)
      ensures s == FormatOf(conv, View(), options)
    {
      var buf := "";
      buf := buf + tag;
      buf := buf + DrawdownCreditAccountNumberField(conv, View());
      s := buf;
    }
  }

  // ---------------------------------------------------------------------------------------
  // Lemmas

  /** Format does not depend on the options: no delimiter and no stripping in either mode. */
  lemma FormatIgnoresOptions(conv: Converters, d: Data, o1: FormatOptions, o2: FormatOptions,
                             strip: string -> string)
    ensures FormatOf(conv, d, o1) == FormatOf(conv, d, o2)
    ensures FormatOf(conv.(stripDelimiters := strip), d, o1) == FormatOf(conv, d, o1)
  {
  }

  /** With fixed-width rendering, every record is 15 characters long, tag first. */
  lemma FormatLength(conv: Converters, d: Data, options: FormatOptions)
    requires FixedWidths(conv) && |d.tag| == 6
    ensures |FormatOf(conv, d, options)| == 15
    ensures FormatOf(conv, d, options)[..6] == d.tag
  {
  }

  /** A record of 7 to 14 characters passes the minimum-length check, and the shortfall is
      reported against the account number, provided parseFixedStringField consumes its whole
      width whenever it succeeds. */
  lemma ShortRecordIsFieldError(conv: Converters, d: Data, record: string)
    requires ReadsWithin(conv)
    requires forall rest: string :: conv.parseFixedStringField(rest, 9).Read? ==>
                                      conv.parseFixedStringField(rest, 9).field.read == 9
    requires 7 <= |record| < 15
    ensures ParseOf(conv, d, record).err.Some?
    ensures ParseOf(conv, d, record).err.value.Field?
    ensures ParseOf(conv, d, record).err.value.name == "DrawdownCreditAccountNumber"
  {
    assert |record[6..]| < 9;
  }

  /** The final length check decides the outcome exactly when every read succeeded: then the
      error is MaxLength of what verifyDataWithReadLength reports at the cursor after the
      account number, and there is no error when it reports none. When a read fails, the error is not a
      MaxLength. */
  lemma MaxLengthFromVerify(conv: Converters, d: Data, record: string)
    requires ReadsWithin(conv)
    ensures var r := ParseOf(conv, d, record);
            Consumed(conv, record).None? <==> r.err.Some? && !r.err.value.MaxLength?
    ensures var r := ParseOf(conv, d, record);
            Consumed(conv, record).Some? ==>
              (r.err == None <==> conv.verifyDataWithReadLength(record, Consumed(conv, record).value) == None)
    ensures var r := ParseOf(conv, d, record);
            Consumed(conv, record).Some? &&
            conv.verifyDataWithReadLength(record, Consumed(conv, record).value).Some? ==>
              r.err == Some(MaxLength(conv.verifyDataWithReadLength(record, Consumed(conv, record).value).value))
  {
  }

  /** When the read succeeds, the account number holds what it returned, whatever the length
      check then says. */
  lemma CompleteReadsFillFields(conv: Converters, d: Data, record: string)
    requires ReadsWithin(conv) && Consumed(conv, record).Some?
    ensures ParseOf(conv, d, record).state == Data(record[..6], FixedValue(conv, record, Start(record), 9))
  {
  }

  /** The outcome of Parse does not depend on the segment it started from, and a successful
      Parse overwrites every field. */
  lemma ParseOverwrites(conv: Converters, d1: Data, d2: Data, record: string)
    requires ReadsWithin(conv)
    ensures ParseOf(conv, d1, record).err == ParseOf(conv, d2, record).err
    ensures ParseOf(conv, d1, record).err == None ==>
              ParseOf(conv, d1, record).state == ParseOf(conv, d2, record).state
  {
  }

  /** Round trip: parsing what Format produced, in either mode, restores the segment. */
  lemma {:induction false} RoundTrip(conv: Converters, d: Data, start: Data, options: FormatOptions)
    requires ReadsWithin(conv) && AcceptsFullRead(conv)
    requires |d.tag| == 6
    requires FixedReadsBack(conv, d.DrawdownCreditAccountNumber, 9)
    ensures ParseOf(conv, start, FormatOf(conv, d, options)) == Parsed(d, None)
  {
    var w := conv.alphaField(d.DrawdownCreditAccountNumber, 9);
    var record := FormatOf(conv, d, options);
    assert record == d.tag + w;
    assert record[6..] == w + [];
    assert record[..6] == d.tag;
    assert conv.verifyDataWithReadLength(record, |record|) == None;
  }

  /** A missing account number is reported as FieldRequired whatever the tag: the tag and the
      validators then play no part. */
  lemma EmptyAccountBeatsWrongTag(valid: Validators, other: Validators, k: Constants, d: Data, tag: string)
    requires d.DrawdownCreditAccountNumber == ""
    ensures Validate(valid, k, d) == Some(Field("DrawdownCreditAccountNumber", FieldRequired, None))
    ensures Validate(valid, k, d) == Validate(other, k, d.(tag := tag))
  {
  }

  /** With a correct tag and a non-empty account number, Validate is exactly isNumeric. */
  lemma OnlyNumericRemains(valid: Validators, k: Constants, d: Data)
    requires d.DrawdownCreditAccountNumber != "" && d.tag == k.TagAccountCreditedDrawdown
    ensures Validate(valid, k, d) == None <==> valid.isNumeric(d.DrawdownCreditAccountNumber) == None
    ensures valid.isNumeric(d.DrawdownCreditAccountNumber).Some? ==>
              Validate(valid, k, d) == Some(Field("DrawdownCreditAccountNumber",
                                                 valid.isNumeric(d.DrawdownCreditAccountNumber).value,
                                                 Some(d.DrawdownCreditAccountNumber)))
  {
  }
}
