/**
 * FIBeneficiaryFIAdvice: the tag, a 3-character advice code, then six delimiter-terminated
 * advice lines: the first at most 26 characters, the others at most 33.
 */
module FIAdvice {
  import opened Wire

  datatype Advice = Advice(AdviceCode: string, LineOne: string, LineTwo: string, LineThree: string,
                           LineFour: string, LineFive: string, LineSix: string)

  /** The value of an FIBeneficiaryFIAdvice struct. */
  datatype Data = Data(tag: string, Advice: Advice)

  const EmptyAdvice := Advice("", "", "", "", "", "", "")

  /** Parse as a function of the segment before the call and the record. The advice code is
      taken from positions 6 to 9 whatever they hold; the lines are read from position 9, and a
      line that fails stops the parse under its own name. */
  function ParseOf(conv: Converters, d: Data, record: string): (r: Parsed<Data>)
    requires ReadsWithin(conv)
    ensures |record| < 9 <==> r.err == Some(MinLength(9, |record|))
    ensures |record| < 9 ==> r.state == d
    ensures |record| >= 9 ==>
              r.state.tag == record[..6] && r.state.Advice.AdviceCode == conv.parseStringField(record[6..9])
  {
    // The source counts runes here but reports len(record); single-byte strings make them equal.
    if |record| < 9 then Parsed(d, Some(MinLength(9, |record|)))
    else
      var d0 := d.(tag := record[..6], Advice := d.Advice.(AdviceCode := conv.parseStringField(record[6..9])));
      var length := 9;
      match ReadVariableAt(conv, record, length, 26)
      case ReadFailed(e) => Parsed(d0, Some(Field("LineOne", e, None)))
      case Read(f1) =>
        var d1 := d0.(Advice := d0.Advice.(LineOne := f1.value));
        var length := length + f1.read;
        match ReadVariableAt(conv, record, length, 33)
        case ReadFailed(e) => Parsed(d1, Some(Field("LineTwo", e, None)))
        case Read(f2) =>
          var d2 := d1.(Advice := d1.Advice.(LineTwo := f2.value));
          var length := length + f2.read;
          match ReadVariableAt(conv, record, length, 33)
          case ReadFailed(e) => Parsed(d2, Some(Field("LineThree", e, None)))
          case Read(f3) =>
            var d3 := d2.(Advice := d2.Advice.(LineThree := f3.value));
            var length := length + f3.read;
            ParseLastLinesOf(conv, record, d3, length)
  }

  /** The part of Parse after LineThree: lines four to six from cursor `at`, then the check
      of the cursor against the record's length. */
  function ParseLastLinesOf(conv: Converters, record: string, d3: Data, at: nat): (r: Parsed<Data>)
    requires ReadsWithin(conv) && at <= |record|
    ensures r.state.tag == d3.tag && r.state.Advice.AdviceCode == d3.Advice.AdviceCode
  {
    var length := at;
    match ReadVariableAt(conv, record, length, 33)
    case ReadFailed(e) => Parsed(d3, Some(Field("LineFour", e, None)))
    case Read(f4) =>
      var d4 := d3.(Advice := d3.Advice.(LineFour := f4.value));
      var length := length + f4.read;
      match ReadVariableAt(conv, record, length, 33)
      case ReadFailed(e) => Parsed(d4, Some(Field("LineFive", e, None)))
      case Read(f5) =>
        var d5 := d4.(Advice := d4.Advice.(LineFive := f5.value));
        var length := length + f5.read;
        match ReadVariableAt(conv, record, length, 33)
        case ReadFailed(e) => Parsed(d5, Some(Field("LineSix", e, None)))
        case Read(f6) =>
          var d6 := d5.(Advice := d5.Advice.(LineSix := f6.value));
          var length := length + f6.read;
          match conv.verifyDataWithReadLength(record, length)
          case Some(e) => Parsed(d6, Some(MaxLength(e)))
          case None => Parsed(d6, None)
  }

  // ---------------------------------------------------------------------------------------
  // The parse cursor, line by line: where each read of Parse leaves `length`, or None when
  // Parse stopped before getting there.

  /** The cursor after the tag and the advice code, once the record is long enough. */
  function Start(record: string): (r: Option<nat>)
    ensures r.Some? <==> |record| >= 9
    ensures r.Some? ==> r.value == 9 <= |record|
  {
    if |record| < 9 then None else Some(9)
  }

  function AfterLineOne(conv: Converters, record: string): (r: Option<nat>)
    requires ReadsWithin(conv)
    ensures r.Some? ==> Start(record).Some? && 9 <= r.value <= |record|
  {
    StepVariable(conv, record, Start(record), 26)
  }

  function AfterLineTwo(conv: Converters, record: string): (r: Option<nat>)
    requires ReadsWithin(conv)
    ensures r.Some? ==> AfterLineOne(conv, record).Some? && 9 <= r.value <= |record|
  {
    StepVariable(conv, record, AfterLineOne(conv, record), 33)
  }

  function AfterLineThree(conv: Converters, record: string): (r: Option<nat>)
    requires ReadsWithin(conv)
    ensures r.Some? ==> AfterLineTwo(conv, record).Some? && 9 <= r.value <= |record|
  {
    StepVariable(conv, record, AfterLineTwo(conv, record), 33)
  }

  function AfterLineFour(conv: Converters, record: string): (r: Option<nat>)
    requires ReadsWithin(conv)
    ensures r.Some? ==> AfterLineThree(conv, record).Some? && 9 <= r.value <= |record|
  {
    StepVariable(conv, record, AfterLineThree(conv, record), 33)
  }

  function AfterLineFive(conv: Converters, record: string): (r: Option<nat>)
    requires ReadsWithin(conv)
    ensures r.Some? ==> AfterLineFour(conv, record).Some? && 9 <= r.value <= |record|
  {
    StepVariable(conv, record, AfterLineFour(conv, record), 33)
  }

  /** The cursor after line six: the length Parse hands to verifyDataWithReadLength. */
  function Consumed(conv: Converters, record: string): (r: Option<nat>)
    requires ReadsWithin(conv)
    ensures r.Some? ==> AfterLineFive(conv, record).Some? && 9 <= r.value <= |record|
  {
    StepVariable(conv, record, AfterLineFive(conv, record), 33)
  }

  /** The segment as Parse leaves it once the advice code and lines one to three are read. */
  function ThreeLinesRead(conv: Converters, d: Data, record: string): Data
    requires ReadsWithin(conv) && AfterLineThree(conv, record).Some?
  {
    d.(tag := record[..6],
       Advice := d.Advice.(AdviceCode := conv.parseStringField(record[6..9]),
                           LineOne := VariableValue(conv, record, Start(record), 26),
                           LineTwo := VariableValue(conv, record, AfterLineOne(conv, record), 33),
                           LineThree := VariableValue(conv, record, AfterLineTwo(conv, record), 33)))
  }

  /** The 3-wide rendering of the advice code. */
  function AdviceCodeField(conv: Converters, d: Data): (r: string)
    ensures FixedWidths(conv) ==> |r| == 3
  {
    conv.alphaField(d.Advice.AdviceCode, 3)
  }

  function FormatLineOne(conv: Converters, d: Data, options: FormatOptions): (r: string)
    ensures FixedWidths(conv) && options == Fixed ==> |r| == 26
  {
    conv.formatAlphaField(d.Advice.LineOne, 26, options)
  }

  function FormatLineTwo(conv: Converters, d: Data, options: FormatOptions): (r: string)
    ensures FixedWidths(conv) && options == Fixed ==> |r| == 33
  {
    conv.formatAlphaField(d.Advice.LineTwo, 33, options)
  }

  function FormatLineThree(conv: Converters, d: Data, options: FormatOptions): (r: string)
    ensures FixedWidths(conv) && options == Fixed ==> |r| == 33
  {
    conv.formatAlphaField(d.Advice.LineThree, 33, options)
  }

  function FormatLineFour(conv: Converters, d: Data, options: FormatOptions): (r: string)
    ensures FixedWidths(conv) && options == Fixed ==> |r| == 33
  {
    conv.formatAlphaField(d.Advice.LineFour, 33, options)
  }

  function FormatLineFive(conv: Converters, d: Data, options: FormatOptions): (r: string)
    ensures FixedWidths(conv) && options == Fixed ==> |r| == 33
  {
    conv.formatAlphaField(d.Advice.LineFive, 33, options)
  }

  function FormatLineSix(conv: Converters, d: Data, options: FormatOptions): (r: string)
    ensures FixedWidths(conv) && options == Fixed ==> |r| == 33
  {
    conv.formatAlphaField(d.Advice.LineSix, 33, options)
  }

  /** The six lines, each followed by the delimiter, in both modes. */
  function Lines(conv: Converters, d: Data, options: FormatOptions): string {
    (FormatLineOne(conv, d, options) + conv.Delimiter)
    + ((FormatLineTwo(conv, d, options) + conv.Delimiter)
    + ((FormatLineThree(conv, d, options) + conv.Delimiter)
    + ((FormatLineFour(conv, d, options) + conv.Delimiter)
    + ((FormatLineFive(conv, d, options) + conv.Delimiter)
    + (FormatLineSix(conv, d, options) + conv.Delimiter)))))
  }

  /** The buffer Format builds before the optional stripping pass. */
  function Buffer(conv: Converters, d: Data, options: FormatOptions): string {
    d.tag + AdviceCodeField(conv, d) + Lines(conv, d, options)
  }

  /** Format as a function of the segment: stripDelimiters runs only in variable mode. */
  function FormatOf(conv: Converters, d: Data, options: FormatOptions): string {
    if options.VariableLengthFields then conv.stripDelimiters(Buffer(conv, d, options))
    else Buffer(conv, d, options)
  }

  /** Everything Validate checks, stated as one condition. */
  ghost predicate Accepted(valid: Validators, k: Constants, d: Data) {
    var a := d.Advice;
    && d.tag == k.TagFIBeneficiaryFIAdvice
    && valid.isAdviceCode(a.AdviceCode) == None
    && valid.isAlphanumeric(a.LineOne) == None
    && valid.isAlphanumeric(a.LineTwo) == None
    && valid.isAlphanumeric(a.LineThree) == None
    && valid.isAlphanumeric(a.LineFour) == None
    && valid.isAlphanumeric(a.LineFive) == None
    && valid.isAlphanumeric(a.LineSix) == None
  }

  /** The field-attributed error for `value` when `check` rejects it. */
  function Check(check: string -> Option<Kind>, name: string, value: string): (r: Option<WireError>)
    ensures r == None <==> check(value) == None
    ensures r.Some? ==> r.value == Field(name, check(value).value, Some(value))
  {
    match check(value)
    case None => None
    case Some(e) => Some(Field(name, e, Some(value)))
  }

  /** Validate has no mandatory-field step: the tag, then the advice code, then the six lines
      in order; the first failure wins. */
  function Validate(valid: Validators, k: Constants, d: Data): (r: Option<WireError>)
    ensures r == None <==> Accepted(valid, k, d)
    ensures d.tag != k.TagFIBeneficiaryFIAdvice ==>
              r == Some(Field("tag", ValidTagForType, Some(d.tag)))
    ensures d.tag == k.TagFIBeneficiaryFIAdvice && valid.isAdviceCode(d.Advice.AdviceCode).Some? ==>
              r == Some(Field("AdviceCode", valid.isAdviceCode(d.Advice.AdviceCode).value,
                              Some(d.Advice.AdviceCode)))
    ensures r.Some? ==> r.value.Field? && r.value.value.Some?
  {
    var a := d.Advice;
    if d.tag != k.TagFIBeneficiaryFIAdvice then Some(Field("tag", ValidTagForType, Some(d.tag)))
    else if Check(valid.isAdviceCode, "AdviceCode", a.AdviceCode).Some? then
      Check(valid.isAdviceCode, "AdviceCode", a.AdviceCode)
    else if Check(valid.isAlphanumeric, "LineOne", a.LineOne).Some? then
      Check(valid.isAlphanumeric, "LineOne", a.LineOne)
    else if Check(valid.isAlphanumeric, "LineTwo", a.LineTwo).Some? then
      Check(valid.isAlphanumeric, "LineTwo", a.LineTwo)
    else if Check(valid.isAlphanumeric, "LineThree", a.LineThree).Some? then
      Check(valid.isAlphanumeric, "LineThree", a.LineThree)
    else if Check(valid.isAlphanumeric, "LineFour", a.LineFour).Some? then
      Check(valid.isAlphanumeric, "LineFour", a.LineFour)
    else if Check(valid.isAlphanumeric, "LineFive", a.LineFive).Some? then
      Check(valid.isAlphanumeric, "LineFive", a.LineFive)
    else Check(valid.isAlphanumeric, "LineSix", a.LineSix)
  }

  class FIBeneficiaryFIAdvice {
    var tag: string
    var Advice: Advice

    function View(): Data
      reads this
    {
      Data(tag, Advice)
    }

    /** NewFIBeneficiaryFIAdvice: an empty segment carrying its own tag. */
    constructor (k: Constants)
      ensures View() == Data(k.TagFIBeneficiaryFIAdvice, EmptyAdvice)
    {
      tag := k.TagFIBeneficiaryFIAdvice;
      Advice := EmptyAdvice;
    }

    /** Parse reads the tag, the advice code and lines one to three, then hands the cursor to
        ParseLastLines; the two halves mirror ParseOf and ParseLastLinesOf. */
    method Parse(conv: Converters, record: string) returns (err: Option<WireError>)
      requires ReadsWithin(conv)
      modifies this
      ensures Parsed(View(), err) == ParseOf(conv, old(View()), record)
    {
      if |record| < 9 {
        return Some(MinLength(9, |record|));
      }
      tag := record[..6];
      Advice := Advice.(AdviceCode := conv.parseStringField(record[6..9]));
      var length := 9;

      var r := ReadVariableAt(conv, record, length, 26);
      if r.ReadFailed? {
        return Some(Field("LineOne", r.kind, None));
      }
      Advice := Advice.(LineOne := r.field.value);
      length := length + r.field.read;

      r := ReadVariableAt(conv, record, length, 33);
      if r.ReadFailed? {
        return Some(Field("LineTwo", r.kind, None));
      }
      Advice := Advice.(LineTwo := r.field.value);
      length := length + r.field.read;

      r := ReadVariableAt(conv, record, length, 33);
      if r.ReadFailed? {
        return Some(Field("LineThree", r.kind, None));
      }
      Advice := Advice.(LineThree := r.field.value);
      length := length + r.field.read;

      err := ParseLastLines(conv, record, length);
    }

    /** The second half of Parse: lines four to six from cursor `at`, then the length check. */
    method ParseLastLines(conv: Converters, record: string, at: nat) returns (err: Option<WireError>)
      requires ReadsWithin(conv) && at <= |record|
      modifies this
      ensures Parsed(View(), err) == ParseLastLinesOf(conv, record, old(View()), at)
    {
      var length := at;

      var r := ReadVariableAt(conv, record, length, 33);
      if r.ReadFailed? {
        return Some(Field("LineFour", r.kind, None));
      }
      Advice := Advice.(LineFour := r.field.value);
      length := length + r.field.read;

      r := ReadVariableAt(conv, record, length, 33);
      if r.ReadFailed? {
        return Some(Field("LineFive", r.kind, None));
      }
      Advice := Advice.(LineFive := r.field.value);
      length := length + r.field.read;

      r := ReadVariableAt(conv, record, length, 33);
      if r.ReadFailed? {
        return Some(Field("LineSix", r.kind, None));
      }
      Advice := Advice.(LineSix := r.field.value);
      length := length + r.field.read;

      var check := conv.verifyDataWithReadLength(record, length);
      if check.Some? {
        return Some(MaxLength(check.value));
      }
      return None;
    }

    /** UnmarshalJSON: the decoder fills the exported fields; on success the tag is reset to
        the segment's own, on failure the decoder's error is returned and the tag is untouched. */
    method UnmarshalJSON(k: Constants, decoded: JsonOutcome<Data>) returns (err: Option<WireError>)
      modifies this
      ensures decoded.DecodeFailed? ==> err == Some(Json) && View() == decoded.partial.(tag := old(tag))
      ensures decoded.Decoded? ==> err == None && View() == decoded.value.(tag := k.TagFIBeneficiaryFIAdvice)
    {
      match decoded
      case DecodeFailed(p) =>
        Advice := p.Advice;
        return Some(Json);
      case Decoded(v) =>
        Advice := v.Advice;
        tag := k.TagFIBeneficiaryFIAdvice;
        return None;
    }

    /** String: the fixed-width record. */
    method String(conv: Converters) returns (s: string)
      ensures s == FormatOf(conv, View(), Fixed)
    {
      s := Format(conv, Fixed);
    }

    method Format(conv: Converters, options: FormatOptions) returns (s: string)
      ensures s == FormatOf(conv, View(), options)
    {
      var d := View();
      var buf := "";
      buf := buf + tag;
      buf := buf + AdviceCodeField(conv, d);
      buf := buf + (FormatLineOne(conv, d, options) + conv.Delimiter);
      buf := buf + (FormatLineTwo(conv, d, options) + conv.Delimiter);
      buf := buf + (FormatLineThree(conv, d, options) + conv.Delimiter);
      buf := buf + (FormatLineFour(conv, d, options) + conv.Delimiter);
      buf := buf + (FormatLineFive(conv, d, options) + conv.Delimiter);
      buf := buf + (FormatLineSix(conv, d, options) + conv.Delimiter);
      assert buf == Buffer(conv, d, options);
      if options.VariableLengthFields {
        s := conv.stripDelimiters(buf);
      } else {
        s := buf;
      }
    }
  }

  // ---------------------------------------------------------------------------------------
  // Lemmas

  /** stripDelimiters affects only the variable mode: the fixed output does not depend on
      it, and the variable output is its image of the unstripped buffer. */
  lemma StripOnlyInVariableMode(conv: Converters, d: Data, strip: string -> string)
    ensures FormatOf(conv.(stripDelimiters := strip), d, Fixed) == FormatOf(conv, d, Fixed)
    ensures FormatOf(conv, d, Variable) == conv.stripDelimiters(Buffer(conv, d, Variable))
    ensures FormatOf(conv, d, Fixed) == Buffer(conv, d, Fixed)
  {
  }

  /** In fixed mode every record is 206 characters long: tag, code, and six lines of widths
      26, 33, 33, 33, 33, 33, each with its delimiter. */
  lemma FixedLength(conv: Converters, d: Data)
    requires FixedWidths(conv) && |d.tag| == 6 && |conv.Delimiter| == 1
    ensures |FormatOf(conv, d, Fixed)| == 206
    ensures FormatOf(conv, d, Fixed)[..6] == d.tag
  {
  }

  /** Parse reaches line four exactly when the first three lines were read, and goes on from
      the cursor after line three with the code and those lines set. */
  lemma ParseReachesLastLines(conv: Converters, d: Data, record: string)
    requires ReadsWithin(conv) && AfterLineThree(conv, record).Some?
    ensures ParseOf(conv, d, record) ==
              ParseLastLinesOf(conv, record, ThreeLinesRead(conv, d, record), AfterLineThree(conv, record).value)
  {
  }

  /** The outcome of the last three reads from cursor `at`, for any segment they start from:
      which read fails, what the length check then decides, and what each line holds. */
  lemma LastLinesOutcome(conv: Converters, record: string, d3: Data, at: nat)
    requires ReadsWithin(conv) && at <= |record|
    ensures var r := ParseLastLinesOf(conv, record, d3, at);
            var c4 := StepVariable(conv, record, Some(at), 33);
            var c5 := StepVariable(conv, record, c4, 33);
            var c6 := StepVariable(conv, record, c5, 33);
            && (FailedOn(r, "LineFour") <==> c4.None?)
            && (FailedOn(r, "LineFour") ==> r.state == d3)
            && (FailedOn(r, "LineFive") <==> c4.Some? && c5.None?)
            && (FailedOn(r, "LineFive") ==>
                  && c4.Some?
                  && r.state == d3.(Advice := d3.Advice.(LineFour := VariableValue(conv, record, Some(at), 33))))
            && (FailedOn(r, "LineSix") <==> c5.Some? && c6.None?)
            && (FailedOn(r, "LineSix") ==>
                  && c5.Some?
                  && r.state == d3.(Advice := d3.Advice.(LineFour := VariableValue(conv, record, Some(at), 33),
                                                         LineFive := VariableValue(conv, record, c4, 33))))
            && (c6.None? <==> r.err.Some? && !r.err.value.MaxLength?)
            && (c6.Some? ==> (r.err == None <==> conv.verifyDataWithReadLength(record, c6.value) == None))
            && (c6.Some? && conv.verifyDataWithReadLength(record, c6.value).Some? ==>
                  r.err == Some(MaxLength(conv.verifyDataWithReadLength(record, c6.value).value)))
            && (c6.Some? ==>
                  r.state == d3.(Advice := d3.Advice.(LineFour := VariableValue(conv, record, Some(at), 33),
                                                      LineFive := VariableValue(conv, record, c4, 33),
                                                      LineSix := VariableValue(conv, record, c5, 33))))
  {
  }

  /** When Parse does not get past line three, the error is the length error or a failure on
      one of the first three lines. */
  lemma StopsBeforeLineFour(conv: Converters, d: Data, record: string)
    requires ReadsWithin(conv) && AfterLineThree(conv, record).None?
    ensures var r := ParseOf(conv, d, record);
            && r.err.Some?
            && (r.err.value.MinLength? || FailedOn(r, "LineOne") || FailedOn(r, "LineTwo") || FailedOn(r, "LineThree"))
  {
  }

  /** The final length check decides the outcome exactly when every line was read: then the
      error is MaxLength of what verifyDataWithReadLength reports at the cursor after line six,
      and there is no error when it reports none. When a read fails, the error is not a
      MaxLength. */
  lemma MaxLengthFromVerify(conv: Converters, d: Data, record: string)
    requires ReadsWithin(conv)
    ensures var r := ParseOf(conv, d, record);
            Consumed(conv, record).None? <==> r.err.Some? && !r.err.value.MaxLength?
    ensures var r := ParseOf(conv, d, record);
            Consumed(conv, record).Some? ==>
              (r.err == None <==> conv.verifyDataWithReadLength(record, Consumed(conv, record).value) == None)
    ensures var r := ParseOf(conv, d, record);
            Consumed(conv, record).Some? &&
            conv.verifyDataWithReadLength(record, Consumed(conv, record).value).Some? ==>
              r.err == Some(MaxLength(conv.verifyDataWithReadLength(record, Consumed(conv, record).value).value))
  {
    if AfterLineThree(conv, record).Some? {
      ParseReachesLastLines(conv, d, record);
      LastLinesOutcome(conv, record, ThreeLinesRead(conv, d, record), AfterLineThree(conv, record).value);
    } else {
      StopsBeforeLineFour(conv, d, record);
    }
  }

  /** When every line is read, each holds what its read returned, whatever the length check
      then says. */
  lemma CompleteReadsFillFields(conv: Converters, d: Data, record: string)
    requires ReadsWithin(conv) && Consumed(conv, record).Some?
    ensures ParseOf(conv, d, record).state ==
              ThreeLinesRead(conv, d, record).(Advice := ThreeLinesRead(conv, d, record).Advice.(
                LineFour := VariableValue(conv, record, AfterLineThree(conv, record), 33),
                LineFive := VariableValue(conv, record, AfterLineFour(conv, record), 33),
                LineSix := VariableValue(conv, record, AfterLineFive(conv, record), 33)))
  {
    ParseReachesLastLines(conv, d, record);
    LastLinesOutcome(conv, record, ThreeLinesRead(conv, d, record), AfterLineThree(conv, record).value);
  }

  /** A line that fails stops the parse. The error names it and carries no value; it is line
      one, two or three exactly when the reads before it succeeded and its own failed. The
      lines before it hold what was read, the lines after it keep their old values. */
  lemma FailureStopsParse(conv: Converters, d: Data, record: string)
    requires ReadsWithin(conv)
    ensures var r := ParseOf(conv, d, record);
            r.err.Some? && r.err.value.Field? ==>
              && r.err.value.name in {"LineOne", "LineTwo", "LineThree", "LineFour", "LineFive", "LineSix"}
              && r.err.value.value == None
    ensures var r := ParseOf(conv, d, record);
            FailedOn(r, "LineOne") <==> Start(record).Some? && AfterLineOne(conv, record).None?
    ensures var r := ParseOf(conv, d, record);
            FailedOn(r, "LineOne") ==>
              r.state == d.(tag := record[..6],
                            Advice := d.Advice.(AdviceCode := conv.parseStringField(record[6..9])))
    ensures var r := ParseOf(conv, d, record);
            FailedOn(r, "LineTwo") <==> AfterLineOne(conv, record).Some? && AfterLineTwo(conv, record).None?
    ensures var r := ParseOf(conv, d, record);
            FailedOn(r, "LineTwo") ==>
              && AfterLineOne(conv, record).Some?
              && r.state == d.(tag := record[..6],
                               Advice := d.Advice.(AdviceCode := conv.parseStringField(record[6..9]),
                                                   LineOne := VariableValue(conv, record, Start(record), 26)))
    ensures var r := ParseOf(conv, d, record);
            FailedOn(r, "LineThree") <==> AfterLineTwo(conv, record).Some? && AfterLineThree(conv, record).None?
    ensures var r := ParseOf(conv, d, record);
            FailedOn(r, "LineThree") ==>
              && AfterLineTwo(conv, record).Some?
              && r.state == d.(tag := record[..6],
                               Advice := d.Advice.(AdviceCode := conv.parseStringField(record[6..9]),
                                                   LineOne := VariableValue(conv, record, Start(record), 26),
                                                   LineTwo := VariableValue(conv, record, AfterLineOne(conv, record), 33)))
  {
  }

  /** The same for lines four to six: the error names the first of them whose read failed,
      the code and the lines before it hold what was read, and the lines after it keep their
      old values. */
  lemma LastLinesFailureStopsParse(conv: Converters, d: Data, record: string)
    requires ReadsWithin(conv)
    ensures var r := ParseOf(conv, d, record);
            FailedOn(r, "LineFour") <==> AfterLineThree(conv, record).Some? && AfterLineFour(conv, record).None?
    ensures var r := ParseOf(conv, d, record);
            FailedOn(r, "LineFour") ==>
              AfterLineThree(conv, record).Some? && r.state == ThreeLinesRead(conv, d, record)
    ensures var r := ParseOf(conv, d, record);
            FailedOn(r, "LineFive") <==> AfterLineFour(conv, record).Some? && AfterLineFive(conv, record).None?
    ensures var r := ParseOf(conv, d, record);
            FailedOn(r, "LineFive") ==>
              && AfterLineFour(conv, record).Some?
              && r.state == ThreeLinesRead(conv, d, record).(Advice := ThreeLinesRead(conv, d, record).Advice.(
                   LineFour := VariableValue(conv, record, AfterLineThree(conv, record), 33)))
    ensures var r := ParseOf(conv, d, record);
            FailedOn(r, "LineSix") <==> AfterLineFive(conv, record).Some? && Consumed(conv, record).None?
    ensures var r := ParseOf(conv, d, record);
            FailedOn(r, "LineSix") ==>
              && AfterLineFive(conv, record).Some?
              && r.state == ThreeLinesRead(conv, d, record).(Advice := ThreeLinesRead(conv, d, record).Advice.(
                   LineFour := VariableValue(conv, record, AfterLineThree(conv, record), 33),
                   LineFive := VariableValue(conv, record, AfterLineFour(conv, record), 33)))
  {
    if AfterLineThree(conv, record).Some? {
      ParseReachesLastLines(conv, d, record);
      LastLinesOutcome(conv, record, ThreeLinesRead(conv, d, record), AfterLineThree(conv, record).value);
    } else {
      StopsBeforeLineFour(conv, d, record);
    }
  }

  /** The outcome of Parse does not depend on the segment it started from, and a successful
      Parse overwrites every field. */
  lemma ParseOverwrites(conv: Converters, d1: Data, d2: Data, record: string)
    requires ReadsWithin(conv)
    ensures ParseOf(conv, d1, record).err == ParseOf(conv, d2, record).err
    ensures ParseOf(conv, d1, record).err == None ==>
              ParseOf(conv, d1, record).state == ParseOf(conv, d2, record).state
  {
  }

  /** The fixed rendering is the tag, the 3-wide advice code and the six lines. */
  lemma FixedBufferShape(conv: Converters, d: Data)
    requires |d.tag| == 6 && |AdviceCodeField(conv, d)| == 3
    ensures var record := FormatOf(conv, d, Fixed);
            && |record| >= 9 && record[..6] == d.tag && record[6..9] == AdviceCodeField(conv, d)
            && record[9..] == Lines(conv, d, Fixed)
  {
    assert FormatOf(conv, d, Fixed) == d.tag + AdviceCodeField(conv, d) + Lines(conv, d, Fixed);
  }

  /** Lines one to three read back from the fixed rendering, leaving the cursor before line four. */
  lemma FirstLinesRead(conv: Converters, record: string, d: Data, n2: nat, n3: nat, n4: nat)
    requires ReadsWithin(conv) && |record| >= 9 && record[9..] == Lines(conv, d, Fixed)
    requires VariableReadsBack(conv, d.Advice.LineOne, 26, Fixed)
    requires VariableReadsBack(conv, d.Advice.LineTwo, 33, Fixed)
    requires VariableReadsBack(conv, d.Advice.LineThree, 33, Fixed)
    requires n2 == After(conv, 9, FormatLineOne(conv, d, Fixed))
    requires n3 == After(conv, n2, FormatLineTwo(conv, d, Fixed))
    requires n4 == After(conv, n3, FormatLineThree(conv, d, Fixed))
    ensures n4 <= |record|
    ensures ReadVariableAt(conv, record, 9, 26) == Read(FieldRead(d.Advice.LineOne, n2 - 9))
    ensures ReadVariableAt(conv, record, n2, 33) == Read(FieldRead(d.Advice.LineTwo, n3 - n2))
    ensures ReadVariableAt(conv, record, n3, 33) == Read(FieldRead(d.Advice.LineThree, n4 - n3))
    ensures record[n4..] ==
              (FormatLineFour(conv, d, Fixed) + conv.Delimiter)
              + ((FormatLineFive(conv, d, Fixed) + conv.Delimiter)
              + (FormatLineSix(conv, d, Fixed) + conv.Delimiter))
  {
    var D := conv.Delimiter;
    var t4 := (FormatLineFour(conv, d, Fixed) + D)
              + ((FormatLineFive(conv, d, Fixed) + D) + (FormatLineSix(conv, d, Fixed) + D));
    var t3 := FormatLineThree(conv, d, Fixed) + D + t4;
    var t2 := FormatLineTwo(conv, d, Fixed) + D + t3;
    assert record[9..] == FormatLineOne(conv, d, Fixed) + D + t2;
    VariableReadAt(conv, record, 9, d.Advice.LineOne, 26, Fixed, t2);
    VariableReadAt(conv, record, n2, d.Advice.LineTwo, 33, Fixed, t3);
    VariableReadAt(conv, record, n3, d.Advice.LineThree, 33, Fixed, t4);
  }

  /** Lines four to six read back from the rest of the fixed rendering, ending the record. */
  lemma LastLinesRead(conv: Converters, record: string, d: Data, n4: nat, n5: nat, n6: nat)
    requires ReadsWithin(conv) && n4 <= |record|
    requires record[n4..] ==
               (FormatLineFour(conv, d, Fixed) + conv.Delimiter)
               + ((FormatLineFive(conv, d, Fixed) + conv.Delimiter)
               + (FormatLineSix(conv, d, Fixed) + conv.Delimiter))
    requires VariableReadsBack(conv, d.Advice.LineFour, 33, Fixed)
    requires VariableReadsBack(conv, d.Advice.LineFive, 33, Fixed)
    requires VariableReadsBack(conv, d.Advice.LineSix, 33, Fixed)
    requires n5 == After(conv, n4, FormatLineFour(conv, d, Fixed))
    requires n6 == After(conv, n5, FormatLineFive(conv, d, Fixed))
    ensures n6 <= |record|
    ensures ReadVariableAt(conv, record, n4, 33) == Read(FieldRead(d.Advice.LineFour, n5 - n4))
    ensures ReadVariableAt(conv, record, n5, 33) == Read(FieldRead(d.Advice.LineFive, n6 - n5))
    ensures ReadVariableAt(conv, record, n6, 33) == Read(FieldRead(d.Advice.LineSix, |record| - n6))
  {
    var D := conv.Delimiter;
    var t6 := FormatLineSix(conv, d, Fixed) + D;
    var t5 := FormatLineFive(conv, d, Fixed) + D + t6;
    VariableReadAt(conv, record, n4, d.Advice.LineFour, 33, Fixed, t5);
    VariableReadAt(conv, record, n5, d.Advice.LineFive, 33, Fixed, t6);
    assert t6 == FormatLineSix(conv, d, Fixed) + D + [];
    VariableReadAt(conv, record, n6, d.Advice.LineSix, 33, Fixed, []);
  }

  /** Parse succeeds with `d` when the advice code reads back and each of the six variable
      reads returns d's line, the cursor after the last one being the end of the record. */
  lemma ParseOfReads(conv: Converters, start: Data, record: string, d: Data,
                     n2: nat, n3: nat, n4: nat, n5: nat, n6: nat)
    requires ReadsWithin(conv)
    requires |record| >= 9 && record[..6] == d.tag
    requires conv.parseStringField(record[6..9]) == d.Advice.AdviceCode
    requires 9 <= n2 <= n3 <= n4 <= n5 <= n6 <= |record|
    requires ReadVariableAt(conv, record, 9, 26) == Read(FieldRead(d.Advice.LineOne, n2 - 9))
    requires ReadVariableAt(conv, record, n2, 33) == Read(FieldRead(d.Advice.LineTwo, n3 - n2))
    requires ReadVariableAt(conv, record, n3, 33) == Read(FieldRead(d.Advice.LineThree, n4 - n3))
    requires ReadVariableAt(conv, record, n4, 33) == Read(FieldRead(d.Advice.LineFour, n5 - n4))
    requires ReadVariableAt(conv, record, n5, 33) == Read(FieldRead(d.Advice.LineFive, n6 - n5))
    requires ReadVariableAt(conv, record, n6, 33) == Read(FieldRead(d.Advice.LineSix, |record| - n6))
    requires conv.verifyDataWithReadLength(record, |record|) == None
    ensures ParseOf(conv, start, record) == Parsed(d, None)
  {
  }

  /** Round trip in fixed mode: String() output parses back to the same segment, given that
      the advice code and each line read back from their renderings. */
  lemma FixedRoundTrip(conv: Converters, d: Data, start: Data)
    requires ReadsWithin(conv) && AcceptsFullRead(conv)
    requires |d.tag| == 6
    requires |AdviceCodeField(conv, d)| == 3 && conv.parseStringField(AdviceCodeField(conv, d)) == d.Advice.AdviceCode
    requires VariableReadsBack(conv, d.Advice.LineOne, 26, Fixed)
    requires VariableReadsBack(conv, d.Advice.LineTwo, 33, Fixed)
    requires VariableReadsBack(conv, d.Advice.LineThree, 33, Fixed)
    requires VariableReadsBack(conv, d.Advice.LineFour, 33, Fixed)
    requires VariableReadsBack(conv, d.Advice.LineFive, 33, Fixed)
    requires VariableReadsBack(conv, d.Advice.LineSix, 33, Fixed)
    ensures ParseOf(conv, start, FormatOf(conv, d, Fixed)) == Parsed(d, None)
  {
    var record := FormatOf(conv, d, Fixed);
    FixedBufferShape(conv, d);
    var n2 := After(conv, 9, FormatLineOne(conv, d, Fixed));
    var n3 := After(conv, n2, FormatLineTwo(conv, d, Fixed));
    var n4 := After(conv, n3, FormatLineThree(conv, d, Fixed));
    var n5 := After(conv, n4, FormatLineFour(conv, d, Fixed));
    var n6 := After(conv, n5, FormatLineFive(conv, d, Fixed));
    FirstLinesRead(conv, record, d, n2, n3, n4);
    LastLinesRead(conv, record, d, n4, n5, n6);
    assert conv.verifyDataWithReadLength(record, |record|) == None;
    ParseOfReads(conv, start, record, d, n2, n3, n4, n5, n6);
  }

  /** A wrong tag is reported first: the advice and the validators then play no part. */
  lemma WrongTagReportedFirst(valid: Validators, other: Validators, k: Constants, d: Data, advice: Advice)
    requires d.tag != k.TagFIBeneficiaryFIAdvice
    ensures Validate(valid, k, d) == Validate(other, k, d.(Advice := advice))
    ensures Validate(valid, k, d) == Some(Field("tag", ValidTagForType, Some(d.tag)))
  {
  }

  /** Line `i` of the advice, counting from one. */
  function Line(a: Advice, i: nat): string
    requires 1 <= i <= 6
  {
    match i
    case 1 => a.LineOne
    case 2 => a.LineTwo
    case 3 => a.LineThree
    case 4 => a.LineFour
    case 5 => a.LineFive
    case _ => a.LineSix
  }

  /** The field name Validate reports for line `i`. */
  function LineName(i: nat): string
    requires 1 <= i <= 6
  {
    match i
    case 1 => "LineOne"
    case 2 => "LineTwo"
    case 3 => "LineThree"
    case 4 => "LineFour"
    case 5 => "LineFive"
    case _ => "LineSix"
  }

  /** Past the tag and the advice code, the lines are checked in order: when lines before `i`
      pass isAlphanumeric and line `i` does not, line `i` is the one reported, with the kind
      the check gave and the line's value. */
  lemma {:induction false} FirstBadLineReported(valid: Validators, k: Constants, d: Data, i: nat)
    requires d.tag == k.TagFIBeneficiaryFIAdvice && valid.isAdviceCode(d.Advice.AdviceCode) == None
    requires 1 <= i <= 6
    requires forall j :: 1 <= j < i ==> valid.isAlphanumeric(Line(d.Advice, j)) == None
    requires valid.isAlphanumeric(Line(d.Advice, i)).Some?
    ensures Validate(valid, k, d) ==
              Some(Field(LineName(i), valid.isAlphanumeric(Line(d.Advice, i)).value, Some(Line(d.Advice, i))))
  {
    if i > 1 { assert valid.isAlphanumeric(Line(d.Advice, 1)) == None; }
    if i > 2 { assert valid.isAlphanumeric(Line(d.Advice, 2)) == None; }
    if i > 3 { assert valid.isAlphanumeric(Line(d.Advice, 3)) == None; }
    if i > 4 { assert valid.isAlphanumeric(Line(d.Advice, 4)) == None; }
    if i > 5 { assert valid.isAlphanumeric(Line(d.Advice, 5)) == None; }
  }
}
