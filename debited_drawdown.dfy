/**
 * AccountDebitedDrawdown: the tag, a 1-character identification code, then five
 * delimiter-terminated fields: the identifier (at most 34 characters), the name and three
 * address lines (at most 35 each).
 */
module DebitedDrawdown {
  import opened Wire

  datatype Address = Address(AddressLineOne: string, AddressLineTwo: string, AddressLineThree: string)

  /** The value of an AccountDebitedDrawdown struct. */
  datatype Data = Data(tag: string, IdentificationCode: string, Identifier: string, Name: string,
                       Address: Address)

  const EmptyAddress := Address("", "", "")

  /** Parse as a function of the segment before the call and the record. The identification
      code is the single character after the tag; the cursor then starts at 7. */
  function ParseOf(conv: Converters, d: Data, record: string): (r: Parsed<Data>)
    requires ReadsWithin(conv)
    ensures |record| < 9 <==> r.err == Some(MinLength(9, |record|))
    ensures |record| < 9 ==> r.state == d
    ensures |record| >= 9 ==>
              r.state.tag == record[..6] && r.state.IdentificationCode == record[6..7]
  {
    // The source counts runes here but reports len(record); single-byte strings make them equal.
    if |record| < 9 then Parsed(d, Some(MinLength(9, |record|)))
    else
      var d0 := d.(tag := record[..6], IdentificationCode := record[6..7]);
      var length := 7;
      match ReadVariableAt(conv, record, length, 34)
      case ReadFailed(e) => Parsed(d0, Some(Field("Identifier", e, None)))
      case Read(f1) =>
        var d1 := d0.(Identifier := f1.value);
        var length := length + f1.read;
        match ReadVariableAt(conv, record, length, 35)
        case ReadFailed(e) => Parsed(d1, Some(Field("Name", e, None)))
        case Read(f2) =>
          var d2 := d1.(Name := f2.value);
          var length := length + f2.read;
          ParseAddressOf(conv, record, d2, length)
  }

  /** The part of Parse after the name: the three address lines from cursor `at`, then the
      check of the cursor against the record's length. */
  function ParseAddressOf(conv: Converters, record: string, d2: Data, at: nat): (r: Parsed<Data>)
    requires ReadsWithin(conv) && at <= |record|
    ensures r.state.(Address := EmptyAddress) == d2.(Address := EmptyAddress)
  {
    var length := at;
    match ReadVariableAt(conv, record, length, 35)
    case ReadFailed(e) => Parsed(d2, Some(Field("AddressLineOne", e, None)))
    case Read(f3) =>
      var d3 := d2.(Address := d2.Address.(AddressLineOne := f3.value));
      var length := length + f3.read;
      match ReadVariableAt(conv, record, length, 35)
      case ReadFailed(e) => Parsed(d3, Some(Field("AddressLineTwo", e, None)))
      case Read(f4) =>
        var d4 := d3.(Address := d3.Address.(AddressLineTwo := f4.value));
        var length := length + f4.read;
        match ReadVariableAt(conv, record, length, 35)
        case ReadFailed(e) => Parsed(d4, Some(Field("AddressLineThree", e, None)))
        case Read(f5) =>
          var d5 := d4.(Address := d4.Address.(AddressLineThree := f5.value));
          var length := length + f5.read;
          match conv.verifyDataWithReadLength(record, length)
          case Some(e) => Parsed(d5, Some(MaxLength(e)))
          case None => Parsed(d5, None)
  }

  // ---------------------------------------------------------------------------------------
  // The parse cursor, field by field: where each read of Parse leaves `length`, or None when
  // Parse stopped before getting there.

  /** The cursor after the tag and the identification code, once the record is long enough. */
  function Start(record: string): (r: Option<nat>)
    ensures r.Some? <==> |record| >= 9
    ensures r.Some? ==> r.value == 7 <= |record|
  {
    if |record| < 9 then None else Some(7)
  }

  function AfterIdentifier(conv: Converters, record: string): (r: Option<nat>)
    requires ReadsWithin(conv)
    ensures r.Some? ==> Start(record).Some? && 7 <= r.value <= |record|
  {
    StepVariable(conv, record, Start(record), 34)
  }

  function AfterName(conv: Converters, record: string): (r: Option<nat>)
    requires ReadsWithin(conv)
    ensures r.Some? ==> AfterIdentifier(conv, record).Some? && 7 <= r.value <= |record|
  {
    StepVariable(conv, record, AfterIdentifier(conv, record), 35)
  }

  function AfterLineOne(conv: Converters, record: string): (r: Option<nat>)
    requires ReadsWithin(conv)
    ensures r.Some? ==> AfterName(conv, record).Some? && 7 <= r.value <= |record|
  {
    StepVariable(conv, record, AfterName(conv, record), 35)
  }

  function AfterLineTwo(conv: Converters, record: string): (r: Option<nat>)
    requires ReadsWithin(conv)
    ensures r.Some? ==> AfterLineOne(conv, record).Some? && 7 <= r.value <= |record|
  {
    StepVariable(conv, record, AfterLineOne(conv, record), 35)
  }

  /** The cursor after the last address line: the length Parse hands to
      verifyDataWithReadLength. */
  function Consumed(conv: Converters, record: string): (r: Option<nat>)
    requires ReadsWithin(conv)
    ensures r.Some? ==> AfterLineTwo(conv, record).Some? && 7 <= r.value <= |record|
  {
    StepVariable(conv, record, AfterLineTwo(conv, record), 35)
  }

  /** The segment as Parse leaves it once the identifier and the name have been read. */
  function NameRead(conv: Converters, d: Data, record: string): Data
    requires ReadsWithin(conv) && AfterName(conv, record).Some?
  {
    d.(tag := record[..6], IdentificationCode := record[6..7],
       Identifier := VariableValue(conv, record, Start(record), 34),
       Name := VariableValue(conv, record, AfterIdentifier(conv, record), 35))
  }

  /** The 1-wide rendering of the identification code. */
  function IdentificationCodeField(conv: Converters, d: Data): (r: string)
    ensures FixedWidths(conv) ==> |r| == 1
  {
    conv.alphaField(d.IdentificationCode, 1)
  }

  /** The identifier as Format writes it: 34 wide in fixed mode. */
  function FormatIdentifier(conv: Converters, d: Data, options: FormatOptions): (r: string)
    ensures FixedWidths(conv) && options == Fixed ==> |r| == 34
  {
    conv.formatAlphaField(d.Identifier, 34, options)
  }

  /** The name as Format writes it: 35 wide in fixed mode, like each address line. */
  function FormatName(conv: Converters, d: Data, options: FormatOptions): (r: string)
    ensures FixedWidths(conv) && options == Fixed ==> |r| == 35
  {
    conv.formatAlphaField(d.Name, 35, options)
  }

  function FormatAddressLineOne(conv: Converters, d: Data, options: FormatOptions): (r: string)
    ensures FixedWidths(conv) && options == Fixed ==> |r| == 35
  {
    conv.formatAlphaField(d.Address.AddressLineOne, 35, options)
  }

  function FormatAddressLineTwo(conv: Converters, d: Data, options: FormatOptions): (r: string)
    ensures FixedWidths(conv) && options == Fixed ==> |r| == 35
  {
    conv.formatAlphaField(d.Address.AddressLineTwo, 35, options)
  }

  function FormatAddressLineThree(conv: Converters, d: Data, options: FormatOptions): (r: string)
    ensures FixedWidths(conv) && options == Fixed ==> |r| == 35
  {
    conv.formatAlphaField(d.Address.AddressLineThree, 35, options)
  }

  /** The three address lines, each followed by the delimiter. */
  function AddressFields(conv: Converters, d: Data, options: FormatOptions): string {
    (FormatAddressLineOne(conv, d, options) + conv.Delimiter)
    + ((FormatAddressLineTwo(conv, d, options) + conv.Delimiter)
    + (FormatAddressLineThree(conv, d, options) + conv.Delimiter))
  }

  /** The five variable fields, each followed by the delimiter, in both modes. */
  function VariableFields(conv: Converters, d: Data, options: FormatOptions): string {
    (FormatIdentifier(conv, d, options) + conv.Delimiter)
    + ((FormatName(conv, d, options) + conv.Delimiter)
    + AddressFields(conv, d, options))
  }

  /** The buffer Format builds before the optional stripping pass. */
  function Buffer(conv: Converters, d: Data, options: FormatOptions): string {
    d.tag + IdentificationCodeField(conv, d) + VariableFields(conv, d, options)
  }

  /** Format as a function of the segment: stripDelimiters runs only in variable mode. */
  function FormatOf(conv: Converters, d: Data, options: FormatOptions): string {
    if options.VariableLengthFields then conv.stripDelimiters(Buffer(conv, d, options))
    else Buffer(conv, d, options)
  }

  /** fieldInclusion: the identification code, the identifier and the name are mandatory,
      checked in that order. */
  function FieldInclusion(d: Data): (r: Option<WireError>)
    ensures r.Some? <==> d.IdentificationCode == "" || d.Identifier == "" || d.Name == ""
    ensures r.Some? ==> r.value.Field? && r.value.kind == FieldRequired && r.value.value == None
    ensures d.IdentificationCode == "" ==> r == Some(Field("IdentificationCode", FieldRequired, None))
    ensures d.IdentificationCode != "" && d.Identifier == "" ==> r == Some(Field("Identifier", FieldRequired, None))
    ensures d.IdentificationCode != "" && d.Identifier != "" && d.Name == "" ==>
              r == Some(Field("Name", FieldRequired, None))
  {
    if d.IdentificationCode == "" then Some(Field("IdentificationCode", FieldRequired, None))
    else if d.Identifier == "" then Some(Field("Identifier", FieldRequired, None))
    else if d.Name == "" then Some(Field("Name", FieldRequired, None))
    else None
  }

  /** Everything Validate checks, stated as one condition. */
  ghost predicate Accepted(valid: Validators, k: Constants, d: Data) {
    && d.IdentificationCode != "" && d.Identifier != "" && d.Name != ""
    && d.tag == k.TagAccountDebitedDrawdown
    && valid.isIdentificationCode(d.IdentificationCode) == None
    && d.IdentificationCode == k.DemandDepositAccountNumber
    && valid.isAlphanumeric(d.Identifier) == None
    && valid.isAlphanumeric(d.Name) == None
    && valid.isAlphanumeric(d.Address.AddressLineOne) == None
    && valid.isAlphanumeric(d.Address.AddressLineTwo) == None
    && valid.isAlphanumeric(d.Address.AddressLineThree) == None
  }

  /** The first free-text field that isAlphanumeric rejects, in Format order. */
  function FirstNonAlphanumeric(valid: Validators, d: Data): (r: Option<WireError>)
    ensures r == None <==>
              && valid.isAlphanumeric(d.Identifier) == None
              && valid.isAlphanumeric(d.Name) == None
              && valid.isAlphanumeric(d.Address.AddressLineOne) == None
              && valid.isAlphanumeric(d.Address.AddressLineTwo) == None
              && valid.isAlphanumeric(d.Address.AddressLineThree) == None
    ensures r.Some? ==>
              r.value.Field? && r.value.value.Some? &&
              valid.isAlphanumeric(r.value.value.value) == Some(r.value.kind)
    ensures valid.isAlphanumeric(d.Identifier).Some? ==>
              r == Some(Field("Identifier", valid.isAlphanumeric(d.Identifier).value, Some(d.Identifier)))
    ensures valid.isAlphanumeric(d.Identifier) == None && valid.isAlphanumeric(d.Name).Some? ==>
              r == Some(Field("Name", valid.isAlphanumeric(d.Name).value, Some(d.Name)))
  {
    var a := d.Address;
    if valid.isAlphanumeric(d.Identifier).Some? then
      Some(Field("Identifier", valid.isAlphanumeric(d.Identifier).value, Some(d.Identifier)))
    else if valid.isAlphanumeric(d.Name).Some? then
      Some(Field("Name", valid.isAlphanumeric(d.Name).value, Some(d.Name)))
    else if valid.isAlphanumeric(a.AddressLineOne).Some? then
      Some(Field("AddressLineOne", valid.isAlphanumeric(a.AddressLineOne).value, Some(a.AddressLineOne)))
    else if valid.isAlphanumeric(a.AddressLineTwo).Some? then
      Some(Field("AddressLineTwo", valid.isAlphanumeric(a.AddressLineTwo).value, Some(a.AddressLineTwo)))
    else if valid.isAlphanumeric(a.AddressLineThree).Some? then
      Some(Field("AddressLineThree", valid.isAlphanumeric(a.AddressLineThree).value, Some(a.AddressLineThree)))
    else None
  }

  /** Validate: mandatory fields, then the tag, then the identification code (a valid code,
      and only the demand deposit account number), then the free-text fields. */
  function Validate(valid: Validators, k: Constants, d: Data): (r: Option<WireError>)
    ensures r == None <==> Accepted(valid, k, d)
    ensures FieldInclusion(d).Some? ==> r == FieldInclusion(d)
    ensures FieldInclusion(d) == None && d.tag != k.TagAccountDebitedDrawdown ==>
              r == Some(Field("tag", ValidTagForType, Some(d.tag)))
    ensures FieldInclusion(d) == None && d.tag == k.TagAccountDebitedDrawdown &&
            valid.isIdentificationCode(d.IdentificationCode).Some? ==>
              r == Some(Field("IdentificationCode", valid.isIdentificationCode(d.IdentificationCode).value,
                              Some(d.IdentificationCode)))
    ensures r.Some? ==> r.value.Field?
  {
    var code := d.IdentificationCode;
    if FieldInclusion(d).Some? then FieldInclusion(d)
    else if d.tag != k.TagAccountDebitedDrawdown then Some(Field("tag", ValidTagForType, Some(d.tag)))
    else if valid.isIdentificationCode(code).Some? then
      Some(Field("IdentificationCode", valid.isIdentificationCode(code).value, Some(code)))
    else if code != k.DemandDepositAccountNumber then
      Some(Field("IdentificationCode", IdentificationCode, Some(code)))
    else FirstNonAlphanumeric(valid, d)
  }

  class AccountDebitedDrawdown {
    var tag: string
    var IdentificationCode: string
    var Identifier: string
    var Name: string
    var Address: Address

    function View(): Data
      reads this
    {
      Data(tag, IdentificationCode, Identifier, Name, Address)
    }

    /** NewAccountDebitedDrawdown: an empty segment carrying its own tag. */
    constructor (k: Constants)
      ensures View() == Data(k.TagAccountDebitedDrawdown, "", "", "", EmptyAddress)
    {
      tag := k.TagAccountDebitedDrawdown;
      IdentificationCode := "";
      Identifier := "";
      Name := "";
      Address := EmptyAddress;
    }

    /** Parse reads the tag, the identification code, the identifier and the name, then hands
        the cursor to ParseAddress; the two halves mirror ParseOf and ParseAddressOf. */
    method Parse(conv: Converters, record: string) returns (err: Option<WireError>)
      requires ReadsWithin(conv)
      modifies this
      ensures Parsed(View(), err) == ParseOf(conv, old(View()), record)
    {
      if |record| < 9 {
        return Some(MinLength(9, |record|));
      }
      tag := record[..6];
      IdentificationCode := record[6..7];
      var length := 7;

      var r := ReadVariableAt(conv, record, length, 34);
      if r.ReadFailed? {
        return Some(Field("Identifier", r.kind, None));
      }
      Identifier := r.field.value;
      length := length + r.field.read;

      r := ReadVariableAt(conv, record, length, 35);
      if r.ReadFailed? {
        return Some(Field("Name", r.kind, None));
      }
      Name := r.field.value;
      length := length + r.field.read;

      err := ParseAddress(conv, record, length);
    }

    /** The second half of Parse: the three address lines from cursor `at`, then the length
        check. */
    method ParseAddress(conv: Converters, record: string, at: nat) returns (err: Option<WireError>)
      requires ReadsWithin(conv) && at <= |record|
      modifies this
      ensures Parsed(View(), err) == ParseAddressOf(conv, record, old(View()), at)
    {
      var length := at;

      var r := ReadVariableAt(conv, record, length, 35);
      if r.ReadFailed? {
        return Some(Field("AddressLineOne", r.kind, None));
      }
      Address := Address.(AddressLineOne := r.field.value);
      length := length + r.field.read;

      r := ReadVariableAt(conv, record, length, 35);
      if r.ReadFailed? {
        return Some(Field("AddressLineTwo", r.kind, None));
      }
      Address := Address.(AddressLineTwo := r.field.value);
      length := length + r.field.read;

      r := ReadVariableAt(conv, record, length, 35);
      if r.ReadFailed? {
        return Some(Field("AddressLineThree", r.kind, None));
      }
      Address := Address.(AddressLineThree := r.field.value);
      length := length + r.field.read;

      var check := conv.verifyDataWithReadLength(record, length);
      if check.Some? {
        return Some(MaxLength(check.value));
      }
      return None;
    }

    /** UnmarshalJSON: the decoder fills the exported fields; on success the tag is reset to
        the segment's own, on failure the decoder's error is returned and the tag is untouched. */
    method UnmarshalJSON(k: Constants, decoded: JsonOutcome<Data>) returns (err: Option<WireError>)
      modifies this
      ensures decoded.DecodeFailed? ==> err == Some(Json) && View() == decoded.partial.(tag := old(tag))
      ensures decoded.Decoded? ==> err == None && View() == decoded.value.(tag := k.TagAccountDebitedDrawdown)
    {
      match decoded
      case DecodeFailed(p) =>
        IdentificationCode := p.IdentificationCode;
        Identifier := p.Identifier;
        Name := p.Name;
        Address := p.Address;
        return Some(Json);
      case Decoded(v) =>
        IdentificationCode := v.IdentificationCode;
        Identifier := v.Identifier;
        Name := v.Name;
        Address := v.Address;
        tag := k.TagAccountDebitedDrawdown;
        return None;
    }

    /** String: the fixed-width record. */
    method String(conv: Converters) returns (s: string)
      ensures s == FormatOf(conv, View(), Fixed)
    {
      s := Format(conv, Fixed);
    }

    method Format(conv: Converters, options: FormatOptions) returns (s: string)
      ensures s == FormatOf(conv, View(), options)
    {
      var d := View();
      var buf := "";
      buf := buf + tag;
      buf := buf + IdentificationCodeField(conv, d);
      buf := buf + (FormatIdentifier(conv, d, options) + conv.Delimiter);
      buf := buf + (FormatName(conv, d, options) + conv.Delimiter);
      buf := buf + (FormatAddressLineOne(conv, d, options) + conv.Delimiter);
      buf := buf + (FormatAddressLineTwo(conv, d, options) + conv.Delimiter);
      buf := buf + (FormatAddressLineThree(conv, d, options) + conv.Delimiter);
      assert buf == Buffer(conv, d, options);
      if options.VariableLengthFields {
        s := conv.stripDelimiters(buf);
      } else {
        s := buf;
      }
    }
  }

  // ---------------------------------------------------------------------------------------
  // Lemmas

  /** stripDelimiters affects only the variable mode: the fixed output does not depend on
      it, and the variable output is its image of the unstripped buffer. */
  lemma StripOnlyInVariableMode(conv: Converters, d: Data, strip: string -> string)
    ensures FormatOf(conv.(stripDelimiters := strip), d, Fixed) == FormatOf(conv, d, Fixed)
    ensures FormatOf(conv, d, Variable) == conv.stripDelimiters(Buffer(conv, d, Variable))
    ensures FormatOf(conv, d, Fixed) == Buffer(conv, d, Fixed)
  {
  }

  /** In fixed mode every record is 186 characters long: tag, code, and five fields of widths
      34, 35, 35, 35, 35, each with its delimiter. */
  lemma FixedLength(conv: Converters, d: Data)
    requires FixedWidths(conv) && |d.tag| == 6 && |conv.Delimiter| == 1
    ensures |FormatOf(conv, d, Fixed)| == 186
    ensures FormatOf(conv, d, Fixed)[..6] == d.tag
  {
  }

  /** Parse reaches the address lines exactly when the identifier and the name were read, and
      goes on from the cursor after the name with those fields set. */
  lemma ParseReachesAddress(conv: Converters, d: Data, record: string)
    requires ReadsWithin(conv) && AfterName(conv, record).Some?
    ensures ParseOf(conv, d, record) ==
              ParseAddressOf(conv, record, NameRead(conv, d, record), AfterName(conv, record).value)
  {
  }

  /** The final length check decides the outcome exactly when every read succeeded: then the
      error is MaxLength of what verifyDataWithReadLength reports at the cursor after the last
      read, and there is no error when it reports none. When a read fails, the error is not a
      MaxLength. */
  lemma MaxLengthFromVerify(conv: Converters, d: Data, record: string)
    requires ReadsWithin(conv)
    ensures var r := ParseOf(conv, d, record);
            Consumed(conv, record).None? <==> r.err.Some? && !r.err.value.MaxLength?
    ensures var r := ParseOf(conv, d, record);
            Consumed(conv, record).Some? ==>
              (r.err == None <==> conv.verifyDataWithReadLength(record, Consumed(conv, record).value) == None)
    ensures var r := ParseOf(conv, d, record);
            Consumed(conv, record).Some? &&
            conv.verifyDataWithReadLength(record, Consumed(conv, record).value).Some? ==>
              r.err == Some(MaxLength(conv.verifyDataWithReadLength(record, Consumed(conv, record).value).value))
  {
    if AfterName(conv, record).Some? {
      ParseReachesAddress(conv, d, record);
    }
  }

  /** When every read succeeds, each field holds what its read returned, whatever the
      length check then says. */
  lemma CompleteReadsFillFields(conv: Converters, d: Data, record: string)
    requires ReadsWithin(conv) && Consumed(conv, record).Some?
    ensures ParseOf(conv, d, record).state ==
              NameRead(conv, d, record).(Address := Address(
                VariableValue(conv, record, AfterName(conv, record), 35),
                VariableValue(conv, record, AfterLineOne(conv, record), 35),
                VariableValue(conv, record, AfterLineTwo(conv, record), 35)))
  {
    ParseReachesAddress(conv, d, record);
  }

  /** A failing field stops the parse. The error names the field and carries no value; it is
      the identifier exactly when Parse started and the first read failed, the name exactly
      when the identifier was read and the second read failed. The fields before the failing
      one hold what was read, the fields after it keep their old values. */
  lemma FailureStopsParse(conv: Converters, d: Data, record: string)
    requires ReadsWithin(conv)
    ensures var r := ParseOf(conv, d, record);
            r.err.Some? && r.err.value.Field? ==>
              && r.err.value.name in {"Identifier", "Name", "AddressLineOne", "AddressLineTwo", "AddressLineThree"}
              && r.err.value.value == None
    ensures var r := ParseOf(conv, d, record);
            FailedOn(r, "Identifier") <==> Start(record).Some? && AfterIdentifier(conv, record).None?
    ensures var r := ParseOf(conv, d, record);
            FailedOn(r, "Identifier") ==>
              r.state == d.(tag := record[..6], IdentificationCode := record[6..7])
    ensures var r := ParseOf(conv, d, record);
            FailedOn(r, "Name") <==> AfterIdentifier(conv, record).Some? && AfterName(conv, record).None?
    ensures var r := ParseOf(conv, d, record);
            FailedOn(r, "Name") ==>
              && AfterIdentifier(conv, record).Some?
              && r.state == d.(tag := record[..6], IdentificationCode := record[6..7],
                               Identifier := VariableValue(conv, record, Start(record), 34))
  {
  }

  /** A failing address line stops the parse the same way: the error names the first line
      whose read failed, the identifier, the name and the lines before it hold what was read,
      and the lines after it keep their old values. */
  lemma AddressFailureStopsParse(conv: Converters, d: Data, record: string)
    requires ReadsWithin(conv)
    ensures var r := ParseOf(conv, d, record);
            FailedOn(r, "AddressLineOne") <==> AfterName(conv, record).Some? && AfterLineOne(conv, record).None?
    ensures var r := ParseOf(conv, d, record);
            FailedOn(r, "AddressLineOne") ==>
              AfterName(conv, record).Some? && r.state == NameRead(conv, d, record)
    ensures var r := ParseOf(conv, d, record);
            FailedOn(r, "AddressLineTwo") <==> AfterLineOne(conv, record).Some? && AfterLineTwo(conv, record).None?
    ensures var r := ParseOf(conv, d, record);
            FailedOn(r, "AddressLineTwo") ==>
              && AfterLineOne(conv, record).Some?
              && r.state == NameRead(conv, d, record).(Address := d.Address.(
                   AddressLineOne := VariableValue(conv, record, AfterName(conv, record), 35)))
    ensures var r := ParseOf(conv, d, record);
            FailedOn(r, "AddressLineThree") <==> AfterLineTwo(conv, record).Some? && Consumed(conv, record).None?
    ensures var r := ParseOf(conv, d, record);
            FailedOn(r, "AddressLineThree") ==>
              && AfterLineTwo(conv, record).Some?
              && r.state == NameRead(conv, d, record).(Address := d.Address.(
                   AddressLineOne := VariableValue(conv, record, AfterName(conv, record), 35),
                   AddressLineTwo := VariableValue(conv, record, AfterLineOne(conv, record), 35)))
  {
    if AfterName(conv, record).Some? {
      ParseReachesAddress(conv, d, record);
    }
  }

  /** The outcome of Parse does not depend on the segment it started from, and a successful
      Parse overwrites every field. */
  lemma ParseOverwrites(conv: Converters, d1: Data, d2: Data, record: string)
    requires ReadsWithin(conv)
    ensures ParseOf(conv, d1, record).err == ParseOf(conv, d2, record).err
    ensures ParseOf(conv, d1, record).err == None ==>
              ParseOf(conv, d1, record).state == ParseOf(conv, d2, record).state
  {
  }

  /** Round trip in fixed mode: String() output parses back to the same segment. The code is
      copied raw by Parse, so it must be one character that alphaField leaves as it is. */
  lemma FixedRoundTrip(conv: Converters, d: Data, start: Data)
    requires ReadsWithin(conv) && AcceptsFullRead(conv)
    requires |d.tag| == 6 && |conv.Delimiter| == 1
    requires |d.IdentificationCode| == 1 && conv.alphaField(d.IdentificationCode, 1) == d.IdentificationCode
    requires VariableReadsBack(conv, d.Identifier, 34, Fixed)
    requires VariableReadsBack(conv, d.Name, 35, Fixed)
    requires VariableReadsBack(conv, d.Address.AddressLineOne, 35, Fixed)
    requires VariableReadsBack(conv, d.Address.AddressLineTwo, 35, Fixed)
    requires VariableReadsBack(conv, d.Address.AddressLineThree, 35, Fixed)
    ensures ParseOf(conv, start, FormatOf(conv, d, Fixed)) == Parsed(d, None)
  {
    var record := FormatOf(conv, d, Fixed);
    FixedBufferShape(conv, d);
    var n2 := After(conv, 7, FormatIdentifier(conv, d, Fixed));
    var n3 := After(conv, n2, FormatName(conv, d, Fixed));
    var n4 := After(conv, n3, FormatAddressLineOne(conv, d, Fixed));
    var n5 := After(conv, n4, FormatAddressLineTwo(conv, d, Fixed));
    FirstFieldsRead(conv, record, d, n2, n3);
    AddressRead(conv, record, d, n3, n4, n5);
    assert conv.verifyDataWithReadLength(record, |record|) == None;
    ParseOfReads(conv, start, record, d, n2, n3, n4, n5);
  }

  /** The fixed rendering is the tag, the code as it is, and the five fields with their
      delimiters. */
  lemma FixedBufferShape(conv: Converters, d: Data)
    requires |d.tag| == 6
    requires |d.IdentificationCode| == 1 && conv.alphaField(d.IdentificationCode, 1) == d.IdentificationCode
    ensures var record := FormatOf(conv, d, Fixed);
            && |record| >= 7 && record[..6] == d.tag && record[6..7] == d.IdentificationCode
            && record[7..] == VariableFields(conv, d, Fixed)
  {
    assert FormatOf(conv, d, Fixed) == d.tag + d.IdentificationCode + VariableFields(conv, d, Fixed);
  }

  /** The identifier and the name read back from the fixed rendering, leaving the cursor
      before the address. */
  lemma FirstFieldsRead(conv: Converters, record: string, d: Data, n2: nat, n3: nat)
    requires ReadsWithin(conv) && |record| >= 7 && record[7..] == VariableFields(conv, d, Fixed)
    requires VariableReadsBack(conv, d.Identifier, 34, Fixed)
    requires VariableReadsBack(conv, d.Name, 35, Fixed)
    requires n2 == After(conv, 7, FormatIdentifier(conv, d, Fixed))
    requires n3 == After(conv, n2, FormatName(conv, d, Fixed))
    ensures n3 <= |record|
    ensures ReadVariableAt(conv, record, 7, 34) == Read(FieldRead(d.Identifier, n2 - 7))
    ensures ReadVariableAt(conv, record, n2, 35) == Read(FieldRead(d.Name, n3 - n2))
    ensures record[n3..] == AddressFields(conv, d, Fixed)
  {
    var D := conv.Delimiter;
    var t2 := FormatName(conv, d, Fixed) + D + AddressFields(conv, d, Fixed);
    VariableReadAt(conv, record, 7, d.Identifier, 34, Fixed, t2);
    VariableReadAt(conv, record, n2, d.Name, 35, Fixed, AddressFields(conv, d, Fixed));
  }

  /** The three address lines read back from the rest of the fixed rendering, ending the
      record. */
  lemma AddressRead(conv: Converters, record: string, d: Data, n3: nat, n4: nat, n5: nat)
    requires ReadsWithin(conv) && n3 <= |record| && record[n3..] == AddressFields(conv, d, Fixed)
    requires VariableReadsBack(conv, d.Address.AddressLineOne, 35, Fixed)
    requires VariableReadsBack(conv, d.Address.AddressLineTwo, 35, Fixed)
    requires VariableReadsBack(conv, d.Address.AddressLineThree, 35, Fixed)
    requires n4 == After(conv, n3, FormatAddressLineOne(conv, d, Fixed))
    requires n5 == After(conv, n4, FormatAddressLineTwo(conv, d, Fixed))
    ensures n5 <= |record|
    ensures ReadVariableAt(conv, record, n3, 35) == Read(FieldRead(d.Address.AddressLineOne, n4 - n3))
    ensures ReadVariableAt(conv, record, n4, 35) == Read(FieldRead(d.Address.AddressLineTwo, n5 - n4))
    ensures ReadVariableAt(conv, record, n5, 35) ==
              Read(FieldRead(d.Address.AddressLineThree, |record| - n5))
  {
    var D := conv.Delimiter;
    var t5 := FormatAddressLineThree(conv, d, Fixed) + D;
    var t4 := FormatAddressLineTwo(conv, d, Fixed) + D + t5;
    VariableReadAt(conv, record, n3, d.Address.AddressLineOne, 35, Fixed, t4);
    VariableReadAt(conv, record, n4, d.Address.AddressLineTwo, 35, Fixed, t5);
    assert t5 == FormatAddressLineThree(conv, d, Fixed) + D + [];
    VariableReadAt(conv, record, n5, d.Address.AddressLineThree, 35, Fixed, []);
  }

  /** Parse succeeds with `d` when each of the five variable reads returns d's field and the
      cursor after the last one is the end of the record. */
  lemma ParseOfReads(conv: Converters, start: Data, record: string, d: Data, n2: nat, n3: nat, n4: nat, n5: nat)
    requires ReadsWithin(conv)
    requires |record| >= 9 && record[..6] == d.tag && record[6..7] == d.IdentificationCode
    requires 7 <= n2 <= n3 <= n4 <= n5 <= |record|
    requires ReadVariableAt(conv, record, 7, 34) == Read(FieldRead(d.Identifier, n2 - 7))
    requires ReadVariableAt(conv, record, n2, 35) == Read(FieldRead(d.Name, n3 - n2))
    requires ReadVariableAt(conv, record, n3, 35) == Read(FieldRead(d.Address.AddressLineOne, n4 - n3))
    requires ReadVariableAt(conv, record, n4, 35) == Read(FieldRead(d.Address.AddressLineTwo, n5 - n4))
    requires ReadVariableAt(conv, record, n5, 35) ==
               Read(FieldRead(d.Address.AddressLineThree, |record| - n5))
    requires conv.verifyDataWithReadLength(record, |record|) == None
    ensures ParseOf(conv, start, record) == Parsed(d, None)
  {
  }

  /** Parse copies the identification code raw, so what comes back from String() output is
      the code's 1-wide rendering. A segment with an empty code, as the constructor makes it,
      therefore does not survive the round trip. */
  lemma CodeComesBackRendered(conv: Converters, d: Data, start: Data)
    requires ReadsWithin(conv) && FixedWidths(conv) && |d.tag| == 6
    ensures ParseOf(conv, start, FormatOf(conv, d, Fixed)).state.IdentificationCode ==
              conv.alphaField(d.IdentificationCode, 1)
    ensures d.IdentificationCode == "" ==> ParseOf(conv, start, FormatOf(conv, d, Fixed)).state != d
  {
    var record := FormatOf(conv, d, Fixed);
    var code := IdentificationCodeField(conv, d);
    assert record == d.tag + code + VariableFields(conv, d, Fixed);
    assert record[6..7] == code;
    assert |record| >= 9 by {
      assert |VariableFields(conv, d, Fixed)| >= |FormatIdentifier(conv, d, Fixed)| == 34;
    }
  }

  /** Mandatory fields come first: an empty name is reported as FieldRequired even when the
      tag is wrong too. */
  lemma EmptyNameBeatsWrongTag(valid: Validators, k: Constants, d: Data)
    requires d.IdentificationCode != "" && d.Identifier != "" && d.Name == ""
    requires d.tag != k.TagAccountDebitedDrawdown
    ensures Validate(valid, k, d) == Some(Field("Name", FieldRequired, None))
  {
  }

  /** Past the mandatory fields and the tag, a code that is a valid identification code but not
      the demand deposit account number is refused with ErrIdentificationCode. */
  lemma OnlyDemandDepositAccepted(valid: Validators, k: Constants, d: Data)
    requires FieldInclusion(d) == None && d.tag == k.TagAccountDebitedDrawdown
    requires valid.isIdentificationCode(d.IdentificationCode) == None
    requires d.IdentificationCode != k.DemandDepositAccountNumber
    ensures Validate(valid, k, d) ==
              Some(Field("IdentificationCode", IdentificationCode, Some(d.IdentificationCode)))
  {
  }

  /** Free-text field `i` in the order Validate checks them, counting from one. */
  function FreeText(d: Data, i: nat): string
    requires 1 <= i <= 5
  {
    match i
    case 1 => d.Identifier
    case 2 => d.Name
    case 3 => d.Address.AddressLineOne
    case 4 => d.Address.AddressLineTwo
    case _ => d.Address.AddressLineThree
  }

  /** The field name Validate reports for free-text field `i`. */
  function FreeTextName(i: nat): string
    requires 1 <= i <= 5
  {
    match i
    case 1 => "Identifier"
    case 2 => "Name"
    case 3 => "AddressLineOne"
    case 4 => "AddressLineTwo"
    case _ => "AddressLineThree"
  }

  /** Past the mandatory fields, the tag and the identification code, the free-text fields are
      checked in order: when the fields before `i` pass isAlphanumeric and field `i` does not,
      field `i` is the one reported, with the kind the check gave and the field's value. */
  lemma {:induction false} FirstBadFreeTextReported(valid: Validators, k: Constants, d: Data, i: nat)
    requires FieldInclusion(d) == None && d.tag == k.TagAccountDebitedDrawdown
    requires valid.isIdentificationCode(d.IdentificationCode) == None
    requires d.IdentificationCode == k.DemandDepositAccountNumber
    requires 1 <= i <= 5
    requires forall j :: 1 <= j < i ==> valid.isAlphanumeric(FreeText(d, j)) == None
    requires valid.isAlphanumeric(FreeText(d, i)).Some?
    ensures Validate(valid, k, d) ==
              Some(Field(FreeTextName(i), valid.isAlphanumeric(FreeText(d, i)).value, Some(FreeText(d, i))))
  {
    if i > 1 { assert valid.isAlphanumeric(FreeText(d, 1)) == None; }
    if i > 2 { assert valid.isAlphanumeric(FreeText(d, 2)) == None; }
    if i > 3 { assert valid.isAlphanumeric(FreeText(d, 3)) == None; }
    if i > 4 { assert valid.isAlphanumeric(FreeText(d, 4)) == None; }
  }
}
