# Fedwire segment codec: five segments

This project models five segments of the `wire` package of a Fedwire Funds Service message
library, with their proofs:

| Segment | Tag constant | What it holds |
|---|---|---|
| AccountDebitedDrawdown | `TagAccountDebitedDrawdown` | identification code, identifier, name, three address lines |
| FIBeneficiaryFIAdvice | `TagFIBeneficiaryFIAdvice` | advice code and six advice lines |
| AmountNegotiatedDiscount | `TagAmountNegotiatedDiscount` | currency code and amount |
| CurrencyInstructedAmount | `TagCurrencyInstructedAmount` | SWIFT field tag and amount |
| AccountCreditedDrawdown | `TagAccountCreditedDrawdown` | 9-digit drawdown credit account number |

Each segment is a Go struct with these methods:

- **Parse** reads a record: it copies the 6-character tag, then reads each field at a cursor that advances by what the field consumed. At the end it asks `verifyDataWithReadLength` whether the whole record was consumed.
- **Format** renders the segment in fixed-width or variable-length mode; **String** is Format in fixed mode.
- **Validate** checks the segment and reports the first failure.
- **UnmarshalJSON** decodes the segment from JSON and resets its tag.

Each segment has its own module, and `wire.dfy` holds the shared vocabulary.

How each segment is modelled:

- The Go struct becomes a `class` with the same fields. `View()` returns the class's value as a `Data` datatype.
- `Parse` is a method that updates the fields in the order the Go code does. It is proved equal to a function `ParseOf` of the old value and the record. That function has the same branches, the same error for each failing field, and the same partial state left behind when a field fails.
- For the two long segments, both `Parse` and `ParseOf` hand the second half of the fields to a helper that picks up at the cursor: `ParseAddress` / `ParseAddressOf` and `ParseLastLines` / `ParseLastLinesOf`. The Go code reads all fields in one body.
- `Format` builds the buffer field by field and is proved equal to `FormatOf`.
- `Validate`, `fieldInclusion` and the getters are pure functions.

The converter and validator primitives belong to files that are not part of this model. Each is a function-valued field of `Wire.Converters` or `Wire.Validators`, so every result holds for any primitives. Three kinds of assumption are made about them:

- **Parse** needs only that a read never consumes more than it was given (`ReadsWithin`). Without that, Go's `record[length:]` would panic.
- **Round trips and fixed lengths** additionally need that fields read back from their own rendering (`FixedReadsBack`, `VariableReadsBack`). They also need fixed-width rendering to pad to the width (`FixedWidths`, and `NumericWidths` for the zero-padded amount), and a fully consumed record to be accepted (`AcceptsFullRead`). Each such lemma takes these as explicit `requires`.
- **Package constants** (the tags and `DemandDepositAccountNumber`) are the fields of `Wire.Constants`.

What the code does, which the model follows:

- Format writes the delimiter after every variable field in both modes, not only in variable-length mode.
- Of these five, only AccountDebitedDrawdown and FIBeneficiaryFIAdvice call `stripDelimiters`, and only in variable-length mode.
- AmountNegotiatedDiscount and CurrencyInstructedAmount never strip.
- AccountCreditedDrawdown's Format ignores its options entirely.
- FIBeneficiaryFIAdvice's Parse takes the advice code from positions 6 to 9 through `parseStringField`. It never reports an error for that code.
- AccountDebitedDrawdown's Parse copies the one-character identification code raw.
- The minimum-length check counts runes but reports `len(record)`. Strings here are single-byte, so both are `|record|`.

## Model

| member | source | states |
|---|---|---|
| Wire.ReadVariableAt | accountDebitedDrawdown.go:52-57 | a variable read at the cursor consumes no more than what remains of the record, so the next cursor stays within it |
| Wire.ReadFixedAt | accountCreditedDrawdown.go:46-51 | a fixed read at the cursor consumes no more than what remains of the record |
| Wire.VariableReadAt | accountDebitedDrawdown.go:52-57 | where the record holds a field's rendering and the delimiter, the read returns the field and moves the cursor past both |
| Wire.StepVariable | accountDebitedDrawdown.go:52-57 | the cursor advances exactly when Parse got this far and the variable read succeeds, and it stays within the record |
| Wire.StepFixed | accountCreditedDrawdown.go:46-51 | the cursor advances exactly when Parse got this far and the fixed read succeeds, and it stays within the record |
| DebitedDrawdown.ParseOf | accountDebitedDrawdown.go:43-92 | a record under 9 characters is a MinLength(9, len) error and changes nothing; otherwise the tag and the identification code are record[0:6] and record[6:7] |
| DebitedDrawdown.ParseAddressOf | accountDebitedDrawdown.go:66-91 | reading the address lines and checking the length changes no field but the address |
| DebitedDrawdown.Start | accountDebitedDrawdown.go:44-50 | Parse gets past the minimum-length check exactly when the record has at least 9 characters, and the first read starts at 7 |
| DebitedDrawdown.Consumed | accountDebitedDrawdown.go:52-87 | the cursor after the third address line exists only when every earlier read succeeded, and lies between 7 and the record's length |
| DebitedDrawdown.IdentificationCodeField | accountDebitedDrawdown.go:188-190 | with fixed-width rendering the code takes 1 character |
| DebitedDrawdown.FormatIdentifier | accountDebitedDrawdown.go:218-220 | in fixed mode the identifier takes 34 characters |
| DebitedDrawdown.FormatName | accountDebitedDrawdown.go:223-225 | in fixed mode the name takes 35 characters |
| DebitedDrawdown.FormatAddressLineOne | accountDebitedDrawdown.go:228-230 | in fixed mode the first address line takes 35 characters |
| DebitedDrawdown.FormatAddressLineTwo | accountDebitedDrawdown.go:233-235 | in fixed mode the second address line takes 35 characters |
| DebitedDrawdown.FormatAddressLineThree | accountDebitedDrawdown.go:238-240 | in fixed mode the third address line takes 35 characters |
| DebitedDrawdown.FieldInclusion | accountDebitedDrawdown.go:174-185 | an error exactly when the identification code, identifier or name is empty; FieldRequired with no value; they are checked in that order, and the first empty one is the one reported |
| DebitedDrawdown.FirstNonAlphanumeric | accountDebitedDrawdown.go:154-168 | no error exactly when all five free-text fields pass isAlphanumeric; a rejected identifier is reported as Identifier, and with the identifier accepted a rejected name as Name; every error carries the rejected value and the kind isAlphanumeric gave it |
| DebitedDrawdown.Validate | accountDebitedDrawdown.go:137-170 | no error exactly when every rule holds, including that the code is the demand deposit account number; a fieldInclusion error wins; then a wrong tag is ErrValidTagForType with the tag; then a code isIdentificationCode rejects is reported as IdentificationCode with its kind and the code |
| DebitedDrawdown.AccountDebitedDrawdown.constructor | accountDebitedDrawdown.go:32-37 | a new segment is empty and carries the tag TagAccountDebitedDrawdown |
| DebitedDrawdown.AccountDebitedDrawdown.Parse | accountDebitedDrawdown.go:43-92 | the fields the method leaves, and the error it returns, are those ParseOf gives for the old fields and the record |
| DebitedDrawdown.AccountDebitedDrawdown.ParseAddress | accountDebitedDrawdown.go:66-91 | the second half of Parse agrees with ParseAddressOf at the same cursor |
| DebitedDrawdown.AccountDebitedDrawdown.UnmarshalJSON | accountDebitedDrawdown.go:94-106 | on a decoder error that error is returned and the tag keeps its old value; on success the decoded fields are kept and the tag is TagAccountDebitedDrawdown |
| DebitedDrawdown.AccountDebitedDrawdown.String | accountDebitedDrawdown.go:109-113 | String is the fixed-width Format |
| DebitedDrawdown.AccountDebitedDrawdown.Format | accountDebitedDrawdown.go:116-133 | the built string is FormatOf of the fields under the options |
| DebitedDrawdown.StripOnlyInVariableMode | accountDebitedDrawdown.go:116-133 | fixed output does not depend on stripDelimiters; variable output is stripDelimiters of the unstripped buffer |
| DebitedDrawdown.FixedLength | accountDebitedDrawdown.go:116-133 | with fixed-width rendering a record is 186 characters long and starts with the tag |
| DebitedDrawdown.MaxLengthFromVerify | accountDebitedDrawdown.go:52-91 | some read fails exactly when the error is present and not a MaxLength; when every read succeeds, there is no error exactly when verifyDataWithReadLength accepts the cursor after the third address line, and otherwise the error is MaxLength of what it reported |
| DebitedDrawdown.ParseReachesAddress | accountDebitedDrawdown.go:43-91 | once the identifier and the name are read, Parse continues with the address lines at the cursor after the name, the tag, code, identifier and name set |
| DebitedDrawdown.CompleteReadsFillFields | accountDebitedDrawdown.go:49-85 | when every read succeeds, the tag and code are record[0:6] and record[6:7], and each of the five fields holds what its own read returned, whatever the length check says |
| DebitedDrawdown.FailureStopsParse | accountDebitedDrawdown.go:52-64 | a field error names a field and carries no value; the identifier fails exactly when its read fails, leaving only the tag and code set; the name fails exactly when the identifier was read and the name's read fails, leaving the identifier as read and the rest untouched |
| DebitedDrawdown.AddressFailureStopsParse | accountDebitedDrawdown.go:66-85 | an address line fails exactly when the reads before it succeeded and its own failed; the identifier, the name and the earlier lines then hold what was read, and the later lines keep their old values |
| DebitedDrawdown.ParseOverwrites | accountDebitedDrawdown.go:43-92 | the error does not depend on the segment's previous contents, and a successful parse overwrites every field |
| DebitedDrawdown.FixedBufferShape | accountDebitedDrawdown.go:116-133 | the fixed rendering is the tag, the code and the five delimited fields, in that order |
| DebitedDrawdown.FirstFieldsRead | accountDebitedDrawdown.go:52-64 | the identifier and the name read back from their fixed renderings, leaving the cursor at the address |
| DebitedDrawdown.AddressRead | accountDebitedDrawdown.go:66-85 | the three address lines read back from their fixed renderings, the last one ending the record |
| DebitedDrawdown.ParseOfReads | accountDebitedDrawdown.go:43-92 | when every read returns the segment's own field and the record is consumed completely, Parse succeeds with that segment |
| DebitedDrawdown.FixedRoundTrip | accountDebitedDrawdown.go:43-133 | for a one-character identification code that alphaField leaves unchanged, parsing String() output restores the segment, from any starting segment, with no error |
| DebitedDrawdown.CodeComesBackRendered | accountDebitedDrawdown.go:49 | the code parsed from String() output is its 1-wide alphaField rendering, so a segment with an empty code does not come back unchanged |
| DebitedDrawdown.EmptyNameBeatsWrongTag | accountDebitedDrawdown.go:137-143 | an empty name is reported as FieldRequired even when the tag is wrong as well |
| DebitedDrawdown.OnlyDemandDepositAccepted | accountDebitedDrawdown.go:144-153 | a valid identification code other than the demand deposit account number is refused with ErrIdentificationCode |
| DebitedDrawdown.FirstBadFreeTextReported | accountDebitedDrawdown.go:154-168 | past the mandatory fields, the tag and the code, for each free-text field in the order Identifier, Name, AddressLineOne, AddressLineTwo, AddressLineThree: if the fields before it pass isAlphanumeric and it does not, it is reported under its name with the kind and its value |
| FIAdvice.ParseOf | fIBeneficiaryFIAdvice.go:38-94 | a record under 9 characters is a MinLength(9, len) error and changes nothing; otherwise the tag is record[0:6] and the advice code is parseStringField of record[6:9] |
| FIAdvice.ParseLastLinesOf | fIBeneficiaryFIAdvice.go:68-93 | reading lines four to six and checking the length keeps the tag and the advice code |
| FIAdvice.Start | fIBeneficiaryFIAdvice.go:39-47 | Parse gets past the minimum-length check exactly when the record has at least 9 characters, and the first line is read from 9 |
| FIAdvice.Consumed | fIBeneficiaryFIAdvice.go:47-89 | the cursor after line six exists only when every earlier read succeeded, and lies between 9 and the record's length |
| FIAdvice.AdviceCodeField | fIBeneficiaryFIAdvice.go:169-171 | with fixed-width rendering the advice code takes 3 characters |
| FIAdvice.FormatLineOne | fIBeneficiaryFIAdvice.go:204-206 | in fixed mode line one takes 26 characters |
| FIAdvice.FormatLineTwo | fIBeneficiaryFIAdvice.go:209-211 | in fixed mode line two takes 33 characters |
| FIAdvice.FormatLineThree | fIBeneficiaryFIAdvice.go:214-216 | in fixed mode line three takes 33 characters |
| FIAdvice.FormatLineFour | fIBeneficiaryFIAdvice.go:219-221 | in fixed mode line four takes 33 characters |
| FIAdvice.FormatLineFive | fIBeneficiaryFIAdvice.go:224-226 | in fixed mode line five takes 33 characters |
| FIAdvice.FormatLineSix | fIBeneficiaryFIAdvice.go:229-231 | in fixed mode line six takes 33 characters |
| FIAdvice.Check | fIBeneficiaryFIAdvice.go:145-163 | a field error exactly when the check rejects the value, carrying the field's name, the check's kind and the value |
| FIAdvice.Validate | fIBeneficiaryFIAdvice.go:140-166 | no error exactly when the tag, the advice code and all six lines pass; a wrong tag is reported first; with the right tag a rejected advice code is reported next, with isAdviceCode's kind and the code; every error carries the rejected value |
| FIAdvice.FIBeneficiaryFIAdvice.constructor | fIBeneficiaryFIAdvice.go:27-32 | a new segment is empty and carries the tag TagFIBeneficiaryFIAdvice |
| FIAdvice.FIBeneficiaryFIAdvice.Parse | fIBeneficiaryFIAdvice.go:38-94 | the fields the method leaves, and the error it returns, are those ParseOf gives for the old fields and the record |
| FIAdvice.FIBeneficiaryFIAdvice.ParseLastLines | fIBeneficiaryFIAdvice.go:68-93 | the second half of Parse agrees with ParseLastLinesOf at the same cursor |
| FIAdvice.FIBeneficiaryFIAdvice.UnmarshalJSON | fIBeneficiaryFIAdvice.go:96-108 | on a decoder error that error is returned and the tag keeps its old value; on success the decoded advice is kept and the tag is TagFIBeneficiaryFIAdvice |
| FIAdvice.FIBeneficiaryFIAdvice.String | fIBeneficiaryFIAdvice.go:111-115 | String is the fixed-width Format |
| FIAdvice.FIBeneficiaryFIAdvice.Format | fIBeneficiaryFIAdvice.go:118-136 | the built string is FormatOf of the fields under the options |
| FIAdvice.StripOnlyInVariableMode | fIBeneficiaryFIAdvice.go:118-136 | fixed output does not depend on stripDelimiters; variable output is stripDelimiters of the unstripped buffer |
| FIAdvice.FixedLength | fIBeneficiaryFIAdvice.go:118-136 | with fixed-width rendering a record is 206 characters long and starts with the tag |
| FIAdvice.MaxLengthFromVerify | fIBeneficiaryFIAdvice.go:47-93 | some read fails exactly when the error is present and not a MaxLength; when every line is read, there is no error exactly when verifyDataWithReadLength accepts the cursor after line six, and otherwise the error is MaxLength of what it reported |
| FIAdvice.ParseReachesLastLines | fIBeneficiaryFIAdvice.go:38-93 | once lines one to three are read, Parse continues with line four at the cursor after line three, the tag, code and first three lines set |
| FIAdvice.LastLinesOutcome | fIBeneficiaryFIAdvice.go:68-93 | from any cursor, line four, five or six fails exactly when the reads before it succeeded and its own failed, with the earlier lines as read and the rest untouched; when all three are read the length check decides the error |
| FIAdvice.StopsBeforeLineFour | fIBeneficiaryFIAdvice.go:39-66 | when Parse does not get past line three, the error is the minimum-length error or a failure on line one, two or three |
| FIAdvice.CompleteReadsFillFields | fIBeneficiaryFIAdvice.go:44-87 | when every line is read, the tag is record[0:6], the code is parseStringField of record[6:9], and each line holds what its own read returned, whatever the length check says |
| FIAdvice.FailureStopsParse | fIBeneficiaryFIAdvice.go:47-66 | a line error names a line and carries no value; line one, two or three fails exactly when the reads before it succeeded and its own failed, and the earlier lines then hold what was read while the later ones keep their old values |
| FIAdvice.LastLinesFailureStopsParse | fIBeneficiaryFIAdvice.go:68-87 | line four, five or six fails exactly when the reads before it succeeded and its own failed; the code and the earlier lines then hold what was read, and the later lines keep their old values |
| FIAdvice.ParseOverwrites | fIBeneficiaryFIAdvice.go:38-94 | the error does not depend on the segment's previous contents, and a successful parse overwrites every field |
| FIAdvice.FixedBufferShape | fIBeneficiaryFIAdvice.go:118-136 | the fixed rendering is the tag, the 3-wide advice code and the six delimited lines |
| FIAdvice.FirstLinesRead | fIBeneficiaryFIAdvice.go:47-66 | lines one to three read back from their fixed renderings, leaving the cursor at line four |
| FIAdvice.LastLinesRead | fIBeneficiaryFIAdvice.go:68-87 | lines four to six read back from their fixed renderings, the last one ending the record |
| FIAdvice.ParseOfReads | fIBeneficiaryFIAdvice.go:38-94 | when the code and every line read back and the record is consumed completely, Parse succeeds with that segment |
| FIAdvice.FixedRoundTrip | fIBeneficiaryFIAdvice.go:38-136 | parsing String() output restores the segment, from any starting segment, with no error |
| FIAdvice.WrongTagReportedFirst | fIBeneficiaryFIAdvice.go:140-146 | with a wrong tag the error is the tag error, whatever the advice holds and whichever validators are used |
| FIAdvice.FirstBadLineReported | fIBeneficiaryFIAdvice.go:147-164 | with a good tag and code, for every line i from one to six: if the lines before it pass isAlphanumeric and line i does not, line i is reported with the kind the check gave and its value |
| NegotiatedDiscount.ParseOf | amountNegotiatedDiscount.go:38-65 | a record under 8 characters is a MinLength(8, len) error and changes nothing; otherwise the tag is record[0:6] |
| NegotiatedDiscount.Start | amountNegotiatedDiscount.go:39-45 | Parse gets past the minimum-length check exactly when the record has at least 8 characters, and the first read starts at 6 |
| NegotiatedDiscount.Consumed | amountNegotiatedDiscount.go:46-60 | the cursor after the amount exists only when the currency code was read first, and lies within the record |
| NegotiatedDiscount.CurrencyCodeField | amountNegotiatedDiscount.go:131-133 | with fixed-width rendering the currency code takes 3 characters |
| NegotiatedDiscount.FormatAmount | amountNegotiatedDiscount.go:146-148 | in fixed mode the amount takes 19 characters |
| NegotiatedDiscount.FieldInclusion | amountNegotiatedDiscount.go:120-128 | an error exactly when the amount or the currency code is empty; FieldRequired with no value; an empty amount is reported as Amount, and a present amount with an empty code as CurrencyCode |
| NegotiatedDiscount.Validate | amountNegotiatedDiscount.go:102-116 | no error exactly when both fields are present, the tag is right and both validators accept; a fieldInclusion error wins, then a wrong tag; with the code accepted, an amount isAmount rejects is reported as Amount with its kind and value |
| NegotiatedDiscount.AmountNegotiatedDiscount.constructor | amountNegotiatedDiscount.go:27-32 | a new segment is empty and carries the tag TagAmountNegotiatedDiscount |
| NegotiatedDiscount.AmountNegotiatedDiscount.Parse | amountNegotiatedDiscount.go:38-65 | the fields the method leaves, and the error it returns, are those ParseOf gives for the old fields and the record |
| NegotiatedDiscount.AmountNegotiatedDiscount.UnmarshalJSON | amountNegotiatedDiscount.go:67-79 | on a decoder error that error is returned and the tag keeps its old value; on success the decoded amount is kept and the tag is TagAmountNegotiatedDiscount |
| NegotiatedDiscount.AmountNegotiatedDiscount.String | amountNegotiatedDiscount.go:82-86 | String is the fixed-width Format |
| NegotiatedDiscount.AmountNegotiatedDiscount.Format | amountNegotiatedDiscount.go:89-98 | the built string is FormatOf of the fields under the options |
| NegotiatedDiscount.FormatShape | amountNegotiatedDiscount.go:89-98 | Format never strips; the record is the tag, the 3-wide currency code the same in both modes, and the amount followed by one delimiter |
| NegotiatedDiscount.FixedLength | amountNegotiatedDiscount.go:89-98 | with fixed-width rendering a record is 29 characters long |
| NegotiatedDiscount.MaxLengthFromVerify | amountNegotiatedDiscount.go:46-64 | some read fails exactly when the error is present and not a MaxLength; when both reads succeed, there is no error exactly when verifyDataWithReadLength accepts the cursor after the amount, and otherwise the error is MaxLength of what it reported |
| NegotiatedDiscount.CompleteReadsFillFields | amountNegotiatedDiscount.go:43-59 | when both reads succeed, the tag is record[0:6] and each field holds what its own read returned |
| NegotiatedDiscount.FailureStopsParse | amountNegotiatedDiscount.go:46-59 | a field error names a field and carries no value; the currency code fails exactly when its read fails, leaving the amount untouched; the amount fails exactly when the code was read and the amount's read fails, leaving the code as read |
| NegotiatedDiscount.ParseOverwrites | amountNegotiatedDiscount.go:38-65 | the error does not depend on the segment's previous contents, and a successful parse overwrites every field |
| NegotiatedDiscount.RoundTrip | amountNegotiatedDiscount.go:38-98 | parsing Format output, in either mode, restores the segment with no error |
| NegotiatedDiscount.ParseDoesNotValidate | amountNegotiatedDiscount.go:38-116 | a record that parses cleanly, with the right tag and an accepted currency code, is still refused by Validate when isAmount rejects its amount |
| NegotiatedDiscount.EmptyAmountReportedFirst | amountNegotiatedDiscount.go:102-125 | an empty amount is reported as FieldRequired whatever the tag, the currency code and the validators |
| NegotiatedDiscount.CurrencyBeforeAmount | amountNegotiatedDiscount.go:109-114 | the currency code is checked before the amount |
| InstructedAmount.ParseOf | currencyInstructedAmount.go:41-68 | a record under 25 characters is a MinLength(25, len) error and changes nothing; otherwise the tag is record[0:6] |
| InstructedAmount.Start | currencyInstructedAmount.go:42-48 | Parse gets past the minimum-length check exactly when the record has at least 25 characters, and the first read starts at 6 |
| InstructedAmount.Consumed | currencyInstructedAmount.go:49-63 | the cursor after the amount exists only when the SWIFT field tag was read first, and lies within the record |
| InstructedAmount.FormatSwiftFieldTag | currencyInstructedAmount.go:136-138 | in fixed mode the SWIFT field tag takes 5 characters |
| InstructedAmount.FormatAmount | currencyInstructedAmount.go:131-133 | in fixed mode the amount takes 18 characters |
| InstructedAmount.AmountField | currencyInstructedAmount.go:126-128 | the zero-padded amount is 18 characters wide when numericStringField pads to its width |
| InstructedAmount.Validate | currencyInstructedAmount.go:105-116 | no error exactly when the tag is right and both validators accept; a wrong tag is reported first, then a rejected SWIFT field tag, then a rejected amount, each with the kind its check gave and the rejected value |
| InstructedAmount.CurrencyInstructedAmount.constructor | currencyInstructedAmount.go:30-35 | a new segment is empty and carries the tag TagCurrencyInstructedAmount |
| InstructedAmount.CurrencyInstructedAmount.Parse | currencyInstructedAmount.go:41-68 | the fields the method leaves, and the error it returns, are those ParseOf gives for the old fields and the record |
| InstructedAmount.CurrencyInstructedAmount.UnmarshalJSON | currencyInstructedAmount.go:70-82 | on a decoder error that error is returned and the tag keeps its old value; on success the decoded fields are kept and the tag is TagCurrencyInstructedAmount |
| InstructedAmount.CurrencyInstructedAmount.String | currencyInstructedAmount.go:85-89 | String is the fixed-width Format |
| InstructedAmount.CurrencyInstructedAmount.Format | currencyInstructedAmount.go:92-101 | the built string is FormatOf of the fields under the options |
| InstructedAmount.FormatIgnoresStripAndAmountField | currencyInstructedAmount.go:92-128 | Format never strips, and the zero-padded AmountField never reaches the output |
| InstructedAmount.FormatEndsWithDelimiter | currencyInstructedAmount.go:92-101 | in both modes the record ends in the delimiter |
| InstructedAmount.FixedLength | currencyInstructedAmount.go:92-101 | with fixed-width rendering a record is 31 characters long |
| InstructedAmount.MaxLengthFromVerify | currencyInstructedAmount.go:49-67 | some read fails exactly when the error is present and not a MaxLength; when both reads succeed, there is no error exactly when verifyDataWithReadLength accepts the cursor after the amount, and otherwise the error is MaxLength of what it reported |
| InstructedAmount.CompleteReadsFillFields | currencyInstructedAmount.go:46-62 | when both reads succeed, the tag is record[0:6] and each field holds what its own read returned |
| InstructedAmount.FailureStopsParse | currencyInstructedAmount.go:49-62 | a field error names a field and carries no value; the SWIFT field tag fails exactly when its read fails, leaving both fields untouched; the amount fails exactly when the tag was read and the amount's read fails, leaving the tag as read |
| InstructedAmount.ParseOverwrites | currencyInstructedAmount.go:41-68 | the error does not depend on the segment's previous contents, and a successful parse overwrites every field |
| InstructedAmount.FixedRoundTrip | currencyInstructedAmount.go:41-101 | parsing String() output restores the segment with no error |
| InstructedAmount.ShortVariableRenderingRejected | currencyInstructedAmount.go:41-101 | a variable-length rendering of short fields is below the 25-character minimum, so Parse refuses it on length alone |
| InstructedAmount.WrongTagReportedFirst | currencyInstructedAmount.go:105-108 | with a wrong tag the error is the tag error, whatever the field values and whichever validators are used |
| CreditedDrawdown.ParseOf | accountCreditedDrawdown.go:38-58 | a record under 7 characters is a MinLength(7, len) error and changes nothing; otherwise the tag is record[0:6] |
| CreditedDrawdown.Start | accountCreditedDrawdown.go:39-45 | Parse gets past the minimum-length check exactly when the record has at least 7 characters, and the read starts at 6 |
| CreditedDrawdown.Consumed | accountCreditedDrawdown.go:46-53 | the cursor after the account number exists only when the length check passed, and lies within the record |
| CreditedDrawdown.DrawdownCreditAccountNumberField | accountCreditedDrawdown.go:115-117 | with fixed-width rendering the account number takes 9 characters |
| CreditedDrawdown.FieldInclusion | accountCreditedDrawdown.go:107-112 | an error exactly when the account number is empty, namely FieldRequired on it |
| CreditedDrawdown.Validate | accountCreditedDrawdown.go:92-103 | no error exactly when the number is present, the tag is right and isNumeric accepts; a fieldInclusion error wins, then a wrong tag |
| CreditedDrawdown.AccountCreditedDrawdown.constructor | accountCreditedDrawdown.go:27-32 | a new segment is empty and carries the tag TagAccountCreditedDrawdown |
| CreditedDrawdown.AccountCreditedDrawdown.Parse | accountCreditedDrawdown.go:38-58 | the fields the method leaves, and the error it returns, are those ParseOf gives for the old fields and the record |
| CreditedDrawdown.AccountCreditedDrawdown.UnmarshalJSON | accountCreditedDrawdown.go:60-72 | on a decoder error that error is returned and the tag keeps its old value; on success the decoded number is kept and the tag is TagAccountCreditedDrawdown |
| CreditedDrawdown.AccountCreditedDrawdown.String | accountCreditedDrawdown.go:75-79 | String is the fixed-width Format |
| CreditedDrawdown.AccountCreditedDrawdown.Format | accountCreditedDrawdown.go:82-88 | the built string is FormatOf of the fields under the options |
| CreditedDrawdown.FormatIgnoresOptions | accountCreditedDrawdown.go:82-88 | Format gives the same record in both modes and never strips |
| CreditedDrawdown.FormatLength | accountCreditedDrawdown.go:82-88 | with fixed-width rendering a record is 15 characters long and starts with the tag |
| CreditedDrawdown.ShortRecordIsFieldError | accountCreditedDrawdown.go:38-51 | a record of 7 to 14 characters passes the length check and fails on the account number |
| CreditedDrawdown.MaxLengthFromVerify | accountCreditedDrawdown.go:46-57 | the read fails exactly when the error is present and not a MaxLength; when it succeeds, there is no error exactly when verifyDataWithReadLength accepts the cursor after the account number, and otherwise the error is MaxLength of what it reported |
| CreditedDrawdown.CompleteReadsFillFields | accountCreditedDrawdown.go:43-51 | when the read succeeds, the tag is record[0:6] and the account number is what the read returned |
| CreditedDrawdown.ParseOverwrites | accountCreditedDrawdown.go:38-58 | the error does not depend on the segment's previous contents, and a successful parse overwrites every field |
| CreditedDrawdown.RoundTrip | accountCreditedDrawdown.go:38-88 | parsing Format output, in either mode, restores the segment with no error |
| CreditedDrawdown.EmptyAccountBeatsWrongTag | accountCreditedDrawdown.go:92-98 | a missing account number is reported as FieldRequired whatever the tag and the validators |
| CreditedDrawdown.OnlyNumericRemains | accountCreditedDrawdown.go:92-103 | with the number present and the tag right, Validate accepts exactly what isNumeric accepts and otherwise reports its error with the value |

## Left out

- The converter and validator primitives (`parseVariableStringField`, `alphaField`, `isAlphanumeric`, and the rest) are uninterpreted. Their bodies and the character tables behind them are not part of this model.
- The tag constants and `DemandDepositAccountNumber` are parameters, not their literal values.
- `json.Unmarshal` is a foreign call. Its outcome is a parameter of each UnmarshalJSON (`Wire.JsonOutcome`), with the fields it set and whether it failed. What it does with the JSON text is not modelled.
- `strings.Builder.Grow` is a capacity hint with no effect on the output, and it is left out.
- Getters that Format does not call are left out, because each only renders one field:
  - AccountDebitedDrawdown: `IdentifierField`, `NameField`, `AddressLineOneField`, `AddressLineTwoField`, `AddressLineThreeField`;
  - FIBeneficiaryFIAdvice: `LineOneField` to `LineSixField`;
  - AmountNegotiatedDiscount: `AmountField`, `FormatCurrencyCode`;
  - CurrencyInstructedAmount: `SwiftFieldTagField`;
  - AccountCreditedDrawdown: `FormatCreditAccountNumber`.

  CurrencyInstructedAmount's `AmountField` is modelled, and shown not to reach Format's output.
- DebitedDrawdown.IdentificationCodeField, DebitedDrawdown.FormatIdentifier to DebitedDrawdown.FormatAddressLineThree, FIAdvice.AdviceCodeField, FIAdvice.FormatLineOne to FIAdvice.FormatLineSix, NegotiatedDiscount.CurrencyCodeField, NegotiatedDiscount.FormatAmount, InstructedAmount.FormatSwiftFieldTag, InstructedAmount.FormatAmount, InstructedAmount.AmountField, CreditedDrawdown.DrawdownCreditAccountNumberField: each states only the width of its rendering, under the padding assumption. Which characters pad the value, and how a value longer than the width is cut, belong to `alphaField`, `formatAlphaField` and `numericStringField`, which are not part of this model.
- The Reader, the Writer and whole-message assembly are outside these five segments.
- Multi-byte characters are not modelled. For them, the rune count checked against the minimum length differs from `len(record)`.
- DebitedDrawdown.FixedRoundTrip, FIAdvice.FixedRoundTrip: these round trips are stated for fixed-width mode only. In variable-length mode the record goes through `stripDelimiters`, whose effect on the field reads is not constrained here.
- InstructedAmount.FixedRoundTrip: stated for fixed-width mode only. A variable-length rendering of short values is shorter than the 25-character minimum and is refused (InstructedAmount.ShortVariableRenderingRejected).
- DebitedDrawdown.AccountDebitedDrawdown.Parse, FIAdvice.FIBeneficiaryFIAdvice.Parse: each hands the later fields to a second method at the current cursor. The Go code reads all fields in one body; the order of updates and the result are the same.
