# PayNow QR payload, modelled in Dafny

A model of `src/Paynow.php` from the `chriswest101/paynow` PHP package. The
package builds the text of a PayNow QR code. This is the EMV-style string of
tag, two-digit length and value objects that Singapore banking apps scan.
`generate` stores its ten arguments in the object's fields. `validateParams`
checks them in a fixed order and throws on the first failure, and it sets
`paymentType`. `build` lays out the data objects: tags 00, 01, the merchant
account template 26, then 52, 53, 54, 58, 59, 60 and, when there is a bill
number, the additional-data template 62. It serialises templates first and then
the top level, and it ends the string with the checksum object `6304` plus a
CRC16 of everything before it.

Modules:

- `Wrappers`: `Option` and `Result`.
- `Decimal`: PHP's int-to-string conversion, `padLeft`, the length field built
  from them and its read-back, and zero-padded digits.
- `Tlv`: data objects (`Field`, and `Node` as leaf or template), their
  serialisation, a left-to-right `Scan` that inverts it, and size lemmas.
- `Crc16`: CRC-16/CCITT-FALSE. This is polynomial 0x1021 with the register
  starting at 0xFFFF, whole bytes fed most significant bit first, and the result
  written as four upper-case hexadecimal digits. It is a reference definition:
  the `CRC16` helper class is not part of this model.
- `Payload`: the request value, dates, validation, payment type and payee, the
  node list, framing, and `Generate` as a function of the request and the clock
  reading.
- `Service`: the class `Paynow` with the source's fields. Its methods
  `Generate`, `ValidateParams` and `Build` update those fields step by step.
  `SerializeData` holds the nested `foreach` loops, proved against the
  serialisation function of `Tlv`.
- `TestVectors`: the inputs and expected strings of `tests/Unit/PaynowTest.php`.

Representation choices:

- The amount is a whole number of cents.
- A PHP `null` is `None`.
- A character stands for one byte, so `strlen` is the sequence length.
- The clock reading `new DateTime()` of `validateParams` is the parameter `now`.
- A `DateTime` is a calendar date plus the second of the day.
- `PayNowService::PAY_VIA_UEN` and `PAY_VIA_MOBILE` (lines 145 and 147) name a
  class that the package does not declare. The model reads them as the class's
  own constants `PAY_VIA_UEN = '2'` and `PAY_VIA_MOBILE = '0'` (lines 13-14).
- An `InvalidArgumentException` is a `Failure` carrying an `Error`. `Message`
  gives each error's exception text.

The exception text at line 137 says the expiry "must be in the future". The
code throws only when `expiry < now` (line 136), so an expiry equal to the clock
reading is accepted. The model follows the code (`BoundariesAccepted`). The code
also accepts amount 0.

`build` fills sub-objects 26/01 and 26/02 from the field `paymentType` that
`validateParams` sets (lines 166-167). `Service.Paynow.Build` does the same
through `MainDataOf(Current(), paymentType)`, so it needs the validated state to
know that field. A PHP `null` read as a string is empty (`NullText`).

The format itself reserves two digits for each length. `padLeft` adds at most
one `'0'` and never truncates, so a value of 100 bytes or more gets a length
field of three or more digits. `LengthFieldTwoDigits` states both sides of this.
The round-trip lemmas take as a precondition that every value fits in 99 bytes
(`Fits`, `PayloadFits`).

The expected strings of the two payload tests are written in `TestVectors` cut
into id, length and value at each object boundary, without the four checksum
characters. Their concatenation is the string of lines 163 and 187. The dates
inside them hold only for an expiry on 12 November 2020.

## Model

| member | source | states |
|---|---|---|
| Decimal.NatToStringDigits | src/Paynow.php:200-204 | the int-to-string conversion `strlen` goes through yields at least one decimal digit, no leading zero unless the number is 0, and exactly one digit iff the number is below 10 |
| Decimal.NatToStringValue | src/Paynow.php:200-204 | the digits written for a length read back as that length |
| Decimal.NatToStringWidth | src/Paynow.php:200-204 | lengths 10..99 are written with exactly two digits and lengths from 100 on with at least three |
| Decimal.PadLeftBehaviour | src/Paynow.php:237-244 | `padLeft(s, n)` is `s` when `n <= strlen(s)` and otherwise `s` with exactly one `'0'` in front, which can still be shorter than `n` |
| Decimal.LengthFieldTwoDigits | src/Paynow.php:200-204 | for every length 0..99, `padLeft(strlen(v), 2)` is exactly two decimal digits that parse back to the length; from 100 on it has at least three characters |
| Decimal.NatToStringAtMost | src/Paynow.php:169 | a number below 10^w is written with at most w digits |
| Decimal.ZeroPaddedValue | src/Paynow.php:169 | a number padded with leading zeros to some width still reads back as the number |
| Payload.YmdReadsBack | src/Paynow.php:169 | `format('Ymd')` of a date whose year is below 10000 is eight digits whose first four, middle two and last two read back as year, month and day |
| Payload.AmountTextReadsBack | src/Paynow.php:174 | `number_format(amount, 2, '.', '')` is whole units, a point, then two decimals, and reads back as the amount in cents |
| Payload.ValidateFirstFailure | src/Paynow.php:118-142 | validation reports check k exactly when check k fails and every earlier check passes, in the order amount, company, country, city, expiry, payee; it accepts exactly when no check fails |
| Payload.BoundariesAccepted | src/Paynow.php:120-138 | amount 0 and an expiry equal to the clock reading trip neither the amount check nor the expiry check; with the other fields present, such a request is accepted |
| Payload.PayeeSelection | src/Paynow.php:144-148 | the payment type is `'2'` iff a UEN is given and `'0'` iff not; sub-field 26/02 (line 167) is then the UEN or the mobile, so the UEN wins when both are given |
| Payload.MessagesDistinct | src/Paynow.php:121-141 | the six exception texts are pairwise distinct, so the text thrown names the check that failed |
| Payload.EditableFlag | src/Paynow.php:168 | sub-field 26/03 is `"1"` for an editable amount and `"0"` otherwise |
| Payload.TopLevelOrder | src/Paynow.php:158-193 | the top-level tags are exactly 00, 01, 26, 52, 53, 54, 58, 59, 60, followed by 62 iff the bill number is not empty; otherwise 62 never appears |
| Payload.FlattenedAssemble | src/Paynow.php:160-189 | after templates are serialised, the top level holds the fixed values 01, 12, 0000, 702, the amount text, country, company and city, the serialised merchant account under 26, and the serialised bill number under 62 |
| Payload.MerchantAccountLength | src/Paynow.php:164-170 | all five sub-objects of tag 26 fit, and tag 26's value is 39 bytes plus the payee |
| Payload.AdditionalDataFits | src/Paynow.php:181-189 | tag 62 holding a bill number of at most 95 bytes fits the two-digit layout |
| Payload.AssembleFits | src/Paynow.php:158-193 | when every value is short enough, every node of the payload fits the two-digit layout |
| Payload.ScanPayload | src/Paynow.php:195-205 | scanning the body recovers the top-level ids and values; scanning tag 26's value recovers SG.PAYNOW, the payment type, the payee, the editable flag and the date in order; scanning tag 62's value recovers the bill number |
| Payload.Frame | src/Paynow.php:211 | the payload is the body, then `6304`, then four upper-case hex digits that are the CRC16 of everything before them, `6304` included |
| Payload.Generate | src/Paynow.php:85-110 | a request fails exactly when validation reports an error, with that error; otherwise it yields the framed payload, raw exactly when the image flag is off |
| Tlv.SerializeFieldsSnoc | src/Paynow.php:199-201 | serialising one more sub-object appends its id, length field and value |
| Tlv.SerializeNodesSnoc | src/Paynow.php:196-205 | serialising one more top-level node appends its id, length field and value, a template's value being its serialised sub-objects |
| Tlv.SerializedSize | src/Paynow.php:197-204 | a template's length is the sum of 4 + \|value\| over its sub-objects |
| Tlv.ScanSerializeFields | src/Paynow.php:199-204 | scanning the serialisation of objects with two-character ids and values of at most 99 bytes recovers exactly those objects |
| Tlv.ScanSerializeNodes | src/Paynow.php:195-205 | the round trip at both levels: the top level scans back to one object per node, and every template's value scans back to its sub-objects |
| Tlv.SerializeFieldsJoin | src/Paynow.php:195-205 | the serialisation is the objects' encodings written one after another |
| Crc16.FeedAppend | src/Paynow.php:211 | the CRC register over a concatenation is the register over the first part, then fed the second |
| Crc16.Hex4ReadsBack | src/Paynow.php:211 | the four checksum digits read back as the 16-bit register value |
| Crc16.Calculate | src/Paynow.php:211 | the checksum is four upper-case hexadecimal digits |
| Service.Paynow.Store | src/Paynow.php:97-106 | after the assignments, the ten fields hold the ten arguments and `paymentType` is unchanged |
| Service.Paynow.Generate | src/Paynow.php:85-110 | the fields hold the arguments; the result is `Payload.Generate` of them; on success the object is in the validated state; on failure `paymentType` is unchanged |
| Service.Paynow.ValidateParams | src/Paynow.php:118-149 | returns the first failing check, leaving `paymentType` alone; otherwise sets `paymentType` to the payment type of the fields |
| Service.Paynow.Build | src/Paynow.php:156-217 | in the validated state, where the field `paymentType` is the one `validateParams` set, returns the framed payload of the node list built from the fields, `paymentType` included. Tag 62 is pushed only for a non-empty bill number, and the payload goes to the image renderer only when the flag is on |
| Service.SerializeData | src/Paynow.php:195-205 | the nested loops produce exactly the serialisation of the node list |
| TestVectors.TestRequestsAccepted | tests/Unit/PaynowTest.php:159-206 | both payload tests' requests pass validation an hour before expiry |
| TestVectors.AccountEncodings | tests/Unit/PaynowTest.php:163-187 | tag 26 of each test's request is encoded object by object as the test strings have it |
| TestVectors.UenPayload | tests/Unit/PaynowTest.php:163 | the UEN request is accepted as a raw payload whose text before the checksum is the expected string of line 163 without `B015` |
| TestVectors.MobilePayload | tests/Unit/PaynowTest.php:187 | the mobile request is accepted as a raw payload whose text before the checksum is the expected string of line 187 without `17C6` |
| TestVectors.FailingTestsRaise | tests/Unit/PaynowTest.php:12-157 | the error each failing test actually raises: the zero-amount test fails for the missing payee, and the blank-country, blank-city and past-expiry tests fail at the blank company |

## Left out

- Image output: the model's `Image` result only marks the payload handed to the renderer. The PNG file read (lines 227-228) and the QR and base64 rendering of `QRCodeService` (line 229) are not modelled. That call also passes two arguments to a three-parameter function.
- Crc16.Calculate: the package's `CRC16` helper is not part of this model. `Crc16` is the standard CRC-16/CCITT-FALSE, so it is not tied to repository code.
- TestVectors.UenPayload: does not state the checksum characters `B015`, because the verifier cannot unfold the CRC over a payload of this length. `TestVectors.MobilePayload` leaves out `17C6` for the same reason.
- Floating point: the amount is whole cents. PHP's float rounding in `number_format` is left out.
- Clock and time zones: `new DateTime()` is the parameter `now`. The model compares date and second of the day, with no time zones and no sub-second precision.
- Bytes: a character stands for one byte. Multi-byte UTF-8 in company or city names, where `strlen` counts bytes, is not modelled.
- Laravel glue: the service provider, facades and test case class have no logic of their own.
