/** What `generate` computes (src/Paynow.php:85-217), as functions of the
    request and of the moment the clock is read: the validation that throws,
    the list of data objects, and the framed payload. */
module Payload {
  import opened Wrappers
  import opened Decimal
  import opened Tlv
  import Crc16

  /** `Paynow::PAY_VIA_UEN` and `Paynow::PAY_VIA_MOBILE`. */
  const PayViaUen: string := "2"
  const PayViaMobile: string := "0"

  datatype Date = Date(year: nat, month: nat, day: nat)

  /** A point in time: a calendar date and the second of that day. */
  datatype Moment = Moment(date: Date, second: nat)

  predicate LeapYear(y: nat) {
    y % 4 == 0 && (y % 100 != 0 || y % 400 == 0)
  }

  function DaysInMonth(y: nat, m: nat): nat {
    if m == 2 then (if LeapYear(y) then 29 else 28)
    else if m == 4 || m == 6 || m == 9 || m == 11 then 30
    else 31
  }

  /** What a PHP DateTime can hold. */
  predicate ValidMoment(t: Moment) {
    1 <= t.date.month <= 12 && 1 <= t.date.day <= DaysInMonth(t.date.year, t.date.month) &&
    t.second < 86400
  }

  /** `a < b` on DateTime: a is strictly earlier than b. */
  predicate Before(a: Moment, b: Moment) {
    a.date.year < b.date.year ||
    (a.date.year == b.date.year && a.date.month < b.date.month) ||
    (a.date.year == b.date.year && a.date.month == b.date.month && a.date.day < b.date.day) ||
    (a.date == b.date && a.second < b.second)
  }

  /** `format('Ymd')`: the year with at least four digits, month and day with
      two. */
  function Ymd(d: Date): string {
    ZeroPadded(NatToString(d.year), 4) + ZeroPadded(NatToString(d.month), 2) + ZeroPadded(NatToString(d.day), 2)
  }

  lemma PaddedDigits(n: nat, w: nat)
    requires 1 <= w && n < Pow10(w)
    ensures |ZeroPadded(NatToString(n), w)| == w
    ensures AllDigits(ZeroPadded(NatToString(n), w)) && DigitsValue(ZeroPadded(NatToString(n), w)) == n
  {
    NatToStringAtMost(n, w);
    ZeroPaddedValue(n, w);
  }

  /** A date with a year below 10000 is rendered as exactly eight digits that
      read back as year, month and day. */
  lemma YmdReadsBack(d: Date)
    requires d.year < 10000 && d.month < 100 && d.day < 100
    ensures |Ymd(d)| == 8 && AllDigits(Ymd(d))
    ensures DigitsValue(Ymd(d)[..4]) == d.year
    ensures DigitsValue(Ymd(d)[4..6]) == d.month
    ensures DigitsValue(Ymd(d)[6..]) == d.day
  {
    var y, m, dd := ZeroPadded(NatToString(d.year), 4), ZeroPadded(NatToString(d.month), 2), ZeroPadded(NatToString(d.day), 2);
    assert Pow10(4) == 10000 && Pow10(2) == 100;
    PaddedDigits(d.year, 4);
    PaddedDigits(d.month, 2);
    PaddedDigits(d.day, 2);
    ReadDigits3(y, m, dd);
  }

  lemma ReadDigits3(y: string, m: string, dd: string)
    requires |y| == 4 && |m| == 2 && |dd| == 2 && AllDigits(y) && AllDigits(m) && AllDigits(dd)
    ensures var s := y + m + dd;
      |s| == 8 && AllDigits(s) &&
      DigitsValue(s[..4]) == DigitsValue(y) && DigitsValue(s[4..6]) == DigitsValue(m) && DigitsValue(s[6..]) == DigitsValue(dd)
  {
    DigitsConcat3(y, m, dd);
  }

  /** `number_format($amount, 2, '.', '')` for an amount of `cents`
      hundredths: whole units, a point, exactly two decimals. */
  function AmountText(cents: nat): string {
    NatToString(cents / 100) + "." + [DigitChar(cents / 10 % 10), DigitChar(cents % 10)]
  }

  /** The amount text is digits, a point three from the end and two more
      digits, and it reads back as the amount. */
  lemma AmountTextReadsBack(cents: nat)
    ensures var t := AmountText(cents);
      |t| >= 4 && t[|t| - 3] == '.' &&
      AllDigits(t[..|t| - 3]) && AllDigits(t[|t| - 2..]) &&
      DigitsValue(t[..|t| - 3]) * 100 + DigitsValue(t[|t| - 2..]) == cents
  {
    var w := NatToString(cents / 100);
    var f := [DigitChar(cents / 10 % 10), DigitChar(cents % 10)];
    var t := w + "." + f;
    assert t[..|t| - 3] == w && t[|t| - 2..] == f;
    NatToStringValue(cents / 100);
    DigitsValueTwo(f[0], f[1]);
  }

  /** The parameters of `generate` as `generate` stores them in its fields
      (lines 97-106); the amount is counted in cents and a null string is None. */
  datatype Request = Request(
    amount: int,
    editable: bool,
    uniqueOrderCode: string,
    expiry: Moment,
    company: string,
    merchantCountry: string,
    merchantCity: string,
    uen: Option<string>,
    mobile: Option<string>,
    createAsBase64Image: bool)

  /** The InvalidArgumentException cases of `validateParams`. */
  datatype Error = NegativeAmount | MissingCompany | MissingCountry | MissingCity | ExpiryInPast | MissingPayee

  function Message(e: Error): string {
    match e
    case NegativeAmount => "Amount cannot be < 0."
    case MissingCompany => "Company name must be provided."
    case MissingCountry => "Country of merchant must be provided."
    case MissingCity => "City of merchant must be provided."
    case ExpiryInPast => "Expiry date of QR Code must be in the future."
    case MissingPayee => "Mobile OR company UEN must be provided."
  }

  /** The exception text tells the checks apart: no two errors share a
      message. */
  lemma MessagesDistinct(e1: Error, e2: Error)
    ensures Message(e1) == Message(e2) <==> e1 == e2
  {
    assert Message(NegativeAmount) != Message(MissingCompany);
    assert Message(NegativeAmount) != Message(MissingCountry);
    assert Message(NegativeAmount) != Message(MissingCity);
    assert Message(NegativeAmount) != Message(ExpiryInPast);
    assert Message(NegativeAmount) != Message(MissingPayee);
    assert Message(MissingCompany) != Message(MissingCountry);
    assert Message(MissingCompany) != Message(MissingCity);
    assert Message(MissingCompany) != Message(ExpiryInPast);
    assert Message(MissingCompany) != Message(MissingPayee);
    assert Message(MissingCountry) != Message(MissingCity);
    assert Message(MissingCountry) != Message(ExpiryInPast);
    assert Message(MissingCountry) != Message(MissingPayee);
    assert Message(MissingCity) != Message(ExpiryInPast);
    assert Message(MissingCity) != Message(MissingPayee);
    assert Message(ExpiryInPast) != Message(MissingPayee);
  }

  /** `validateParams`: the first failing check, in the code's order. */
  function Validate(r: Request, now: Moment): Option<Error> {
    if r.amount < 0 then Some(NegativeAmount)
    else if r.company == "" then Some(MissingCompany)
    else if r.merchantCountry == "" then Some(MissingCountry)
    else if r.merchantCity == "" then Some(MissingCity)
    else if Before(r.expiry, now) then Some(ExpiryInPast)
    else if r.uen.None? && r.mobile.None? then Some(MissingPayee)
    else None
  }

  /** The checks as a table: the order they run in, and the condition under
      which each one throws. */
  const CheckOrder: seq<Error> := [NegativeAmount, MissingCompany, MissingCountry, MissingCity, ExpiryInPast, MissingPayee]

  predicate Violates(r: Request, now: Moment, e: Error) {
    match e
    case NegativeAmount => r.amount < 0
    case MissingCompany => r.company == ""
    case MissingCountry => r.merchantCountry == ""
    case MissingCity => r.merchantCity == ""
    case ExpiryInPast => Before(r.expiry, now)
    case MissingPayee => r.uen.None? && r.mobile.None?
  }

  /** First failure wins: validation reports e exactly when e's check fails
      and every check before it in the table passes, and it accepts exactly
      when no check fails. */
  lemma ValidateFirstFailure(r: Request, now: Moment)
    ensures forall k :: 0 <= k < |CheckOrder| ==>
      (Validate(r, now) == Some(CheckOrder[k]) <==>
        Violates(r, now, CheckOrder[k]) && forall j :: 0 <= j < k ==> !Violates(r, now, CheckOrder[j]))
    ensures Validate(r, now) == None <==> forall e :: !Violates(r, now, e)
  {
    var v := Validate(r, now);
    forall k | 0 <= k < |CheckOrder|
      ensures v == Some(CheckOrder[k]) <==>
        Violates(r, now, CheckOrder[k]) && forall j :: 0 <= j < k ==> !Violates(r, now, CheckOrder[j])
    {
      if k >= 1 { assert CheckOrder[0] == NegativeAmount; }
      if k >= 2 { assert CheckOrder[1] == MissingCompany; }
      if k >= 3 { assert CheckOrder[2] == MissingCountry; }
      if k >= 4 { assert CheckOrder[3] == MissingCity; }
      if k >= 5 { assert CheckOrder[4] == ExpiryInPast; }
    }
    if v.Some? {
      assert Violates(r, now, v.value);
    }
  }

  /** No check rejects a zero amount or an expiry equal to the moment of
      validation. */
  lemma BoundariesAccepted(r: Request, now: Moment)
    requires r.amount == 0 && r.expiry == now
    ensures Validate(r, now) != Some(NegativeAmount) && Validate(r, now) != Some(ExpiryInPast)
    ensures (r.company != "" && r.merchantCountry != "" && r.merchantCity != "" && HasPayee(r))
      ==> Validate(r, now) == None
  {
  }

  predicate HasPayee(r: Request) {
    r.uen.Some? || r.mobile.Some?
  }

  /** `$this->paymentType` as `validateParams` sets it (lines 144-148). */
  function PaymentType(r: Request): string {
    if r.uen.Some? then PayViaUen else PayViaMobile
  }

  /** A nullable string as PHP uses it in a string context: null is "". */
  function NullText(o: Option<string>): string {
    if o.Some? then o.value else ""
  }

  /** Sub-field 26/02 as line 167 computes it from the field `paymentType`:
      the UEN when the type is '2', else the mobile. */
  function PayeeOf(r: Request, paymentType: string): string {
    if paymentType == PayViaUen then NullText(r.uen) else NullText(r.mobile)
  }

  /** Sub-field 26/02 once `validateParams` has set the type. */
  function Payee(r: Request): string
    requires HasPayee(r)
  {
    PayeeOf(r, PaymentType(r))
  }

  /** Payee selection: the type is '2' exactly when a UEN is given and '0'
      otherwise, the payee is the UEN in the first case and the mobile in the
      second, so a UEN wins when both are supplied. */
  lemma PayeeSelection(r: Request)
    requires HasPayee(r)
    ensures PaymentType(r) == "2" <==> r.uen.Some?
    ensures PaymentType(r) == "0" <==> r.uen.None?
    ensures r.uen.Some? ==> Payee(r) == r.uen.value
    ensures r.uen.None? ==> Payee(r) == r.mobile.value
  {
  }

  /** Sub-field 26/03: `$this->editable ? 1 : 0` turned into a string. */
  function EditableFlag(editable: bool): (s: string)
    ensures s == if editable then "1" else "0"
  {
    NatToString(if editable then 1 else 0)
  }

  /** The sub-objects of tag 26, the merchant account template (lines
      164-170), as `build` reads them from the fields, `paymentType` included. */
  function MerchantAccountOf(r: Request, paymentType: string): seq<Field> {
    [ Field("00", "SG.PAYNOW"),
      Field("01", paymentType),
      Field("02", PayeeOf(r, paymentType)),
      Field("03", EditableFlag(r.editable)),
      Field("04", Ymd(r.expiry.date)) ]
  }

  /** `$mainData` (lines 158-179) for a given `paymentType` field. */
  function MainDataOf(r: Request, paymentType: string): seq<Node>
    requires r.amount >= 0
  {
    [ Leaf("00", "01"),
      Leaf("01", "12"),
      Template("26", MerchantAccountOf(r, paymentType)),
      Leaf("52", "0000"),
      Leaf("53", "702"),
      Leaf("54", AmountText(r.amount)),
      Leaf("58", r.merchantCountry),
      Leaf("59", r.company),
      Leaf("60", r.merchantCity) ]
  }

  /** Tag 26 once `validateParams` has set the type. */
  function MerchantAccount(r: Request): seq<Field>
    requires HasPayee(r)
  {
    MerchantAccountOf(r, PaymentType(r))
  }

  /** `$mainData` once `validateParams` has set the type. */
  function MainData(r: Request): seq<Node>
    requires HasPayee(r) && r.amount >= 0
  {
    MainDataOf(r, PaymentType(r))
  }

  /** `$addtionalData` (lines 181-189): tag 62 holding the bill number. */
  function AdditionalData(r: Request): Node {
    Template("62", [Field("01", r.uniqueOrderCode)])
  }

  /** The node list after the conditional `array_push` (lines 191-193). */
  function Assemble(r: Request): seq<Node>
    requires HasPayee(r) && r.amount >= 0
  {
    MainData(r) + if r.uniqueOrderCode != "" then [AdditionalData(r)] else []
  }

  function Ids(ns: seq<Node>): (ids: seq<string>)
    ensures |ids| == |ns| && forall i :: 0 <= i < |ns| ==> ids[i] == ns[i].id
  {
    if ns == [] then [] else [ns[0].id] + Ids(ns[1..])
  }

  /** The top-level order is fixed, and tag 62 follows tag 60 exactly when the
      order code is not empty. */
  lemma TopLevelOrder(r: Request)
    requires HasPayee(r) && r.amount >= 0
    ensures Ids(Assemble(r)) ==
      ["00", "01", "26", "52", "53", "54", "58", "59", "60"] + if r.uniqueOrderCode != "" then ["62"] else []
    ensures "62" in Ids(Assemble(r)) <==> r.uniqueOrderCode != ""
  {
    var ns, ids := Assemble(r), Ids(Assemble(r));
    var ex := ["00", "01", "26", "52", "53", "54", "58", "59", "60"] + if r.uniqueOrderCode != "" then ["62"] else [];
    assert |ids| == |ex|;
    forall i | 0 <= i < |ids| ensures ids[i] == ex[i] {
      assert ids[i] == ns[i].id;
    }
    assert ids == ex;
    if r.uniqueOrderCode != "" {
      assert ids[9] == "62";
    }
  }

  /** The sizes under which every object of the payload fits the two-digit
      length fields: 39 bytes of tag 26 are fixed, so the payee may have 60. */
  predicate PayloadFits(r: Request)
    requires HasPayee(r) && r.amount >= 0
  {
    |Payee(r)| <= 60 && |AmountText(r.amount)| <= 99 &&
    |r.merchantCountry| <= 99 && |r.company| <= 99 && |r.merchantCity| <= 99 &&
    |r.uniqueOrderCode| <= 95 && r.expiry.date.year < 10000 && ValidMoment(r.expiry)
  }

  /** Tag 26's length is the size of its five encoded sub-objects: 39 bytes
      plus the payee. */
  lemma MerchantAccountLength(r: Request)
    requires HasPayee(r) && |Payee(r)| <= 60 && r.expiry.date.year < 10000 && ValidMoment(r.expiry)
    ensures forall f :: f in MerchantAccount(r) ==> Fits(f)
    ensures |SerializeFields(MerchantAccount(r))| == 39 + |Payee(r)|
  {
    YmdReadsBack(r.expiry.date);
    assert |EditableFlag(r.editable)| == 1;
    SerializedSizeFive(Field("00", "SG.PAYNOW"), Field("01", PaymentType(r)), Field("02", Payee(r)),
                       Field("03", EditableFlag(r.editable)), Field("04", Ymd(r.expiry.date)));
  }

  lemma AdditionalDataFits(r: Request)
    requires |r.uniqueOrderCode| <= 95
    ensures NodeFits(AdditionalData(r))
  {
    var ad := [Field("01", r.uniqueOrderCode)];
    SerializedSize(ad);
    assert EncodedSize(ad) == 4 + |r.uniqueOrderCode|;
  }

  /** Every node of a payload that fits is well formed for the scan. */
  lemma AssembleFits(r: Request)
    requires HasPayee(r) && r.amount >= 0 && PayloadFits(r)
    ensures forall n :: n in Assemble(r) ==> NodeFits(n)
  {
    var ns := Assemble(r);
    forall i | 0 <= i < |ns| ensures NodeFits(ns[i]) {
      if i == 2 {
        MerchantAccountLength(r);
      } else if i == 9 {
        AdditionalDataFits(r);
      }
    }
  }

  /** The round trip of a payload that fits: scanning the body reads back the
      top-level line-up, scanning tag 26's value reads back its five
      sub-objects, and scanning tag 62's value reads back the bill number. */
  lemma ScanPayload(r: Request)
    requires HasPayee(r) && r.amount >= 0 && PayloadFits(r)
    ensures Scan(SerializeNodes(Assemble(r))) == Some(TopLevelFields(r))
    ensures Scan(SerializeFields(MerchantAccount(r))) == Some(
      [ Field("00", "SG.PAYNOW"),
        Field("01", PaymentType(r)),
        Field("02", Payee(r)),
        Field("03", EditableFlag(r.editable)),
        Field("04", Ymd(r.expiry.date)) ])
    ensures r.uniqueOrderCode != "" ==>
      Scan(SerializeFields([Field("01", r.uniqueOrderCode)])) == Some([Field("01", r.uniqueOrderCode)])
  {
    AssembleFits(r);
    ScanSerializeNodes(Assemble(r));
    FlattenedAssemble(r);
    MerchantAccountLength(r);
    ScanSerializeFields(MerchantAccount(r));
    if r.uniqueOrderCode != "" {
      ScanSerializeFields([Field("01", r.uniqueOrderCode)]);
    }
  }

  /** The top level as a decoder reads it: the ids in their fixed order with
      their fixed or derived values, tag 26 holding the serialised merchant
      account and tag 62 only when there is a bill number. */
  function TopLevelFields(r: Request): seq<Field>
    requires HasPayee(r) && r.amount >= 0
  {
    [ Field("00", "01"),
      Field("01", "12"),
      Field("26", SerializeFields(MerchantAccount(r))),
      Field("52", "0000"),
      Field("53", "702"),
      Field("54", AmountText(r.amount)),
      Field("58", r.merchantCountry),
      Field("59", r.company),
      Field("60", r.merchantCity) ] +
    if r.uniqueOrderCode != "" then [Field("62", SerializeFields([Field("01", r.uniqueOrderCode)]))] else []
  }

  lemma FlattenedAssemble(r: Request)
    requires HasPayee(r) && r.amount >= 0
    ensures Flattened(Assemble(r)) == TopLevelFields(r)
  {
    var fs, ex := Flattened(Assemble(r)), TopLevelFields(r);
    assert |fs| == |ex|;
    forall i | 0 <= i < |fs| ensures fs[i] == ex[i] {
      if i == 2 {
        assert Assemble(r)[2] == Template("26", MerchantAccount(r));
      } else if i == 9 {
        assert Assemble(r)[9] == AdditionalData(r);
      }
    }
  }

  /** Line 211: the body, the checksum tag "6304", and the CRC16 of everything
      before the checksum, "6304" included. */
  function Frame(body: string): (p: string)
    ensures |p| == |body| + 8 && p[..|body|] == body
    ensures p[|body|..|body| + 4] == "6304" && p[..|p| - 4] == body + "6304"
    ensures p[|p| - 4..] == Crc16.Calculate(p[..|p| - 4])
    ensures forall i :: |p| - 4 <= i < |p| ==> Crc16.IsUpperHex(p[i])
  {
    var p := body + "6304" + Crc16.Calculate(body + "6304");
    assert p[..|p| - 4] == body + "6304";
    p
  }

  /** The raw payload `build` returns. */
  function Encode(r: Request): string
    requires HasPayee(r) && r.amount >= 0
  {
    Frame(SerializeNodes(Assemble(r)))
  }

  /** What `build` returns: the raw payload, or that payload handed to the
      image renderer when the flag asks for an image. */
  datatype Output = Raw(payload: string) | Image(payload: string)

  function Deliver(r: Request): Output
    requires HasPayee(r) && r.amount >= 0
  {
    if r.createAsBase64Image then Image(Encode(r)) else Raw(Encode(r))
  }

  /** `generate`: validation first, so nothing is assembled for a rejected
      request. */
  function Generate(r: Request, now: Moment): (result: Result<Output, Error>)
    ensures result.Failure? <==> Validate(r, now).Some?
    ensures result.Failure? ==> result.error == Validate(r, now).value
    ensures result.Success? ==> HasPayee(r) && r.amount >= 0 && result.value.payload == Encode(r)
    ensures result.Success? ==> (result.value.Raw? <==> !r.createAsBase64Image)
  {
    match Validate(r, now)
    case Some(e) => Failure(e)
    case None => Success(Deliver(r))
  }
}
