/** The two payloads of tests/Unit/PaynowTest.php (lines 159-206): 100.00 SGD,
    not editable, bill number O123456, expiring an hour after a clock reading
    on 12 November 2020, once paid by UEN and once by mobile number. The
    expected strings are written here cut at object boundaries; their last
    four characters, the checksum, are left out. */
module TestVectors {
  import opened Wrappers
  import opened Decimal
  import opened Tlv
  import opened Payload

  const Now: Moment := Moment(Date(2020, 11, 12), 36000)
  const Expiry: Moment := Moment(Date(2020, 11, 12), 39600)

  const UenRequest: Request :=
    Request(10000, false, "O123456", Expiry, "Clothing Company Pte Ltd", "SG", "Singapore",
            Some("2020111104G"), None, false)

  const MobileRequest: Request :=
    Request(10000, false, "O123456", Expiry, "Clothing Company Pte Ltd", "SG", "Singapore",
            None, Some("82049939"), false)

  /** Tag 26 of the UEN payload, object by object as id, length, value. */
  const UenAccount: seq<string> :=
    ["00" + "09" + "SG.PAYNOW", "01" + "01" + "2", "02" + "11" + "2020111104G", "03" + "01" + "0",
     "04" + "08" + "20201112"]

  /** Tag 26 of the mobile payload, object by object. */
  const MobileAccount: seq<string> :=
    ["00" + "09" + "SG.PAYNOW", "01" + "01" + "0", "02" + "08" + "82049939", "03" + "01" + "0",
     "04" + "08" + "20201112"]

  /** Tag 62 of both payloads. */
  const Additional: seq<string> := ["01" + "07" + "O123456"]

  /** The top-level objects before the checksum, the one of tag 26 aside. */
  function Objects(account: string): seq<string> {
    ["00" + "02" + "01", "01" + "02" + "12", account, "52" + "04" + "0000", "53" + "03" + "702",
     "54" + "06" + "100.00", "58" + "02" + "SG", "59" + "24" + "Clothing Company Pte Ltd",
     "60" + "09" + "Singapore", "62" + "11" + Join(Additional)]
  }

  /** Line 163 without its checksum, object by object. */
  const UenObjects: seq<string> := Objects("26" + "50" + Join(UenAccount))

  /** Line 187 without its checksum, object by object. */
  const MobileObjects: seq<string> := Objects("26" + "47" + Join(MobileAccount))

  /** The length field of a concrete length, digit by digit. */
  lemma LengthFieldOf(n: nat)
    requires n < 100
    ensures LengthField(n) == [DigitChar(n / 10), DigitChar(n % 10)]
  {
    if n >= 10 {
      assert NatToString(n) == [DigitChar(n / 10), DigitChar(n % 10)];
    }
  }

  lemma AmountHundred()
    ensures AmountText(10000) == "100.00"
  {
    assert NatToString(100) == "100" by {
      assert NatToString(10) == "10";
    }
  }

  lemma ExpiryDate()
    ensures Ymd(Expiry.date) == "20201112"
  {
    assert NatToString(2020) == "2020" by {
      assert NatToString(20) == "20";
      assert NatToString(202) == "202";
    }
    assert NatToString(11) == "11";
    assert NatToString(12) == "12";
  }

  /** Both requests pass validation: the expiry is an hour after the clock. */
  lemma TestRequestsAccepted()
    ensures Validate(UenRequest, Now) == None
    ensures Validate(MobileRequest, Now) == None
  {
  }

  lemma Digits()
    ensures DigitChar(0) == '0' && DigitChar(1) == '1' && DigitChar(2) == '2' && DigitChar(3) == '3'
    ensures DigitChar(4) == '4' && DigitChar(6) == '6' && DigitChar(7) == '7' && DigitChar(8) == '8'
    ensures DigitChar(9) == '9' && DigitChar(5) == '5'
  {
  }

  /** Tag 26 of a request that is not editable and expires on 12 November
      2020, for a payee whose length field is `lf`. */
  lemma AccountEncoding(r: Request, lf: string)
    requires HasPayee(r) && !r.editable && r.expiry.date == Expiry.date && LengthField(|Payee(r)|) == lf
    ensures Encodings(MerchantAccount(r)) ==
      ["00" + "09" + "SG.PAYNOW", "01" + "01" + PaymentType(r), "02" + lf + Payee(r), "03" + "01" + "0",
       "04" + "08" + "20201112"]
  {
    ExpiryDate();
    Digits();
    LengthFieldOf(9);
    LengthFieldOf(1);
    LengthFieldOf(8);
    assert |PaymentType(r)| == 1;
    assert EditableFlag(r.editable) == "0";
  }

  /** Tag 26 of both payloads, object by object. */
  lemma AccountEncodings()
    ensures Encodings(MerchantAccount(UenRequest)) == UenAccount
    ensures Encodings(MerchantAccount(MobileRequest)) == MobileAccount
  {
    Digits();
    LengthFieldOf(11);
    AccountEncoding(UenRequest, "11");
    LengthFieldOf(8);
    AccountEncoding(MobileRequest, "08");
  }

  /** The objects the two payloads share. */
  lemma SharedEmits()
    ensures Emit("00", "01") == "00" + "02" + "01" && Emit("01", "12") == "01" + "02" + "12"
    ensures Emit("52", "0000") == "52" + "04" + "0000" && Emit("53", "702") == "53" + "03" + "702"
    ensures Emit("54", "100.00") == "54" + "06" + "100.00" && Emit("58", "SG") == "58" + "02" + "SG"
    ensures Emit("59", "Clothing Company Pte Ltd") == "59" + "24" + "Clothing Company Pte Ltd"
    ensures Emit("60", "Singapore") == "60" + "09" + "Singapore"
    ensures Emit("62", Join(Additional)) == "62" + "11" + Join(Additional)
  {
    Digits();
    LengthFieldOf(2);
    LengthFieldOf(4);
    LengthFieldOf(3);
    LengthFieldOf(6);
    LengthFieldOf(24);
    LengthFieldOf(9);
    LengthFieldOf(11);
    assert Join(Additional) == "01" + "07" + "O123456";
  }

  lemma AdditionalEncoding()
    ensures SerializeFields([Field("01", "O123456")]) == Join(Additional)
  {
    Digits();
    LengthFieldOf(7);
    SerializeFieldsJoin([Field("01", "O123456")]);
  }

  /** The top level of a request shaped like the tests', for a tag 26
      object `account`. */
  lemma TopLevelEncoding(r: Request, account: string)
    requires HasPayee(r) && r.amount == 10000 && r.uniqueOrderCode == "O123456"
    requires r.company == "Clothing Company Pte Ltd" && r.merchantCountry == "SG" && r.merchantCity == "Singapore"
    requires Emit("26", SerializeFields(MerchantAccount(r))) == account
    ensures Encodings(TopLevelFields(r)) == Objects(account)
  {
    AmountHundred();
    AdditionalEncoding();
    SharedEmits();
  }

  /** A request shaped like the tests' whose tag 26 object is `account`
      passes validation and yields the body `Join(Objects(account))`. */
  lemma PayloadOf(r: Request, account: string)
    requires HasPayee(r) && r.amount == 10000 && r.uniqueOrderCode == "O123456" && !r.createAsBase64Image
    requires r.company == "Clothing Company Pte Ltd" && r.merchantCountry == "SG" && r.merchantCity == "Singapore"
    requires Validate(r, Now) == None
    requires Emit("26", SerializeFields(MerchantAccount(r))) == account
    ensures Generate(r, Now) == Success(Raw(Encode(r)))
    ensures Encode(r)[..|Encode(r)| - 4] == Join(Objects(account)) + "6304"
  {
    TopLevelEncoding(r, account);
    FlattenedAssemble(r);
    SerializeFieldsJoin(TopLevelFields(r));
  }

  /** The UEN test (lines 159-181): accepted, and the payload is line 163 up
      to its checksum. */
  lemma UenPayload()
    ensures Generate(UenRequest, Now) == Success(Raw(Encode(UenRequest)))
    ensures Encode(UenRequest)[..|Encode(UenRequest)| - 4] == Join(UenObjects) + "6304"
  {
    var r := UenRequest;
    TestRequestsAccepted();
    AmountHundred();
    AccountEncodings();
    SerializeFieldsJoin(MerchantAccount(r));
    MerchantAccountLength(r);
    Digits();
    LengthFieldOf(50);
    PayloadOf(r, "26" + "50" + Join(UenAccount));
  }

  /** The mobile test (lines 183-206): accepted, and the payload is line 187
      up to its checksum. */
  lemma MobilePayload()
    ensures Generate(MobileRequest, Now) == Success(Raw(Encode(MobileRequest)))
    ensures Encode(MobileRequest)[..|Encode(MobileRequest)| - 4] == Join(MobileObjects) + "6304"
  {
    var r := MobileRequest;
    TestRequestsAccepted();
    AmountHundred();
    AccountEncodings();
    SerializeFieldsJoin(MerchantAccount(r));
    MerchantAccountLength(r);
    Digits();
    LengthFieldOf(47);
    PayloadOf(r, "26" + "47" + Join(MobileAccount));
  }

  /** An hour before the clock reading. */
  const Past: Moment := Moment(Date(2020, 11, 12), 32400)

  /** A request shaped like the failing tests' (lines 12-157): no UEN and no
      mobile in every one of them. */
  function FailingRequest(amount: int, expiry: Moment, company: string, country: string, city: string): Request {
    Request(amount, false, "O123456", expiry, company, country, city, None, None, false)
  }

  /** What each failing test (lines 12-157) actually trips over: the first
      failing check, which is often not the one the test is named after. The
      zero amount is rejected only for the missing payee, and the blank
      country, blank city and past expiry tests all stop at the blank company. */
  lemma FailingTestsRaise()
    ensures Validate(FailingRequest(10000, Expiry, "Clothing Company Pte Ltd", "SG", "Singapore"), Now) == Some(MissingPayee)
    ensures Validate(FailingRequest(0, Expiry, "Clothing Company Pte Ltd", "SG", "Singapore"), Now) == Some(MissingPayee)
    ensures Validate(FailingRequest(-100, Expiry, "Clothing Company Pte Ltd", "SG", "Singapore"), Now) == Some(NegativeAmount)
    ensures Validate(FailingRequest(10000, Expiry, "", "SG", "Singapore"), Now) == Some(MissingCompany)
    ensures Validate(FailingRequest(10000, Expiry, "", "", "Singapore"), Now) == Some(MissingCompany)
    ensures Validate(FailingRequest(10000, Expiry, "", "SG", ""), Now) == Some(MissingCompany)
    ensures Validate(FailingRequest(10000, Past, "", "SG", ""), Now) == Some(MissingCompany)
  {
  }
}
