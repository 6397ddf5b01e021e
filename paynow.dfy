/** The `Paynow` class of src/Paynow.php: `generate` stores its arguments in
    the object's fields, `validateParams` checks them and sets
    `paymentType`, and `build` assembles, serialises and frames the payload. */
module Service {
  import opened Wrappers
  import opened Decimal
  import opened Tlv
  import opened Payload
  import Crc16

  class Paynow {
    var uen: Option<string>
    var mobile: Option<string>
    var paymentType: string
    var amount: int
    var editable: bool
    var expiry: Moment
    var company: string
    var merchantCountry: string
    var merchantCity: string
    var uniqueOrderCode: string
    var createAsBase64Image: bool

    /** The fields as one request value. */
    function Current(): Request
      reads this
    {
      Request(amount, editable, uniqueOrderCode, expiry, company, merchantCountry, merchantCity,
              uen, mobile, createAsBase64Image)
    }

    /** The state `build` may rely on: `validateParams` has passed. */
    predicate Validated()
      reads this
    {
      amount >= 0 && HasPayee(Current()) && paymentType == PaymentType(Current())
    }

    /** `generate` (lines 85-110); `now` is the clock reading taken at line 136.
        A thrown InvalidArgumentException is a Failure. */
    method Generate(amount: int, editable: bool, uniqueOrderCode: string, expiry: Moment, company: string,
                    now: Moment,
                    merchantCountry: string := "SG", merchantCity: string := "Singapore",
                    uen: Option<string> := None, mobile: Option<string> := None,
                    createAsBase64Image: bool := false)
      returns (result: Result<Output, Error>)
      modifies this
      ensures Current() == Request(amount, editable, uniqueOrderCode, expiry, company, merchantCountry,
                                   merchantCity, uen, mobile, createAsBase64Image)
      ensures result == Payload.Generate(Current(), now)
      ensures result.Success? ==> Validated()
      ensures result.Failure? ==> paymentType == old(paymentType)
    {
      Store(amount, editable, uniqueOrderCode, expiry, company, merchantCountry, merchantCity,
            uen, mobile, createAsBase64Image);
      ghost var r := Current();
      var error := ValidateParams(now);
      assert Current() == r;
      if error.Some? {
        result := Failure(error.value);
        assert result == Payload.Generate(r, now);
      } else {
        var output := Build();
        result := Success(output);
        assert result == Payload.Generate(r, now);
      }
    }

    /** The assignments that open `generate` (lines 97-106). */
    method Store(amount: int, editable: bool, uniqueOrderCode: string, expiry: Moment, company: string,
                 merchantCountry: string, merchantCity: string, uen: Option<string>, mobile: Option<string>,
                 createAsBase64Image: bool)
      modifies this
      ensures Current() == Request(amount, editable, uniqueOrderCode, expiry, company, merchantCountry,
                                   merchantCity, uen, mobile, createAsBase64Image)
      ensures paymentType == old(paymentType)
    {
      this.uen := uen;
      this.mobile := mobile;
      this.amount := amount;
      this.editable := editable;
      this.expiry := expiry;
      this.uniqueOrderCode := uniqueOrderCode;
      this.company := company;
      this.merchantCountry := merchantCountry;
      this.merchantCity := merchantCity;
      this.createAsBase64Image := createAsBase64Image;
    }

    /** `validateParams` (lines 118-149): the first failing check, or None
        after setting `paymentType`. */
    method ValidateParams(now: Moment) returns (error: Option<Error>)
      modifies this`paymentType
      ensures error == Validate(Current(), now)
      ensures error.None? ==> Validated()
      ensures error.Some? ==> paymentType == old(paymentType)
    {
      if amount < 0 {
        return Some(NegativeAmount);
      }
      if company == "" {
        return Some(MissingCompany);
      }
      if merchantCountry == "" {
        return Some(MissingCountry);
      }
      if merchantCity == "" {
        return Some(MissingCity);
      }
      if Before(expiry, now) {
        return Some(ExpiryInPast);
      }
      if uen.None? && mobile.None? {
        return Some(MissingPayee);
      }
      if uen.Some? {
        paymentType := PayViaUen;
      } else {
        paymentType := PayViaMobile;
      }
      return None;
    }

    /** `build` (lines 156-217): the node list with the conditional tag 62,
        its serialisation, the checksum, and the image flag. */
    method Build() returns (output: Output)
      requires Validated()
      ensures output == Deliver(Current())
    {
      ghost var r := Current();
      var mainData := MainDataOf(Current(), paymentType);
      var additionalData := AdditionalData(Current());
      if uniqueOrderCode != "" {
        mainData := mainData + [additionalData];
      } else {
        assert mainData == mainData + [];
      }
      assert mainData == Assemble(r) by {
        assert MainDataOf(r, paymentType) == MainData(r);
      }

      var body := SerializeData(mainData);

      var payload := body + "6304" + Crc16.Calculate(body + "6304");
      assert payload == Encode(r);
      if createAsBase64Image {
        output := Image(payload);
      } else {
        output := Raw(payload);
      }
    }
  }

  /** The nested `foreach` loops of `build` (lines 195-205): each node in
      turn, a template's sub-objects first serialised into `$tempValue`,
      every object appended as id, length field and value. */
  method SerializeData(mainData: seq<Node>) returns (output: string)
    ensures output == SerializeNodes(mainData)
  {
    output := "";
    for i := 0 to |mainData|
      invariant output == SerializeNodes(mainData[..i])
    {
      var node := mainData[i];
      var value: string;
      match node {
        case Leaf(_, text) =>
          value := text;
        case Template(_, subs) =>
          var tempValue := "";
          for j := 0 to |subs|
            invariant tempValue == SerializeFields(subs[..j])
          {
            var nested := subs[j];
            SerializeFieldsPrefix(subs, j);
            tempValue := tempValue + (nested.id + PadLeft(NatToString(|nested.value|), 2) + nested.value);
          }
          assert subs[..|subs|] == subs;
          value := tempValue;
      }
      assert value == NodeValue(node);
      SerializeNodesPrefix(mainData, i);
      output := output + (node.id + PadLeft(NatToString(|value|), 2) + value);
    }
    assert mainData[..|mainData|] == mainData;
  }
}
