/**
 * validateNewUFA: the rule check a proposed agreement must pass before
 * createUFA stores it. It looks at the caller's role, then at the net charge
 * and at the tolerance (field `chargTolrence`, spelled as the chaincode spells
 * it). Each violated rule adds one line to the message; the empty message
 * means the agreement is valid.
 */
module Validation {
  import opened Wrappers
  import opened JsonCodec
  import opened Numbers

  const NotAuthorizedMsg := "\nUser is not authorized to create a UFA"
  const InvalidNetChargeMsg := "\nInvalid net charge"
  const ToleranceRangeMsg := "\nTolerence is out of range. Should be between 0 and 10"

  /** Only a seller or a buyer may propose an agreement. */
  predicate IsCreatorRole(who: string) {
    who == "SELLER" || who == "BUYER"
  }

  /** The tolerance is a percentage in (0, 10]. */
  predicate ToleranceInRange(t: real) {
    0.0 < t <= 10.0
  }

  function NetCharge(details: Option<Fields>): real {
    ValidateNumber(Field(details, "netCharge"))
  }

  function Tolerance(details: Option<Fields>): real {
    ValidateNumber(Field(details, "chargTolrence"))
  }

  /** The message for proposing the agreement `payload` (JSON text) in role `who`. */
  function ValidateNewUFA(codec: Codec, who: string, payload: string): (msg: string)
    ensures !IsCreatorRole(who) ==> msg == NotAuthorizedMsg
    ensures IsCreatorRole(who) ==>
      var details := codec.decodeObject(payload);
      && (msg == "" <==> NetCharge(details) > 0.0 && ToleranceInRange(Tolerance(details)))
      && (NetCharge(details) <= 0.0 && !ToleranceInRange(Tolerance(details)) ==>
            msg == InvalidNetChargeMsg + ToleranceRangeMsg)
      && (NetCharge(details) <= 0.0 && ToleranceInRange(Tolerance(details)) ==> msg == InvalidNetChargeMsg)
      && (NetCharge(details) > 0.0 && !ToleranceInRange(Tolerance(details)) ==> msg == ToleranceRangeMsg)
    ensures msg == "" ==> IsCreatorRole(who) && codec.decodeObject(payload).Some?
  {
    if IsCreatorRole(who) then
      var details := codec.decodeObject(payload);
      (if NetCharge(details) <= 0.0 then InvalidNetChargeMsg else "")
      + (if !ToleranceInRange(Tolerance(details)) then ToleranceRangeMsg else "")
    else
      NotAuthorizedMsg
  }

  /** A net charge or a tolerance that is not a number is always rejected. */
  lemma UnparseableRejected(codec: Codec, who: string, payload: string)
    requires ParseFloat(Field(codec.decodeObject(payload), "netCharge")).None?
          || ParseFloat(Field(codec.decodeObject(payload), "chargTolrence")).None?
    ensures ValidateNewUFA(codec, who, payload) != ""
  {
  }

  /** Boundaries of the tolerance: 10 is accepted; 0 and 10.5 are refused. */
  lemma ToleranceBoundaries(codec: Codec, who: string, payload: string, fields: Fields)
    requires IsCreatorRole(who)
    requires codec.decodeObject(payload) == Some(fields)
    requires "netCharge" in fields && ParseFloat(fields["netCharge"]).Some? && ParseFloat(fields["netCharge"]).value > 0.0
    requires "chargTolrence" in fields
    ensures fields["chargTolrence"] == "10" ==> ValidateNewUFA(codec, who, payload) == ""
    ensures fields["chargTolrence"] == "0" ==> ValidateNewUFA(codec, who, payload) == ToleranceRangeMsg
    ensures fields["chargTolrence"] == "10.5" ==> ValidateNewUFA(codec, who, payload) == ToleranceRangeMsg
  {
    LiteralTen();
    LiteralZero();
    LiteralTenAndAHalf();
  }

  lemma LiteralTen()
    ensures ParseFloat("10") == Some(10.0)
  {
    assert "10"[..1] == "1";
    assert DigitsValue("10") == 10;
  }

  lemma LiteralZero()
    ensures ParseFloat("0") == Some(0.0)
  {
    assert "0"[..0] == "";
  }

  lemma LiteralTenAndAHalf()
    ensures ParseFloat("10.5") == Some(10.5)
  {
    var t := "10.5";
    assert FirstOf(t, 'e', 'E') == 4;
    assert t[..4] == t;
    assert FirstOf(t, '.', '.') == 2;
    assert t[..2] == "10" && t[3..] == "5";
    assert "10"[..1] == "1";
    assert "5"[..0] == "";
    assert DigitsValue("10") == 10;
    assert DigitsValue("5") == 5;
  }
}
