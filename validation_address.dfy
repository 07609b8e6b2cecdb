/** The address schema (validation/address.ts), checked before an address is
    created or updated. */
module AddressRules {
  import opened Wrappers
  import opened Text
  import opened Schema
  import opened Joi
  import Addresses

  datatype AddressBody = AddressBody(
    fullName: Option<string>, fullAddress: Option<string>,
    phoneNumber: Option<string>, specificAddress: Option<string>)

  /** A phone number is ten digits, /^[0-9]{10}$/. */
  predicate PhoneOk(v: Option<string>) {
    v.Some? && v.value != "" && DigitRun(v.value, 10)
  }

  predicate AddressAccepted(b: AddressBody) {
    && RequiredText(b.fullName, 6, 255)
    && RequiredText(b.fullAddress, 10, 500)
    && PhoneOk(b.phoneNumber)
    && RequiredText(b.specificAddress, 3, 500)
  }

  /** The request the address service receives once the body passes. */
  function AddressRequestOf(b: AddressBody): Addresses.AddressRequest
    requires AddressAccepted(b)
  {
    Addresses.AddressRequest(b.fullName.value, b.fullAddress.value, b.phoneNumber.value, b.specificAddress.value)
  }

  /** The widths of the addresses table: fullName varchar(255) and
      phoneNumber varchar(15). */
  predicate FitsColumns(a: Address) {
    |a.fullName| <= 255 && |a.phoneNumber| <= 15
  }

  predicate AllFit(addresses: seq<Address>) {
    forall i :: 0 <= i < |addresses| ==> FitsColumns(addresses[i])
  }

  /** An accepted body carries a ten-digit phone number and the lengths the
      schema allows, and the row created from it fits the table. */
  lemma AcceptedAddressFits(b: AddressBody, id: Id, userId: Id)
    requires AddressAccepted(b)
    ensures var r := AddressRequestOf(b);
      && |r.phoneNumber| == 10 && AllDigits(r.phoneNumber)
      && 6 <= |r.fullName| <= 255 && 10 <= |r.fullAddress| <= 500 && 3 <= |r.specificAddress| <= 500
      && FitsColumns(Addresses.NewAddress(id, r, userId))
  {
    DigitRunMeaning(b.phoneNumber.value, 10);
  }

  /** Updating an address from an accepted body keeps every row within the
      table's widths. */
  lemma AcceptedEditFits(addresses: seq<Address>, id: Id, b: AddressBody)
    requires AddressAccepted(b) && AllFit(addresses)
    ensures AllFit(Addresses.Edited(addresses, id, AddressRequestOf(b)))
  {
    DigitRunMeaning(b.phoneNumber.value, 10);
    var e := Addresses.Edited(addresses, id, AddressRequestOf(b));
    forall i | 0 <= i < |e| ensures FitsColumns(e[i]) {
      assert FitsColumns(addresses[i]);
    }
  }

  /** Nine digits, a letter among ten characters, or a formatted number are
      refused. */
  lemma PhoneRefusals(b: AddressBody)
    requires b.phoneNumber == Some("012345678") || b.phoneNumber == Some("01234a6789") ||
             b.phoneNumber == Some("0123-456-789")
    ensures !AddressAccepted(b)
  {
    DigitRunMeaning(b.phoneNumber.value, 10);
    if b.phoneNumber == Some("01234a6789") {
      assert !IsDigit(b.phoneNumber.value[5]);
    } else if b.phoneNumber == Some("0123-456-789") {
      assert |b.phoneNumber.value| == 12;
    }
  }
}
