/** The address book (services/address.service.ts): adding an address for
    the signed-in user, editing one, listing a user's addresses, choosing
    the default address and deleting one. */
module Addresses {
  import opened Wrappers
  import opened Schema
  import opened Rows
  import opened Tables

  /** The fields of an address request. */
  datatype AddressRequest = AddressRequest(
    fullName: string, fullAddress: string, phoneNumber: string, specificAddress: string)

  /** An inserted address: the request's fields, the owner's id, and the
      default flag at its column default (false). */
  function NewAddress(id: Id, req: AddressRequest, userId: Id): (a: Address)
    ensures a.id == id && a.userId == userId && !a.isDefault
    ensures a.fullName == req.fullName && a.fullAddress == req.fullAddress
    ensures a.phoneNumber == req.phoneNumber && a.specificAddress == req.specificAddress
  {
    Address(id, req.fullName, req.fullAddress, req.phoneNumber, req.specificAddress, false, userId)
  }

  /** creeateAddress: the user with that e-mail owns the new address. */
  method CreateAddress(db: Database, id: Id, email: string, req: AddressRequest) returns (r: Result<Address>)
    modifies db`addresses
    ensures UserWithEmail(db.users, email).None? ==>
      r == Err("User not found") && db.addresses == old(db.addresses)
    ensures UserWithEmail(db.users, email).Some? ==>
      && r == Ok(NewAddress(id, req, UserWithEmail(db.users, email).value.id))
      && db.addresses == old(db.addresses) + [r.value]
  {
    var user := UserWithEmail(db.users, email);
    if user.None? {
      return Err("User not found");
    }
    var row := NewAddress(id, req, user.value.id);
    db.addresses := db.addresses + [row];
    r := Ok(row);
  }

  /** The request's fields written over every row with that id. */
  function Edited(addresses: seq<Address>, id: Id, req: AddressRequest): seq<Address> {
    Update(addresses, (a: Address) => a.id == id,
           (a: Address) => a.(fullName := req.fullName, fullAddress := req.fullAddress,
                              phoneNumber := req.phoneNumber, specificAddress := req.specificAddress))
  }

  /** Editing changes the four fields of the address with that id, and
      nothing else: not its owner, not its default flag, not another row. */
  lemma EditKeepsOwnerAndFlag(addresses: seq<Address>, id: Id, req: AddressRequest)
    ensures var r := Edited(addresses, id, req);
      && |r| == |addresses|
      && (forall i :: 0 <= i < |r| ==>
            && r[i].id == addresses[i].id && r[i].userId == addresses[i].userId
            && r[i].isDefault == addresses[i].isDefault
            && (addresses[i].id != id ==> r[i] == addresses[i])
            && (addresses[i].id == id ==>
                  r[i].fullName == req.fullName && r[i].fullAddress == req.fullAddress &&
                  r[i].phoneNumber == req.phoneNumber && r[i].specificAddress == req.specificAddress))
      && AddressWithId(r, id).Some? == AddressWithId(addresses, id).Some?
  {
    var r := Edited(addresses, id, req);
    if AddressWithId(addresses, id).Some? {
      var k :| 0 <= k < |addresses| && addresses[k].id == id;
      assert r[k].id == id;
    }
  }

  /** updateAddress: "Address not found" when no row has that id;
      otherwise the row is rewritten and returned. */
  method UpdateAddress(db: Database, id: Id, req: AddressRequest) returns (r: Result<Address>)
    modifies db`addresses
    ensures AddressWithId(old(db.addresses), id).None? ==>
      r == Err("Address not found") && db.addresses == old(db.addresses)
    ensures AddressWithId(old(db.addresses), id).Some? ==>
      && db.addresses == Edited(old(db.addresses), id, req)
      && r.Ok? && r.value.id == id && r.value in db.addresses
      && r.value.fullName == req.fullName && r.value.fullAddress == req.fullAddress
      && r.value.phoneNumber == req.phoneNumber && r.value.specificAddress == req.specificAddress
  {
    if AddressWithId(db.addresses, id).None? {
      return Err("Address not found");
    }
    EditKeepsOwnerAndFlag(db.addresses, id, req);
    db.addresses := Edited(db.addresses, id, req);
    var row := AddressWithId(db.addresses, id);
    r := Ok(row.value);
  }

  // ------------------------------------------------------ getAllAddresses

  /** A listed address: the row without its owner column. */
  datatype AddressView = AddressView(
    id: Id, fullName: string, fullAddress: string, phoneNumber: string,
    specificAddress: string, isDefault: bool)

  function ViewOf(a: Address): AddressView {
    AddressView(a.id, a.fullName, a.fullAddress, a.phoneNumber, a.specificAddress, a.isDefault)
  }

  function OwnedBy(addresses: seq<Address>, userId: Id): seq<Address> {
    Keep(addresses, (a: Address) => a.userId == userId)
  }

  /** getAllAddresses: the user's addresses in table order. */
  function GetAllAddresses(addresses: seq<Address>, userId: Id): seq<AddressView> {
    var mine := OwnedBy(addresses, userId);
    seq(|mine|, i requires 0 <= i < |mine| => ViewOf(mine[i]))
  }

  /** The list shows every address of the user and nothing else. */
  lemma AllAddressesExact(addresses: seq<Address>, userId: Id)
    ensures var r := GetAllAddresses(addresses, userId);
      && (forall a :: a in addresses && a.userId == userId ==> ViewOf(a) in r)
      && (forall v :: v in r ==> exists a :: a in addresses && a.userId == userId && ViewOf(a) == v)
      && |r| == CountWhere(addresses, (a: Address) => a.userId == userId)
  {
    var mine := OwnedBy(addresses, userId);
    var r := GetAllAddresses(addresses, userId);
    forall a | a in addresses && a.userId == userId ensures ViewOf(a) in r {
      var i :| 0 <= i < |mine| && mine[i] == a;
      assert r[i] == ViewOf(a);
    }
    forall v | v in r ensures exists a :: a in addresses && a.userId == userId && ViewOf(a) == v {
      var i :| 0 <= i < |r| && r[i] == v;
      assert mine[i] in mine;
    }
    KeepCount(addresses, (a: Address) => a.userId == userId);
  }

  // ---------------------------------------------------- setDefaultAddress

  /** `update addresses set isDefault = false where isDefault = true`. */
  function DefaultsCleared(addresses: seq<Address>): seq<Address> {
    Update(addresses, (a: Address) => a.isDefault, (a: Address) => a.(isDefault := false))
  }

  function MarkedDefault(addresses: seq<Address>, id: Id): seq<Address> {
    Update(addresses, (a: Address) => a.id == id, (a: Address) => a.(isDefault := true))
  }

  /** setDefaultAddress as written: every default in the table is cleared,
      whoever owns it, and then the target is marked; an unknown id fails
      after the defaults are gone. */
  method SetDefaultAddress(db: Database, id: Id) returns (r: Result<Address>)
    modifies db`addresses
    ensures AddressWithId(old(db.addresses), id).None? ==>
      r == Err("Address not found") && db.addresses == DefaultsCleared(old(db.addresses))
    ensures AddressWithId(old(db.addresses), id).Some? ==>
      && db.addresses == MarkedDefault(DefaultsCleared(old(db.addresses)), id)
      && r.Ok? && r.value.id == id && r.value.isDefault && r.value in db.addresses
  {
    ghost var before := db.addresses;
    var cleared := DefaultsCleared(db.addresses);
    db.addresses := cleared;
    ClearingKeepsIds(before, id);
    if AddressWithId(cleared, id).None? {
      return Err("Address not found");
    }
    var marked := MarkedDefault(cleared, id);
    MarkedFound(cleared, id);
    db.addresses := marked;
    r := Ok(AddressWithId(marked, id).value);
  }

  /** Clearing the defaults keeps every id, so the target is found after
      it exactly when it was found before. */
  lemma ClearingKeepsIds(addresses: seq<Address>, id: Id)
    ensures AddressWithId(DefaultsCleared(addresses), id).None? == AddressWithId(addresses, id).None?
  {
    var c := DefaultsCleared(addresses);
    assert forall i :: 0 <= i < |c| ==> c[i].id == addresses[i].id;
  }

  /** Once marked, the target is found, and found as a default address. */
  lemma MarkedFound(addresses: seq<Address>, id: Id)
    requires AddressWithId(addresses, id).Some?
    ensures var m := MarkedDefault(addresses, id);
      AddressWithId(m, id).Some? && AddressWithId(m, id).value.isDefault
  {
    var m := MarkedDefault(addresses, id);
    var k :| 0 <= k < |addresses| && addresses[k].id == id;
    assert m[k].id == id;
  }

  /** After setDefaultAddress the rows with the target id are the only
      default addresses in the table; rows keep their ids, owners and
      other fields. */
  lemma OnlyTargetIsDefault(addresses: seq<Address>, id: Id)
    ensures var r := MarkedDefault(DefaultsCleared(addresses), id);
      && |r| == |addresses|
      && (forall i :: 0 <= i < |r| ==> (r[i].isDefault <==> r[i].id == id))
      && (forall i :: 0 <= i < |r| ==> r[i] == addresses[i].(isDefault := addresses[i].id == id))
  {
  }

  /** A user has a default address. */
  predicate HasDefault(addresses: seq<Address>, userId: Id) {
    exists i :: 0 <= i < |addresses| && addresses[i].userId == userId && addresses[i].isDefault
  }

  /** Choosing the default address of one user takes away every other
      user's default address. */
  lemma OthersLoseDefault(addresses: seq<Address>, id: Id, userId: Id)
    requires forall i :: 0 <= i < |addresses| && addresses[i].id == id ==> addresses[i].userId != userId
    ensures !HasDefault(MarkedDefault(DefaultsCleared(addresses), id), userId)
  {
    OnlyTargetIsDefault(addresses, id);
  }

  /** The smallest case: two users with a default address each; when the
      first chooses its address again, the second has none left. */
  lemma SecondUserLosesDefault()
    ensures var before := [Address("a1", "Ann Smith", "1 First Street", "0123456789", "Flat 1", true, "u1"),
                           Address("a2", "Bob Jones", "2 Second Street", "0987654321", "Flat 2", true, "u2")];
      && HasDefault(before, "u2")
      && !HasDefault(MarkedDefault(DefaultsCleared(before), "a1"), "u2")
  {
    var before := [Address("a1", "Ann Smith", "1 First Street", "0123456789", "Flat 1", true, "u1"),
                   Address("a2", "Bob Jones", "2 Second Street", "0987654321", "Flat 2", true, "u2")];
    assert before[1].userId == "u2" && before[1].isDefault;
    OthersLoseDefault(before, "a1", "u2");
  }

  /** The defaults of the owner of `owner` replaced by the row with id
      `id`; every other user's rows unchanged. */
  function OwnDefaultSet(addresses: seq<Address>, owner: Id, id: Id): seq<Address> {
    Update(addresses, (a: Address) => a.userId == owner, (a: Address) => a.(isDefault := a.id == id))
  }

  /** setDefaultAddress as intended: the target must exist, and only its
      owner's addresses change; the target becomes the owner's one default. */
  method SetOwnDefaultAddress(db: Database, id: Id) returns (r: Result<Address>)
    modifies db`addresses
    ensures AddressWithId(old(db.addresses), id).None? ==>
      r == Err("Address not found") && db.addresses == old(db.addresses)
    ensures AddressWithId(old(db.addresses), id).Some? ==>
      && db.addresses == OwnDefaultSet(old(db.addresses), AddressWithId(old(db.addresses), id).value.userId, id)
      && r == Ok(AddressWithId(old(db.addresses), id).value.(isDefault := true))
  {
    var target := AddressWithId(db.addresses, id);
    if target.None? {
      return Err("Address not found");
    }
    db.addresses := OwnDefaultSet(db.addresses, target.value.userId, id);
    r := Ok(target.value.(isDefault := true));
  }

  /** The intended change keeps every other user's default and gives the
      owner exactly the target as default address. */
  lemma OwnDefaultKeepsOthers(addresses: seq<Address>, id: Id, owner: Id, userId: Id)
    requires AddressWithId(addresses, id).Some? && AddressWithId(addresses, id).value.userId == owner
    ensures var r := OwnDefaultSet(addresses, owner, id);
      && (userId != owner ==> (HasDefault(r, userId) <==> HasDefault(addresses, userId)))
      && HasDefault(r, owner)
      && (forall i :: 0 <= i < |r| && r[i].userId == owner ==> (r[i].isDefault <==> r[i].id == id))
  {
    var r := OwnDefaultSet(addresses, owner, id);
    var k :| 0 <= k < |addresses| && addresses[k] == AddressWithId(addresses, id).value;
    assert r[k].userId == owner && r[k].isDefault;
    if userId != owner {
      if HasDefault(addresses, userId) {
        var i :| 0 <= i < |addresses| && addresses[i].userId == userId && addresses[i].isDefault;
        assert r[i] == addresses[i];
      }
      if HasDefault(r, userId) {
        var i :| 0 <= i < |r| && r[i].userId == userId && r[i].isDefault;
        assert r[i] == addresses[i];
      }
    }
  }

  // --------------------------------------------------------- deleteAddress

  /** deleteAddress: the rows with that id are removed. The delete gives
      back a result object whatever it removed, so its not-found branch is
      never taken and an unknown id succeeds. */
  method DeleteAddress(db: Database, id: Id) returns (r: Outcome)
    modifies db`addresses
    ensures r == Done
    ensures db.addresses == Keep(old(db.addresses), (a: Address) => a.id != id)
    ensures AddressWithId(db.addresses, id).None?
  {
    db.addresses := Keep(db.addresses, (a: Address) => a.id != id);
    r := Done;
  }
}
