/**
 The personal ID records. `PersonalID` is the protocol's four property
 requirements as one value; `DefaultMove` and `DefaultToString` are the two
 protocol-extension defaults. `DriversLicense` and `Buzzcard` are the two
 conforming records, whose mutating setters become methods that modify the
 record. `DriversLicense` has no `toString` of its own and so uses the default;
 `Buzzcard` declares its own, written separately, which gives the same string.
 */
module Protocols {

  /** The properties every personal ID provides. */
  datatype PersonalID = PersonalID(firstName: string, lastName: string, expirationDate: string, address: string)

  /** The protocol extension's `move`: the address is replaced and nothing else changes. */
  function DefaultMove(p: PersonalID, newAddress: string): (q: PersonalID)
    ensures q.address == newAddress
    ensures q.firstName == p.firstName && q.lastName == p.lastName && q.expirationDate == p.expirationDate
  {
    p.(address := newAddress)
  }

  /** The protocol extension's `toString`: the name, then the date, then the address. */
  function DefaultToString(p: PersonalID): (s: string)
    ensures |s| == 26 + |p.firstName| + |p.lastName| + |p.expirationDate| + |p.address|
    ensures s[..6 + |p.firstName| + 1 + |p.lastName|] == "Name: " + p.firstName + " " + p.lastName
    ensures s[7 + |p.firstName| + |p.lastName|..|s| - |p.address| - 11] == ", Date: " + p.expirationDate
    ensures s[|s| - |p.address| - 11..] == ", Address: " + p.address
  {
    "Name: " + p.firstName + " " + p.lastName + ", Date: " + p.expirationDate + ", Address: " + p.address
  }

  /** Two descriptions of the same person differ when the addresses differ. */
  lemma DefaultToStringShowsAddress(p: PersonalID, a: string, b: string)
    requires DefaultToString(p.(address := a)) == DefaultToString(p.(address := b))
    ensures a == b
  {
    var s := DefaultToString(p.(address := a));
    assert |a| == |b|;
    assert a == s[|s| - |a|..];
  }

  class DriversLicense {
    var firstName: string
    var lastName: string
    var expirationDate: string
    var address: string
    var organDonor: bool
    var under21: bool
    var liscenseClass: string
    var id: string

    /** The memberwise initializer. */
    constructor (firstName: string, lastName: string, expirationDate: string, address: string,
                 organDonor: bool, under21: bool, liscenseClass: string, id: string)
      ensures this.firstName == firstName && this.lastName == lastName
      ensures this.expirationDate == expirationDate && this.address == address
      ensures this.organDonor == organDonor && this.under21 == under21
      ensures this.liscenseClass == liscenseClass && this.id == id
    {
      this.firstName := firstName;
      this.lastName := lastName;
      this.expirationDate := expirationDate;
      this.address := address;
      this.organDonor := organDonor;
      this.under21 := under21;
      this.liscenseClass := liscenseClass;
      this.id := id;
    }

    function AsPersonalID(): PersonalID
      reads this
    {
      PersonalID(firstName, lastName, expirationDate, address)
    }

    /**
     The record's own `toString` is commented out, so the protocol extension's
     default applies; the description ends with the current address.
     */
    function ToString(): (s: string)
      reads this
      ensures |s| == 26 + |firstName| + |lastName| + |expirationDate| + |address|
      ensures s[..6 + |firstName| + 1 + |lastName|] == "Name: " + firstName + " " + lastName
      ensures s[7 + |firstName| + |lastName|..|s| - |address| - 11] == ", Date: " + expirationDate
      ensures s[|s| - |address| - 11..] == ", Address: " + address
    {
      DefaultToString(AsPersonalID())
    }

    method Move(newAddress: string)
      modifies this
      ensures address == newAddress
      ensures AsPersonalID() == DefaultMove(old(AsPersonalID()), newAddress)
      ensures firstName == old(firstName) && lastName == old(lastName)
      ensures expirationDate == old(expirationDate)
      ensures organDonor == old(organDonor) && under21 == old(under21)
      ensures liscenseClass == old(liscenseClass) && id == old(id)
    {
      address := newAddress;
    }

    method ChangeOrganStatus(newStatus: bool)
      modifies this
      ensures organDonor == newStatus
      ensures AsPersonalID() == old(AsPersonalID())
      ensures under21 == old(under21) && liscenseClass == old(liscenseClass) && id == old(id)
    {
      organDonor := newStatus;
    }
  }

  class Buzzcard {
    var firstName: string
    var lastName: string
    var expirationDate: string
    var address: string
    var gtid: int
    var isStudent: bool
    var color: string

    /** The memberwise initializer. */
    constructor (firstName: string, lastName: string, expirationDate: string, address: string,
                 gtid: int, isStudent: bool, color: string)
      ensures this.firstName == firstName && this.lastName == lastName
      ensures this.expirationDate == expirationDate && this.address == address
      ensures this.gtid == gtid && this.isStudent == isStudent && this.color == color
    {
      this.firstName := firstName;
      this.lastName := lastName;
      this.expirationDate := expirationDate;
      this.address := address;
      this.gtid := gtid;
      this.isStudent := isStudent;
      this.color := color;
    }

    function AsPersonalID(): PersonalID
      reads this
    {
      PersonalID(firstName, lastName, expirationDate, address)
    }

    /** The record's own `toString`: the name, then the date, then the address. */
    function ToString(): (s: string)
      reads this
      ensures |s| == 26 + |firstName| + |lastName| + |expirationDate| + |address|
      ensures s[..6 + |firstName| + 1 + |lastName|] == "Name: " + firstName + " " + lastName
      ensures s[7 + |firstName| + |lastName|..|s| - |address| - 11] == ", Date: " + expirationDate
      ensures s[|s| - |address| - 11..] == ", Address: " + address
    {
      "Name: " + firstName + " " + lastName + ", Date: " + expirationDate + ", Address: " + address
    }

    method Move(newAddress: string)
      modifies this
      ensures address == newAddress
      ensures AsPersonalID() == DefaultMove(old(AsPersonalID()), newAddress)
      ensures firstName == old(firstName) && lastName == old(lastName)
      ensures expirationDate == old(expirationDate)
      ensures gtid == old(gtid) && isStudent == old(isStudent) && color == old(color)
    {
      address := newAddress;
    }

    /** Clears the student flag; a second call changes nothing further. */
    method Graduate()
      modifies this
      ensures !isStudent
      ensures AsPersonalID() == old(AsPersonalID())
      ensures gtid == old(gtid) && color == old(color)
    {
      isStudent := false;
    }
  }

  /** The override written in `Buzzcard` gives the same string as the protocol extension's default. */
  lemma BuzzcardToStringAgrees(card: Buzzcard)
    ensures card.ToString() == DefaultToString(card.AsPersonalID())
  {
  }

  /** The description of the playground page's license, at any address, written out. */
  lemma ScenarioDescription(address: string)
    ensures DefaultToString(PersonalID("Alec", "Hance", "1-1-30", address))
         == "Name: Alec Hance, Date: 1-1-30, Address: " + address
  {
    // Building the literal piece by piece keeps the solver's resource use low on every seed.
    assert "Name: " + "Alec" == "Name: Alec";
    assert "Name: Alec" + " " == "Name: Alec ";
    assert "Name: Alec " + "Hance" == "Name: Alec Hance";
    assert "Name: Alec Hance" + ", Date: " == "Name: Alec Hance, Date: ";
    assert "Name: Alec Hance, Date: " + "1-1-30" == "Name: Alec Hance, Date: 1-1-30";
    assert "Name: Alec Hance, Date: 1-1-30" + ", Address: " == "Name: Alec Hance, Date: 1-1-30, Address: ";
  }

  /**
   The license of the playground page, described before the move, after the
   move and the organ-status change, and once more at the end of the page.
   */
  method LicenseScenario() returns (before: string, after: string, final: string,
                                    address: string, organDonor: bool)
    ensures before == "Name: Alec Hance, Date: 1-1-30, Address: North Pole"
    ensures after == "Name: Alec Hance, Date: 1-1-30, Address: South Pole"
    ensures final == after
    ensures address == "South Pole" && !organDonor
  {
    ScenarioDescription("North Pole");
    ScenarioDescription("South Pole");
    assert "Name: Alec Hance, Date: 1-1-30, Address: " + "North Pole"
        == "Name: Alec Hance, Date: 1-1-30, Address: North Pole";
    assert "Name: Alec Hance, Date: 1-1-30, Address: " + "South Pole"
        == "Name: Alec Hance, Date: 1-1-30, Address: South Pole";
    var license := new DriversLicense("Alec", "Hance", "1-1-30", "North Pole", true, true, "c", "1110");
    before := license.ToString();
    license.Move("South Pole");
    license.ChangeOrganStatus(false);
    after := license.ToString();
    final := license.ToString();
    address := license.address;
    organDonor := license.organDonor;
  }
}
