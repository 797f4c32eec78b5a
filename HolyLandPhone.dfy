/** The ParseHolyLandPhone class: a phone number normalized once at
    construction, with classification predicates and the international form
    read from the stored value. */
module HolyLandPhone {
  import opened PhonePatterns
  import PhoneProperties

  class ParseHolyLandPhone {
    var phoneNumber: string

    /** What construction guarantees of the stored value: it is never left
        in international form. */
    ghost predicate Normalized()
      reads this
    {
      !InternationalForm(phoneNumber)
    }

    /** Stores the string, then rewrites `972`+8..9 digits to `0`+the digits. */
    constructor (phoneNumber: string)
      ensures InternationalForm(phoneNumber) ==> this.phoneNumber == "0" + phoneNumber[3..]
      ensures !InternationalForm(phoneNumber) ==> this.phoneNumber == phoneNumber
      ensures Normalized()
    {
      this.phoneNumber := phoneNumber;
      new;
      FromInternational();
    }

    /** The factory: same result as the constructor. */
    static method Create(phoneNumber: string) returns (p: ParseHolyLandPhone)
      ensures fresh(p)
      ensures p.phoneNumber == ToLocal(phoneNumber) && p.Normalized()
    {
      p := new ParseHolyLandPhone(phoneNumber);
    }

    /** Rewrites the stored value in place from international to local form. */
    method FromInternational()
      modifies this
      ensures phoneNumber == ToLocal(old(phoneNumber))
      ensures Normalized()
    {
      if InternationalForm(phoneNumber) {
        phoneNumber := "0" + phoneNumber[3..];
      }
    }

    predicate IsValid()       reads this { Valid(phoneNumber) }
    predicate IsIsraeli()     reads this { Israeli(phoneNumber) }
    predicate IsPalestinian() reads this { Palestinian(phoneNumber) }
    predicate IsLandLine()    reads this { LandLine(phoneNumber) }
    predicate IsMobile()      reads this { Mobile(phoneNumber) }
    predicate IsSpecial()     reads this { Special(phoneNumber) }
    predicate IsBusiness()    reads this { Business(phoneNumber) }
    predicate IsTollFree()    reads this { TollFree(phoneNumber) }
    predicate IsPremium()     reads this { Premium(phoneNumber) }
    predicate IsKosher()      reads this { Kosher(phoneNumber) }
    predicate IsErotic()      reads this { Erotic(phoneNumber) }

    /** The stored value in international form; the field is not changed. */
    function GetInternational(): (r: string)
      reads this
      ensures LocalForm(phoneNumber) ==> InternationalForm(r) && r[3..] == phoneNumber[1..]
      ensures !LocalForm(phoneNumber) ==> r == phoneNumber
    {
      ToInternational(phoneNumber)
    }

    predicate IsNotValid()       reads this { !IsValid() }
    predicate IsNotIsraeli()     reads this { !IsIsraeli() }
    predicate IsNotPalestinian() reads this { !IsPalestinian() }
    predicate IsNotLandLine()    reads this { !IsLandLine() }
    predicate IsNotMobile()      reads this { !IsMobile() }
    predicate IsNotBusiness()    reads this { !IsBusiness() }
    predicate IsNotTollFree()    reads this { !IsTollFree() }
    predicate IsNotPremium()     reads this { !IsPremium() }
    predicate IsNotKosher()      reads this { !IsKosher() }
    predicate IsNotErotic()      reads this { !IsErotic() }
  }

  /** Each of the ten negations is the complement of its predicate. */
  lemma Negations(p: ParseHolyLandPhone)
    ensures p.IsNotValid() <==> !p.IsValid()
    ensures p.IsNotIsraeli() <==> !p.IsIsraeli()
    ensures p.IsNotPalestinian() <==> !p.IsPalestinian()
    ensures p.IsNotLandLine() <==> !p.IsLandLine()
    ensures p.IsNotMobile() <==> !p.IsMobile()
    ensures p.IsNotBusiness() <==> !p.IsBusiness()
    ensures p.IsNotTollFree() <==> !p.IsTollFree()
    ensures p.IsNotPremium() <==> !p.IsPremium()
    ensures p.IsNotKosher() <==> !p.IsKosher()
    ensures p.IsNotErotic() <==> !p.IsErotic()
  {
  }

  /** Constructing a new object from the international form of a constructed
      object stores the same value. */
  lemma ReconstructFromInternational(p: ParseHolyLandPhone)
    requires p.Normalized()
    ensures ToLocal(p.GetInternational()) == p.phoneNumber
  {
    PhoneProperties.StoredRoundTrip(p.phoneNumber);
  }

  /** A client: a mobile number given in international form is stored in
      local form, classified as a mobile, and converted back. */
  method MobileFromInternational() returns (stored: string, international: string)
    ensures stored == "0501234567" && international == "972501234567"
    ensures Mobile(stored) && !LandLine(stored) && Valid(stored)
  {
    var p := ParseHolyLandPhone.Create("972501234567");
    PhoneProperties.LocalExample();
    PhoneProperties.MobileExample();
    assert p.IsMobile() && p.IsValid() && !p.IsLandLine() && p.IsNotLandLine();
    stored := p.phoneNumber;
    international := p.GetInternational();
  }
}
