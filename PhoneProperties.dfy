/** Properties of the numbering-plan patterns and of the two rewrites. */
module PhoneProperties {
  import opened PhonePatterns

  // ---------------------------------------------------------------------------
  // How the categories relate
  // ---------------------------------------------------------------------------

  /** The valid pattern splits into the other categories: mobile, land line
      except the `077` range, business and special. */
  lemma ValidDecomposition(s: string)
    ensures Valid(s) <==>
      Mobile(s) || (LandLine(s) && !StartsWith(s, "077")) || Business(s) || Special(s)
  {
    if |s| == 10 && s[0] == '0' && s[1] == '7' {
      assert s[2..] == [s[2]] + s[3..];
      assert StartsWith(s, "077") <==> s[2] == '7';
    }
  }

  /** A valid number is Israeli, or Palestinian, or in the `076`/`079` range
      that only the valid pattern admits; and no number is both Israeli and
      Palestinian. */
  lemma ValidPartition(s: string)
    ensures Valid(s) <==>
      Israeli(s) || (Palestinian(s) && |s| != 6)
      || (|s| == 10 && StartsWith(s, "07") && s[2] in "69" && AllDigits(s[3..]))
    ensures !(Israeli(s) && Palestinian(s))
  {
  }

  /** Mobile, special, business, Israeli and kosher numbers are all valid. */
  lemma ImpliesValid(s: string)
    ensures Mobile(s) ==> Valid(s)
    ensures Special(s) ==> Valid(s)
    ensures Business(s) ==> Valid(s)
    ensures Israeli(s) ==> Valid(s)
    ensures Kosher(s) ==> Valid(s)
  {
    KosherIsLandLineOrMobile(s);
  }

  /** The four characters after the `0` of a ten-character kosher number start
      the mobile range: `5` and a prefix digit of the mobile pattern. */
  lemma KosherMobilePrefix(s: string)
    requires |s| == 10 && s[1..5] in KOSHER_MOBILE_PREFIXES
    ensures s[1] == '5' && s[2] in "102345689"
    ensures IsDigit(s[3]) && IsDigit(s[4])
  {
  }

  /** Every kosher number is a land line (`0[23489]80...`) or a mobile (`05...`). */
  lemma KosherIsLandLineOrMobile(s: string)
    ensures Kosher(s) ==> (|s| == 9 && LandLine(s)) || (|s| == 10 && Mobile(s))
  {
    if Kosher(s) && |s| == 10 {
      KosherMobilePrefix(s);
      assert s[3..] == [s[3], s[4]] + s[5..];
      assert s[..2] == "05";
    }
  }

  /** No number is both a mobile and a land line. */
  lemma MobileNotLandLine(s: string)
    ensures !(Mobile(s) && LandLine(s))
  {
  }

  /** The empty string fails every pattern. */
  lemma EmptyMatchesNothing()
    ensures !Valid("") && !Israeli("") && !Palestinian("") && !LandLine("")
    ensures !Mobile("") && !Special("") && !Business("") && !TollFree("")
    ensures !Premium("") && !Kosher("") && !Erotic("")
  {
  }

  /** A land line need not be valid: the `077` range. */
  lemma LandLineNotAlwaysValid()
    ensures LandLine("0771234567") && !Valid("0771234567")
  {
  }

  /** Valid is not the union of Israeli, Palestinian, business and special. */
  lemma ValidBeyondUnion()
    ensures Valid("0761234567")
    ensures !Israeli("0761234567") && !Palestinian("0761234567")
    ensures !Business("0761234567") && !Special("0761234567")
    ensures Palestinian("123456") && !Valid("123456")
  {
  }

  /** A mobile number: not a land line, and valid. */
  lemma MobileExample()
    ensures Mobile("0501234567") && !LandLine("0501234567") && Valid("0501234567")
  {
    assert "0501234567"[..2] == "05";
    assert AllDigits("0501234567"[3..]);
  }

  /** A Jerusalem-area land line: not a mobile, and valid. */
  lemma LandLineExample()
    ensures LandLine("023456789") && !Mobile("023456789") && Valid("023456789")
  {
    assert AllDigits("023456789"[3..]);
  }

  /** A toll-free number: also business, and valid. */
  lemma TollFreeExample()
    ensures TollFree("1800123456") && Business("1800123456") && Valid("1800123456")
  {
    assert "1800123456"[..3] == "180";
    assert AllDigits("1800123456"[4..]);
  }

  /** A special short code: valid. */
  lemma SpecialExample()
    ensures Special("*1234") && Valid("*1234")
  {
    assert AllDigits("*1234"[1..]);
  }

  /** An erotic number: also premium and business. */
  lemma EroticExample()
    ensures Erotic("1919123456") && Premium("1919123456") && Business("1919123456")
  {
    assert "1919123456"[..4] == "1919";
    assert "1919123456"[..2] == "19";
    assert AllDigits("1919123456"[4..]);
  }

  /** A kosher number in the `05276` range is also a mobile. */
  lemma KosherExample()
    ensures Kosher("0527612345") && Mobile("0527612345")
  {
    assert "0527612345"[1..5] == "5276";
    assert "0527612345"[..2] == "05";
    assert AllDigits("0527612345"[3..]);
  }

  /** The first number documented at getInternational, `021231234`, has the
      local shape getInternational converts, but its subscriber part starts
      with `1`, outside `[2356789]`, so it is neither a land line nor valid. */
  lemma SubscriberOneRejected()
    ensures LocalForm("021231234")
    ensures !LandLine("021231234") && !Valid("021231234") && !Palestinian("021231234")
  {
    assert AllDigits("021231234"[1..]);
  }

  // ---------------------------------------------------------------------------
  // The two rewrites
  // ---------------------------------------------------------------------------

  /** Normalizing a normalized value changes nothing. */
  lemma ToLocalIdempotent(s: string)
    ensures ToLocal(ToLocal(s)) == ToLocal(s)
  {
  }

  /** Local form to international and back is the identity. */
  lemma LocalRoundTrip(s: string)
    requires LocalForm(s)
    ensures ToLocal(ToInternational(s)) == s
  {
  }

  /** International form to local and back is the identity. */
  lemma InternationalRoundTrip(s: string)
    requires InternationalForm(s)
    ensures ToInternational(ToLocal(s)) == s
  {
  }

  /** Every value construction can store (never in international form) comes
      back unchanged after getInternational and normalization. */
  lemma StoredRoundTrip(v: string)
    requires !InternationalForm(v)
    ensures ToLocal(ToInternational(v)) == v
  {
  }

  /** For 8 or 9 digits d: constructing from `972`+d and asking for the
      international form gives `972`+d back; constructing from `0`+d,
      converting and constructing again stores `0`+d. */
  lemma DigitsRoundTrip(d: string)
    requires (|d| == 8 || |d| == 9) && AllDigits(d)
    ensures ToInternational(ToLocal("972" + d)) == "972" + d
    ensures ToLocal(ToInternational(ToLocal("0" + d))) == "0" + d
  {
  }

  /** The first conversion documented at getInternational. */
  lemma InternationalExampleLandLine()
    ensures ToInternational("021231234") == "97221231234"
  {
    assert LocalForm("021231234") by {
      assert AllDigits("021231234"[1..]);
    }
    assert "021231234"[1..] == "21231234";
  }

  /** The second conversion documented at getInternational. */
  lemma InternationalExampleMobile()
    ensures ToInternational("0501231234") == "972501231234"
  {
    assert LocalForm("0501231234") by {
      assert AllDigits("0501231234"[1..]);
    }
    assert "0501231234"[1..] == "501231234";
  }

  /** Values getInternational leaves alone. */
  lemma InternationalUnchanged()
    ensures ToInternational("*1234") == "*1234"
    ensures ToInternational("") == ""
  {
  }

  /** Construction normalizes an international mobile number. */
  lemma LocalExample()
    ensures ToLocal("972501234567") == "0501234567"
  {
    assert InternationalForm("972501234567") by {
      assert "972501234567"[..3] == "972";
      assert AllDigits("972501234567"[3..]);
    }
    assert "972501234567"[3..] == "501234567";
  }
}
