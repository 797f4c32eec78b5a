# ParseHolyLandPhone in Dafny

A model of `ParseHolyLandPhone`, a small JavaScript class that classifies and
normalizes Israeli and Palestinian phone numbers. An object stores one
string. Its constructor rewrites an international number (`972` followed by 8
or 9 digits) to local form (`0` followed by the same digits). Eleven
predicates then test the stored value against anchored regular expressions of
the numbering plan: valid, Israeli, Palestinian, land line, mobile, special,
business, toll-free, premium, kosher and erotic. Ten `isNot*` methods negate
them; there is no `isNotSpecial`. `getInternational` turns a local number back
into international form.

Files:

- `PhonePatterns.dfy` (module `PhonePatterns`) has one predicate per regular
  expression, written out by hand. Each one checks the exact length, then the
  characters by index against the bracketed digit classes exactly as the
  source lists them, then `AllDigits` for each `\d{n}` run. The module also
  holds the two rewrites: `ToLocal` (the `replace` in `fromInternational`) and
  `ToInternational` (the `replace` in `getInternational`).
- `PhoneProperties.dfy` (module `PhoneProperties`) holds the lemmas relating
  the patterns to each other, the counterexamples, and the round trips of the
  two rewrites.
- `HolyLandPhone.dfy` (module `HolyLandPhone`) holds the class. The field is
  `phoneNumber`. The constructor assigns it and then calls the in-place method
  `FromInternational`. `Create` is the static factory. The `Is*` and `IsNot*`
  predicates and `GetInternational` are functions that read `this` and apply
  the patterns of `PhonePatterns` to the field. `GetInternational`, being a
  function, cannot change the field.

Three consequences of the patterns that their doc comments do not spell out:

- The doc comment of `isValid` (src/ParseHolyLandPhone.js:18) calls it the
  test for a "valid Israeli/Palestinian phone number". Yet "valid" is not the
  union of Israeli and Palestinian, even with business and special added.
  `"0761234567"` is valid and none of the four. `"123456"` is Palestinian
  (through the empty alternative at line 41) but not valid. The exact relation
  is `PhoneProperties.ValidPartition`.
- `021231234`, the first example of the doc comment of `getInternational`
  (line 122), is converted to `97221231234`. It is still neither a land line
  nor valid, because its third character `1` is outside the class
  `[2356789]`. See `PhoneProperties.SubscriberOneRejected`.
- The empty alternative of the Palestinian pattern (line 41) is modelled as
  written, so six bare digits match.

## Model

| member | source | states |
|---|---|---|
| `PhonePatterns.Valid` | src/ParseHolyLandPhone.js:22-24 | The valid pattern. A match has length 5, 9 or 10. |
| `PhonePatterns.Israeli` | src/ParseHolyLandPhone.js:31-33 | The Israeli pattern, with narrower area and mobile-prefix classes. Every Israeli number is valid. |
| `PhonePatterns.Palestinian` | src/ParseHolyLandPhone.js:40-42 | The Palestinian pattern, including the empty alternative. A match is all digits, of length 6, 9 or 10. |
| `PhonePatterns.LandLine` | src/ParseHolyLandPhone.js:49-51 | The land-line pattern. A match has length 9 or 10 and starts with `0`. |
| `PhonePatterns.Mobile` | src/ParseHolyLandPhone.js:58-60 | The mobile pattern. A match has length 10, starts with `05`, and its third character is not `7`. |
| `PhonePatterns.Special` | src/ParseHolyLandPhone.js:67-69 | The special short-code pattern. A match has length 5 and starts with `*`. |
| `PhonePatterns.Business` | src/ParseHolyLandPhone.js:76-78 | The business pattern. A match has length 10 and starts with `1`. |
| `PhonePatterns.TollFree` | src/ParseHolyLandPhone.js:85-87 | The toll-free pattern. Every toll-free number is a business number. |
| `PhonePatterns.Premium` | src/ParseHolyLandPhone.js:94-96 | The premium pattern. Every premium number is a business number. |
| `PhonePatterns.Kosher` | src/ParseHolyLandPhone.js:103-105 | The kosher pattern. A match has length 9 or 10 and starts with `0`. |
| `PhonePatterns.Erotic` | src/ParseHolyLandPhone.js:112-114 | The erotic pattern. Every erotic number is premium, and so business. |
| `PhonePatterns.ToLocal` | src/ParseHolyLandPhone.js:116-118 | `972`+8..9 digits becomes `0`+the same digits; any other string is unchanged. The result is never in international form. |
| `PhonePatterns.ToInternational` | src/ParseHolyLandPhone.js:125-127 | `0`+8..9 digits becomes `972`+the same digits; any other string is unchanged. |
| `PhoneProperties.ValidDecomposition` | src/ParseHolyLandPhone.js:22-78 | Valid holds exactly for mobile, land line outside `077`, business or special. |
| `PhoneProperties.ValidPartition` | src/ParseHolyLandPhone.js:22-42 | Valid holds exactly for Israeli, non-six-digit Palestinian, or the `076`/`079` ranges. No number is both Israeli and Palestinian. |
| `PhoneProperties.ImpliesValid` | src/ParseHolyLandPhone.js:22-105 | Mobile, special, business, Israeli and kosher numbers are all valid. |
| `PhoneProperties.KosherMobilePrefix` | src/ParseHolyLandPhone.js:104 | Each ten-character kosher prefix lies in the mobile range `05[102345689]`. |
| `PhoneProperties.KosherIsLandLineOrMobile` | src/ParseHolyLandPhone.js:49-105 | A nine-character kosher number is a land line; a ten-character one is a mobile. |
| `PhoneProperties.MobileNotLandLine` | src/ParseHolyLandPhone.js:49-60 | No number is both mobile and land line. |
| `PhoneProperties.EmptyMatchesNothing` | src/ParseHolyLandPhone.js:22-114 | The empty string fails all eleven patterns. |
| `PhoneProperties.LandLineNotAlwaysValid` | src/ParseHolyLandPhone.js:23-50 | `0771234567` is a land line but not valid. |
| `PhoneProperties.ValidBeyondUnion` | src/ParseHolyLandPhone.js:22-78 | `0761234567` is valid but not Israeli, Palestinian, business or special. `123456` is Palestinian but not valid. |
| `PhoneProperties.MobileExample` | src/ParseHolyLandPhone.js:22-60 | `0501234567` is a mobile, not a land line, and valid. |
| `PhoneProperties.LandLineExample` | src/ParseHolyLandPhone.js:22-60 | `023456789` is a land line, not a mobile, and valid. |
| `PhoneProperties.TollFreeExample` | src/ParseHolyLandPhone.js:22-87 | `1800123456` is toll-free, business and valid. |
| `PhoneProperties.SpecialExample` | src/ParseHolyLandPhone.js:22-69 | `*1234` is special and valid. |
| `PhoneProperties.EroticExample` | src/ParseHolyLandPhone.js:76-114 | `1919123456` is erotic, premium and business. |
| `PhoneProperties.KosherExample` | src/ParseHolyLandPhone.js:103-105 | `0527612345` is kosher and mobile. |
| `PhoneProperties.SubscriberOneRejected` | src/ParseHolyLandPhone.js:22-51 | `021231234`, the documented example of line 122, has the local shape that getInternational converts, yet it is not a land line, not valid and not Palestinian. |
| `PhoneProperties.ToLocalIdempotent` | src/ParseHolyLandPhone.js:116-118 | Normalizing twice is the same as normalizing once. |
| `PhoneProperties.LocalRoundTrip` | src/ParseHolyLandPhone.js:116-127 | For a local-form number, converting to international and back gives the number itself. |
| `PhoneProperties.InternationalRoundTrip` | src/ParseHolyLandPhone.js:116-127 | For an international-form number, normalizing and converting back gives the number itself. |
| `PhoneProperties.StoredRoundTrip` | src/ParseHolyLandPhone.js:116-127 | Any value not in international form survives getInternational followed by normalization. |
| `PhoneProperties.DigitsRoundTrip` | src/ParseHolyLandPhone.js:116-127 | For 8 or 9 digits d: `create("972"+d).getInternational()` is `972`+d. Converting `create("0"+d)` and constructing again stores `0`+d. |
| `PhoneProperties.InternationalExampleLandLine` | src/ParseHolyLandPhone.js:122 | `021231234` converts to `97221231234`. |
| `PhoneProperties.InternationalExampleMobile` | src/ParseHolyLandPhone.js:123 | `0501231234` converts to `972501231234`. |
| `PhoneProperties.InternationalUnchanged` | src/ParseHolyLandPhone.js:125-127 | `*1234` and the empty string pass through getInternational unchanged. |
| `PhoneProperties.LocalExample` | src/ParseHolyLandPhone.js:116-118 | `972501234567` normalizes to `0501234567`. |
| `HolyLandPhone.ParseHolyLandPhone.constructor` | src/ParseHolyLandPhone.js:7-10 | The stored value is `0`+the digits when the input is `972`+8..9 digits, and the input itself otherwise. Either way it is not in international form. |
| `HolyLandPhone.ParseHolyLandPhone.Create` | src/ParseHolyLandPhone.js:12-14 | Returns a new object whose stored value is the normalized input. |
| `HolyLandPhone.ParseHolyLandPhone.FromInternational` | src/ParseHolyLandPhone.js:116-118 | Rewrites the field in place to its normalized form. |
| `HolyLandPhone.ParseHolyLandPhone.GetInternational` | src/ParseHolyLandPhone.js:125-127 | For a local-form field: an international-form string with the same digits after the prefix. Otherwise the field unchanged. Reads the field and never writes it. |
| `HolyLandPhone.ParseHolyLandPhone.IsValid` | src/ParseHolyLandPhone.js:22-24 | No contract of its own: `PhonePatterns.Valid` applied to the stored field, whose row gives the properties. |
| `HolyLandPhone.ParseHolyLandPhone.IsIsraeli` | src/ParseHolyLandPhone.js:31-33 | No contract of its own: `PhonePatterns.Israeli` applied to the stored field, whose row gives the properties. |
| `HolyLandPhone.ParseHolyLandPhone.IsPalestinian` | src/ParseHolyLandPhone.js:40-42 | No contract of its own: `PhonePatterns.Palestinian` applied to the stored field, whose row gives the properties. |
| `HolyLandPhone.ParseHolyLandPhone.IsLandLine` | src/ParseHolyLandPhone.js:49-51 | No contract of its own: `PhonePatterns.LandLine` applied to the stored field, whose row gives the properties. |
| `HolyLandPhone.ParseHolyLandPhone.IsMobile` | src/ParseHolyLandPhone.js:58-60 | No contract of its own: `PhonePatterns.Mobile` applied to the stored field, whose row gives the properties. |
| `HolyLandPhone.ParseHolyLandPhone.IsSpecial` | src/ParseHolyLandPhone.js:67-69 | No contract of its own: `PhonePatterns.Special` applied to the stored field, whose row gives the properties. |
| `HolyLandPhone.ParseHolyLandPhone.IsBusiness` | src/ParseHolyLandPhone.js:76-78 | No contract of its own: `PhonePatterns.Business` applied to the stored field, whose row gives the properties. |
| `HolyLandPhone.ParseHolyLandPhone.IsTollFree` | src/ParseHolyLandPhone.js:85-87 | No contract of its own: `PhonePatterns.TollFree` applied to the stored field, whose row gives the properties. |
| `HolyLandPhone.ParseHolyLandPhone.IsPremium` | src/ParseHolyLandPhone.js:94-96 | No contract of its own: `PhonePatterns.Premium` applied to the stored field, whose row gives the properties. |
| `HolyLandPhone.ParseHolyLandPhone.IsKosher` | src/ParseHolyLandPhone.js:103-105 | No contract of its own: `PhonePatterns.Kosher` applied to the stored field, whose row gives the properties. |
| `HolyLandPhone.ParseHolyLandPhone.IsErotic` | src/ParseHolyLandPhone.js:112-114 | No contract of its own: `PhonePatterns.Erotic` applied to the stored field, whose row gives the properties. |
| `HolyLandPhone.ParseHolyLandPhone.IsNotValid` | src/ParseHolyLandPhone.js:129-131 | No contract of its own: the negation of `IsValid`, stated for all objects by `HolyLandPhone.Negations`. |
| `HolyLandPhone.ParseHolyLandPhone.IsNotIsraeli` | src/ParseHolyLandPhone.js:133-135 | No contract of its own: the negation of `IsIsraeli`, stated for all objects by `HolyLandPhone.Negations`. |
| `HolyLandPhone.ParseHolyLandPhone.IsNotPalestinian` | src/ParseHolyLandPhone.js:137-139 | No contract of its own: the negation of `IsPalestinian`, stated for all objects by `HolyLandPhone.Negations`. |
| `HolyLandPhone.ParseHolyLandPhone.IsNotLandLine` | src/ParseHolyLandPhone.js:141-143 | No contract of its own: the negation of `IsLandLine`, stated for all objects by `HolyLandPhone.Negations`. |
| `HolyLandPhone.ParseHolyLandPhone.IsNotMobile` | src/ParseHolyLandPhone.js:145-147 | No contract of its own: the negation of `IsMobile`, stated for all objects by `HolyLandPhone.Negations`. |
| `HolyLandPhone.ParseHolyLandPhone.IsNotBusiness` | src/ParseHolyLandPhone.js:149-151 | No contract of its own: the negation of `IsBusiness`, stated for all objects by `HolyLandPhone.Negations`. |
| `HolyLandPhone.ParseHolyLandPhone.IsNotTollFree` | src/ParseHolyLandPhone.js:153-155 | No contract of its own: the negation of `IsTollFree`, stated for all objects by `HolyLandPhone.Negations`. |
| `HolyLandPhone.ParseHolyLandPhone.IsNotPremium` | src/ParseHolyLandPhone.js:157-159 | No contract of its own: the negation of `IsPremium`, stated for all objects by `HolyLandPhone.Negations`. |
| `HolyLandPhone.ParseHolyLandPhone.IsNotKosher` | src/ParseHolyLandPhone.js:161-163 | No contract of its own: the negation of `IsKosher`, stated for all objects by `HolyLandPhone.Negations`. |
| `HolyLandPhone.ParseHolyLandPhone.IsNotErotic` | src/ParseHolyLandPhone.js:165-167 | No contract of its own: the negation of `IsErotic`, stated for all objects by `HolyLandPhone.Negations`. |
| `HolyLandPhone.Negations` | src/ParseHolyLandPhone.js:129-167 | Each of the ten `IsNot*` predicates is the complement of its `Is*` predicate. |
| `HolyLandPhone.ReconstructFromInternational` | src/ParseHolyLandPhone.js:7-10 | Constructing from the international form of a constructed object stores the same value. |
| `HolyLandPhone.MobileFromInternational` | src/ParseHolyLandPhone.js:7-10 | Constructing from `972501234567` stores `0501234567`, which is a mobile, not a land line, and valid. Its international form is `972501234567`. |

## Left out

- The regular-expression engine: each pattern is transcribed as a predicate instead of modelling `match` and `replace` in general.
- Non-string arguments: in JavaScript, `match` on `undefined` or a number throws. Here the input is always a string.
- `export default`: a module wrapper with no behaviour.
- The `Is*` and `IsNot*` predicates of the class carry no contracts of their own. Their properties are stated on the `PhonePatterns` predicates they apply to the field, and by `HolyLandPhone.Negations`.
