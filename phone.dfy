/**
 * Phone numbers on the data screen: the normalisation of a number picked
 * from the device's contacts (`assertContactPhone`), and the options offered
 * when a contact has several numbers (`getContactPhoneOptions`). Typed text
 * goes through `JsStrings.RemoveNonDigits` alone.
 */
module Phone {
  import opened Wrappers
  import opened JsStrings

  /** Longest number kept as it is; the input field also accepts at most this many characters. */
  const LOCAL_LENGTH: nat := 11

  /** Digits kept from the end of a longer number, behind a leading '0'. */
  const SUBSCRIBER_LENGTH: nat := 10

  /** One entry of a contact's normalised phone list: `number` may be missing, `kind` is the entry's `type`. */
  datatype ContactPhone = ContactPhone(number: Option<string>, kind: string)

  /** One row of the action sheet that lets the user choose among a contact's numbers (`labelText` is the option's `label`). */
  datatype PhoneOption = PhoneOption(labelText: Option<string>, number: Option<string>, subtitle: string)

  /** The digits of a contact's number: white space and every other non-digit stripped; a missing number gives "". */
  function ContactDigits(number: Option<string>): (r: string)
  {
    if number.Some? then RemoveNonDigits(RemoveWhiteSpace(number.value)) else ""
  }

  /**
   * `assertContactPhone`'s normalisation. Numbers of more than eleven digits
   * (written with a country code) become '0' followed by their last ten digits.
   */
  function NormalizeContactPhone(number: Option<string>): (r: string)
    ensures AllDigits(r)
    ensures |r| <= LOCAL_LENGTH
    ensures number.None? ==> r == ""
  {
    var digits := ContactDigits(number);
    if |digits| > LOCAL_LENGTH then "0" + SliceFromEnd(digits, SUBSCRIBER_LENGTH) else digits
  }

  /** Stripping white space before the digit filter is the same as the digit filter alone. */
  lemma ContactDigitsAreFilteredDigits(number: string)
    ensures ContactDigits(Some(number)) == RemoveNonDigits(number)
  {
    RemoveWhiteSpaceThenNonDigits(number);
  }

  /** A number with at most eleven digits is kept as its digits. */
  lemma NormalizeShortNumber(number: string)
    requires |RemoveNonDigits(number)| <= LOCAL_LENGTH
    ensures NormalizeContactPhone(Some(number)) == RemoveNonDigits(number)
  {
    ContactDigitsAreFilteredDigits(number);
  }

  /** A number with more than eleven digits becomes '0' and its last ten digits, eleven characters in all. */
  lemma NormalizeLongNumber(number: string)
    requires |RemoveNonDigits(number)| > LOCAL_LENGTH
    ensures var d := RemoveNonDigits(number);
            NormalizeContactPhone(Some(number)) == "0" + d[|d| - SUBSCRIBER_LENGTH..]
    ensures |NormalizeContactPhone(Some(number))| == LOCAL_LENGTH
  {
    ContactDigitsAreFilteredDigits(number);
  }

  /** Normalising a normalised number changes nothing. */
  lemma NormalizeIdempotent(number: Option<string>)
    ensures NormalizeContactPhone(Some(NormalizeContactPhone(number))) == NormalizeContactPhone(number)
  {
    var r := NormalizeContactPhone(number);
    ContactDigitsAreFilteredDigits(r);
    RemoveNonDigitsFixpoint(r);
  }

  /**
   * A number written with the country code, "+234" and a ten-digit subscriber
   * number (say "+2348012345678"), comes out in local form ("08012345678").
   */
  lemma NormalizeCountryCode(subscriber: string)
    requires |subscriber| == SUBSCRIBER_LENGTH && AllDigits(subscriber)
    ensures NormalizeContactPhone(Some("+234" + subscriber)) == "0" + subscriber
  {
    var number := "+234" + subscriber;
    RemoveNonDigitsFixpoint(subscriber);
    RemoveNonDigitsAppend("+234", subscriber);
    assert RemoveNonDigits("+234") == "234";
    var d := RemoveNonDigits(number);
    assert d == "234" + subscriber;
    assert d[|d| - SUBSCRIBER_LENGTH..] == subscriber;
    NormalizeLongNumber(number);
  }

  /** A local eleven-digit number is accepted unchanged. */
  lemma NormalizeLocalExample()
    ensures NormalizeContactPhone(Some("08012345678")) == "08012345678"
  {
    var number := "08012345678";
    assert AllDigits(number);
    RemoveNonDigitsFixpoint(number);
    NormalizeShortNumber(number);
  }

  /** `getContactPhoneOptions`: one option per phone, in order, labelled and valued by its number. */
  function ContactPhoneOptions(phones: seq<ContactPhone>): (r: seq<PhoneOption>)
    ensures |r| == |phones|
    ensures forall i :: 0 <= i < |phones| ==>
              r[i].labelText == r[i].number == phones[i].number && r[i].subtitle == phones[i].kind
  {
    if phones == [] then []
    else [PhoneOption(phones[0].number, phones[0].number, phones[0].kind)] + ContactPhoneOptions(phones[1..])
  }
}
