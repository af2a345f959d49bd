/** Customer-input validation of the bookstore point of sale: the phone number
    and name checks of ValidationService. Each check is a pure function from
    its input strings to a Verdict; the alert the service raises through its
    alert service is the Verdict's message. */
module ValidationService {
  import opened Linq

  /** One UTF-16 code unit, the element of a .NET string; `Length` counts these. */
  newtype CodeUnit = x: int | 0 <= x < 0x1_0000

  /** A .NET string. A null phone number is represented by the empty string,
      since the phone check treats null and empty alike. */
  type NetString = seq<CodeUnit>

  /** A character-class test such as char.IsDigit or char.IsLetter. Their
      Unicode category tables are not part of this model, so every check takes
      the test as a parameter and every property holds for any such test. */
  type CharTest = CodeUnit -> bool

  const EmptyPhoneMessage := "Please enter a phone number."
  const NonNumericPhoneMessage := "Only numeric values are allowed for phone number."
  const PhoneLengthMessage := "Phone number must be 10 digits."
  const FirstNameMessage := "First name should only contain letters."
  const LastNameMessage := "Last name should only contain letters."

  /** The number of digits a phone number must have. */
  const PhoneLength := 10

  /** The outcome of one check: accepted, or rejected with the one alert shown.
      Every check returns early after its first alert, so by the shape of this
      type a false result comes with exactly one alert and a true result with
      none; the lemmas below only say which alert it is. */
  datatype Verdict = Ok | Rejected(message: string) {

    /** The boolean the C# method returns. */
    predicate Returned() { Ok? }

    /** The alerts raised while checking, in order. */
    function Alerts(): seq<string> {
      if Ok? then [] else [message]
    }
  }

  /** What a valid phone number is, stated independently of the guard chain:
      present, all digits, exactly ten of them. */
  predicate IsPhoneNumber(phoneNumber: NetString, isDigit: CharTest) {
    IsPresentDigits(phoneNumber, isDigit) && |phoneNumber| == PhoneLength
  }

  /** The phone number passes the first two guards: present and all digits. */
  predicate IsPresentDigits(phoneNumber: NetString, isDigit: CharTest) {
    phoneNumber != [] && Every(phoneNumber, isDigit)
  }

  /** What a valid name pair is: both names consist of letters only. */
  predicate IsName(firstName: NetString, lastName: NetString, isLetter: CharTest) {
    Every(firstName, isLetter) && Every(lastName, isLetter)
  }

  /** ValidatePhoneNumber: three guards in order (empty, non-digit, length),
      the first that fails decides the message. */
  function ValidatePhoneNumber(phoneNumber: NetString, isDigit: CharTest): (r: Verdict)
    ensures r.Returned() <==> IsPhoneNumber(phoneNumber, isDigit)
  {
    AllMeansEvery(phoneNumber, isDigit);
    if phoneNumber == [] then Rejected(EmptyPhoneMessage)
    else if !All(phoneNumber, isDigit) then Rejected(NonNumericPhoneMessage)
    else if |phoneNumber| != PhoneLength then Rejected(PhoneLengthMessage)
    else Ok
  }

  /** ValidateName: the first name is checked, then the last name; the first
      failure decides the message. */
  function ValidateName(firstName: NetString, lastName: NetString, isLetter: CharTest): (r: Verdict)
    ensures r.Returned() <==> IsName(firstName, lastName, isLetter)
  {
    AllMeansEvery(firstName, isLetter);
    AllMeansEvery(lastName, isLetter);
    if !All(firstName, isLetter) then Rejected(FirstNameMessage)
    else if !All(lastName, isLetter) then Rejected(LastNameMessage)
    else Ok
  }

  // ---------------------------------------------------------------------------
  // Phone number

  /** An empty (or null) phone number is rejected with the empty-number alert. */
  lemma EmptyPhoneRejected(isDigit: CharTest)
    ensures ValidatePhoneNumber([], isDigit) == Rejected(EmptyPhoneMessage)
  {
  }

  /** A present phone number holding a non-digit anywhere is rejected with the
      numeric-only alert, whatever its length: the digit guard precedes the
      length guard. */
  lemma NonDigitPhoneRejected(phoneNumber: NetString, isDigit: CharTest, k: nat)
    requires k < |phoneNumber| && !isDigit(phoneNumber[k])
    ensures ValidatePhoneNumber(phoneNumber, isDigit) == Rejected(NonNumericPhoneMessage)
  {
    AllMeansEvery(phoneNumber, isDigit);
  }

  /** A present, all-digit phone number of the wrong length is rejected with
      the ten-digit alert. */
  lemma WrongLengthPhoneRejected(phoneNumber: NetString, isDigit: CharTest)
    requires IsPresentDigits(phoneNumber, isDigit) && |phoneNumber| != PhoneLength
    ensures ValidatePhoneNumber(phoneNumber, isDigit) == Rejected(PhoneLengthMessage)
  {
    AllMeansEvery(phoneNumber, isDigit);
  }

  /** The complete outcome table of the phone check: which alert is raised
      for which input (the one of the first failing guard). */
  lemma PhoneOutcome(phoneNumber: NetString, isDigit: CharTest)
    ensures var v := ValidatePhoneNumber(phoneNumber, isDigit);
      && (phoneNumber == [] ==> v.Alerts() == [EmptyPhoneMessage])
      && (phoneNumber != [] && !Every(phoneNumber, isDigit) ==> v.Alerts() == [NonNumericPhoneMessage])
      && (IsPresentDigits(phoneNumber, isDigit) && |phoneNumber| != PhoneLength ==> v.Alerts() == [PhoneLengthMessage])
  {
    AllMeansEvery(phoneNumber, isDigit);
  }

  // ---------------------------------------------------------------------------
  // Names

  /** A non-letter anywhere in the first name is reported with the first-name
      alert, whatever the last name holds (even when it is invalid too). */
  lemma BadFirstNameRejected(firstName: NetString, lastName: NetString, isLetter: CharTest, k: nat)
    requires k < |firstName| && !isLetter(firstName[k])
    ensures ValidateName(firstName, lastName, isLetter) == Rejected(FirstNameMessage)
  {
    AllMeansEvery(firstName, isLetter);
  }

  /** With an all-letter first name, a non-letter anywhere in the last name is
      reported with the last-name alert. */
  lemma BadLastNameRejected(firstName: NetString, lastName: NetString, isLetter: CharTest, k: nat)
    requires Every(firstName, isLetter)
    requires k < |lastName| && !isLetter(lastName[k])
    ensures ValidateName(firstName, lastName, isLetter) == Rejected(LastNameMessage)
  {
    AllMeansEvery(firstName, isLetter);
    AllMeansEvery(lastName, isLetter);
  }

  /** Once the first name fails, the last name is never examined: the verdict
      is the same for every last name. */
  lemma LastNameIgnoredAfterBadFirstName(firstName: NetString, lastName1: NetString, lastName2: NetString, isLetter: CharTest)
    requires !Every(firstName, isLetter)
    ensures ValidateName(firstName, lastName1, isLetter) == ValidateName(firstName, lastName2, isLetter)
  {
    AllMeansEvery(firstName, isLetter);
  }

  /** There is no length check on names: an empty first or last name passes,
      and the pair is then judged by the other name alone. */
  lemma EmptyNamesAccepted(name: NetString, isLetter: CharTest)
    ensures ValidateName([], [], isLetter) == Ok
    ensures ValidateName([], name, isLetter).Returned() <==> Every(name, isLetter)
    ensures ValidateName(name, [], isLetter).Returned() <==> Every(name, isLetter)
  {
  }

  /** A rejection of the name check raises either the first-name or the
      last-name alert and no other. */
  lemma NameOutcome(firstName: NetString, lastName: NetString, isLetter: CharTest)
    ensures var v := ValidateName(firstName, lastName, isLetter);
      !v.Returned() ==> v.Alerts() == [FirstNameMessage] || v.Alerts() == [LastNameMessage]
  {
  }
}
