# Bookstore point of sale: customer-input validation

This project models the customer-input validator of the bookstore point of
sale, `ValidationService`, in Dafny, and proves the outcomes it promises.

- `ValidatePhoneNumber` runs three guards in a fixed order. The number must be
  present (not null, not empty). Every character must be a digit. The length
  must be exactly ten. The first failing guard raises its alert and the check
  returns false; otherwise it returns true.
- `ValidateName` requires every character of the first name, then of the last
  name, to be a letter. The first failure raises a name-specific alert.

Each check is a pure function from its input strings to a `Verdict`: `Ok`, or
`Rejected(message)` holding the exact alert text. `Verdict.Returned()` is the
boolean the service returns and `Verdict.Alerts()` the alerts it raises.
A .NET string is a sequence of UTF-16 code units (`CodeUnit`), so `Length`
counts code units. `char.IsDigit` and `char.IsLetter` are passed in as
parameters of type `CodeUnit -> bool`, so every property holds for any
character classification. `Enumerable.All` is modelled in `Linq.All` as a
front-to-back scan that stops at the first failing element. `Linq.AllMeansEvery`
proves that this scan answers the quantified question `Linq.Every`.

Each validator is specified twice. The guard chain models the code. A separate
predicate (`IsPhoneNumber`, `IsName`) says what a valid input is. The
validator's `ensures` ties the two together in both directions. Lemmas then
state which alert each kind of invalid input receives.

The service's only field, the alert service, is `readonly` and set only by
the constructor. The model's checks are functions, so validation cannot change
any state. Each check returns after its first alert, and a `Verdict` holds at
most one message, so a false result always comes with exactly one alert and a
true result with none.

## Model

| member | source | states |
|---|---|---|
| `Linq.AllMeansEvery` | Services/ValidationService.cs:42 | `Linq.All`, the model of the `Enumerable.All` calls at lines 42, 64 and 70, over a string is true exactly when every character satisfies the test; the empty string gives true |
| `ValidationService.ValidatePhoneNumber` | Services/ValidationService.cs:34-54 | the check returns true iff the number is present, all digits and exactly 10 long |
| `ValidationService.ValidateName` | Services/ValidationService.cs:61-78 | the check returns true iff every character of both the first and the last name is a letter |
| `ValidationService.EmptyPhoneRejected` | Services/ValidationService.cs:37-41 | an empty or null phone number is rejected with "Please enter a phone number." |
| `ValidationService.NonDigitPhoneRejected` | Services/ValidationService.cs:42-46 | a number with a non-digit at any position is rejected with "Only numeric values are allowed for phone number.", whatever its length |
| `ValidationService.WrongLengthPhoneRejected` | Services/ValidationService.cs:47-51 | a present, all-digit number whose length is not 10 is rejected with "Phone number must be 10 digits." |
| `ValidationService.PhoneOutcome` | Services/ValidationService.cs:37-53 | the alert raised is the one for the first failing guard: empty, then non-digit, then wrong length |
| `ValidationService.BadFirstNameRejected` | Services/ValidationService.cs:64-68 | a non-letter in the first name is rejected with "First name should only contain letters.", even when the last name is invalid too |
| `ValidationService.BadLastNameRejected` | Services/ValidationService.cs:70-74 | with an all-letter first name, a non-letter in the last name is rejected with "Last name should only contain letters." |
| `ValidationService.LastNameIgnoredAfterBadFirstName` | Services/ValidationService.cs:64-68 | once the first name fails, the verdict does not depend on the last name |
| `ValidationService.EmptyNamesAccepted` | Services/ValidationService.cs:64-76 | there is no length check: empty names pass, and a pair with one empty name is judged by the other alone |
| `ValidationService.NameOutcome` | Services/ValidationService.cs:64-76 | a false result raises the first-name or the last-name alert and no other |

## Left out

- The Unicode tables behind `char.IsDigit` and `char.IsLetter`: the model takes them as arbitrary tests, so nothing about which characters are digits or letters is assumed.
- `ValidationService.ValidateName`: a null first name, or a null last name after a first name that passes, makes `Enumerable.All` throw `ArgumentNullException` (surfacing through the returned Task). With a failing first name a null last name is never read, and the check returns false with the first-name alert. The model has no null names, so it does not model the exception, and `LastNameIgnoredAfterBadFirstName` covers non-null last names only.
- `async`/`Task` and the alert delivery itself (`AlertService.JSAlert`, a JavaScript `alert` call). The phone check does not await the alert while the name check does; both are modelled as the message raised. Services/AlertService.cs is not part of this model.
- `ValidateEmail`, `ValidateBookInputs`, `ValidateIsbn` and `ValidateYear` are declared in Services/IValidationService.cs but have no implementation in the files modelled here, so there is nothing to model. `ValidationService` declares `: IValidationService` (Services/ValidationService.cs:13) without implementing these four members, so the class as shown would not compile.
- The database-access classes (DataViewModel/), navigation, dependency-injection setup and the plain record classes are not part of this model. Their behaviour lives in MySQL or in the UI framework, or they have no behaviour.
