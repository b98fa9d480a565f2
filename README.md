# Buy-data screen: a verified model

The app's "buy data" screen collects a phone number, checks it, looks up the
`data_bundle` biller category, and asks the network service for that category's
billers. When the answer holds billers, the screen records the number and moves
on to the network choice. The number can be typed, taken from the user's
profile, or picked from the device's contacts.

The model has two parts.

- **Pure phone-number and category logic.** Modules `JsStrings`, `Phone` and
  `Categories`.
  - The digit filter applied to typed text.
  - The normalisation of a number picked from contacts.
  - The action-sheet options built from a contact's phones.
  - The trimmed, lower-cased slug lookup.

  They are written as functions. Their properties are proved as lemmas: the
  result holds only digits, short numbers stay as they are, long numbers
  become `'0'` and the last ten digits, normalising twice changes nothing, and
  the lookup returns the first matching category.
- **The screen as a state machine.** Class `DataScreen.Data`.
  - It holds the fields `phone_number`, `phone_number_error`, `processing`,
    `contact_phones` and `show_phone_list`.
  - Every handler of the screen is a method. It updates those fields as
    `setState` does and returns the commands the handler issues: a toast, the
    store actions `getBillerCategories` and `updateDataPurchase`, opening the
    contact picker, the billers request, and navigation.
  - Whatever the device, the store and the network answer arrives as a
    parameter: the permission answer, the picked contact, the network result
    or error, the focus state, the loaded categories, the wallet error and the
    user's phone.
  - The app's `Util.isValidPhone` and `Util.normalizeContactPhones` are
    function parameters. Their code is not part of this model.

The billers request carries the phone number that its continuation captured
when it was sent (`Request`). The response handlers record that number, not
the field's current value. A ghost multiset `pending` counts the requests
still outstanding. The class invariant `Valid()` states that `processing` is
set only while a request is outstanding. `handleSubmit` itself does not check
`processing`, so two taps can put two requests in flight.

`handleSubmit` treats a result as empty when `!result || result.length < 1`.
The model keeps that test exactly (`IsEmptyResult`), with the result's
`length` optional. A value without a `length` property never counts as empty,
so a result with an empty billers list still navigates to `DataNetwork`. The
billers are read from `result.billscategories.billers`, and both levels may be
missing:

- A missing `billers` is passed on as `undefined` (`BillersParam(None)`).
- A missing `billscategories` makes that read throw a TypeError, after
  `updateDataPurchase` has already been dispatched. The model returns that
  command followed by `ThrowTypeError`.

## Model

| member | source | states |
|---|---|---|
| `JsStrings.RemoveNonDigits` | android/app/src/screens/data/index.js:186 | `text.replace(/\D/g, '')` holds only digits and is no longer than the text |
| `JsStrings.RemoveNonDigitsKeepsDigits` | android/app/src/screens/data/index.js:186 | the filter keeps every digit: each digit occurs in the result as often as in the text |
| `JsStrings.RemoveNonDigitsFixpoint` | android/app/src/screens/data/index.js:186 | the filter leaves a string unchanged if and only if the string is all digits |
| `JsStrings.RemoveNonDigitsIdempotent` | android/app/src/screens/data/index.js:186 | filtering a filtered string changes nothing |
| `JsStrings.RemoveWhiteSpace` | android/app/src/screens/data/index.js:102 | `replace(/\s+/g, '')` leaves no white-space character, keeps every other character as often as it occurs in the input, and does not lengthen the string |
| `JsStrings.RemoveWhiteSpaceAppend` | android/app/src/screens/data/index.js:102 | the white-space filter works piecewise: filtering a concatenation concatenates the filtered parts, so the kept characters stay in order |
| `JsStrings.RemoveWhiteSpaceFixpoint` | android/app/src/screens/data/index.js:102 | the white-space filter leaves a string unchanged if and only if the string holds no white space |
| `JsStrings.RemoveWhiteSpaceThenNonDigits` | android/app/src/screens/data/index.js:102 | stripping white space before the digit filter gives the same digits as the digit filter alone |
| `JsStrings.SliceFromEnd` | android/app/src/screens/data/index.js:104 | `slice(-n)` is the last `n` characters, or the whole string when it is shorter |
| `JsStrings.TrimStart` | android/app/src/screens/data/index.js:138 | the result is a suffix of the input, everything dropped is white space, and the result does not start with white space |
| `JsStrings.TrimEnd` | android/app/src/screens/data/index.js:138 | the result is a prefix of the input, everything dropped is white space, and the result does not end with white space |
| `JsStrings.Trim` | android/app/src/screens/data/index.js:138 | a trimmed slug neither starts nor ends with white space |
| `JsStrings.TrimIgnoresPadding` | android/app/src/screens/data/index.js:138 | white space added on either side of a slug does not change its trimmed form |
| `JsStrings.LowerChar` | android/app/src/screens/data/index.js:138 | an ASCII capital becomes the matching small letter, every other character is unchanged, and no result is an ASCII capital |
| `JsStrings.ToLowerCase` | android/app/src/screens/data/index.js:138 | lower-casing keeps the length of the slug |
| `JsStrings.ToLowerCaseAt` | android/app/src/screens/data/index.js:138 | lower-casing maps each character on its own |
| `JsStrings.ToLowerCaseFixpoint` | android/app/src/screens/data/index.js:138 | lower-casing leaves a string unchanged if and only if it holds no ASCII capital |
| `Phone.NormalizeContactPhone` | android/app/src/screens/data/index.js:100-105 | a normalised contact number is all digits and at most 11 long, and a missing number gives "" |
| `Phone.ContactDigitsAreFilteredDigits` | android/app/src/screens/data/index.js:102 | the digits taken from a contact number are exactly the digits of the number |
| `Phone.NormalizeShortNumber` | android/app/src/screens/data/index.js:102-105 | a number with at most 11 digits normalises to its digits, unchanged |
| `Phone.NormalizeLongNumber` | android/app/src/screens/data/index.js:103-105 | a number with more than 11 digits normalises to '0' and its last 10 digits, 11 characters in all |
| `Phone.NormalizeIdempotent` | android/app/src/screens/data/index.js:100-105 | normalising a normalised number changes nothing |
| `Phone.NormalizeCountryCode` | android/app/src/screens/data/index.js:103-105 | "+234" and a 10-digit subscriber number normalise to '0' and that number, so "+2348012345678" gives "08012345678" |
| `Phone.NormalizeLocalExample` | android/app/src/screens/data/index.js:103 | the local number "08012345678" is accepted unchanged |
| `Phone.ContactPhoneOptions` | android/app/src/screens/data/index.js:88-98 | one option per contact phone, in the same order, with label and number equal to the phone's number and subtitle equal to its type |
| `Categories.Find` | android/app/src/screens/data/index.js:138 | `find` returns the first element satisfying the test, and returns nothing exactly when no element does |
| `Categories.FindDataCategory` | android/app/src/screens/data/index.js:137-138 | the category used is the first whose trimmed, lower-cased slug is "data_bundle", and there is none exactly when no slug matches |
| `Categories.DataCategoryIgnoresPadding` | android/app/src/screens/data/index.js:138 | white space around a slug does not change whether it names the data category |
| `Categories.DataCategoryIgnoresCase` | android/app/src/screens/data/index.js:138 | two slugs that differ only in ASCII letter case either both name the data category or both do not |
| `DataScreen.Data.constructor` | android/app/src/screens/data/index.js:23-39 | the initial state: empty number and error, not processing, no contact phones, phone list hidden |
| `DataScreen.Data.DidMount` | android/app/src/screens/data/index.js:41-46 | categories are loaded on mount exactly when the store holds none |
| `DataScreen.Data.ChangeText` | android/app/src/screens/data/index.js:185-188 | typing stores the digits of the text, which are all digits, clears the error, and changes nothing else |
| `DataScreen.Data.BuyForMe` | android/app/src/screens/data/index.js:60-65 | "use my number" stores the user's phone and clears the error; nothing else changes |
| `DataScreen.Data.PermissionAnswered` | android/app/src/screens/data/index.js:67-85 | granted: contact phones are cleared and the picker opens, and `phone_number` is kept; denied: only the toast 'Contacts permission is needed' |
| `DataScreen.Data.ContactPicked` | android/app/src/screens/data/index.js:71-82 | one phone is accepted through the normalisation; several fill `contact_phones` and show the list; none, or no contact, changes nothing |
| `DataScreen.Data.AcceptContactPhone` | android/app/src/screens/data/index.js:100-111 | the field takes the normalised number and the error is cleared; nothing else changes |
| `DataScreen.Data.ChoosePhone` | android/app/src/screens/data/index.js:255-259 | choosing row `i` of the options built from `contact_phones` stores that contact phone's number through the same normalisation and clears the error; nothing else changes |
| `DataScreen.Data.ClosePhoneList` | android/app/src/screens/data/index.js:260-262 | closing the action sheet hides the phone list and changes nothing else |
| `DataScreen.Data.Validate` | android/app/src/screens/data/index.js:113-125 | the phone is valid exactly when `isValidPhone` says so; an invalid phone sets ENTER_VALID_PHONE, and a valid one leaves the error as it was |
| `DataScreen.Data.Submit` | android/app/src/screens/data/index.js:127-161 | the guards run in order: validation, then the wallet error, then the category lookup. Each failure gives its one outcome and `processing` stays as it was. A request goes out, for the matching category's untrimmed slug and with `processing` set, if and only if all three guards pass |
| `DataScreen.Data.BillersLoaded` | android/app/src/screens/data/index.js:145-153 | `processing` is cleared. An empty result toasts GENERAL_ERROR. Any other result records the captured phone. Then it navigates to DataNetwork with `billscategories.billers`, or throws when `billscategories` is missing |
| `DataScreen.Data.BillersFailed` | android/app/src/screens/data/index.js:154-158 | `processing` is cleared and the error's message is toasted |
| `DataScreen.Data.HandleBackButton` | android/app/src/screens/data/index.js:52-58 | the event is handled exactly when the screen is focused. It navigates, to Dashboard only, exactly when focused and not processing |

## Left out

- Rendering is not modelled: styles, the progress bar, the loading indicator and the header are declarative views with no logic.
- The recent-transactions list is not modelled. It is always empty in this screen, so its `onPress` (set the number, then submit) cannot run.
- Redux wiring (`connect`, `mapStateToProps`, dispatch) and `withNavigationFocus` are framework plumbing. What they supply is a method parameter, and what they are asked to do is a returned `Command`.
- Registering and removing the hardware back-button listener is framework plumbing and is not modelled. The handler itself is `HandleBackButton`.
- `Permissions.askAsync`, `selectContactPhone` and `Network.getCategoryBillers` are device and network I/O. Their answers are parameters of `PermissionAnswered`, `ContactPicked`, `BillersLoaded` and `BillersFailed`.
- `Util.isValidPhone` and `Util.normalizeContactPhones` are not part of this model. They are function parameters of `Submit`, `Validate` and `ContactPicked`.
- The texts of the app dictionary's `ENTER_VALID_PHONE` and `GENERAL_ERROR` are not part of this model. They appear as `Entry` keys.
- `setState` is asynchronous, and taps can interleave with the awaited permission, picker and network calls. Each event is modelled as one atomic step. `handleSelectContact` is split at its awaits into `PermissionAnswered` and `ContactPicked`.
- The input's `maxLength={11}`, `editable={!processing}` and the disabled buttons are view properties. The model does not stop typing or taps while processing.
- The state key `phoneNumber`, written when permission is granted, is read by nothing, so the model leaves it out. `phone_number` is unchanged there.
- JsStrings.ToLowerCase: only ASCII letters are mapped, because no other character's lower-case form can help a slug equal "data_bundle".
- `wallet_data_error` is modelled as a string, with "" standing for every falsy value. A non-string error value is not modelled.
- A slug that is present but is not a string is not modelled. In JavaScript it throws a TypeError.
- Where the TypeError thrown in `BillersLoaded` lands is not modelled. It is raised inside a `setState` callback, after `processing` has been cleared. Whether the `catch` at line 154 also receives it depends on whether React runs that callback synchronously, which depends on the React version. The model stops at `ThrowTypeError`.
- A `length` or `billers` of an unexpected type is not modelled. `length` is a number or missing, and `billers` is a list of billers or missing.
- Normalising a concrete literal such as "+2348012345678" is proved through the general lemma `Phone.NormalizeCountryCode`, not evaluated on the literal.
