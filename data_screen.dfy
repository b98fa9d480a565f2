/**
 * The "buy data" screen as a state machine. Each handler of the screen is a
 * method: it updates the screen's fields in place, as `setState` does, and
 * returns the commands it hands to the app (toasts, store actions, the
 * network request, navigation). What the device, the network and the store
 * answer comes back as method parameters.
 */
module DataScreen {
  import opened Wrappers
  import opened JsStrings
  import opened Phone
  import opened Categories

  /** A biller returned by the network service; the screen only passes billers on. */
  type Biller(==)

  /** Keys of the app's string dictionary used here; their texts belong to the dictionary. */
  datatype DictionaryKey = ENTER_VALID_PHONE | GENERAL_ERROR

  /** A message shown to the user: literal text, or a dictionary entry. */
  datatype Text = Plain(s: string) | Entry(key: DictionaryKey)

  const NO_ERROR: Text := Plain("")
  const CONTACTS_PERMISSION_NEEDED: Text := Plain("Contacts permission is needed")
  const DASHBOARD: string := "Dashboard"
  const DATA_NETWORK: string := "DataNetwork"

  /** The billers request, with the phone number its continuation captured when it was sent. */
  datatype Request = Request(slug: string, phone_number: string)

  /** The `billscategories` object of an answer; its `billers` may be missing. */
  datatype BillsCategories = BillsCategories(billers: Option<seq<Biller>>)

  /**
   * What `getCategoryBillers` resolves with: nothing (a falsy value), or a
   * value whose `length` and `billscategories` may each be missing.
   */
  datatype BillersResult = Absent | Present(length: Option<int>, billscategories: Option<BillsCategories>)

  /** Navigation parameters; `BillersParam(None)` is `{ billers: undefined }`. */
  datatype NavParams = NoParams | BillersParam(billers: Option<seq<Biller>>)

  datatype Command =
    | LoadBillerCategories                  // the store action `getBillerCategories`
    | ShowToast(message: Text)
    | PickContactPhone                      // open the device's contact picker
    | GetCategoryBillers(request: Request)  // the network call, for `request.slug`
    | UpdateDataPurchase(phone_number: string)
    | Navigate(route: string, params: NavParams)
    | ThrowTypeError                        // reading `billers` of a missing `billscategories`

  /** `!result || result.length < 1` */
  predicate IsEmptyResult(result: BillersResult) {
    result.Absent? || (result.length.Some? && result.length.value < 1)
  }

  /** Some command of `cmds` is the billers request. */
  predicate IssuesRequest(cmds: seq<Command>) {
    cmds != [] && (cmds[0].GetCategoryBillers? || IssuesRequest(cmds[1..]))
  }

  /** Some command of `cmds` leaves the screen. */
  predicate Navigates(cmds: seq<Command>) {
    cmds != [] && (cmds[0].Navigate? || Navigates(cmds[1..]))
  }

  class Data {
    var phone_number: string
    var phone_number_error: Text
    var processing: bool
    var contact_phones: seq<ContactPhone>
    var show_phone_list: bool

    /** Requests sent whose outcome has not come back yet. */
    ghost var pending: multiset<Request>

    /** A request is outstanding while `processing` is set; the field error is empty or the validation message. */
    ghost predicate Valid()
      reads this
    {
      (processing ==> |pending| > 0) &&
      (phone_number_error == NO_ERROR || phone_number_error == Entry(ENTER_VALID_PHONE))
    }

    constructor ()
      ensures Valid()
      ensures phone_number == "" && phone_number_error == NO_ERROR && !processing
      ensures contact_phones == [] && !show_phone_list && pending == multiset{}
    {
      phone_number, phone_number_error, processing := "", NO_ERROR, false;
      contact_phones, show_phone_list := [], false;
      pending := multiset{};
    }

    /** `componentDidMount`: load the biller categories unless the store already holds some. */
    method DidMount(categories: seq<Category>) returns (cmds: seq<Command>)
      ensures |categories| == 0 ==> cmds == [LoadBillerCategories]
      ensures |categories| > 0 ==> cmds == []
    {
      cmds := [];
      if |categories| == 0 {
        cmds := [LoadBillerCategories];
      }
    }

    /** `onChangeText`: keep only the digits of the typed text and clear the field error. */
    method ChangeText(text: string)
      requires Valid()
      modifies this
      ensures Valid()
      ensures phone_number == RemoveNonDigits(text) && AllDigits(phone_number)
      ensures phone_number_error == NO_ERROR
      ensures processing == old(processing) && contact_phones == old(contact_phones)
      ensures show_phone_list == old(show_phone_list) && pending == old(pending)
    {
      phone_number, phone_number_error := RemoveNonDigits(text), NO_ERROR;
    }

    /** `handleBuyForMe`: take the signed-in user's own phone number and clear the field error. */
    method BuyForMe(user_phone: string)
      requires Valid()
      modifies this
      ensures Valid()
      ensures phone_number == user_phone && phone_number_error == NO_ERROR
      ensures processing == old(processing) && contact_phones == old(contact_phones)
      ensures show_phone_list == old(show_phone_list) && pending == old(pending)
    {
      phone_number, phone_number_error := user_phone, NO_ERROR;
    }

    /**
     * `handleSelectContact` once the permission prompt has answered. Granted:
     * the phone list is cleared and the contact picker opens; `phone_number` is
     * kept, since the reset is written under the key `phoneNumber`, which
     * nothing reads. Denied: a toast and nothing else.
     */
    method PermissionAnswered(granted: bool) returns (cmds: seq<Command>)
      requires Valid()
      modifies this
      ensures Valid()
      ensures granted ==> contact_phones == [] && cmds == [PickContactPhone]
      ensures !granted ==> contact_phones == old(contact_phones) && cmds == [ShowToast(CONTACTS_PERMISSION_NEEDED)]
      ensures phone_number == old(phone_number) && phone_number_error == old(phone_number_error)
      ensures processing == old(processing) && show_phone_list == old(show_phone_list) && pending == old(pending)
    {
      if granted {
        contact_phones := [];
        cmds := [PickContactPhone];
      } else {
        cmds := [ShowToast(CONTACTS_PERMISSION_NEEDED)];
      }
    }

    /** `assertContactPhone`: store the normalised number and clear the field error. */
    method AcceptContactPhone(number: Option<string>)
      requires Valid()
      modifies this
      ensures Valid()
      ensures phone_number == NormalizeContactPhone(number) && phone_number_error == NO_ERROR
      ensures processing == old(processing) && contact_phones == old(contact_phones)
      ensures show_phone_list == old(show_phone_list) && pending == old(pending)
    {
      phone_number, phone_number_error := NormalizeContactPhone(number), NO_ERROR;
    }

    /**
     * `handleSelectContact` once the picker has returned `contact` (None when
     * the user picked nothing); `normalizeContactPhones` is the app's own
     * clean-up of the contact's phone list.
     */
    method ContactPicked<Raw>(contact: Option<Raw>, normalizeContactPhones: Raw -> seq<ContactPhone>)
      requires Valid()
      modifies this
      ensures Valid()
      ensures var n := if contact.Some? then |normalizeContactPhones(contact.value)| else 0;
              && (n == 1 ==>
                    phone_number == NormalizeContactPhone(normalizeContactPhones(contact.value)[0].number) &&
                    phone_number_error == NO_ERROR &&
                    contact_phones == old(contact_phones) && show_phone_list == old(show_phone_list))
              && (n > 1 ==>
                    contact_phones == normalizeContactPhones(contact.value) && show_phone_list &&
                    phone_number == old(phone_number) && phone_number_error == old(phone_number_error))
              && (n == 0 ==>
                    contact_phones == old(contact_phones) && show_phone_list == old(show_phone_list) &&
                    phone_number == old(phone_number) && phone_number_error == old(phone_number_error))
      ensures processing == old(processing) && pending == old(pending)
    {
      if contact.Some? {
        var phones := normalizeContactPhones(contact.value);
        if |phones| == 1 {
          AcceptContactPhone(phones[0].number);
        } else if |phones| > 1 {
          contact_phones, show_phone_list := phones, true;
        }
      }
    }

    /**
     * The action sheet's `onChange`: row `i` of the options built from
     * `contact_phones` (`getContactPhoneOptions`) goes through
     * `assertContactPhone`, so the stored number is that contact phone's
     * number, normalised.
     */
    method ChoosePhone(i: nat)
      requires Valid() && i < |contact_phones|
      modifies this
      ensures Valid()
      ensures contact_phones == old(contact_phones)
      ensures phone_number == NormalizeContactPhone(ContactPhoneOptions(contact_phones)[i].number)
      ensures phone_number == NormalizeContactPhone(contact_phones[i].number) && phone_number_error == NO_ERROR
      ensures processing == old(processing) && show_phone_list == old(show_phone_list) && pending == old(pending)
    {
      var options := ContactPhoneOptions(contact_phones);
      AcceptContactPhone(options[i].number);
    }

    /** The action sheet's `close`. */
    method ClosePhoneList()
      requires Valid()
      modifies this
      ensures Valid()
      ensures !show_phone_list
      ensures phone_number == old(phone_number) && phone_number_error == old(phone_number_error)
      ensures processing == old(processing) && contact_phones == old(contact_phones) && pending == old(pending)
    {
      show_phone_list := false;
    }

    /**
     * `handleSubmit`, guard by guard: the phone must pass `isValidPhone`, the
     * wallet must report no error (`wallet_data_error`, "" when it has none),
     * and a data category must be loaded. Only then is `processing` set and the
     * billers of that category requested.
     */
    method Submit(isValidPhone: string -> bool, wallet_data_error: string, categories: seq<Category>)
      returns (cmds: seq<Command>)
      requires Valid()
      modifies this
      ensures Valid()
      ensures IssuesRequest(cmds) <==>
                isValidPhone(phone_number) && wallet_data_error == "" && FindDataCategory(categories).Some?
      ensures !isValidPhone(phone_number) ==>
                phone_number_error == Entry(ENTER_VALID_PHONE) && cmds == [] &&
                processing == old(processing) && pending == old(pending)
      ensures isValidPhone(phone_number) ==> phone_number_error == old(phone_number_error)
      ensures isValidPhone(phone_number) && wallet_data_error != "" ==>
                cmds == [ShowToast(Plain(wallet_data_error))] &&
                processing == old(processing) && pending == old(pending)
      ensures isValidPhone(phone_number) && wallet_data_error == "" && FindDataCategory(categories).None? ==>
                cmds == [ShowToast(Entry(GENERAL_ERROR))] &&
                processing == old(processing) && pending == old(pending)
      ensures isValidPhone(phone_number) && wallet_data_error == "" && FindDataCategory(categories).Some? ==>
                var request := Request(categories[FindDataCategory(categories).value].slug.value, phone_number);
                processing && cmds == [GetCategoryBillers(request)] && pending == old(pending) + multiset{request}
      ensures phone_number == old(phone_number) && contact_phones == old(contact_phones)
      ensures show_phone_list == old(show_phone_list)
    {
      var is_valid := Validate(isValidPhone);
      if !is_valid {
        return [];
      }
      if wallet_data_error != "" {
        cmds := [ShowToast(Plain(wallet_data_error))];
        return;
      }
      var found := FindDataCategory(categories);
      if found.None? {
        cmds := [ShowToast(Entry(GENERAL_ERROR))];
      } else {
        var request := Request(categories[found.value].slug.value, phone_number);
        processing := true;
        pending := pending + multiset{request};
        cmds := [GetCategoryBillers(request)];
      }
    }

    /** `validate`: sets the field error when the phone is invalid, and leaves it alone otherwise. */
    method Validate(isValidPhone: string -> bool) returns (is_valid: bool)
      requires Valid()
      modifies this
      ensures Valid()
      ensures is_valid == isValidPhone(phone_number)
      ensures phone_number_error == if is_valid then old(phone_number_error) else Entry(ENTER_VALID_PHONE)
      ensures phone_number == old(phone_number) && processing == old(processing)
      ensures contact_phones == old(contact_phones) && show_phone_list == old(show_phone_list) && pending == old(pending)
    {
      is_valid := true;
      if !isValidPhone(phone_number) {
        phone_number_error := Entry(ENTER_VALID_PHONE);
        is_valid := false;
      }
    }

    /**
     * The request's `then` branch: `processing` is cleared; an empty answer is
     * a general error, any other records the captured phone number and moves
     * on to the network choice with the billers. An answer that is not empty
     * but has no `billscategories` records the phone number and then throws.
     */
    method BillersLoaded(request: Request, result: BillersResult) returns (cmds: seq<Command>)
      requires Valid() && request in pending
      modifies this
      ensures Valid()
      ensures !processing && pending == old(pending) - multiset{request}
      ensures IsEmptyResult(result) ==> cmds == [ShowToast(Entry(GENERAL_ERROR))]
      ensures !IsEmptyResult(result) && result.billscategories.None? ==>
                cmds == [UpdateDataPurchase(request.phone_number), ThrowTypeError]
      ensures !IsEmptyResult(result) && result.billscategories.Some? ==>
                cmds == [UpdateDataPurchase(request.phone_number),
                         Navigate(DATA_NETWORK, BillersParam(result.billscategories.value.billers))]
      ensures phone_number == old(phone_number) && phone_number_error == old(phone_number_error)
      ensures contact_phones == old(contact_phones) && show_phone_list == old(show_phone_list)
    {
      processing := false;
      pending := pending - multiset{request};
      if IsEmptyResult(result) {
        cmds := [ShowToast(Entry(GENERAL_ERROR))];
      } else if result.billscategories.None? {
        cmds := [UpdateDataPurchase(request.phone_number), ThrowTypeError];
      } else {
        var billers := result.billscategories.value.billers;
        cmds := [UpdateDataPurchase(request.phone_number), Navigate(DATA_NETWORK, BillersParam(billers))];
      }
    }

    /** The request's `catch` branch: `processing` is cleared and the error's message is shown. */
    method BillersFailed(request: Request, message: string) returns (cmds: seq<Command>)
      requires Valid() && request in pending
      modifies this
      ensures Valid()
      ensures !processing && pending == old(pending) - multiset{request}
      ensures cmds == [ShowToast(Plain(message))]
      ensures phone_number == old(phone_number) && phone_number_error == old(phone_number_error)
      ensures contact_phones == old(contact_phones) && show_phone_list == old(show_phone_list)
    {
      processing := false;
      pending := pending - multiset{request};
      cmds := [ShowToast(Plain(message))];
    }

    /**
     * `handleBackButton`, also wired to the header's back arrow: a focused
     * screen consumes the event and, unless a request is outstanding, goes to
     * the dashboard; an unfocused one leaves the event to others (its
     * `undefined` result).
     */
    method HandleBackButton(isFocused: bool) returns (handled: bool, cmds: seq<Command>)
      ensures handled == isFocused
      ensures Navigates(cmds) <==> isFocused && !processing
      ensures Navigates(cmds) ==> cmds == [Navigate(DASHBOARD, NoParams)]
      ensures !Navigates(cmds) ==> cmds == []
    {
      handled, cmds := false, [];
      if isFocused {
        if !processing {
          cmds := [Navigate(DASHBOARD, NoParams)];
        }
        handled := true;
      }
    }
  }

  /** A session through the screen: type a number, submit, receive the billers, go back. */
  method ExampleSession(typed: string, categories: seq<Category>, billers: seq<Biller>)
    requires AllDigits(typed)
  {
    var screen := new Data();
    screen.ChangeText(typed);
    RemoveNonDigitsFixpoint(typed);
    assert screen.phone_number == typed;
    var found := FindDataCategory(categories);
    if found.Some? {
      var cmds := screen.Submit(s => true, "", categories);
      var request := Request(categories[found.value].slug.value, typed);
      assert cmds == [GetCategoryBillers(request)];
      var handled, back := screen.HandleBackButton(true);
      assert handled && back == [];
      cmds := screen.BillersLoaded(request, Present(None, Some(BillsCategories(Some(billers)))));
      assert cmds == [UpdateDataPurchase(typed), Navigate(DATA_NETWORK, BillersParam(Some(billers)))];
      handled, back := screen.HandleBackButton(true);
      assert back == [Navigate(DASHBOARD, NoParams)];
    }
  }
}
