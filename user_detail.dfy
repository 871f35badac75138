/**
 * The add/edit account form (users/user/detail): a valid `uid` route parameter loads the
 * account into the form and turns Submit into an update; otherwise Submit adds a new
 * account. The username sent is the part of the email before the first '@'.
 */
module UserDetail {
  import opened Remote

  const LoadFailed: string := "Failed to load user data."
  const Updated: string := "User updated successfully!"
  const Added: string := "User added successfully!"
  const SubmitFailedPrefix: string := "Failed to submit data: "
  const UnknownError: string := "Unknown error occurred."
  const SubmitError: string := "An error occurred while submitting the data."
  const Deleted: string := "User deleted successfully!"
  const DeleteFailedPrefix: string := "Failed to delete user: "
  const DeleteError: string := "An error occurred while deleting the user."

  /** `uid && uid !== ":uid"`: the one test behind both the fetch and the update/add choice. */
  function UidValid(uid: Option<string>): (r: bool)
    ensures r ==> uid.Some? && uid.value != ""
    ensures uid == Some(":uid") || uid == Some("") || uid == None ==> !r
    ensures uid.Some? && uid.value != "" && uid.value != ":uid" ==> r
  {
    Truthy(uid) && uid.value != ":uid"
  }

  /** `email.split("@")[0]`: everything before the first '@', or the whole email without one. */
  function EmailPrefix(email: string): (r: string)
    ensures |r| <= |email| && email[..|r|] == r
    ensures '@' !in r
    ensures |r| < |email| ==> email[|r|] == '@'
  {
    if email == [] || email[0] == '@' then []
    else [email[0]] + EmailPrefix(email[1..])
  }

  /** The prefix of `name@domain` for an '@'-free name is the name. */
  lemma {:induction false} EmailPrefixOfAddress(name: string, domain: string)
    requires '@' !in name
    ensures EmailPrefix(name + "@" + domain) == name
  {
    if name != [] {
      assert (name + "@" + domain)[1..] == name[1..] + "@" + domain;
      EmailPrefixOfAddress(name[1..], domain);
    }
  }

  function DigitChar(d: nat): (c: char)
    requires d < 10
    ensures '0' <= c <= '9' && c as int - '0' as int == d
  {
    ('0' as int + d) as char
  }

  predicate AllDigits(s: string) {
    forall i :: 0 <= i < |s| ==> '0' <= s[i] <= '9'
  }

  /** The value of a string of decimal digits, most significant first. */
  function DigitsValue(s: string): nat
    requires AllDigits(s)
  {
    if s == [] then 0 else DigitsValue(s[..|s| - 1]) * 10 + (s[|s| - 1] as int - '0' as int)
  }

  /** The decimal digits of a number, as a template literal prints it: no leading zero. */
  function NatText(n: nat): (s: string)
    ensures |s| >= 1 && AllDigits(s)
    ensures n >= 1 ==> s[0] != '0'
    ensures n == 0 ==> s == "0"
  {
    if n < 10 then [DigitChar(n)] else NatText(n / 10) + [DigitChar(n % 10)]
  }

  /** Reading the digits back gives the number. */
  lemma {:induction false} NatTextRoundTrip(n: nat)
    ensures DigitsValue(NatText(n)) == n
  {
    var s := NatText(n);
    if n >= 10 {
      NatTextRoundTrip(n / 10);
      assert s[..|s| - 1] == NatText(n / 10);
    }
  }

  /** An integer's text: a minus sign exactly for a negative number, then its digits. */
  function IntText(n: int): (s: string)
    ensures |s| >= 1
    ensures s[0] == '-' <==> n < 0
    ensures n < 0 ==> |s| >= 2 && AllDigits(s[1..]) && DigitsValue(s[1..]) == -n
    ensures n >= 0 ==> AllDigits(s) && DigitsValue(s) == n
  {
    var digits := NatText(if n < 0 then -n else n);
    NatTextRoundTrip(if n < 0 then -n else n);
    if n < 0 then
      assert ("-" + digits)[1..] == digits;
      "-" + digits
    else digits
  }

  /** `results.data` of `/users/account?uid=`. */
  datatype UserData = UserData(
    first_name: Option<string>,
    last_name: Option<string>,
    email: Option<string>,
    roles_id: Option<int>)

  /**
   * The form's role: the number loaded from the account, or the text of the input once it
   * is edited (or the empty string). The body posts it as a JSON number or string accordingly.
   */
  datatype RoleValue = RoleNumber(n: int) | RoleText(text: string)

  datatype FormData = FormData(first_name: string, last_name: string, email: string, roles_id: RoleValue)

  const EmptyForm := FormData("", "", "", RoleText(""))

  /** Each field, or "" when it is missing or falsy; a truthy role id stays a number. */
  function ToForm(u: UserData): (f: FormData)
    ensures f.first_name == OrDefault(u.first_name, "") && f.last_name == OrDefault(u.last_name, "")
    ensures f.email == OrDefault(u.email, "")
    ensures f.roles_id.RoleNumber? <==> u.roles_id.Some? && u.roles_id.value != 0
    ensures f.roles_id.RoleNumber? ==> f.roles_id.n == u.roles_id.value
    ensures f.roles_id.RoleText? ==> f.roles_id.text == ""
  {
    var role := NumberOrEmpty(u.roles_id);
    FormData(OrDefault(u.first_name, ""), OrDefault(u.last_name, ""), OrDefault(u.email, ""),
      if role.Some? then RoleNumber(role.value) else RoleText(""))
  }

  /** The input a change event names. */
  datatype Field = FirstName | LastName | Email | RolesId

  /** `{ ...prevData, [name]: value }`. */
  function SetField(f: FormData, name: Field, value: string): (r: FormData)
    ensures name == FirstName ==> r == f.(first_name := value)
    ensures name == LastName ==> r == f.(last_name := value)
    ensures name == Email ==> r == f.(email := value)
    ensures name == RolesId ==> r == f.(roles_id := RoleText(value))
  {
    match name
    case FirstName => f.(first_name := value)
    case LastName => f.(last_name := value)
    case Email => f.(email := value)
    case RolesId => f.(roles_id := RoleText(value))
  }

  /** The posted body: the form, the derived username, the two fixed flags, and `uid` on update. */
  datatype Payload = Payload(
    first_name: string,
    last_name: string,
    email: string,
    roles_id: RoleValue,
    username: string,
    is_admin: bool,
    is_active: bool,
    uid: Option<string>)

  function SubmitPayload(f: FormData, uid: Option<string>): (p: Payload)
    ensures p.first_name == f.first_name && p.last_name == f.last_name
    ensures p.email == f.email && p.roles_id == f.roles_id
    ensures p.username == EmailPrefix(f.email)
    ensures !p.is_admin && p.is_active
    ensures UidValid(uid) ==> p.uid == uid
    ensures !UidValid(uid) ==> p.uid == None
  {
    Payload(f.first_name, f.last_name, f.email, f.roles_id, EmailPrefix(f.email), false, true,
      if UidValid(uid) then uid else None)
  }

  /** The payload of an edited address `name@domain` names the account `name`. */
  lemma PayloadUsername(f: FormData, uid: Option<string>, name: string, domain: string)
    requires '@' !in name && f.email == name + "@" + domain
    ensures SubmitPayload(f, uid).username == name
  {
    EmailPrefixOfAddress(name, domain);
  }

  /**
   * A loaded truthy role id is posted as the number it was, until the role input is edited;
   * after an edit it is posted as the typed text.
   */
  lemma SubmittedRole(u: UserData, uid: Option<string>, typed: string)
    requires u.roles_id.Some? && u.roles_id.value != 0
    ensures SubmitPayload(ToForm(u), uid).roles_id == RoleNumber(u.roles_id.value)
    ensures SubmitPayload(SetField(ToForm(u), RolesId, typed), uid).roles_id == RoleText(typed)
  {
  }

  /** What the submit request returns: an answer, or a thrown error (with the server's message if any). */
  datatype SubmitResponse =
    | Answered(status: int, hasData: bool, error_message: Option<string>)
    | Thrown(server_message: Option<string>)

  predicate SubmitSucceeded(r: SubmitResponse) {
    r.Answered? && r.status == 200 && r.hasData
  }

  /** The status line after a submit. */
  function SubmitStatus(r: SubmitResponse, uid: Option<string>): (s: string)
    ensures SubmitSucceeded(r) && UidValid(uid) ==> s == Updated
    ensures SubmitSucceeded(r) && !UidValid(uid) ==> s == Added
    ensures r.Answered? && !SubmitSucceeded(r) ==> s == SubmitFailedPrefix + OrDefault(r.error_message, UnknownError)
    ensures r.Thrown? ==> s == OrDefault(r.server_message, SubmitError)
  {
    match r
    case Answered(status, hasData, message) =>
      if status == 200 && hasData then (if UidValid(uid) then Updated else Added)
      else SubmitFailedPrefix + OrDefault(message, UnknownError)
    case Thrown(message) => OrDefault(message, SubmitError)
  }

  /** The status line after a delete; `Success(status)` is an answered request. */
  function DeleteStatus(r: Fetch<int>): (s: string)
    ensures r.Success? && r.value == 200 ==> s == Deleted
    ensures r.Success? && r.value != 200 ==> s == DeleteFailedPrefix + IntText(r.value)
    ensures r.Failure? ==> s == DeleteError
  {
    match r
    case Success(status) => if status == 200 then Deleted else DeleteFailedPrefix + IntText(status)
    case Failure(_) => DeleteError
  }

  class UserForm {
    const uid: Option<string>
    var formData: FormData
    var user: Option<UserData>
    var loading: bool
    var error: string
    var formStatus: string
    var isSubmitting: bool
    var isDeleted: bool

    constructor (uid: Option<string>)
      ensures this.uid == uid && formData == EmptyForm && user == None && loading
      ensures error == "" && formStatus == "" && !isSubmitting && !isDeleted
    {
      this.uid := uid;
      formData, user, loading := EmptyForm, None, true;
      error, formStatus, isSubmitting, isDeleted := "", "", false, false;
    }

    /** The effect on `uid` and `isDeleted`: load a valid uid's account; loading always ends. */
    method Load(response: Fetch<Option<UserData>>)
      modifies this
      ensures !loading
      ensures UidValid(uid) && response.Success? && response.value.Some? ==>
        formData == ToForm(response.value.value) && user == response.value && error == old(error)
      ensures UidValid(uid) && (response.Failure? || response.value.None?) ==>
        formData == old(formData) && user == old(user) && error == LoadFailed
      ensures !UidValid(uid) ==> formData == old(formData) && user == old(user) && error == old(error)
      ensures formStatus == old(formStatus) && isSubmitting == old(isSubmitting) && isDeleted == old(isDeleted)
    {
      if UidValid(uid) {
        if response.Success? && response.value.Some? {
          formData := ToForm(response.value.value);
          user := response.value;
        } else {
          error := LoadFailed;
        }
      }
      loading := false;
    }

    /** `handleChange`. */
    method HandleChange(name: Field, value: string)
      modifies this
      ensures formData == SetField(old(formData), name, value)
      ensures user == old(user) && loading == old(loading) && error == old(error)
      ensures formStatus == old(formStatus) && isSubmitting == old(isSubmitting) && isDeleted == old(isDeleted)
    {
      formData := SetField(formData, name, value);
    }

    /**
     * `handleSubmit`: send `SubmitPayload(formData, uid)`, show the outcome, and after a
     * successful add (never after an update) clear the form.
     */
    method HandleSubmit(response: SubmitResponse) returns (sent: Payload)
      modifies this
      ensures sent == SubmitPayload(old(formData), uid)
      ensures formStatus == SubmitStatus(response, uid)
      ensures SubmitSucceeded(response) && !UidValid(uid) ==> formData == EmptyForm
      ensures !(SubmitSucceeded(response) && !UidValid(uid)) ==> formData == old(formData)
      ensures !isSubmitting
      ensures user == old(user) && loading == old(loading) && error == old(error) && isDeleted == old(isDeleted)
    {
      isSubmitting := true;
      formStatus := "";
      sent := SubmitPayload(formData, uid);
      formStatus := SubmitStatus(response, uid);
      if SubmitSucceeded(response) && !UidValid(uid) {
        formData := EmptyForm;
      }
      isSubmitting := false;
    }

    /** `handleDelete`: a 200 answer marks the account deleted and clears the form. */
    method HandleDelete(response: Fetch<int>)
      modifies this
      ensures formStatus == DeleteStatus(response)
      ensures response == Success(200) ==> isDeleted && formData == EmptyForm
      ensures response != Success(200) ==> isDeleted == old(isDeleted) && formData == old(formData)
      ensures !isSubmitting
      ensures user == old(user) && loading == old(loading) && error == old(error)
    {
      isSubmitting := true;
      formStatus := DeleteStatus(response);
      if response == Success(200) {
        isDeleted := true;
        formData := EmptyForm;
      }
      isSubmitting := false;
    }
  }
}
