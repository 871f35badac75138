/**
 * The plain account access list (src/userpagetest): accounts are loaded once and listed
 * in full; each row's button toggles the account's access once the request succeeds.
 */
module UserPageTest {
  import opened Remote
  import opened Records
  import opened Toggle

  class UserAccessPage {
    var users: seq<Account>
    var error: Option<string>

    constructor ()
      ensures users == [] && error == None
    {
      users, error := [], None;
    }

    method FetchUsers(response: Fetch<ListField<Account>>)
      modifies this
      ensures response.Success? && response.value.Some? ==>
        users == response.value.value && error == old(error)
      ensures response.Failure? || response.value.None? ==>
        users == old(users) && error == Some(LoadUsersFailed)
    {
      if response.Success? && response.value.Some? {
        users := response.value.value;
      } else {
        error := Some(LoadUsersFailed);
      }
    }

    method RevokeAccess(userId: string, patch: Fetch<()>)
      modifies this
      ensures patch.Success? ==> users == ToggleAccountByUid(old(users), userId) && error == old(error)
      ensures patch.Success? ==> forall j :: 0 <= j < |users| ==>
        ButtonLabel(j) == (if old(users)[j].uid == userId then AccessButton(!old(users)[j].is_active)
                           else AccessButton(old(users)[j].is_active))
      ensures patch.Failure? ==> users == old(users) && error == Some(UpdateAccessFailed)
    {
      match patch {
        case Success(_) => users := ToggleAccountByUid(users, userId);
        case Failure(_) => error := Some(UpdateAccessFailed);
      }
    }

    /** The button of row `i`. */
    function ButtonLabel(i: nat): string
      reads this
      requires i < |users|
    {
      AccessButton(users[i].is_active)
    }
  }

  /** After a toggle, a row's button label changes exactly when the row's uid matches. */
  lemma ToggleFlipsButtons(users: seq<Account>, userId: string)
    ensures forall j :: 0 <= j < |users| ==>
      (AccessButton(ToggleAccountByUid(users, userId)[j].is_active) != AccessButton(users[j].is_active)
       <==> users[j].uid == userId)
  {
  }
}
