/**
 * The two admin forms: create-user, which needs both fields and clears them
 * after submitting, and edit-user, which is prefilled from the account table
 * and needs an email.
 */
module AdminForms {
  import opened Wrappers
  import opened UserTypes
  import DatabaseService

  /** The arguments of `onCreateUser`. */
  datatype NewCredentials = NewCredentials(email: string, password: string)

  /** The arguments of `onEditUser`; an empty password means "keep the current one". */
  datatype EditRequest = EditRequest(userId: string, email: string, password: string)

  class CreateUserForm {
    var email: string
    var password: string

    constructor ()
      ensures email == "" && password == ""
    {
      email, password := "", "";
    }

    /** `handleSubmit`: returns the callback's arguments, or `None` when it is not called. */
    method HandleSubmit() returns (call: Option<NewCredentials>)
      modifies this
      ensures call.Some? <==> CredentialsGiven(old(email), old(password))
      ensures call.Some? ==> call.value == NewCredentials(old(email), old(password)) && email == "" && password == ""
      ensures call.None? ==> email == old(email) && password == old(password)
    {
      if !CredentialsGiven(email, password) {
        return None;
      }
      call := Some(NewCredentials(email, password));
      email, password := "", "";
    }
  }

  class EditUserForm {
    var email: string
    var password: string

    constructor ()
      ensures email == "" && password == ""
    {
      email, password := "", "";
    }

    /** The prefill effect: the matching account's email and an empty password; no match changes nothing. */
    method Prefill(users: seq<UserAccount>, userId: string)
      modifies this
      ensures DatabaseService.UserById(users, userId).Some? ==>
                email == DatabaseService.UserById(users, userId).value.email && password == ""
      ensures DatabaseService.UserById(users, userId).None? ==> email == old(email) && password == old(password)
    {
      var found := DatabaseService.UserById(users, userId);
      if found.Some? {
        email, password := found.value.email, "";
      }
    }

    /** `handleSubmit`: returns the callback's arguments, or `None` when the email is empty. */
    method HandleSubmit(userId: string) returns (call: Option<EditRequest>)
      ensures call.Some? <==> email != ""
      ensures call.Some? ==> call.value == EditRequest(userId, email, password)
    {
      if email == "" {
        return None;
      }
      call := Some(EditRequest(userId, email, password));
    }
  }

  /** A fresh edit form prefilled for an id no account has keeps both fields empty. */
  method PrefillUnknownId(users: seq<UserAccount>, userId: string) returns (form: EditUserForm)
    requires forall k :: 0 <= k < |users| ==> users[k].id != userId
    ensures fresh(form) && form.email == "" && form.password == ""
  {
    form := new EditUserForm();
    form.Prefill(users, userId);
  }
}
