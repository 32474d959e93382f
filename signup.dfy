/**
 * The signup page: three checks in a fixed order, then a new student account
 * is saved and becomes the session user. The page's `loading` hook is the
 * field of SignupPage; the form is passed to the handler. The password is
 * collected but never stored or checked.
 */
module Signup {
  import opened Wrappers
  import opened StorageTypes
  import opened ArrayQueries
  import opened Storage

  /** The formData hook. */
  datatype SignupForm = SignupForm(name: string, email: string, studentId: string, password: string, ageConfirm: bool)

  /** The failures the page reports in an error toast, in the order they are checked. */
  datatype SignupError = AgeNotConfirmed | NotSchoolEmail | EmailTaken

  /** The only address suffix accepted. */
  const SCHOOL_DOMAIN: string := "@fitmat.edu"

  /** `s.endsWith(suffix)` */
  function EndsWith(s: string, suffix: string): (r: bool)
    ensures r <==> exists k | 0 <= k <= |s| :: s[k..] == suffix
  {
    |suffix| <= |s| && s[|s| - |suffix|..] == suffix
  }

  /**
   * The checks of handleSignup, first failure wins: the age box, then the
   * school address, then an account already holding the address.
   */
  function Validate(store: Store, form: SignupForm): (r: Option<SignupError>)
    reads store
    ensures !form.ageConfirm ==> r == Some(AgeNotConfirmed)
    ensures form.ageConfirm && !EndsWith(form.email, SCHOOL_DOMAIN) ==> r == Some(NotSchoolEmail)
    ensures form.ageConfirm && EndsWith(form.email, SCHOOL_DOMAIN) &&
            (exists j | 0 <= j < |store.GetUsers()| :: store.GetUsers()[j].email == form.email) ==>
              r == Some(EmailTaken)
    ensures r.None? <==>
              && form.ageConfirm
              && EndsWith(form.email, SCHOOL_DOMAIN)
              && forall j | 0 <= j < |store.GetUsers()| :: store.GetUsers()[j].email != form.email
  {
    if !form.ageConfirm then Some(AgeNotConfirmed)
    else if !EndsWith(form.email, SCHOOL_DOMAIN) then Some(NotSchoolEmail)
    else if store.GetUserByEmail(form.email).Some? then Some(EmailTaken)
    else None
  }

  /** The account handleSignup creates: `u_` and the clock reading as id, a verified 18-year-old student with 1000 tokens. */
  function NewStudent(form: SignupForm, now: nat): (u: User)
    ensures u.name == form.name && u.email == form.email && u.studentId == form.studentId
    ensures u.role == Student && u.balance == 1000.0 && u.age == 18 && u.verified && u.createdAt == now
    ensures |u.id| > 2 && u.id[..2] == "u_"
  {
    User("u_" + DecimalText(now), form.name, form.email, form.studentId, Student, 1000.0, 18, true, now)
  }

  /** The page state of the signup form. */
  class SignupPage {
    var loading: bool

    constructor ()
      ensures !loading
    {
      loading := false;
    }

    /**
     * handleSignup: a failed check changes nothing in the store; the first two
     * leave `loading` as it was, the duplicate check runs with it set and
     * resets it. On success the account is saved (replacing any with the same
     * id) and becomes the session user.
     */
    method HandleSignup(store: Store, form: SignupForm, now: nat) returns (error: Option<SignupError>)
      modifies this, store`users, store`currentUserId
      ensures error == old(Validate(store, form))
      ensures error.Some? ==> store.users == old(store.users) && store.currentUserId == old(store.currentUserId)
      ensures error == Some(AgeNotConfirmed) || error == Some(NotSchoolEmail) ==> loading == old(loading)
      ensures error == Some(EmailTaken) || error.None? ==> !loading
      ensures error.None? ==>
                var user := NewStudent(form, now);
                && store.users == Some(Upsert(old(store.GetUsers()), user, USER_ID))
                && (old(store.GetUser(user.id)).None? ==> store.GetUsers() == old(store.GetUsers()) + [user])
                && store.currentUserId == Some(user.id)
                && store.GetCurrentUser() == Some(user)
    {
      if !form.ageConfirm {
        return Some(AgeNotConfirmed);
      }
      if !EndsWith(form.email, SCHOOL_DOMAIN) {
        return Some(NotSchoolEmail);
      }
      loading := true;
      var existing := store.GetUserByEmail(form.email);
      if existing.Some? {
        loading := false;
        return Some(EmailTaken);
      }
      var user := User("u_" + DecimalText(now), form.name, form.email, form.studentId, Student, 1000.0, 18, true, now);
      store.SaveUser(user);
      store.SetCurrentUser(Some(user.id));
      loading := false;
      error := None;
    }
  }
}
