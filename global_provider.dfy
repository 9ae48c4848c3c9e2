/** The app-wide session state (context/GlobalProvider.js): whether someone is signed in,
    their user document, and whether the check of the session is still running.

    The collaborators' results are parameters: what getCurrentUser resolved to (or threw) for
    checkUser, and whether account.deleteSessions() succeeded for logout. */
module GlobalProvider {
  import opened Common
  import Appwrite

  class Session {
    var isLoggedIn: bool
    var user: Option<Appwrite.UserDoc>
    var isLoading: bool

    /** The link checkUser and logout keep: signed in exactly when a user document is held. */
    predicate LoggedInIffUser()
      reads this
    {
      isLoggedIn <==> user.Some?
    }

    /** The provider's initial state: signed out, no user, the session check pending. */
    constructor ()
      ensures !isLoggedIn && user == None && isLoading
      ensures LoggedInIffUser()
    {
      isLoggedIn := false;
      user := None;
      isLoading := true;
    }

    /** checkUser: marks the check as running, adopts what getCurrentUser returned (a user
        or null), falls back to signed out if it threw, and in every case (the `finally`)
        ends with the check no longer running. */
    method CheckUser(current: Result<Option<Appwrite.UserDoc>, string>)
      modifies this
      ensures (isLoggedIn, user, isLoading) == AfterCheckUser(current)
      ensures !isLoading
      ensures current.Ok? ==> user == current.value && (isLoggedIn <==> current.value.Some?)
      ensures current.Err? ==> !isLoggedIn && user == None
      ensures LoggedInIffUser()
    {
      isLoading := true;
      if current.Ok? {
        if current.value.Some? {
          user := current.value;
          isLoggedIn := true;
        } else {
          isLoggedIn := false;
          user := None;
        }
      } else {
        isLoggedIn := false;
        user := None;
      }
      isLoading := false;
    }

    /** logout: after the sessions are deleted, signed out with no user; if deleting them
        threw, the error is only logged and nothing changes. */
    method Logout(deleted: Result<(), string>)
      modifies this
      ensures deleted.Ok? ==> !isLoggedIn && user == None && isLoading == old(isLoading)
      ensures deleted.Err? ==> isLoggedIn == old(isLoggedIn) && user == old(user) && isLoading == old(isLoading)
      ensures old(LoggedInIffUser()) ==> LoggedInIffUser()
    {
      if deleted.Ok? {
        isLoggedIn := false;
        user := None;
      }
    }

    /** The raw setIsLoggedIn exposed in the context value: it changes only isLoggedIn, and
        afterwards the link holds only if the new flag happens to match the user field. */
    method SetIsLoggedIn(value: bool)
      modifies this
      ensures isLoggedIn == value && user == old(user) && isLoading == old(isLoading)
      ensures LoggedInIffUser() <==> (value <==> user.Some?)
    {
      isLoggedIn := value;
    }

    /** The raw setUser exposed in the context value: it changes only user, and afterwards the
        link holds only if the new user matches the flag. */
    method SetUser(value: Option<Appwrite.UserDoc>)
      modifies this
      ensures user == value && isLoggedIn == old(isLoggedIn) && isLoading == old(isLoading)
      ensures LoggedInIffUser() <==> (isLoggedIn <==> value.Some?)
    {
      user := value;
    }
  }

  /** The state checkUser leaves behind, as a function of what getCurrentUser resolved to:
      (isLoggedIn, user, isLoading). */
  function AfterCheckUser(current: Result<Option<Appwrite.UserDoc>, string>): (s: (bool, Option<Appwrite.UserDoc>, bool))
    ensures !s.2
    ensures s.0 <==> s.1.Some?
    ensures current.Ok? ==> s.1 == current.value
    ensures current.Err? ==> s.1 == None
  {
    match current
    case Ok(u) => (u.Some?, u, false)
    case Err(_) => (false, None, false)
  }

  /** getCurrentUser catches every error itself, so checkUser driven by it always takes the
      non-throwing path: the user it adopts is exactly the one getCurrentUser finds, and it is
      signed in exactly when the account has a user document. */
  lemma CheckUserWithGetCurrentUser(account: Result<Option<Appwrite.Account>, string>,
                                    listing: Result<Option<seq<Appwrite.UserDoc>>, string>)
    ensures var s := AfterCheckUser(Ok(Appwrite.GetCurrentUser(account, listing)));
            && (s.0 <==> account.Ok? && account.value.Some? && listing.Ok? && listing.value.Some?
                         && listing.value.value != [])
            && (s.0 ==> s.1 == Some(listing.value.value[0]))
            && !s.2
  {
  }
}
