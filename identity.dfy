/** The identity service's session, reduced to what the screens observe:
    the current user, and the accounts deleted so far. Every network answer
    is an input. */
module Identity {
  import opened Common

  class AuthSession {
    var currentUser: Option<AuthUser>
    /** The uids of the accounts deleted so far. */
    var deletedAccounts: seq<string>

    constructor (user: Option<AuthUser>)
      ensures currentUser == user && deletedAccounts == []
    {
      currentUser := user;
      deletedAccounts := [];
    }

    /** `userIsLogin`. */
    function UserIsLogin(): bool
      reads this
    {
      currentUser != None
    }

    /** Signing in with a credential: the provider's answer becomes the
        current user on success; a failure changes nothing. */
    method SignInWithCredential(answer: Result<AuthUser>) returns (r: Result<AuthUser>)
      modifies this`currentUser
      ensures r == answer
      ensures answer.Success? ==> currentUser == Some(answer.value)
      ensures answer.Failure? ==> currentUser == old(currentUser)
    {
      if answer.Success? {
        currentUser := Some(answer.value);
      }
      r := answer;
    }

    /** `deleteUser`: `currentUser?.delete()`. With no current user nothing
        happens and nothing is thrown; otherwise the provider either deletes
        the account, which also ends the session, or throws `failure`. */
    method DeleteUser(failure: Option<Error>) returns (thrown: Option<Error>)
      modifies this
      ensures old(currentUser).None? ==> thrown == None && currentUser == None && deletedAccounts == old(deletedAccounts)
      ensures old(currentUser).Some? && failure.Some? ==>
        thrown == failure && currentUser == old(currentUser) && deletedAccounts == old(deletedAccounts)
      ensures old(currentUser).Some? && failure.None? ==>
        thrown == None && currentUser == None && deletedAccounts == old(deletedAccounts) + [old(currentUser).value.uid]
    {
      if currentUser.None? {
        return None;
      }
      if failure.Some? {
        return failure;
      }
      deletedAccounts := deletedAccounts + [currentUser.value.uid];
      currentUser := None;
      thrown := None;
    }

    /** `logOut`: the session ends unless signing out throws `failure`. */
    method LogOut(failure: Option<Error>) returns (thrown: Option<Error>)
      modifies this`currentUser
      ensures thrown == failure
      ensures failure.None? ==> currentUser == None
      ensures failure.Some? ==> currentUser == old(currentUser)
    {
      if failure.None? {
        currentUser := None;
      }
      thrown := failure;
    }
  }
}
