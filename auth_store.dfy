/**
 * The session store (src/store/useAuthStore.ts): the signed-in user, the
 * loading flag and the login modal with its redirect. Each action's request
 * is not made here: its outcome is an input. The role normalisation the auth
 * routes apply to the backend's answer (src/app/api/auth/me/route.ts and
 * src/app/api/auth/login/route.ts) feeds the `User` records.
 */
module AuthStore {
  import opened Wrappers
  import opened JsString

  datatype Role = UserRole | AdminRole

  datatype User = User(id: string, email: string, name: string, role: Role)

  /** The four fields of the store, as one value. */
  datatype AuthState = AuthState(
    user: Option<User>, isLoading: bool, loginModalOpen: bool, loginRedirect: Option<string>)

  /** What a request to the auth API came back with: a body's `user` field, or a thrown error. */
  datatype Outcome = Answered(user: Option<User>) | Failed

  /** The store's state before any action. */
  const Initial := AuthState(None, false, false, None)

  /** The routes' `role?.toLowerCase() === 'admin' ? 'admin' : 'user'`; a missing role is 'user'. */
  function NormalizeRole(role: Option<string>): (r: Role)
    ensures role.None? ==> r == UserRole
    ensures r == AdminRole ==> role.Some? && |role.value| == |"admin"|
  {
    if role.Some? && LowerCase(role.value) == "admin" then AdminRole else UserRole
  }

  /** The name the routes send back for a role. */
  function RoleName(r: Role): string
  {
    match r
    case UserRole => "user"
    case AdminRole => "admin"
  }

  /** Whether `c` is the `i`-th letter of "admin" in either case. */
  predicate AdminLetter(c: char, i: nat)
    requires i < 5
  {
    c == "admin"[i] || c == "ADMIN"[i]
  }

  /**
   * A backend role is taken as admin exactly when it spells "admin" with each
   * letter in either case ("Admin", "ADMIN", "aDmIn", ...); anything else,
   * including no role at all, is an ordinary user.
   */
  lemma AdminSpellings(role: Option<string>)
    ensures NormalizeRole(role) == AdminRole <==>
              role.Some? && |role.value| == 5 && forall i :: 0 <= i < 5 ==> AdminLetter(role.value[i], i)
  {
    if role.Some? && |role.value| == 5 {
      var s := role.value;
      var l := LowerCase(s);
      if forall i :: 0 <= i < 5 ==> AdminLetter(s[i], i) {
        assert forall i :: 0 <= i < 5 ==> l[i] == "admin"[i];
        assert l == "admin";
      }
      if l == "admin" {
        forall i | 0 <= i < 5
          ensures AdminLetter(s[i], i)
        {
          assert Lower(s[i]) == "admin"[i];
        }
      }
    }
  }

  /** Normalising the name of a normalised role gives the role back. */
  lemma NormalizeRoleName(r: Role)
    ensures NormalizeRole(Some(RoleName(r))) == r
  {
    if r == AdminRole {
      assert LowerCase("admin") == "admin";
    } else {
      assert LowerCase("user")[0] == 'u';
    }
  }

  /** The state after `login` resolves: the user it answered with and the modal closed, or only the loading flag cleared. */
  function AfterLogin(s: AuthState, outcome: Outcome): (t: AuthState)
    ensures !t.isLoading && t.loginRedirect == s.loginRedirect
    ensures outcome.Answered? ==> t.user == outcome.user && !t.loginModalOpen
    ensures outcome.Failed? ==> t.user == s.user && t.loginModalOpen == s.loginModalOpen
  {
    match outcome
    case Answered(u) => s.(user := u, isLoading := false, loginModalOpen := false)
    case Failed => s.(isLoading := false)
  }

  /** The state after `logout`, whether or not the request succeeded: only the user is cleared. */
  function AfterLogout(s: AuthState): (t: AuthState)
    ensures t.user.None? && t == s.(user := None)
  {
    s.(user := None)
  }

  /** The state after `fetchMe`: the user it answered with, or none when the request failed. */
  function AfterFetchMe(s: AuthState, outcome: Outcome): (t: AuthState)
    ensures outcome.Failed? ==> t.user.None?
    ensures outcome.Answered? ==> t.user == outcome.user
    ensures t.isLoading == s.isLoading && t.loginModalOpen == s.loginModalOpen && t.loginRedirect == s.loginRedirect
  {
    match outcome
    case Answered(u) => s.(user := u)
    case Failed => s.(user := None)
  }

  /** `openLoginModal(redirect)`: the modal open, the redirect given or none. */
  function OpenModal(s: AuthState, redirect: Option<string>): (t: AuthState)
    ensures t.loginModalOpen && t.loginRedirect == redirect
    ensures t.user == s.user && t.isLoading == s.isLoading
  {
    s.(loginModalOpen := true, loginRedirect := redirect)
  }

  /** `closeLoginModal`: the modal closed, the redirect dropped. */
  function CloseModal(s: AuthState): (t: AuthState)
    ensures !t.loginModalOpen && t.loginRedirect.None?
    ensures t.user == s.user && t.isLoading == s.isLoading
  {
    s.(loginModalOpen := false, loginRedirect := None)
  }

  /** Closing the modal forgets whatever redirect opening it recorded. */
  lemma CloseForgetsRedirect(s: AuthState, r1: Option<string>, r2: Option<string>)
    ensures CloseModal(OpenModal(s, r1)) == CloseModal(OpenModal(s, r2)) == CloseModal(s)
  {
  }

  /** A login that succeeds closes the modal it was opened from and drops no redirect. */
  lemma LoginFromModal(s: AuthState, redirect: Option<string>, u: User)
    ensures var t := AfterLogin(OpenModal(s, redirect), Answered(Some(u)));
            t.user == Some(u) && !t.loginModalOpen && !t.isLoading && t.loginRedirect == redirect
  {
  }

  /** Logging out is idempotent, and a later failed `fetchMe` keeps the session signed out. */
  lemma LogoutStable(s: AuthState)
    ensures AfterLogout(AfterLogout(s)) == AfterLogout(s)
    ensures AfterFetchMe(AfterLogout(s), Failed) == AfterLogout(s)
  {
  }

  /** The store: the module-level Zustand state, with each action updating it in place. */
  class Store {
    var user: Option<User>
    var isLoading: bool
    var loginModalOpen: bool
    var loginRedirect: Option<string>

    function State(): AuthState
      reads this
    {
      AuthState(user, isLoading, loginModalOpen, loginRedirect)
    }

    constructor ()
      ensures State() == Initial
    {
      user := None;
      isLoading := false;
      loginModalOpen := false;
      loginRedirect := None;
    }

    /**
     * `login`: the loading flag is raised while the request is out, then the
     * answer is stored; a failed request reports "Invalid credentials".
     */
    method Login(outcome: Outcome) returns (error: Option<string>)
      modifies this
      ensures State() == AfterLogin(old(State()), outcome)
      ensures outcome.Failed? <==> error == Some("Invalid credentials")
      ensures error.None? || error == Some("Invalid credentials")
    {
      isLoading := true;
      match outcome {
        case Answered(u) =>
          user := u;
          isLoading := false;
          loginModalOpen := false;
          error := None;
        case Failed =>
          isLoading := false;
          error := Some("Invalid credentials");
      }
    }

    /** `logout`: the user is cleared in `finally`, and a failed request still propagates. */
    method Logout(requestOk: bool) returns (failed: bool)
      modifies this
      ensures State() == AfterLogout(old(State()))
      ensures failed == !requestOk
    {
      user := None;
      failed := !requestOk;
    }

    /** `fetchMe`: the answered user, or none on any failure; nothing is raised. */
    method FetchMe(outcome: Outcome)
      modifies this
      ensures State() == AfterFetchMe(old(State()), outcome)
    {
      match outcome {
        case Answered(u) => user := u;
        case Failed => user := None;
      }
    }

    /** `openLoginModal(redirect?)`: an omitted redirect is stored as none. */
    method OpenLoginModal(redirect: Option<string>)
      modifies this
      ensures State() == OpenModal(old(State()), redirect)
    {
      loginModalOpen := true;
      loginRedirect := redirect;
    }

    method CloseLoginModal()
      modifies this
      ensures State() == CloseModal(old(State()))
    {
      loginModalOpen := false;
      loginRedirect := None;
    }
  }
}
