/** The authentication store (src/stores/authStore.ts): the signed-in user,
    the loading flag, the onboarding flag, the demo login, signup, logout and
    the persisted snapshot. The simulated network delays, AsyncStorage and
    `Date.now()` are left out; the signup id is a parameter. */
module AuthStore {
  import opened Wrappers
  import opened Text

  datatype User = User(id: string, name: string, email: string)

  datatype AuthState = AuthState(user: Option<User>, isLoading: bool, hasSeenOnboarding: bool)

  /** No user, loading until rehydration, onboarding not seen. */
  const InitialAuthState := AuthState(None, true, false)

  /** The demo credential table: the password paired with an address, if any. */
  function DemoPassword(email: string): Option<string> {
    if email == "demo@fashionista.com" then Some("demo123")
    else if email == "user@test.com" then Some("password")
    else if email == "admin@fashionista.com" then Some("admin123")
    else None
  }

  /** The check that lets a login through. */
  predicate CredentialsAccepted(email: string, password: string) {
    DemoPassword(email) == Some(password)
  }

  /** Exactly the three demo pairs are accepted. */
  lemma AcceptedPairs(email: string, password: string)
    ensures CredentialsAccepted(email, password) <==>
      || (email == "demo@fashionista.com" && password == "demo123")
      || (email == "user@test.com" && password == "password")
      || (email == "admin@fashionista.com" && password == "admin123")
  {
  }

  /** `email.split('@')[0]`: the text before the first `@`. */
  function LoginName(email: string): (name: string)
    ensures name <= email && '@' !in name
    ensures |name| < |email| ==> email[|name|] == '@'
  {
    SplitFirst(email, '@');
    Split(email, '@')[0]
  }

  /** The user a successful login signs in. */
  function LoginUser(email: string): (user: User)
    ensures user.id == "1" && user.email == email && user.name == LoginName(email)
  {
    User("1", LoginName(email), email)
  }

  datatype LoginOutcome = LoggedIn | InvalidCredentials

  /** What `partialize` keeps: the user only. */
  datatype PersistedAuth = PersistedAuth(user: Option<User>)

  function Partialize(state: AuthState): (snapshot: PersistedAuth)
    ensures snapshot.user == state.user
  {
    PersistedAuth(state.user)
  }

  /** Rehydration: the stored snapshot (if any) is merged over the current
      state, then the callback clears the loading flag and the onboarding flag.
      A failed read leaves the state alone, so loading never ends. */
  function Rehydrated(current: AuthState, stored: Option<PersistedAuth>, readFailed: bool): (state: AuthState)
    ensures readFailed ==> state == current
    ensures !readFailed ==> !state.isLoading && !state.hasSeenOnboarding
    ensures !readFailed ==> state.user == (if stored.Some? then stored.value.user else current.user)
  {
    if readFailed then current
    else
      var merged := if stored.Some? then current.(user := stored.value.user) else current;
      merged.(isLoading := false, hasSeenOnboarding := false)
  }

  /** A relaunch restores the saved user and always shows onboarding again. */
  lemma RelaunchRestoresUser(saved: AuthState)
    ensures Rehydrated(InitialAuthState, Some(Partialize(saved)), false)
         == AuthState(saved.user, false, false)
  {
  }

  class AuthStore {
    var user: Option<User>
    var isLoading: bool
    var hasSeenOnboarding: bool

    function State(): AuthState
      reads this
    {
      AuthState(user, isLoading, hasSeenOnboarding)
    }

    constructor()
      ensures State() == InitialAuthState
    {
      user := None;
      isLoading := true;
      hasSeenOnboarding := false;
    }

    /** `login`: a demo pair signs in `LoginUser(email)`; anything else keeps
        the user and reports invalid credentials. Loading ends either way. */
    method Login(email: string, password: string) returns (outcome: LoginOutcome)
      modifies this
      ensures CredentialsAccepted(email, password) ==>
        outcome == LoggedIn && State() == old(State()).(user := Some(LoginUser(email)), isLoading := false)
      ensures !CredentialsAccepted(email, password) ==>
        outcome == InvalidCredentials && State() == old(State()).(isLoading := false)
    {
      isLoading := true;
      if DemoPassword(email) != Some(password) {
        isLoading := false;
        outcome := InvalidCredentials;
        return;
      }
      var userData := User("1", LoginName(email), email);
      user := Some(userData);
      isLoading := false;
      outcome := LoggedIn;
    }

    /** `signup`: always signs in a new user with the given name and email;
        `id` stands for `Date.now().toString()`. The password is not kept. */
    method Signup(name: string, email: string, password: string, id: string)
      modifies this
      ensures State() == old(State()).(user := Some(User(id, name, email)), isLoading := false)
    {
      isLoading := true;
      user := Some(User(id, name, email));
      isLoading := false;
    }

    /** `logout`: forgets the user and nothing else. */
    method Logout()
      modifies this
      ensures State() == old(State()).(user := None)
    {
      user := None;
    }

    /** `completeOnboarding`: only the onboarding flag changes. */
    method CompleteOnboarding()
      modifies this
      ensures State() == old(State()).(hasSeenOnboarding := true)
    {
      hasSeenOnboarding := true;
    }

    /** `onRehydrateStorage` after the persisted snapshot has been read. */
    method Rehydrate(stored: Option<PersistedAuth>, readFailed: bool)
      modifies this
      ensures State() == Rehydrated(old(State()), stored, readFailed)
    {
      if !readFailed {
        if stored.Some? {
          user := stored.value.user;
        }
        isLoading := false;
        hasSeenOnboarding := false;
      }
    }
  }
}
