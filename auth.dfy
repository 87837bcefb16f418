/**
 * The signed-in session: the user record and token, restored from the encrypted store at start,
 * set and persisted by login and register, and dropped by logout. The remote authentication
 * service is an oracle: its answer is a parameter.
 */
module Auth {
  import opened Wrappers
  import opened Codecs
  import Storage

  const TOKEN_KEY := "auth_token"
  const USER_KEY := "user_data"

  /** `user` and `token` as the context holds them; JNull stands for null. */
  datatype Session = Session(user: Json, token: Json, isLoading: bool)

  /** The state when the provider is mounted. */
  const INITIAL := Session(JNull, JNull, true)

  /** What the remote login or register call resolves to. */
  datatype AuthResponse = AuthResponse(token: string, user: Json)

  datatype Restored = Restored(session: Session, store: Storage.StoreState)

  /** loadSession: both stored values are read; they are adopted only when both are truthy. */
  function AfterLoadSession(env: Storage.Env, s: Session, st: Storage.StoreState, io1: Storage.Io, io2: Storage.Io): (r: Restored)
    ensures !r.session.isLoading
    ensures var t := Storage.AfterGet(env, st, TOKEN_KEY, io1);
            var u := Storage.AfterGet(env, t.state, USER_KEY, io2);
            && r.store == u.state
            && (Truthy(t.value) && Truthy(u.value) ==> r.session.token == t.value && r.session.user == u.value)
            && (!(Truthy(t.value) && Truthy(u.value)) ==> r.session.token == s.token && r.session.user == s.user)
  {
    var t := Storage.AfterGet(env, st, TOKEN_KEY, io1);
    var u := Storage.AfterGet(env, t.state, USER_KEY, io2);
    if Truthy(t.value) && Truthy(u.value) then Restored(Session(u.value, t.value, false), u.state)
    else Restored(s.(isLoading := false), u.state)
  }

  datatype SignInStep = SignInStep(session: Session, store: Storage.StoreState, ok: bool)

  /**
   * login and register after the remote call: the session is set from the response, then the
   * token and the user are persisted in turn. `ok` false: the promise rejected (remote failure or
   * a failed write), and the error was rethrown.
   */
  function AfterSignIn(env: Storage.Env, s: Session, st: Storage.StoreState, response: Probe<AuthResponse>,
                       io1: Storage.Io, io2: Storage.Io): (r: SignInStep)
    ensures !r.session.isLoading
    ensures response.Throws? ==> r == SignInStep(s.(isLoading := false), st, false)
    ensures response.Returns? ==>
              r.session.token == JStr(response.value.token) && r.session.user == response.value.user
    ensures r.ok <==> response.Returns?
                      && Storage.AfterSet(env, st, TOKEN_KEY, JStr(response.value.token), io1).ok
                      && Storage.AfterSet(env, Storage.AfterSet(env, st, TOKEN_KEY, JStr(response.value.token), io1).state,
                                          USER_KEY, response.value.user, io2).ok
    ensures response.Returns? ==>
              var first := Storage.AfterSet(env, st, TOKEN_KEY, JStr(response.value.token), io1);
              r.store == if !first.ok then first.state
                         else Storage.AfterSet(env, first.state, USER_KEY, response.value.user, io2).state
  {
    match response
    case Throws => SignInStep(s.(isLoading := false), st, false)
    case Returns(data) =>
      var signedIn := Session(data.user, JStr(data.token), false);
      var first := Storage.AfterSet(env, st, TOKEN_KEY, JStr(data.token), io1);
      if !first.ok then SignInStep(signedIn, first.state, false)
      else
        var second := Storage.AfterSet(env, first.state, USER_KEY, data.user, io2);
        SignInStep(signedIn, second.state, second.ok)
  }

  /**
   * logout: the service removes the token, then the user record; `failAt` is the removal that
   * rejects (2 or more: none). A rejection is swallowed and leaves the session as it was.
   */
  function AfterLogout(s: Session, st: Storage.StoreState, failAt: nat): (r: Restored)
    ensures !r.session.isLoading
    ensures failAt >= 2 ==> r.session == Session(JNull, JNull, false)
    ensures failAt >= 2 ==> r.store.entries == st.entries - {TOKEN_KEY, USER_KEY}
    ensures failAt < 2 ==> r.session == s.(isLoading := false)
    ensures failAt == 0 ==> r.store == st
    ensures failAt == 1 ==> r.store.entries == st.entries - {TOKEN_KEY}
    ensures r.store.keySlot == st.keySlot
  {
    if failAt == 0 then Restored(s.(isLoading := false), st)
    else
      var first := Storage.AfterRemove(st, TOKEN_KEY, true).state;
      if failAt == 1 then Restored(s.(isLoading := false), first)
      else Restored(Session(JNull, JNull, false), Storage.AfterRemove(first, USER_KEY, true).state)
  }

  /**
   * A session persisted by a successful sign-in is restored by the next start, provided the
   * token is not empty and the user record is truthy.
   */
  lemma SignInThenRestore(env: Storage.Env, s: Session, st: Storage.StoreState, data: AuthResponse,
                          io1: Storage.Io, io2: Storage.Io, io3: Storage.Io, io4: Storage.Io)
    requires Storage.LawfulEnv(env)
    requires env.isWeb || Storage.HasKey(st.keySlot) || io1.generated != ""
    requires AfterSignIn(env, s, st, Returns(data), io1, io2).ok
    requires data.token != "" && Truthy(data.user) && Portable(data.user)
    requires io3.diskOk && io3.keyReadOk && io4.diskOk && io4.keyReadOk
    ensures var stored := AfterSignIn(env, s, st, Returns(data), io1, io2).store;
            var restored := AfterLoadSession(env, INITIAL, stored, io3, io4).session;
            restored == Session(data.user, JStr(data.token), false)
  {
    var first := Storage.AfterSet(env, st, TOKEN_KEY, JStr(data.token), io1);
    var second := Storage.AfterSet(env, first.state, USER_KEY, data.user, io2);
    assert env.isWeb || Storage.HasKey(first.state.keySlot);
    Storage.GetAfterSet(env, st, TOKEN_KEY, JStr(data.token), io1, io3);
    Storage.GetOtherAfterSet(env, first.state, USER_KEY, TOKEN_KEY, data.user, io2, io3);
    var t := Storage.AfterGet(env, second.state, TOKEN_KEY, io3);
    assert t.value == JStr(data.token);
    assert t.state == second.state;
    Storage.GetAfterSet(env, first.state, USER_KEY, data.user, io2, io4);
  }

  /** After a successful logout the next start finds no session. */
  lemma LogoutThenRestore(env: Storage.Env, s: Session, st: Storage.StoreState, failAt: nat, io1: Storage.Io, io2: Storage.Io)
    requires failAt >= 2
    ensures var cleared := AfterLogout(s, st, failAt).store;
            AfterLoadSession(env, INITIAL, cleared, io1, io2).session == Session(JNull, JNull, false)
  {
  }

  /** The session provider over the encrypted store. */
  class AuthSession {
    var user: Json
    var token: Json
    var isLoading: bool
    const store: Storage.EncryptedStore

    function Snapshot(): Session
      reads this
    {
      Session(user, token, isLoading)
    }

    constructor (store: Storage.EncryptedStore)
      ensures this.store == store && Snapshot() == INITIAL
    {
      this.store := store;
      user, token, isLoading := JNull, JNull, true;
    }

    method LoadSession(io1: Storage.Io, io2: Storage.Io)
      modifies this, store
      ensures Restored(Snapshot(), store.State()) == AfterLoadSession(store.env, old(Snapshot()), old(store.State()), io1, io2)
    {
      var storedToken := store.GetItem(TOKEN_KEY, io1);
      var storedUser := store.GetItem(USER_KEY, io2);
      if Truthy(storedToken) && Truthy(storedUser) {
        token := storedToken;
        user := storedUser;
      }
      isLoading := false;
    }

    /** Shared by login and register once the remote call has answered. */
    method SignIn(response: Probe<AuthResponse>, io1: Storage.Io, io2: Storage.Io) returns (ok: bool)
      modifies this, store, store.disk
      ensures SignInStep(Snapshot(), store.State(), ok) ==
              AfterSignIn(store.env, old(Snapshot()), old(store.State()), response, io1, io2)
    {
      isLoading := true;
      ok := false;
      if response.Returns? {
        var data := response.value;
        token := JStr(data.token);
        user := data.user;
        ok := store.SetItem(TOKEN_KEY, JStr(data.token), io1);
        if ok {
          ok := store.SetItem(USER_KEY, data.user, io2);
        }
      }
      isLoading := false;
    }

    /** `response` is what AuthService.login(email, password) resolves to. */
    method Login(response: Probe<AuthResponse>, io1: Storage.Io, io2: Storage.Io) returns (ok: bool)
      modifies this, store, store.disk
      ensures SignInStep(Snapshot(), store.State(), ok) ==
              AfterSignIn(store.env, old(Snapshot()), old(store.State()), response, io1, io2)
    {
      ok := SignIn(response, io1, io2);
    }

    /** `response` is what AuthService.register(email, password) resolves to. */
    method Register(response: Probe<AuthResponse>, io1: Storage.Io, io2: Storage.Io) returns (ok: bool)
      modifies this, store, store.disk
      ensures SignInStep(Snapshot(), store.State(), ok) ==
              AfterSignIn(store.env, old(Snapshot()), old(store.State()), response, io1, io2)
    {
      ok := SignIn(response, io1, io2);
    }

    method Logout(failAt: nat)
      modifies this, store.disk
      ensures Restored(Snapshot(), store.State()) == AfterLogout(old(Snapshot()), old(store.State()), failAt)
    {
      isLoading := true;
      var removed := store.RemoveItem(TOKEN_KEY, failAt != 0);
      if removed {
        removed := store.RemoveItem(USER_KEY, failAt != 1);
        if removed {
          token := JNull;
          user := JNull;
        }
      }
      isLoading := false;
    }
  }
}
