/** Whether the onboarding pages have been seen, persisted in the encrypted store. */
module Onboarding {
  import opened Wrappers
  import opened Codecs
  import Storage

  const ONBOARDING_KEY := "has_seen_onboarding"

  /** `hasSeenOnboarding` is None (null) until the first check finishes. */
  datatype Status = Status(hasSeenOnboarding: Option<bool>, isLoading: bool)

  const INITIAL := Status(None, true)

  datatype Checked = Checked(status: Status, store: Storage.StoreState)

  /** checkStatus: the flag becomes the truthiness of the stored value, and loading ends. */
  function AfterCheck(env: Storage.Env, st: Storage.StoreState, io: Storage.Io): (r: Checked)
    ensures r.status.hasSeenOnboarding == Some(Truthy(Storage.AfterGet(env, st, ONBOARDING_KEY, io).value))
    ensures !r.status.isLoading
    ensures r.store == Storage.AfterGet(env, st, ONBOARDING_KEY, io).state
  {
    var read := Storage.AfterGet(env, st, ONBOARDING_KEY, io);
    Checked(Status(Some(Truthy(read.value)), false), read.state)
  }

  /** completeOnboarding: write true, then set the flag; a failed write is swallowed. */
  function AfterComplete(env: Storage.Env, s: Status, st: Storage.StoreState, io: Storage.Io): (r: Checked)
    ensures r.store == Storage.AfterSet(env, st, ONBOARDING_KEY, JBool(true), io).state
    ensures r.status == if Storage.AfterSet(env, st, ONBOARDING_KEY, JBool(true), io).ok
                        then s.(hasSeenOnboarding := Some(true)) else s
  {
    var written := Storage.AfterSet(env, st, ONBOARDING_KEY, JBool(true), io);
    Checked(if written.ok then s.(hasSeenOnboarding := Some(true)) else s, written.state)
  }

  /** resetOnboarding: remove the key, then clear the flag; a failed removal is swallowed. */
  function AfterReset(s: Status, st: Storage.StoreState, diskOk: bool): (r: Checked)
    ensures r.store == Storage.AfterRemove(st, ONBOARDING_KEY, diskOk).state
    ensures r.status == if diskOk then s.(hasSeenOnboarding := Some(false)) else s
  {
    var removed := Storage.AfterRemove(st, ONBOARDING_KEY, diskOk);
    Checked(if removed.ok then s.(hasSeenOnboarding := Some(false)) else s, removed.state)
  }

  /** After completing onboarding, the next start's check finds it seen. */
  lemma CompleteThenCheck(env: Storage.Env, s: Status, st: Storage.StoreState, io1: Storage.Io, io2: Storage.Io)
    requires Storage.LawfulEnv(env)
    requires env.isWeb || Storage.HasKey(st.keySlot) || io1.generated != ""
    requires Storage.AfterSet(env, st, ONBOARDING_KEY, JBool(true), io1).ok
    requires io2.diskOk && io2.keyReadOk
    ensures AfterCheck(env, AfterComplete(env, s, st, io1).store, io2).status == Status(Some(true), false)
  {
    Storage.GetAfterSet(env, st, ONBOARDING_KEY, JBool(true), io1, io2);
  }

  /** After a reset, the next start's check finds it not seen. */
  lemma ResetThenCheck(env: Storage.Env, s: Status, st: Storage.StoreState, io: Storage.Io)
    ensures AfterCheck(env, AfterReset(s, st, true).store, io).status == Status(Some(false), false)
  {
  }

  class OnboardingState {
    var hasSeenOnboarding: Option<bool>
    var isLoading: bool
    const store: Storage.EncryptedStore

    function Snapshot(): Status
      reads this
    {
      Status(hasSeenOnboarding, isLoading)
    }

    constructor (store: Storage.EncryptedStore)
      ensures this.store == store && Snapshot() == INITIAL
    {
      this.store := store;
      hasSeenOnboarding, isLoading := None, true;
    }

    /** The stored read cannot reject (getItem maps every error to null), so no catch is needed. */
    method CheckStatus(io: Storage.Io)
      modifies this, store
      ensures Checked(Snapshot(), store.State()) == AfterCheck(store.env, old(store.State()), io)
    {
      var hasSeen := store.GetItem(ONBOARDING_KEY, io);
      hasSeenOnboarding := Some(Truthy(hasSeen));
      isLoading := false;
    }

    method CompleteOnboarding(io: Storage.Io)
      modifies this, store, store.disk
      ensures Checked(Snapshot(), store.State()) == AfterComplete(store.env, old(Snapshot()), old(store.State()), io)
    {
      var ok := store.SetItem(ONBOARDING_KEY, JBool(true), io);
      if ok {
        hasSeenOnboarding := Some(true);
      }
    }

    method ResetOnboarding(diskOk: bool)
      modifies this, store.disk
      ensures Checked(Snapshot(), store.State()) == AfterReset(old(Snapshot()), old(store.State()), diskOk)
    {
      var ok := store.RemoveItem(ONBOARDING_KEY, diskOk);
      if ok {
        hasSeenOnboarding := Some(false);
      }
    }
  }
}
