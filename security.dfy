/**
 * The app-lock controller: whether protected content is hidden (`isLocked`), the persisted
 * preference (`isAppLockEnabled`), the root advisory (`isRooted`), the in-flight guard of the
 * biometric prompt (`isAuthenticating`) and the last lifecycle status (`appState`).
 *
 * Every await is one atomic step. `authenticate` is split at its first await: BeginAuthenticate
 * is what runs before the platform is asked (and sets the guard), FinishAuthenticate is the
 * continuation once the platform has answered. Between the two any other event may happen.
 */
module Security {
  import opened Wrappers
  import opened Codecs
  import Storage

  /** The storage key of the app-lock preference. */
  const APP_LOCK_KEY := "app_lock_enabled"

  /** The statuses the host's lifecycle notifier reports. */
  datatype AppStatus = Active | Background | Inactive | Unknown | Extension

  /** The text the lifecycle notifier reports for each status. */
  function StatusText(s: AppStatus): string {
    match s
    case Active => "active"
    case Background => "background"
    case Inactive => "inactive"
    case Unknown => "unknown"
    case Extension => "extension"
  }

  /** `text.match(word)` for a pattern without special characters: `word` occurs somewhere in `text`. */
  predicate Contains(text: string, word: string)
    decreases |text|
  {
    |word| <= |text| && (text[..|word|] == word || Contains(text[1..], word))
  }

  /** A window that differs from `word` at position `j` is not an occurrence. */
  lemma WindowDiffers(text: string, word: string, j: nat)
    requires j < |word| <= |text| && text[j] != word[j]
    ensures text[..|word|] != word
  {
    assert text[..|word|][j] == text[j];
  }

  lemma ActiveInInactive()
    ensures Contains("inactive", "active")
  {
    WindowDiffers("inactive", "active", 0);
    assert "inactive"[1..] == "nactive";
    WindowDiffers("nactive", "active", 0);
    assert "nactive"[1..] == "active";
  }

  lemma ActiveNotInBackground()
    ensures !Contains("background", "active")
  {
    WindowDiffers("background", "active", 0);
    assert "background"[1..] == "ackground";
    WindowDiffers("ackground", "active", 2);
    assert "ackground"[1..] == "ckground";
    WindowDiffers("ckground", "active", 0);
    assert "ckground"[1..] == "kground";
    WindowDiffers("kground", "active", 0);
    assert "kground"[1..] == "ground";
    WindowDiffers("ground", "active", 0);
    assert "ground"[1..] == "round";
  }

  lemma ActiveNotInUnknown()
    ensures !Contains("unknown", "active")
  {
    WindowDiffers("unknown", "active", 0);
    assert "unknown"[1..] == "nknown";
    WindowDiffers("nknown", "active", 0);
    assert "nknown"[1..] == "known";
  }

  lemma ActiveNotInExtension()
    ensures !Contains("extension", "active")
  {
    WindowDiffers("extension", "active", 0);
    assert "extension"[1..] == "xtension";
    WindowDiffers("xtension", "active", 0);
    assert "xtension"[1..] == "tension";
    WindowDiffers("tension", "active", 0);
    assert "tension"[1..] == "ension";
    WindowDiffers("ension", "active", 0);
    assert "ension"[1..] == "nsion";
  }

  /** Which statuses /active/ matches. */
  lemma ActiveWord(s: AppStatus)
    ensures Contains(StatusText(s), "active") <==> s == Active || s == Inactive
  {
    match s
    case Active =>
    case Inactive => ActiveInInactive();
    case Background => ActiveNotInBackground();
    case Unknown => ActiveNotInUnknown();
    case Extension => ActiveNotInExtension();
  }

  /** Which statuses /inactive|background/ matches. */
  lemma AwayWords(s: AppStatus)
    ensures Contains(StatusText(s), "inactive") || Contains(StatusText(s), "background") <==>
            s == Inactive || s == Background
  {
    if s == Extension {
      WindowDiffers("extension", "inactive", 0);
      assert "extension"[1..] == "xtension";
      WindowDiffers("xtension", "inactive", 0);
      assert "xtension"[1..] == "tension";
    }
  }

  /** `appState.match(/active/)`: 'active', and also 'inactive', which contains it. */
  predicate MatchesActive(s: AppStatus)
    ensures MatchesActive(s) <==> s == Active || s == Inactive
  {
    ActiveWord(s);
    Contains(StatusText(s), "active")
  }

  /** `appState.match(/inactive|background/)`. */
  predicate MatchesAway(s: AppStatus)
    ensures MatchesAway(s) <==> s == Inactive || s == Background
  {
    AwayWords(s);
    Contains(StatusText(s), "inactive") || Contains(StatusText(s), "background")
  }

  datatype Lock = Lock(
    isLocked: bool,
    isAppLockEnabled: bool,
    isRooted: bool,
    isAuthenticating: bool,
    appState: AppStatus,
    isLoaded: bool)

  /** The state when the controller is mounted, with the lifecycle status current at that time. */
  function Initial(current: AppStatus): Lock {
    Lock(false, false, false, false, current, false)
  }

  /** The platform's answers to hasHardwareAsync, isEnrolledAsync and authenticateAsync's success. */
  datatype AuthAnswer = AuthAnswer(hasHardware: Probe<bool>, isEnrolled: Probe<bool>, prompt: Probe<bool>)

  /** The reference policy: unlock when the device cannot authenticate, or when the prompt succeeds. */
  predicate Unlocks(a: AuthAnswer) {
    && a.hasHardware.Returns?
    && a.isEnrolled.Returns?
    && (!a.hasHardware.value || !a.isEnrolled.value || a.prompt == Returns(true))
  }

  /** A call of authenticate either settles before its first await, or leaves the prompt pending. */
  datatype Begun = Settled(result: bool) | Pending

  datatype BeginStep = BeginStep(lock: Lock, begun: Begun)

  /** authenticate(force) up to its first await: web, then disabled-and-not-forced, then the guard. */
  function BeginAuthenticate(isWeb: bool, s: Lock, force: bool): (r: BeginStep)
    ensures r.begun == Settled(true) <==> isWeb || (!s.isAppLockEnabled && !force)
    ensures r.begun == Settled(true) ==> r.lock == s.(isLocked := false)
    ensures r.begun == Settled(false) <==> !isWeb && (s.isAppLockEnabled || force) && s.isAuthenticating
    ensures r.begun == Settled(false) ==> r.lock == s
    ensures r.begun == Pending ==> !s.isAuthenticating && r.lock == s.(isAuthenticating := true)
  {
    if isWeb then BeginStep(s.(isLocked := false), Settled(true))
    else if !s.isAppLockEnabled && !force then BeginStep(s.(isLocked := false), Settled(true))
    else if s.isAuthenticating then BeginStep(s, Settled(false))
    else BeginStep(s.(isAuthenticating := true), Pending)
  }

  datatype FinishStep = FinishStep(lock: Lock, result: bool)

  /** The rest of authenticate once the platform has answered; every exit clears the guard. */
  function FinishAuthenticate(s: Lock, a: AuthAnswer): (r: FinishStep)
    ensures !r.lock.isAuthenticating
    ensures r.result <==> Unlocks(a)
    ensures r.result ==> r.lock == s.(isLocked := false, isAuthenticating := false)
    ensures !r.result ==> r.lock == s.(isAuthenticating := false)
  {
    match a.hasHardware
    case Throws => FinishStep(s.(isAuthenticating := false), false)
    case Returns(hasHardware) =>
      match a.isEnrolled
      case Throws => FinishStep(s.(isAuthenticating := false), false)
      case Returns(isEnrolled) =>
        if !hasHardware || !isEnrolled then
          FinishStep(s.(isLocked := false, isAuthenticating := false), true)
        else
          match a.prompt
          case Throws => FinishStep(s.(isAuthenticating := false), false)
          case Returns(success) =>
            if success then FinishStep(s.(isLocked := false, isAuthenticating := false), true)
            else FinishStep(s.(isAuthenticating := false), false)
  }

  /** A device without hardware or without enrolment fails open. */
  lemma FailOpen(s: Lock, hasHardware: bool, isEnrolled: bool, prompt: Probe<bool>)
    requires !hasHardware || !isEnrolled
    ensures FinishAuthenticate(s, AuthAnswer(Returns(hasHardware), Returns(isEnrolled), prompt)) ==
            FinishStep(s.(isLocked := false, isAuthenticating := false), true)
  {
  }

  /** A failed, cancelled or throwing prompt on a capable device never unlocks. */
  lemma FailedPromptKeepsLock(s: Lock, a: AuthAnswer)
    requires a.hasHardware == Returns(true) && a.isEnrolled == Returns(true)
    requires a.prompt != Returns(true)
    ensures FinishAuthenticate(s, a) == FinishStep(s.(isAuthenticating := false), false)
  {
  }


  /** The requests setScreenPrivacy makes of the operating system. */
  datatype CaptureRequest = PreventCapture | AllowCapture

  /** Whether the operating system blocks screen capture after a request (None: nothing was asked). */
  function CaptureBlocked(before: bool, request: Option<CaptureRequest>): bool {
    match request
    case None => before
    case Some(PreventCapture) => true
    case Some(AllowCapture) => false
  }

  datatype LifecycleStep = LifecycleStep(lock: Lock, prevented: bool, prompted: bool, request: Option<CaptureRequest>)

  /**
   * The lifecycle listener for a change to `next`. `prevented`: screen capture was blocked,
   * by the request `request`; `prompted`: a forced authentication was started and left pending. When blocking screen
   * capture rejects (`captureOk` false) the listener stops before recording the new status.
   */
  function AfterAppStateChange(isWeb: bool, s: Lock, next: AppStatus, captureOk: bool): (r: LifecycleStep)
    ensures r.lock.isAppLockEnabled == s.isAppLockEnabled && r.lock.isRooted == s.isRooted
    ensures r.lock.isLoaded == s.isLoaded
    ensures !s.isAppLockEnabled ==> r == LifecycleStep(s.(appState := next), false, false, None)
    ensures r.lock.appState == (if r.prevented && !captureOk then s.appState else next)
    ensures r.prevented <==> s.isAppLockEnabled && !isWeb && MatchesActive(s.appState) && MatchesAway(next)
    ensures r.prompted <==>
              s.isAppLockEnabled && !isWeb && MatchesAway(s.appState) && next == Active
              && s.isLocked && !s.isAuthenticating
    ensures r.request == if r.prevented then Some(PreventCapture) else None
    ensures !isWeb ==> (r.lock.isLocked <==> s.isLocked || r.prevented)
    ensures isWeb ==> (r.lock.isLocked <==>
                         s.isLocked && !(s.isAppLockEnabled && MatchesAway(s.appState) && next == Active && !s.isAuthenticating))
    ensures r.lock.isAuthenticating == (s.isAuthenticating || r.prompted)
  {
    if !s.isAppLockEnabled then
      LifecycleStep(s.(appState := next), false, false, None)
    else if MatchesActive(s.appState) && MatchesAway(next) && !isWeb then
      var locked := s.(isLocked := true);
      if captureOk then LifecycleStep(locked.(appState := next), true, false, Some(PreventCapture))
      else LifecycleStep(locked, true, false, Some(PreventCapture))
    else if MatchesAway(s.appState) && next == Active && s.isLocked && !s.isAuthenticating then
      var b := BeginAuthenticate(isWeb, s, true);
      LifecycleStep(b.lock.(appState := next), false, b.begun == Pending, None)
    else
      LifecycleStep(s.(appState := next), false, false, None)
  }

  /** Both the app lock state and the part of the store it persists to. */
  datatype World = World(lock: Lock, store: Storage.StoreState)

  /** loadSettings: read the preference; when truthy, lock and start a forced authentication. */
  function AfterLoadSettings(env: Storage.Env, w: World, io: Storage.Io): (r: World)
    ensures r.store == Storage.AfterGet(env, w.store, APP_LOCK_KEY, io).state
    ensures r.lock.isAppLockEnabled == Truthy(Storage.AfterGet(env, w.store, APP_LOCK_KEY, io).value)
    ensures r.lock.isLoaded && r.lock.isRooted == w.lock.isRooted && r.lock.appState == w.lock.appState
    ensures !r.lock.isAppLockEnabled ==> r.lock.isLocked == w.lock.isLocked
    ensures !r.lock.isAppLockEnabled ==> r.lock.isAuthenticating == w.lock.isAuthenticating
    ensures r.lock.isAppLockEnabled && !env.isWeb ==> r.lock.isLocked && r.lock.isAuthenticating
  {
    var read := Storage.AfterGet(env, w.store, APP_LOCK_KEY, io);
    var enabled := Truthy(read.value);
    var s := w.lock.(isAppLockEnabled := enabled);
    var s' := if enabled then BeginAuthenticate(env.isWeb, s.(isLocked := true), true).lock else s;
    World(s'.(isLoaded := true), read.state)
  }

  datatype ToggleStep = ToggleStep(world: World, ok: bool)

  /**
   * toggleAppLock(enable): the preference is set, then persisted; only when the write resolves is
   * the lock forced (on, with a forced authentication) or released (off). `ok` false: it rejected.
   */
  function AfterToggleAppLock(env: Storage.Env, w: World, enable: bool, io: Storage.Io): (r: ToggleStep)
    ensures r.world.store == Storage.AfterSet(env, w.store, APP_LOCK_KEY, JBool(enable), io).state
    ensures r.ok == Storage.AfterSet(env, w.store, APP_LOCK_KEY, JBool(enable), io).ok
    ensures r.world.lock.isAppLockEnabled == enable
    ensures r.world.lock.isRooted == w.lock.isRooted && r.world.lock.appState == w.lock.appState
    ensures !r.ok ==> r.world.lock == w.lock.(isAppLockEnabled := enable)
    ensures r.ok && !enable ==> r.world.lock == w.lock.(isAppLockEnabled := false, isLocked := false)
    ensures r.ok && enable && !env.isWeb ==> r.world.lock.isLocked && r.world.lock.isAuthenticating
  {
    var s := w.lock.(isAppLockEnabled := enable);
    var written := Storage.AfterSet(env, w.store, APP_LOCK_KEY, JBool(enable), io);
    if !written.ok then ToggleStep(World(s, written.state), false)
    else if enable then
      ToggleStep(World(BeginAuthenticate(env.isWeb, s.(isLocked := true), true).lock, written.state), true)
    else ToggleStep(World(s.(isLocked := false), written.state), true)
  }

  datatype RootStep = RootStep(lock: Lock, warned: bool)

  /** checkRoot: on a device reported rooted, set the advisory flag and warn; nothing else changes. */
  function AfterCheckRoot(isWeb: bool, s: Lock, rooted: Probe<bool>): (r: RootStep)
    ensures r.lock == s.(isRooted := r.lock.isRooted)
    ensures r.warned <==> !isWeb && rooted == Returns(true)
    ensures r.lock.isRooted <==> s.isRooted || r.warned
  {
    if isWeb then RootStep(s, false)
    else match rooted
      case Returns(true) => RootStep(s.(isRooted := true), true)
      case _ => RootStep(s, false)
  }

  /** setScreenPrivacy(enable): on a device, capture ends up blocked exactly when `enable`; on the web nothing changes. */
  function ScreenPrivacy(isWeb: bool, enable: bool): (r: Option<CaptureRequest>)
    ensures forall before :: CaptureBlocked(before, r) == if isWeb then before else enable
  {
    if isWeb then None else if enable then Some(PreventCapture) else Some(AllowCapture)
  }

  /** Only the last setScreenPrivacy call decides whether capture is blocked. */
  lemma LastPrivacyWins(isWeb: bool, before: bool, first: bool, second: bool)
    ensures CaptureBlocked(CaptureBlocked(before, ScreenPrivacy(isWeb, first)), ScreenPrivacy(isWeb, second)) ==
            CaptureBlocked(before, ScreenPrivacy(isWeb, second))
  {
  }

  /**
   * The capture request the lifecycle listener makes: whenever it locks a device, capture ends up
   * blocked exactly as setScreenPrivacy(true) would leave it, and otherwise it leaves capture as it
   * was; setScreenPrivacy(false) lifts the block again.
   */
  lemma ListenerMatchesPrivacy(isWeb: bool, s: Lock, next: AppStatus, captureOk: bool, before: bool)
    ensures var r := AfterAppStateChange(isWeb, s, next, captureOk);
            CaptureBlocked(before, r.request) == (r.prevented || before)
    ensures var r := AfterAppStateChange(isWeb, s, next, captureOk);
            r.prevented ==> CaptureBlocked(before, r.request) == CaptureBlocked(before, ScreenPrivacy(isWeb, true))
    ensures var r := AfterAppStateChange(isWeb, s, next, captureOk);
            !isWeb && r.lock.isLocked && !s.isLocked ==> CaptureBlocked(before, r.request)
    ensures var r := AfterAppStateChange(isWeb, s, next, captureOk);
            r.prevented ==> !CaptureBlocked(CaptureBlocked(before, r.request), ScreenPrivacy(isWeb, false))
  {
  }

  /** The events the controller reacts to. `PromptSettled` is the platform answering a pending authenticate. */
  datatype Event =
    | LoadSettings(io: Storage.Io)
    | CheckRoot(rooted: Probe<bool>)
    | AppStateChange(next: AppStatus, captureOk: bool)
    | Authenticate
    | PromptSettled(answer: AuthAnswer)
    | ToggleAppLock(enable: bool, io: Storage.Io)

  /** One event. A settlement with no prompt in flight cannot happen and changes nothing. */
  function Step(env: Storage.Env, w: World, e: Event): (r: World)
    ensures !e.LoadSettings? && !e.ToggleAppLock? ==> r.store == w.store
    ensures !e.CheckRoot? ==> r.lock.isRooted == w.lock.isRooted
    ensures e.PromptSettled? && !w.lock.isAuthenticating ==> r == w
  {
    match e
    case LoadSettings(io) => AfterLoadSettings(env, w, io)
    case CheckRoot(rooted) => World(AfterCheckRoot(env.isWeb, w.lock, rooted).lock, w.store)
    case AppStateChange(next, captureOk) => World(AfterAppStateChange(env.isWeb, w.lock, next, captureOk).lock, w.store)
    case Authenticate => World(BeginAuthenticate(env.isWeb, w.lock, false).lock, w.store)
    case PromptSettled(answer) =>
      if w.lock.isAuthenticating then World(FinishAuthenticate(w.lock, answer).lock, w.store) else w
    case ToggleAppLock(enable, io) => AfterToggleAppLock(env, w, enable, io).world
  }

  function Run(env: Storage.Env, w: World, es: seq<Event>): World
    decreases |es|
  {
    if es == [] then w else Run(env, Step(env, w, es[0]), es[1..])
  }

  /** The events that may release a lock while the feature is on. */
  predicate MayUnlock(e: Event) {
    || e.LoadSettings?
    || (e.ToggleAppLock? && !e.enable)
    || (e.PromptSettled? && Unlocks(e.answer))
  }

  /** On a device, a locked app with the feature on stays locked under any other event. */
  lemma StepKeepsLock(env: Storage.Env, w: World, e: Event)
    requires !env.isWeb && w.lock.isLocked && w.lock.isAppLockEnabled
    requires !MayUnlock(e)
    ensures Step(env, w, e).lock.isLocked && Step(env, w, e).lock.isAppLockEnabled
  {
  }

  /**
   * Failure never unlocks: through any sequence of events without a successful prompt, a
   * disabling toggle or a reload of the settings, a locked app stays locked.
   */
  lemma {:induction false} StaysLocked(env: Storage.Env, w: World, es: seq<Event>)
    requires !env.isWeb && w.lock.isLocked && w.lock.isAppLockEnabled
    requires forall i :: 0 <= i < |es| ==> !MayUnlock(es[i])
    ensures Run(env, w, es).lock.isLocked && Run(env, w, es).lock.isAppLockEnabled
    decreases |es|
  {
    if es != [] {
      StepKeepsLock(env, w, es[0]);
      StaysLocked(env, Step(env, w, es[0]), es[1..]);
    }
  }

  /** The guard only ever blocks while a prompt is pending: its settlement always clears it. */
  lemma GuardNeverWedged(env: Storage.Env, w: World, a: AuthAnswer)
    requires !env.isWeb && w.lock.isAppLockEnabled
    ensures var settled := Step(env, w, PromptSettled(a));
            !settled.lock.isAuthenticating
            && BeginAuthenticate(env.isWeb, settled.lock, false).begun == Pending
  {
  }

  /**
   * Two rapid authenticate calls: the second returns false at once while the first is pending;
   * once the first settles a third call proceeds to the platform.
   */
  lemma RapidAuthenticate(s: Lock, a: AuthAnswer)
    requires s.isAppLockEnabled && !s.isAuthenticating
    ensures var first := BeginAuthenticate(false, s, false);
            var second := BeginAuthenticate(false, first.lock, false);
            var settled := FinishAuthenticate(second.lock, a);
            && first.begun == Pending
            && second == BeginStep(first.lock, Settled(false))
            && BeginAuthenticate(false, settled.lock, false).begun == Pending
  {
  }

  /** Startup with the preference stored as true: locked before any authentication completes. */
  lemma StartupLocks(env: Storage.Env, s: Storage.StoreState, current: AppStatus, io: Storage.Io)
    requires !env.isWeb
    requires Truthy(Storage.AfterGet(env, s, APP_LOCK_KEY, io).value)
    ensures var w := AfterLoadSettings(env, World(Initial(current), s), io);
            w.lock.isLocked && w.lock.isAppLockEnabled && w.lock.isAuthenticating
  {
  }

  /** Startup without a truthy stored preference leaves the app unlocked and the feature off. */
  lemma StartupUnlocked(env: Storage.Env, s: Storage.StoreState, current: AppStatus, io: Storage.Io)
    requires !Truthy(Storage.AfterGet(env, s, APP_LOCK_KEY, io).value)
    ensures var w := AfterLoadSettings(env, World(Initial(current), s), io);
            !w.lock.isLocked && !w.lock.isAppLockEnabled && !w.lock.isAuthenticating
  {
  }

  /**
   * A device with no enrolled credentials, the feature on: going to the background and back
   * starts a prompt, and its settlement unlocks and resolves true (fail open).
   */
  lemma NoEnrolmentScenario(s: Lock, prompt: Probe<bool>)
    requires s.isAppLockEnabled && !s.isLocked && !s.isAuthenticating && s.appState == Active
    ensures var away := AfterAppStateChange(false, s, Background, true);
            var back := AfterAppStateChange(false, away.lock, Active, true);
            var settled := FinishAuthenticate(back.lock, AuthAnswer(Returns(true), Returns(false), prompt));
            && away.lock.isLocked && back.prompted
            && settled.result && !settled.lock.isLocked
  {
  }

  /** A successful prompt unlocks; the next trip to the background locks again. */
  lemma SuccessThenBackground(s: Lock)
    requires s.isAppLockEnabled && s.isLocked && s.isAuthenticating && s.appState == Active
    ensures var settled := FinishAuthenticate(s, AuthAnswer(Returns(true), Returns(true), Returns(true)));
            var away := AfterAppStateChange(false, settled.lock, Background, true);
            && !settled.lock.isLocked && away.lock.isLocked
  {
  }

  /**
   * The prompt itself sends the app to 'inactive' and back; while it is pending the return to
   * 'active' does not start a second prompt.
   */
  lemma PromptCycleDoesNotReprompt(s: Lock)
    requires s.isAppLockEnabled && s.isLocked && s.isAuthenticating && s.appState == Active
    ensures var away := AfterAppStateChange(false, s, Inactive, true);
            var back := AfterAppStateChange(false, away.lock, Active, true);
            !back.prompted && back.lock.isLocked && back.lock.isAuthenticating
  {
  }

  /**
   * Disabling the feature while locked unlocks at once, and the preference is persisted: a
   * controller started afresh on the same store reads it back as off.
   */
  lemma DisablePersists(env: Storage.Env, w: World, io1: Storage.Io, io2: Storage.Io, current: AppStatus)
    requires Storage.LawfulEnv(env)
    requires env.isWeb || Storage.HasKey(w.store.keySlot) || io1.generated != ""
    requires io2.diskOk && io2.keyReadOk
    requires Storage.AfterSet(env, w.store, APP_LOCK_KEY, JBool(false), io1).ok
    ensures var t := AfterToggleAppLock(env, w, false, io1);
            var restarted := AfterLoadSettings(env, World(Initial(current), t.world.store), io2);
            && t.ok && !t.world.lock.isLocked && !t.world.lock.isAppLockEnabled
            && !restarted.lock.isAppLockEnabled && !restarted.lock.isLocked
  {
    Storage.GetAfterSet(env, w.store, APP_LOCK_KEY, JBool(false), io1, io2);
  }

  /** Enabling the feature is persisted too: a fresh start reads it back, locks and prompts. */
  lemma EnablePersists(env: Storage.Env, w: World, io1: Storage.Io, io2: Storage.Io, current: AppStatus)
    requires Storage.LawfulEnv(env) && !env.isWeb
    requires env.isWeb || Storage.HasKey(w.store.keySlot) || io1.generated != ""
    requires io2.diskOk && io2.keyReadOk
    requires Storage.AfterSet(env, w.store, APP_LOCK_KEY, JBool(true), io1).ok
    ensures var t := AfterToggleAppLock(env, w, true, io1);
            var restarted := AfterLoadSettings(env, World(Initial(current), t.world.store), io2);
            restarted.lock.isAppLockEnabled && restarted.lock.isLocked && restarted.lock.isAuthenticating
  {
    Storage.GetAfterSet(env, w.store, APP_LOCK_KEY, JBool(true), io1, io2);
  }

  /** With the feature off the public authenticate always releases the lock, without a prompt. */
  lemma DisabledNeverStuck(isWeb: bool, s: Lock)
    requires !s.isAppLockEnabled
    ensures BeginAuthenticate(isWeb, s, false) == BeginStep(s.(isLocked := false), Settled(true))
  {
  }

  /** The controller as the host application owns it. */
  class SecurityController {
    var isLocked: bool
    var isAppLockEnabled: bool
    var isRooted: bool
    var isAuthenticating: bool
    var appState: AppStatus
    var isLoaded: bool
    const store: Storage.EncryptedStore

    function Snapshot(): Lock
      reads this
    {
      Lock(isLocked, isAppLockEnabled, isRooted, isAuthenticating, appState, isLoaded)
    }

    function Current(): World
      reads this, store, store.disk
    {
      World(Snapshot(), store.State())
    }

    constructor (store: Storage.EncryptedStore, current: AppStatus)
      ensures this.store == store && Snapshot() == Initial(current)
    {
      this.store := store;
      isLocked, isAppLockEnabled, isRooted := false, false, false;
      isAuthenticating, appState, isLoaded := false, current, false;
    }

    /** The synchronous prefix of authenticate(force). */
    method Begin(force: bool) returns (begun: Begun)
      modifies this
      ensures BeginStep(Snapshot(), begun) == BeginAuthenticate(store.env.isWeb, old(Snapshot()), force)
    {
      if store.env.isWeb {
        isLocked := false;
        return Settled(true);
      }
      if !isAppLockEnabled && !force {
        isLocked := false;
        return Settled(true);
      }
      if isAuthenticating {
        return Settled(false);
      }
      isAuthenticating := true;
      begun := Pending;
    }

    /** The public authenticate(): a non-forced call. */
    method Authenticate() returns (begun: Begun)
      modifies this
      ensures Current() == Step(store.env, old(Current()), Event.Authenticate)
      ensures begun == BeginAuthenticate(store.env.isWeb, old(Snapshot()), false).begun
    {
      begun := Begin(false);
    }

    /** The platform answers the pending prompt; the result resolves the pending call. */
    method SettlePrompt(answer: AuthAnswer) returns (result: bool)
      requires isAuthenticating
      modifies this
      ensures FinishStep(Snapshot(), result) == FinishAuthenticate(old(Snapshot()), answer)
      ensures Current() == Step(store.env, old(Current()), PromptSettled(answer))
    {
      match answer.hasHardware
      case Throws =>
        isAuthenticating := false;
        return false;
      case Returns(hasHardware) =>
        match answer.isEnrolled
        case Throws =>
          isAuthenticating := false;
          return false;
        case Returns(isEnrolled) =>
          if !hasHardware || !isEnrolled {
            isLocked := false;
            isAuthenticating := false;
            return true;
          }
          match answer.prompt
          case Throws =>
            isAuthenticating := false;
            return false;
          case Returns(success) =>
            if success {
              isLocked := false;
              isAuthenticating := false;
              return true;
            }
            isAuthenticating := false;
            return false;
    }

    method LoadSettings(io: Storage.Io)
      modifies this, store, store.disk
      ensures Current() == AfterLoadSettings(store.env, old(Current()), io)
    {
      var enabled := store.GetItem(APP_LOCK_KEY, io);
      isAppLockEnabled := Truthy(enabled);
      if Truthy(enabled) {
        isLocked := true;
        var _ := Begin(true);
      }
      isLoaded := true;
    }

    method OnAppStateChange(next: AppStatus, captureOk: bool)
      returns (prevented: bool, prompted: bool, request: Option<CaptureRequest>)
      modifies this
      ensures LifecycleStep(Snapshot(), prevented, prompted, request) ==
              AfterAppStateChange(store.env.isWeb, old(Snapshot()), next, captureOk)
    {
      prevented, prompted, request := false, false, None;
      if !isAppLockEnabled {
        appState := next;
        return;
      }
      if MatchesActive(appState) && MatchesAway(next) && !store.env.isWeb {
        isLocked := true;
        prevented := true;
        request := Some(PreventCapture);
        if !captureOk {
          return;
        }
      }
      if MatchesAway(appState) && next == Active {
        if isLocked && !isAuthenticating {
          var begun := Begin(true);
          prompted := begun == Pending;
        }
      }
      appState := next;
    }

    method ToggleAppLock(enable: bool, io: Storage.Io) returns (ok: bool)
      modifies this, store, store.disk
      ensures ToggleStep(Current(), ok) == AfterToggleAppLock(store.env, old(Current()), enable, io)
    {
      isAppLockEnabled := enable;
      ok := store.SetItem(APP_LOCK_KEY, JBool(enable), io);
      if !ok {
        return;
      }
      if enable {
        isLocked := true;
        var _ := Begin(true);
      } else {
        isLocked := false;
      }
    }

    method CheckRoot(rooted: Probe<bool>) returns (warned: bool)
      modifies this
      ensures RootStep(Snapshot(), warned) == AfterCheckRoot(store.env.isWeb, old(Snapshot()), rooted)
    {
      warned := false;
      if store.env.isWeb {
        return;
      }
      if rooted == Returns(true) {
        isRooted := true;
        warned := true;
      }
    }

    /** A pass-through to the operating system; nothing is asked on the web. */
    method SetScreenPrivacy(enable: bool) returns (request: Option<CaptureRequest>)
      ensures request.None? <==> store.env.isWeb
      ensures request.Some? ==> (request.value == PreventCapture <==> enable)
      ensures request == ScreenPrivacy(store.env.isWeb, enable)
    {
      if store.env.isWeb {
        return None;
      }
      request := if enable then Some(PreventCapture) else Some(AllowCapture);
    }
  }
}
