/**
 * The application's lifecycle automaton (`src/main.cpp`).
 *
 * `updateStateMachine` runs at most once per `STATE_MACHINE_INTERVAL` and
 * dispatches to the handler of the current state; each handler may make one
 * call of `changeState`.  The globals and the handlers' function-static flags
 * are the fields of `Application`; `Globals` holds them as a value and the
 * `...Spec` functions are the transitions the handlers perform.
 *
 * What the other components answer (WiFi set-up and status, NFC reader,
 * Spotify client) is an input, `Inputs`; what the handlers ask of them is
 * recorded as a list of `Request`s.  `millis()` is an unsigned 32-bit
 * parameter `now`, read once per tick; elapsed times are computed modulo
 * 2^32 as the firmware's unsigned subtraction does.
 */
module App {
  import L = LedController

  /** `millis()`: an unsigned 32-bit millisecond counter. */
  type Millis = x: int | 0 <= x < 0x1_0000_0000

  const STATE_MACHINE_INTERVAL: nat := 10
  const LED_FEEDBACK_DURATION: nat := 2000
  const SPOTIFY_INIT_TIMEOUT: nat := 30000
  const NFC_DEBOUNCE_TIME: nat := 500
  /** How long the startup animation runs before WiFi set-up. */
  const BOOT_DURATION: nat := 1500
  /** How long the error state is shown before the restart. */
  const ERROR_RESTART_DELAY: nat := 3000
  /** How long a WiFi reconnection is tried. */
  const RECONNECT_TIMEOUT: nat := 30000

  /** `now - since` in `unsigned long` arithmetic. */
  function Elapsed(now: Millis, since: Millis): (d: nat)
    ensures d < 0x1_0000_0000
    ensures now >= since ==> d == now - since
    ensures now < since ==> d == now - since + 0x1_0000_0000
  {
    if now >= since then now - since else now - since + 0x1_0000_0000
  }

  /** `AppState`. */
  datatype AppState =
    | Boot | WifiConnecting | WifiConfigPortal | WifiConnected | SpotifyInitializing
    | Idle | NfcDetected | NfcReading | NfcProcessing | PlaybackSuccess
    | PlaybackFailed | ErrorRecovery | WifiReconnecting

  /** A call the application makes on another component. */
  datatype Request =
    | ShowLeds(mode: L.LedState)   // `leds.show...()`
    | InitWifi                     // `initializeWiFi`
    | BeginNfc                     // `nfcReader.begin()`
    | BeginWebServer               // `webServer.begin()`
    | BeginSpotify                 // `spotify.begin()`
    | PollCard                     // `nfcReader.isNewCardPresent()`
    | ReadTag                      // `nfcReader.readSpotifyUri()`
    | RefreshToken                 // `spotify.refreshToken()`
    | PlayUri(uri: string)         // `spotify.playUri(uri)`
    | ReconnectWifi                // `WiFi.reconnect()`
    | Restart                      // `ESP.restart()`

  /** The outcome of `readSpotifyUri`. */
  datatype TagRead = TagRead(success: bool, uri: string)

  /** What the other components answer during one tick. */
  datatype Inputs = Inputs(wifiSetupOk: bool, nfcBeginOk: bool, spotifyBeginOk: bool,
                           hasCredentials: bool, cardPresent: bool, tag: TagRead,
                           deviceAvailable: bool, authenticated: bool, refreshOk: bool,
                           playOk: bool, wifiUp: bool)

  /** The three globals `changeState` writes. */
  datatype Machine = Machine(current: AppState, previous: AppState, stateEntryTime: Millis)

  /** A handler's static "started" flag with the time it was set. */
  datatype Timer = Timer(started: bool, since: Millis)

  /** The globals of `main.cpp` and the function-static flags of its handlers. */
  datatype Globals = Globals(
    m: Machine, lastStateUpdate: Millis, lastNfcCheck: Millis,
    currentNfcUri: string, wifiConnected: bool, spotifyConnected: bool,
    wifiManagerStarted: bool,   // handleWifiConnecting
    init: Timer,                // handleSpotifyInitializing's initStarted, initStartTime
    idleEntered: bool,          // handleIdleState
    successShown: bool,         // handlePlaybackSuccess's feedbackStarted
    failureShown: bool,         // handlePlaybackFailed's feedbackStarted
    reconnect: Timer)           // handleWifiReconnecting's reconnectStarted, reconnectStartTime

  /** The state after a handler, and the calls it made in order. */
  datatype Step = Step(g: Globals, out: seq<Request>)

  /** The globals at power-on. */
  function Initial(): Globals
  {
    Globals(Machine(Boot, Boot, 0), 0, 0, "", false, false, false, Timer(false, 0), false, false, false, Timer(false, 0))
  }

  /** `changeState`: a move to another state records the old one and the entry time. */
  function ChangeStateSpec(m: Machine, s: AppState, now: Millis): (r: Machine)
    ensures r.current == s
    ensures s == m.current ==> r == m
    ensures s != m.current ==> r.previous == m.current && r.stateEntryTime == now
  {
    if s == m.current then m
    else Machine(s, m.current, now)
  }


  // ---------------------------------------------------------------------------
  // The handlers
  // ---------------------------------------------------------------------------

  function BootSpec(g: Globals, now: Millis): (r: Step)
    ensures r.g.lastStateUpdate == g.lastStateUpdate
  {
    var next := if Elapsed(now, g.m.stateEntryTime) >= BOOT_DURATION then WifiConnecting else g.m.current;
    Step(g.(m := ChangeStateSpec(g.m, next, now)), [ShowLeds(L.Startup)])
  }

  /** The set-up flag is cleared on both outcomes, so set-up is attempted on every entry. */
  function WifiConnectingSpec(g: Globals, now: Millis, w: Inputs): (r: Step)
    ensures r.g.lastStateUpdate == g.lastStateUpdate
  {
    if g.wifiManagerStarted then Step(g, [])
    else
      var ok := w.wifiSetupOk;
      Step(g.(m := ChangeStateSpec(g.m, if ok then WifiConnected else ErrorRecovery, now),
              wifiConnected := if ok then true else g.wifiConnected, wifiManagerStarted := false),
           [ShowLeds(L.WifiConnecting), InitWifi] + (if ok then [] else [ShowLeds(L.WifiError)]))
  }

  function WifiConnectedSpec(g: Globals, now: Millis, w: Inputs): (r: Step)
    ensures r.g.lastStateUpdate == g.lastStateUpdate
  {
    var out := [BeginNfc] + (if w.nfcBeginOk then [] else [ShowLeds(L.TagFailure)]) + [BeginWebServer];
    Step(g.(m := ChangeStateSpec(g.m, SpotifyInitializing, now)), out)
  }

  /** The timer a handler uses: started now on its first run, kept afterwards. */
  function Started(t: Timer, now: Millis): (r: Timer)
    ensures r.started
    ensures t.started ==> r == t
    ensures !t.started ==> r.since == now
  {
    if t.started then t else Timer(true, now)
  }

  /**
   * The timeout is checked first, then `begin`; the state is left for IDLE on a
   * timeout, on success, or when the credentials are missing, and the flag is
   * cleared whenever the state is left.
   */
  function SpotifyInitSpec(g: Globals, now: Millis, w: Inputs): (r: Step)
    ensures r.g.lastStateUpdate == g.lastStateUpdate
  {
    var first := if g.init.started then [] else [ShowLeds(L.SpotifyConnecting)];
    var s := SpotifyAttemptSpec(g.(init := Started(g.init, now)), now, w);
    Step(s.g, first + s.out)
  }

  /** `handleSpotifyInitializing` after its first-run block. */
  function SpotifyAttemptSpec(g: Globals, now: Millis, w: Inputs): (r: Step)
    ensures r.g.lastStateUpdate == g.lastStateUpdate
  {
    var timedOut := Elapsed(now, g.init.since) > SPOTIFY_INIT_TIMEOUT;
    var leave := timedOut || w.spotifyBeginOk || !w.hasCredentials;
    var out := if timedOut then [] else [BeginSpotify] + (if w.spotifyBeginOk then [ShowLeds(L.TagSuccess)] else []);
    Step(g.(m := ChangeStateSpec(g.m, if leave then Idle else g.m.current, now),
            spotifyConnected := if leave then !timedOut && w.spotifyBeginOk else g.spotifyConnected,
            init := if leave then g.init.(started := false) else g.init),
         out)
  }

  /** The idle display is requested once; the reader is polled once the debounce time has passed. */
  function IdleSpec(g: Globals, now: Millis, w: Inputs): (r: Step)
    ensures r.g.lastStateUpdate == g.lastStateUpdate
  {
    var due := Elapsed(now, g.lastNfcCheck) >= NFC_DEBOUNCE_TIME;
    var detected := due && w.cardPresent;
    var out := (if g.idleEntered then [] else [ShowLeds(if g.spotifyConnected then L.Idle else L.SpotifyError)]) +
               (if due then [PollCard] else []);
    Step(g.(m := ChangeStateSpec(g.m, if detected then NfcDetected else g.m.current, now),
            lastNfcCheck := if detected then now else g.lastNfcCheck,
            idleEntered := !detected),
         out)
  }

  function NfcDetectedSpec(g: Globals, now: Millis): (r: Step)
    ensures r.g.lastStateUpdate == g.lastStateUpdate
  {
    Step(g.(m := ChangeStateSpec(g.m, NfcReading, now)), [ShowLeds(L.NfcReading)])
  }

  /** A successful read keeps the URI for processing. */
  function NfcReadingSpec(g: Globals, now: Millis, w: Inputs): (r: Step)
    ensures r.g.lastStateUpdate == g.lastStateUpdate
  {
    var ok := w.tag.success;
    Step(g.(m := ChangeStateSpec(g.m, if ok then NfcProcessing else PlaybackFailed, now),
            currentNfcUri := if ok then w.tag.uri else g.currentNfcUri),
         [ReadTag])
  }

  /**
   * Without a device, or unauthenticated with a failing refresh, the playback
   * fails before `playUri` is called; otherwise its answer decides.
   */
  function NfcProcessingSpec(g: Globals, now: Millis, w: Inputs): (r: Step)
    ensures r.g.lastStateUpdate == g.lastStateUpdate
  {
    var plays := w.deviceAvailable && (w.authenticated || w.refreshOk);
    var out := [ShowLeds(L.TagProcessing)] +
               (if w.deviceAvailable && !w.authenticated then [RefreshToken] else []) +
               (if plays then [PlayUri(g.currentNfcUri)] else []);
    Step(g.(m := ChangeStateSpec(g.m, if plays && w.playOk then PlaybackSuccess else PlaybackFailed, now)), out)
  }

  /** `handlePlaybackSuccess` and `handlePlaybackFailed`, which differ only in their colour and flag. */
  function FeedbackSpec(g: Globals, now: Millis, success: bool): (r: Step)
    ensures r.g.lastStateUpdate == g.lastStateUpdate
  {
    var shown := if success then g.successShown else g.failureShown;
    var done := Elapsed(now, g.m.stateEntryTime) >= LED_FEEDBACK_DURATION;
    var out := if shown then [] else [ShowLeds(if success then L.TagSuccess else L.TagFailure)];
    var g1 := g.(m := ChangeStateSpec(g.m, if done then Idle else g.m.current, now),
                 currentNfcUri := if done then "" else g.currentNfcUri);
    if success then Step(g1.(successShown := !done), out)
    else Step(g1.(failureShown := !done), out)
  }

  /** The restart is a request; what follows it is a new power-on. */
  function ErrorRecoverySpec(g: Globals, now: Millis): (r: Step)
    ensures r.g.lastStateUpdate == g.lastStateUpdate
  {
    if Elapsed(now, g.m.stateEntryTime) >= ERROR_RESTART_DELAY then Step(g, [Restart]) else Step(g, [])
  }

  /** A restored connection is checked before the timeout. */
  function WifiReconnectingSpec(g: Globals, now: Millis, w: Inputs): (r: Step)
    ensures r.g.lastStateUpdate == g.lastStateUpdate
  {
    var t := Started(g.reconnect, now);
    var timedOut := !w.wifiUp && Elapsed(now, t.since) > RECONNECT_TIMEOUT;
    var next := if w.wifiUp then Idle else if timedOut then ErrorRecovery else g.m.current;
    var out := if g.reconnect.started then [] else [ShowLeds(L.WifiError), ReconnectWifi];
    Step(g.(m := ChangeStateSpec(g.m, next, now),
            wifiConnected := if w.wifiUp then true else g.wifiConnected,
            reconnect := if w.wifiUp || timedOut then t.(started := false) else t),
         out)
  }

  /** The handler of the current state (the portal state has none). */
  function HandlerSpec(g: Globals, now: Millis, w: Inputs): Step
  {
    match g.m.current
    case Boot => BootSpec(g, now)
    case WifiConnecting => WifiConnectingSpec(g, now, w)
    case WifiConfigPortal => Step(g, [])
    case WifiConnected => WifiConnectedSpec(g, now, w)
    case SpotifyInitializing => SpotifyInitSpec(g, now, w)
    case Idle => IdleSpec(g, now, w)
    case NfcDetected => NfcDetectedSpec(g, now)
    case NfcReading => NfcReadingSpec(g, now, w)
    case NfcProcessing => NfcProcessingSpec(g, now, w)
    case PlaybackSuccess => FeedbackSpec(g, now, true)
    case PlaybackFailed => FeedbackSpec(g, now, false)
    case ErrorRecovery => ErrorRecoverySpec(g, now)
    case WifiReconnecting => WifiReconnectingSpec(g, now, w)
  }

  /** `updateStateMachine`: rate-limited dispatch to one handler. */
  function UpdateSpec(g: Globals, now: Millis, w: Inputs): Step
  {
    if Elapsed(now, g.lastStateUpdate) < STATE_MACHINE_INTERVAL then Step(g, [])
    else HandlerSpec(g.(lastStateUpdate := now), now, w)
  }

  /** `checkWifiStatus`: a lost connection that was up starts the reconnection. */
  function CheckWifiSpec(g: Globals, now: Millis, w: Inputs): Globals
  {
    if !w.wifiUp && g.wifiConnected then g.(m := ChangeStateSpec(g.m, WifiReconnecting, now), wifiConnected := false)
    else g
  }

  // ---------------------------------------------------------------------------
  // Properties
  // ---------------------------------------------------------------------------

  /** The moves the handlers can make. */
  predicate Edge(a: AppState, b: AppState)
  {
    match a
    case Boot => b == WifiConnecting
    case WifiConnecting => b == WifiConnected || b == ErrorRecovery
    case WifiConnected => b == SpotifyInitializing
    case SpotifyInitializing => b == Idle
    case Idle => b == NfcDetected
    case NfcDetected => b == NfcReading
    case NfcReading => b == NfcProcessing || b == PlaybackFailed
    case NfcProcessing => b == PlaybackSuccess || b == PlaybackFailed
    case PlaybackSuccess => b == Idle
    case PlaybackFailed => b == Idle
    case WifiReconnecting => b == Idle || b == ErrorRecovery
    case _ => false
  }

  /** A tick either keeps the state or makes one move along an edge, recorded by `changeState`. */
  predicate OneMove(a: Machine, b: Machine, now: Millis)
  {
    b == a || (Edge(a.current, b.current) && b.previous == a.current && b.stateEntryTime == now)
  }

  /** Calling `changeState` twice with the same state is calling it once. */
  lemma ChangeStateIdempotent(m: Machine, s: AppState, now: Millis, later: Millis)
    ensures ChangeStateSpec(ChangeStateSpec(m, s, now), s, later) == ChangeStateSpec(m, s, now)
    ensures ChangeStateSpec(m, m.current, now) == m
  {
  }

  /** The handlers leave the time of the last run alone. */
  lemma HandlerKeepsStamp(g: Globals, now: Millis, w: Inputs)
    ensures HandlerSpec(g, now, w).g.lastStateUpdate == g.lastStateUpdate
  {
    match g.m.current
    case PlaybackSuccess =>
    case PlaybackFailed =>
    case _ =>
  }

  /** Within the interval of the last run nothing happens; otherwise the run is stamped. */
  lemma UpdateRateLimited(g: Globals, now: Millis, w: Inputs)
    ensures Elapsed(now, g.lastStateUpdate) < STATE_MACHINE_INTERVAL ==> UpdateSpec(g, now, w) == Step(g, [])
    ensures Elapsed(now, g.lastStateUpdate) >= STATE_MACHINE_INTERVAL ==>
              UpdateSpec(g, now, w).g.lastStateUpdate == now
  {
    if Elapsed(now, g.lastStateUpdate) >= STATE_MACHINE_INTERVAL {
      HandlerKeepsStamp(g.(lastStateUpdate := now), now, w);
    }
  }

  /** Each handler makes at most one move, and only along an edge of the automaton. */
  lemma HandlerMovesOnce(g: Globals, now: Millis, w: Inputs)
    ensures OneMove(g.m, HandlerSpec(g, now, w).g.m, now)
  {
    match g.m.current
    case SpotifyInitializing => SetupMovesOnce(g, now, w);
    case PlaybackSuccess => FeedbackMovesOnce(g, now, true);
    case PlaybackFailed => FeedbackMovesOnce(g, now, false);
    case WifiReconnecting => ReconnectMovesOnce(g, now, w);
    case Idle => TagMovesOnce(g, now, w);
    case NfcReading => TagMovesOnce(g, now, w);
    case NfcProcessing => TagMovesOnce(g, now, w);
    case WifiConfigPortal =>
    case _ => SetupStepsMoveOnce(g, now, w);
  }

  lemma SetupStepsMoveOnce(g: Globals, now: Millis, w: Inputs)
    ensures g.m.current == Boot ==> OneMove(g.m, BootSpec(g, now).g.m, now)
    ensures g.m.current == WifiConnecting ==> OneMove(g.m, WifiConnectingSpec(g, now, w).g.m, now)
    ensures g.m.current == WifiConnected ==> OneMove(g.m, WifiConnectedSpec(g, now, w).g.m, now)
    ensures g.m.current == NfcDetected ==> OneMove(g.m, NfcDetectedSpec(g, now).g.m, now)
    ensures OneMove(g.m, ErrorRecoverySpec(g, now).g.m, now)
  {
  }

  lemma SetupMovesOnce(g: Globals, now: Millis, w: Inputs)
    requires g.m.current == SpotifyInitializing
    ensures OneMove(g.m, SpotifyInitSpec(g, now, w).g.m, now)
  {
  }

  lemma TagMovesOnce(g: Globals, now: Millis, w: Inputs)
    ensures g.m.current == Idle ==> OneMove(g.m, IdleSpec(g, now, w).g.m, now)
    ensures g.m.current == NfcReading ==> OneMove(g.m, NfcReadingSpec(g, now, w).g.m, now)
    ensures g.m.current == NfcProcessing ==> OneMove(g.m, NfcProcessingSpec(g, now, w).g.m, now)
  {
  }

  lemma FeedbackMovesOnce(g: Globals, now: Millis, success: bool)
    requires g.m.current == (if success then PlaybackSuccess else PlaybackFailed)
    ensures OneMove(g.m, FeedbackSpec(g, now, success).g.m, now)
  {
  }

  lemma ReconnectMovesOnce(g: Globals, now: Millis, w: Inputs)
    requires g.m.current == WifiReconnecting
    ensures OneMove(g.m, WifiReconnectingSpec(g, now, w).g.m, now)
  {
  }

  /** `updateStateMachine` runs one handler, so it makes at most one move. */
  lemma UpdateMovesOnce(g: Globals, now: Millis, w: Inputs)
    ensures OneMove(g.m, UpdateSpec(g, now, w).g.m, now)
  {
    if Elapsed(now, g.lastStateUpdate) >= STATE_MACHINE_INTERVAL {
      HandlerMovesOnce(g.(lastStateUpdate := now), now, w);
    }
  }

  /** No handler enters WIFI_RECONNECTING. */
  lemma ReconnectingNotEntered(g: Globals, now: Millis, w: Inputs)
    requires g.m.current != WifiReconnecting
    ensures UpdateSpec(g, now, w).g.m.current != WifiReconnecting
  {
    UpdateMovesOnce(g, now, w);
  }

  /** BOOT leaves for WiFi set-up exactly when the startup animation has run 1500 ms. */
  lemma BootWaits(g: Globals, now: Millis)
    requires g.m.current == Boot
    ensures BootSpec(g, now).g.m.current == WifiConnecting <==> Elapsed(now, g.m.stateEntryTime) >= BOOT_DURATION
    ensures BootSpec(g, now).g.m.current != WifiConnecting ==> BootSpec(g, now).g == g
  {
  }

  /** IDLE polls the reader only after the debounce time, and moves on only with a card. */
  lemma IdleDebounce(g: Globals, now: Millis, w: Inputs)
    requires g.m.current == Idle
    ensures var r := IdleSpec(g, now, w);
      && (r.g.m.current == NfcDetected <==> Elapsed(now, g.lastNfcCheck) >= NFC_DEBOUNCE_TIME && w.cardPresent)
      && (r.g.lastNfcCheck == now || r.g.lastNfcCheck == g.lastNfcCheck)
      && (r.g.lastNfcCheck != g.lastNfcCheck ==> r.g.m.current == NfcDetected)
      && (PollCard in r.out <==> Elapsed(now, g.lastNfcCheck) >= NFC_DEBOUNCE_TIME)
  {
  }

  /** Once the idle display was requested, staying in IDLE requests nothing more from the LEDs. */
  lemma IdleShowsOnce(g: Globals, now: Millis, w: Inputs)
    requires g.idleEntered
    ensures forall mode :: ShowLeds(mode) !in IdleSpec(g, now, w).out
  {
  }

  /**
   * NFC_PROCESSING plays only with a device and a valid or refreshed token, plays
   * the URI read from the tag, and succeeds exactly when the playback starts.
   */
  lemma ProcessingOutcome(g: Globals, now: Millis, w: Inputs)
    requires g.m.current == NfcProcessing
    ensures var r := NfcProcessingSpec(g, now, w);
      && (r.g.m.current == PlaybackSuccess <==> w.deviceAvailable && (w.authenticated || w.refreshOk) && w.playOk)
      && (r.g.m.current == PlaybackFailed <==> !(w.deviceAvailable && (w.authenticated || w.refreshOk) && w.playOk))
      && (PlayUri(g.currentNfcUri) in r.out <==> w.deviceAvailable && (w.authenticated || w.refreshOk))
      && (forall u :: PlayUri(u) in r.out ==> u == g.currentNfcUri)
      && (RefreshToken in r.out <==> w.deviceAvailable && !w.authenticated)
  {
  }

  /** Success and failure feedback last `LED_FEEDBACK_DURATION`, then IDLE with the URI cleared. */
  lemma FeedbackReturns(g: Globals, now: Millis, success: bool)
    requires g.m.current == (if success then PlaybackSuccess else PlaybackFailed)
    ensures var r := FeedbackSpec(g, now, success);
      && (r.g.m.current == Idle <==> Elapsed(now, g.m.stateEntryTime) >= LED_FEEDBACK_DURATION)
      && (r.g.m.current == Idle ==> r.g.currentNfcUri == "" && !(if success then r.g.successShown else r.g.failureShown))
      && (r.g.m.current != Idle ==> r.g.currentNfcUri == g.currentNfcUri)
  {
  }

  /**
   * SPOTIFY_INITIALIZING goes to IDLE when `begin` succeeds, when the credentials
   * are missing, or once the timeout has passed since its first run (the first
   * run itself never times out); the timeout is checked before `begin` is tried.
   */
  lemma SpotifyInitOutcome(g: Globals, now: Millis, w: Inputs)
    requires g.m.current == SpotifyInitializing
    ensures var r := SpotifyInitSpec(g, now, w);
      var timedOut := g.init.started && Elapsed(now, g.init.since) > SPOTIFY_INIT_TIMEOUT;
      && (r.g.m.current == Idle <==> timedOut || w.spotifyBeginOk || !w.hasCredentials)
      && (r.g.m.current == Idle ==> !r.g.init.started && (r.g.spotifyConnected <==> !timedOut && w.spotifyBeginOk))
      && (r.g.m.current != Idle ==> r.g.init.started)
      && (BeginSpotify in r.out <==> !timedOut)
  {
  }

  /**
   * WIFI_RECONNECTING goes to IDLE when the connection is back and to
   * ERROR_RECOVERY once 30 s have passed since its first run.
   */
  lemma ReconnectOutcome(g: Globals, now: Millis, w: Inputs)
    requires g.m.current == WifiReconnecting
    ensures var r := WifiReconnectingSpec(g, now, w);
      var timedOut := g.reconnect.started && Elapsed(now, g.reconnect.since) > RECONNECT_TIMEOUT;
      && (r.g.m.current == Idle <==> w.wifiUp)
      && (r.g.m.current == ErrorRecovery <==> !w.wifiUp && timedOut)
      && (r.g.m.current == Idle ==> r.g.wifiConnected)
  {
  }

  /** The reconnection state is entered only from `checkWifiStatus`, and only when a live connection is lost. */
  lemma CheckWifiEnters(g: Globals, now: Millis, w: Inputs)
    requires g.m.current != WifiReconnecting
    ensures CheckWifiSpec(g, now, w).m.current == WifiReconnecting <==> !w.wifiUp && g.wifiConnected
    ensures CheckWifiSpec(g, now, w).m.current != WifiReconnecting ==> CheckWifiSpec(g, now, w) == g
  {
  }

  /** A WiFi set-up attempt leaves the set-up flag cleared, so set-up is tried on every run. */
  lemma WifiSetupRetried(g: Globals, now: Millis, w: Inputs)
    requires g.m.current == WifiConnecting && !g.wifiManagerStarted
    ensures var r := WifiConnectingSpec(g, now, w);
      && !r.g.wifiManagerStarted && InitWifi in r.out
      && (r.g.m.current == WifiConnected <==> w.wifiSetupOk)
      && (r.g.m.current == ErrorRecovery <==> !w.wifiSetupOk)
      && r.g.wifiConnected == (g.wifiConnected || w.wifiSetupOk)
  {
  }

  // ---------------------------------------------------------------------------
  // The application
  // ---------------------------------------------------------------------------

  class Application {
    /** `currentState`, `previousState` and `stateEntryTime`. */
    var machine: Machine
    var lastStateUpdate: Millis
    var lastNfcCheck: Millis
    var currentNfcUri: string
    var wifiConnected: bool
    var spotifyConnected: bool
    var wifiManagerStarted: bool
    /** `initStarted` and `initStartTime`. */
    var init: Timer
    var idleEntered: bool
    var successShown: bool
    var failureShown: bool
    /** `reconnectStarted` and `reconnectStartTime`. */
    var reconnect: Timer
    /** The calls made on the other components so far. */
    var requests: seq<Request>

    function View(): Globals
      reads this
    {
      Globals(machine, lastStateUpdate, lastNfcCheck, currentNfcUri,
              wifiConnected, spotifyConnected, wifiManagerStarted,
              init, idleEntered, successShown, failureShown, reconnect)
    }

    constructor ()
      ensures View() == Initial() && requests == []
    {
      machine := Machine(Boot, Boot, 0);
      lastStateUpdate, lastNfcCheck := 0, 0;
      currentNfcUri := "";
      wifiConnected, spotifyConnected := false, false;
      wifiManagerStarted, init := false, Timer(false, 0);
      idleEntered, successShown, failureShown := false, false, false;
      reconnect := Timer(false, 0);
      requests := [];
    }

    method ChangeState(newState: AppState, now: Millis)
      modifies this`machine
      ensures machine == ChangeStateSpec(old(machine), newState, now)
    {
      if newState == machine.current {
        return;
      }
      machine := Machine(newState, machine.current, now);
    }

    method HandleBoot(now: Millis)
      modifies this
      ensures var s := BootSpec(old(View()), now);
        View() == s.g && requests == old(requests) + s.out
    {
      requests := requests + [ShowLeds(L.Startup)];
      if Elapsed(now, machine.stateEntryTime) >= BOOT_DURATION {
        ChangeState(WifiConnecting, now);
      }
    }

    method HandleWifiConnecting(now: Millis, w: Inputs)
      modifies this
      ensures var s := WifiConnectingSpec(old(View()), now, w);
        View() == s.g && requests == old(requests) + s.out
    {
      ghost var s := WifiConnectingSpec(View(), now, w);
      if !wifiManagerStarted {
        requests := requests + [ShowLeds(L.WifiConnecting), InitWifi];
        if !w.wifiSetupOk {
          requests := requests + [ShowLeds(L.WifiError)];
          ChangeState(ErrorRecovery, now);
          wifiManagerStarted := false;
          assert s.out == [ShowLeds(L.WifiConnecting), InitWifi, ShowLeds(L.WifiError)];
          assert View() == s.g;
          return;
        }
        wifiConnected := true;
        wifiManagerStarted := false;
        ChangeState(WifiConnected, now);
        assert s.out == [ShowLeds(L.WifiConnecting), InitWifi];
        assert View() == s.g;
      }
    }

    method HandleWifiConnected(now: Millis, w: Inputs)
      modifies this
      ensures var s := WifiConnectedSpec(old(View()), now, w);
        View() == s.g && requests == old(requests) + s.out
    {
      requests := requests + [BeginNfc];
      if !w.nfcBeginOk {
        requests := requests + [ShowLeds(L.TagFailure)];
      }
      requests := requests + [BeginWebServer];
      ChangeState(SpotifyInitializing, now);
    }

    method HandleSpotifyInitializing(now: Millis, w: Inputs)
      modifies this
      ensures var s := SpotifyInitSpec(old(View()), now, w);
        View() == s.g && requests == old(requests) + s.out
    {
      if !init.started {
        init := Timer(true, now);
        requests := requests + [ShowLeds(L.SpotifyConnecting)];
      }
      SpotifyAttempt(now, w);
    }

    /** The part of `handleSpotifyInitializing` after its first-run block. */
    method SpotifyAttempt(now: Millis, w: Inputs)
      modifies this`requests, this`machine, this`spotifyConnected, this`init
      ensures var s := SpotifyAttemptSpec(old(View()), now, w);
        View() == s.g && requests == old(requests) + s.out
    {
      ghost var s := SpotifyAttemptSpec(View(), now, w);
      if Elapsed(now, init.since) > SPOTIFY_INIT_TIMEOUT {
        spotifyConnected := false;
        init := init.(started := false);
        ChangeState(Idle, now);
        assert View() == s.g;
        return;
      }
      requests := requests + [BeginSpotify];
      if w.spotifyBeginOk {
        spotifyConnected := true;
        requests := requests + [ShowLeds(L.TagSuccess)];
        init := init.(started := false);
        ChangeState(Idle, now);
        assert s.out == [BeginSpotify, ShowLeds(L.TagSuccess)];
        assert View() == s.g;
      } else if !w.hasCredentials {
        spotifyConnected := false;
        init := init.(started := false);
        ChangeState(Idle, now);
        assert View() == s.g;
      }
    }

    method HandleIdle(now: Millis, w: Inputs)
      modifies this`requests, this`idleEntered, this`lastNfcCheck, this`machine
      ensures var s := IdleSpec(old(View()), now, w);
        View() == s.g && requests == old(requests) + s.out
    {
      if !idleEntered {
        idleEntered := true;
        requests := requests + [ShowLeds(if spotifyConnected then L.Idle else L.SpotifyError)];
      }
      if Elapsed(now, lastNfcCheck) >= NFC_DEBOUNCE_TIME {
        requests := requests + [PollCard];
        if w.cardPresent {
          lastNfcCheck := now;
          idleEntered := false;
          ChangeState(NfcDetected, now);
        }
      }
    }

    method HandleNfcDetected(now: Millis)
      modifies this
      ensures var s := NfcDetectedSpec(old(View()), now);
        View() == s.g && requests == old(requests) + s.out
    {
      requests := requests + [ShowLeds(L.NfcReading)];
      ChangeState(NfcReading, now);
    }

    method HandleNfcReading(now: Millis, w: Inputs)
      modifies this
      ensures var s := NfcReadingSpec(old(View()), now, w);
        View() == s.g && requests == old(requests) + s.out
    {
      requests := requests + [ReadTag];
      if w.tag.success {
        currentNfcUri := w.tag.uri;
        ChangeState(NfcProcessing, now);
      } else {
        ChangeState(PlaybackFailed, now);
      }
    }

    method HandleNfcProcessing(now: Millis, w: Inputs)
      modifies this`requests, this`machine
      ensures var s := NfcProcessingSpec(old(View()), now, w);
        View() == s.g && requests == old(requests) + s.out
    {
      ghost var out := NfcProcessingSpec(old(View()), now, w).out;
      requests := requests + [ShowLeds(L.TagProcessing)];
      if !w.deviceAvailable {
        ChangeState(PlaybackFailed, now);
        assert out == [ShowLeds(L.TagProcessing)];
        return;
      }
      if !w.authenticated {
        requests := requests + [RefreshToken];
        if !w.refreshOk {
          ChangeState(PlaybackFailed, now);
          assert out == [ShowLeds(L.TagProcessing), RefreshToken];
          return;
        }
      }
      requests := requests + [PlayUri(currentNfcUri)];
      if w.playOk {
        ChangeState(PlaybackSuccess, now);
      } else {
        ChangeState(PlaybackFailed, now);
      }
    }

    method HandlePlaybackSuccess(now: Millis)
      modifies this
      ensures var s := FeedbackSpec(old(View()), now, true);
        View() == s.g && requests == old(requests) + s.out
    {
      if !successShown {
        successShown := true;
        requests := requests + [ShowLeds(L.TagSuccess)];
      }
      if Elapsed(now, machine.stateEntryTime) >= LED_FEEDBACK_DURATION {
        successShown := false;
        currentNfcUri := "";
        ChangeState(Idle, now);
      }
    }

    method HandlePlaybackFailed(now: Millis)
      modifies this
      ensures var s := FeedbackSpec(old(View()), now, false);
        View() == s.g && requests == old(requests) + s.out
    {
      if !failureShown {
        failureShown := true;
        requests := requests + [ShowLeds(L.TagFailure)];
      }
      if Elapsed(now, machine.stateEntryTime) >= LED_FEEDBACK_DURATION {
        failureShown := false;
        currentNfcUri := "";
        ChangeState(Idle, now);
      }
    }

    method HandleErrorRecovery(now: Millis)
      modifies this
      ensures var s := ErrorRecoverySpec(old(View()), now);
        View() == s.g && requests == old(requests) + s.out
    {
      if Elapsed(now, machine.stateEntryTime) >= ERROR_RESTART_DELAY {
        requests := requests + [Restart];
      }
    }

    method HandleWifiReconnecting(now: Millis, w: Inputs)
      modifies this
      ensures var s := WifiReconnectingSpec(old(View()), now, w);
        View() == s.g && requests == old(requests) + s.out
    {
      if !reconnect.started {
        reconnect := Timer(true, now);
        requests := requests + [ShowLeds(L.WifiError), ReconnectWifi];
      }
      if w.wifiUp {
        wifiConnected := true;
        reconnect := reconnect.(started := false);
        ChangeState(Idle, now);
        return;
      }
      if Elapsed(now, reconnect.since) > RECONNECT_TIMEOUT {
        reconnect := reconnect.(started := false);
        ChangeState(ErrorRecovery, now);
      }
    }

    /** `updateStateMachine`. */
    method UpdateStateMachine(now: Millis, w: Inputs)
      modifies this
      ensures var s := UpdateSpec(old(View()), now, w);
        View() == s.g && requests == old(requests) + s.out
    {
      if Elapsed(now, lastStateUpdate) < STATE_MACHINE_INTERVAL {
        return;
      }
      lastStateUpdate := now;
      ghost var g := View();
      assert g == old(View()).(lastStateUpdate := now);
      ghost var s := HandlerSpec(g, now, w);
      assert UpdateSpec(old(View()), now, w) == s;
      match machine.current
      case Boot => HandleBoot(now);
      case WifiConnecting => HandleWifiConnecting(now, w);
      case WifiConfigPortal =>
      case WifiConnected => HandleWifiConnected(now, w);
      case SpotifyInitializing => HandleSpotifyInitializing(now, w);
      case Idle => HandleIdle(now, w);
      case NfcDetected => HandleNfcDetected(now);
      case NfcReading => HandleNfcReading(now, w);
      case NfcProcessing => HandleNfcProcessing(now, w);
      case PlaybackSuccess => HandlePlaybackSuccess(now);
      case PlaybackFailed => HandlePlaybackFailed(now);
      case ErrorRecovery => HandleErrorRecovery(now);
      case WifiReconnecting => HandleWifiReconnecting(now, w);
    }

    /** `checkWifiStatus`. */
    method CheckWifiStatus(now: Millis, w: Inputs)
      modifies this`wifiConnected, this`machine
      ensures View() == CheckWifiSpec(old(View()), now, w)
    {
      if !w.wifiUp && wifiConnected {
        wifiConnected := false;
        ChangeState(WifiReconnecting, now);
      }
    }
  }
}
