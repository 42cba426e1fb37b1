// The gateway's terminal session: connect, attach, disconnect, and the heartbeat
// and reconnect loop (services/mt5_gateway/runtime.py, MT5GatewayRuntime).
module Session {
  import opened Numeric
  import opened Wrappers

  datatype Mode = NoSession | Connected | Attached

  datatype Settings = Settings(
    reconnectEnabled: bool, maxAttempts: nat, backoff: real, interval: real, autoAttach: bool)

  datatype Account = Account(login: int, server: string)

  // What the terminal answers during one tick of the loop; a call that times out
  // or raises counts as a refusal.
  datatype Replies = Replies(heartbeat: bool, initialize: bool, login: bool, account: Option<Account>)

  // One pass of the loop: the clock when it starts and when it would set a cool-down.
  datatype Tick = Tick(now: real, later: real, replies: Replies)

  datatype Creds = Creds(login: int, password: string, server: string, mode: Mode)

  // History: what happened to the session, in order.
  datatype Note = Attempted(ok: bool) | CooledDown | Opened | Ended | Picked(name: string)

  // `calls` counts the terminal calls of connect, attach, disconnect, heartbeat
  // and reconnect; `trail` is the history.
  datatype State = State(
    creds: Option<Creds>, connected: bool, server: string, login: Option<int>, mode: Mode,
    attempts: nat, selected: set<string>, cooldownUntil: real, nextAttach: real, attachBackoff: real,
    calls: nat, trail: seq<Note>)

  // ---------------------------------------------------------------------
  // What each operation does

  function Mark(s: State, c: Creds): State {
    s.(creds := Some(c), connected := true, server := c.server, login := Some(c.login), mode := c.mode,
       attempts := 0, selected := {}, trail := s.trail + [Opened])
  }

  function AfterConnect(s: State, login: int, password: string, server: string, r: Replies): State {
    var t := s.(calls := s.calls + if r.initialize then 2 else 1);
    if r.initialize && r.login then Mark(t, Creds(login, password, server, Connected)) else t
  }

  function AfterAttach(s: State, r: Replies): State {
    var t := s.(calls := s.calls + if r.initialize then 2 else 1);
    if r.initialize && r.account.Some? then Mark(t, Creds(r.account.value.login, "", r.account.value.server, Attached)) else t
  }

  function AfterDisconnect(s: State): State {
    s.(creds := None, connected := false, server := "", login := None, mode := NoSession, selected := {},
       calls := s.calls + 1, trail := s.trail + [Ended])
  }

  function AfterPick(s: State, name: string): State {
    s.(selected := s.selected + {name}, trail := s.trail + [Picked(name)])
  }

  predicate WillAttempt(s: State, settings: Settings) {
    settings.reconnectEnabled && s.creds.Some? && s.attempts < settings.maxAttempts
  }

  predicate Recovers(c: Creds, r: Replies) {
    r.initialize && if c.password != "" then r.login else r.account.Some?
  }

  // The credentials after a successful reconnect: an attached session adopts the
  // account the terminal reports.
  function Adopted(c: Creds, r: Replies): Creds
    requires Recovers(c, r)
  {
    if c.password != "" then c
    else c.(login := r.account.value.login, server := if r.account.value.server == "" then c.server else r.account.value.server)
  }

  function AfterReconnect(s: State, settings: Settings, r: Replies): State {
    if !WillAttempt(s, settings) then s
    else
      var c := s.creds.value;
      var t := s.(attempts := s.attempts + 1, calls := s.calls + if r.initialize then 2 else 1,
                  trail := s.trail + [Attempted(Recovers(c, r))]);
      if !Recovers(c, r) then t.(connected := false)
      else
        var a := Adopted(c, r);
        t.(creds := Some(a), connected := true, mode := a.mode, selected := {},
           login := if c.password != "" then t.login else Some(a.login),
           server := if c.password != "" then t.server else a.server)
  }

  function CoolDown(settings: Settings): real {
    Max(settings.backoff * (if settings.maxAttempts < 1 then 1 else settings.maxAttempts) as real, settings.interval * 2.0)
  }

  // Adopting a terminal that started late, with a doubling wait between tries.
  function AfterDelayedAttach(s: State, settings: Settings, t: Tick): State {
    if t.now < s.nextAttach then s
    else
      var a := AfterAttach(s, t.replies);
      if a.creds.Some? then a.(attachBackoff := settings.backoff, nextAttach := 0.0)
      else
        var wait := Min(60.0, Max(settings.backoff, s.attachBackoff * 2.0));
        a.(attachBackoff := wait, nextAttach := t.now + wait)
  }

  function AfterTick(s: State, settings: Settings, t: Tick): State {
    if s.creds.None? then
      if settings.autoAttach then AfterDelayedAttach(s, settings, t) else s
    else if s.connected then
      var h := s.(calls := s.calls + 1);
      if t.replies.heartbeat then h else AfterReconnect(h.(connected := false), settings, t.replies)
    else if !settings.reconnectEnabled || t.now < s.cooldownUntil then s
    else
      var b := if s.attempts >= settings.maxAttempts then s.(attempts := 0) else s;
      var r := AfterReconnect(b, settings, t.replies);
      if r.connected then r.(cooldownUntil := 0.0)
      else if r.attempts >= settings.maxAttempts then
        r.(cooldownUntil := t.later + CoolDown(settings), trail := r.trail + [CooledDown])
      else r
  }

  function AfterTicks(s: State, settings: Settings, ticks: seq<Tick>): State {
    if ticks == [] then s else AfterTick(AfterTicks(s, settings, ticks[..|ticks| - 1]), settings, ticks[|ticks| - 1])
  }

  // ---------------------------------------------------------------------
  // The runtime object

  class SessionCredentials {
    var login: int
    const password: string
    var server: string
    const mode: Mode

    constructor (login: int, password: string, server: string, mode: Mode)
      ensures this.login == login && this.password == password && this.server == server && this.mode == mode
    {
      this.login, this.password, this.server, this.mode := login, password, server, mode;
    }
  }

  class MT5GatewayRuntime {
    const settings: Settings
    var creds: SessionCredentials?
    var connected: bool
    var server: string
    var login: Option<int>
    var sessionMode: Mode
    var reconnectAttempts: nat
    var selectedSymbols: set<string>
    var cooldownUntil: real
    var nextDelayedAttach: real
    var delayedAttachBackoff: real
    var bridgeCalls: nat
    ghost var trail: seq<Note>

    ghost function View(): State
      reads this, creds
    {
      State(if creds == null then None else Some(Creds(creds.login, creds.password, creds.server, creds.mode)),
            connected, server, login, sessionMode, reconnectAttempts, selectedSymbols, cooldownUntil,
            nextDelayedAttach, delayedAttachBackoff, bridgeCalls, trail)
    }

    constructor (settings: Settings)
      ensures this.settings == settings
      ensures View() == State(None, false, "", None, NoSession, 0, {}, 0.0, 0.0, 2.0, 0, [])
    {
      this.settings := settings;
      creds, connected, server, login, sessionMode := null, false, "", None, NoSession;
      reconnectAttempts, selectedSymbols := 0, {};
      cooldownUntil, nextDelayedAttach, delayedAttachBackoff, bridgeCalls, trail := 0.0, 0.0, 2.0, 0, [];
    }

    method MarkSession(login: int, password: string, server: string, mode: Mode)
      modifies this
      ensures creds != null && fresh(creds)
      ensures View() == Mark(old(View()), Creds(login, password, server, mode))
    {
      creds := new SessionCredentials(login, password, server, mode);
      connected := true;
      this.server, this.login, sessionMode := server, Some(login), mode;
      reconnectAttempts := 0;
      selectedSymbols := {};
      trail := trail + [Opened];
    }

    method Connect(login: int, password: string, server: string, r: Replies) returns (ok: bool)
      modifies this
      ensures ok == (r.initialize && r.login) && (creds == old(creds) || fresh(creds))
      // A session is up with exactly the given credentials, or nothing changed.
      ensures ok ==>
                && connected && creds != null && sessionMode == creds.mode == Connected
                && creds.login == login && creds.password == password && creds.server == server
                && this.login == Some(login) && this.server == server && selectedSymbols == {} && reconnectAttempts == 0
      ensures !ok ==> View() == old(View()).(calls := bridgeCalls)
      ensures View() == AfterConnect(old(View()), login, password, server, r)
    {
      bridgeCalls := bridgeCalls + 1;
      if !r.initialize {
        return false;
      }
      bridgeCalls := bridgeCalls + 1;
      if !r.login {
        return false;
      }
      MarkSession(login, password, server, Connected);
      return true;
    }

    method Attach(r: Replies) returns (ok: bool)
      modifies this
      ensures ok == (r.initialize && r.account.Some?) && (creds == old(creds) || fresh(creds))
      // A session is up on the reported account without a password, or nothing changed.
      ensures ok ==>
                && connected && creds != null && sessionMode == creds.mode == Attached && creds.password == ""
                && creds.login == r.account.value.login && creds.server == r.account.value.server
                && login == Some(creds.login) && server == creds.server && selectedSymbols == {} && reconnectAttempts == 0
      ensures !ok ==> View() == old(View()).(calls := bridgeCalls)
      ensures View() == AfterAttach(old(View()), r)
    {
      bridgeCalls := bridgeCalls + 1;
      if !r.initialize {
        return false;
      }
      bridgeCalls := bridgeCalls + 1;
      if r.account.None? {
        return false;
      }
      MarkSession(r.account.value.login, "", r.account.value.server, Attached);
      return true;
    }

    method Disconnect()
      modifies this
      ensures creds == null && View() == AfterDisconnect(old(View()))
      ensures !connected && login == None && server == "" && sessionMode == NoSession && selectedSymbols == {}
    {
      creds := null;
      selectedSymbols := {};
      bridgeCalls := bridgeCalls + 1;
      connected, server, login, sessionMode := false, "", None, NoSession;
      trail := trail + [Ended];
    }

    // The end of a successful reconnect, with the credentials object read at its
    // start. No lock is held in between, so `creds` may be another object by now.
    method FinishReconnect(captured: SessionCredentials, r: Replies)
      requires Recovers(Creds(captured.login, captured.password, captured.server, captured.mode), r)
      modifies this, captured
      ensures creds == old(creds) && unchanged(`reconnectAttempts, `bridgeCalls, `trail, `cooldownUntil, `nextDelayedAttach, `delayedAttachBackoff)
      ensures connected && sessionMode == captured.mode && selectedSymbols == {}
      ensures var a := Adopted(old(Creds(captured.login, captured.password, captured.server, captured.mode)), r);
              && captured.login == a.login && captured.server == a.server
              && (captured.password == "" ==> login == Some(a.login) && server == a.server)
              && (captured.password != "" ==> login == old(login) && server == old(server))
      // Finishing keeps the diagnostics in step with the credentials exactly when
      // a session still exists, is of the same mode, and, for an attached one, is
      // the captured session or the same account.
      ensures old(Consistent(View())) && captured.mode != NoSession ==>
                (Consistent(View()) <==>
                   && creds != null && creds.mode == captured.mode
                   && (captured.password == "" ==> creds.login == captured.login && creds.server == captured.server))
    {
      if captured.password == "" {
        captured.login := r.account.value.login;
        if r.account.value.server != "" {
          captured.server := r.account.value.server;
        }
        login := Some(captured.login);
        server := captured.server;
      }
      connected := true;
      sessionMode := captured.mode;
      selectedSymbols := {};
    }

    method TryReconnect(r: Replies) returns (recovered: bool)
      modifies this, creds
      ensures creds == old(creds) && View() == AfterReconnect(old(View()), settings, r)
      ensures recovered ==> connected
      ensures !recovered && old(WillAttempt(View(), settings)) ==> !connected
      ensures !recovered && !old(WillAttempt(View(), settings)) ==> connected == old(connected)
    {
      if !settings.reconnectEnabled || creds == null || reconnectAttempts >= settings.maxAttempts {
        return false;
      }
      reconnectAttempts := reconnectAttempts + 1;
      bridgeCalls := bridgeCalls + 1;
      if r.initialize {
        bridgeCalls := bridgeCalls + 1;
        if if creds.password != "" then r.login else r.account.Some? {
          trail := trail + [Attempted(true)];
          FinishReconnect(creds, r);
          return true;
        }
      }
      trail := trail + [Attempted(false)];
      connected := false;
      return false;
    }

    // Without a session: adopt a terminal that started late, when its wait is over.
    method PassWithoutSession(t: Tick)
      requires creds == null
      modifies this
      ensures View() == AfterTick(old(View()), settings, t)
      ensures creds == null || fresh(creds)
    {
      if settings.autoAttach && t.now >= nextDelayedAttach {
        var ok := Attach(t.replies);
        if ok {
          delayedAttachBackoff := settings.backoff;
          nextDelayedAttach := 0.0;
        } else {
          delayedAttachBackoff := Min(60.0, Max(settings.backoff, delayedAttachBackoff * 2.0));
          nextDelayedAttach := t.now + delayedAttachBackoff;
        }
      }
    }

    // Disconnected with credentials: attempts go on, in bursts.
    method PassDisconnected(t: Tick)
      requires creds != null && !connected
      modifies this, creds
      ensures View() == AfterTick(old(View()), settings, t)
      ensures creds == old(creds)
    {
      if !settings.reconnectEnabled || t.now < cooldownUntil {
        return;
      }
      if reconnectAttempts >= settings.maxAttempts {
        reconnectAttempts := 0;
      }
      var recovered := TryReconnect(t.replies);
      if recovered {
        cooldownUntil := 0.0;
      } else if reconnectAttempts >= settings.maxAttempts {
        cooldownUntil := t.later + CoolDown(settings);
        trail := trail + [CooledDown];
      }
    }

    // One pass of the heartbeat loop.
    method Pass(t: Tick)
      modifies this, creds
      ensures View() == AfterTick(old(View()), settings, t)
      ensures creds == old(creds) || fresh(creds)
    {
      if creds == null {
        PassWithoutSession(t);
      } else if !connected {
        PassDisconnected(t);
      } else {
        bridgeCalls := bridgeCalls + 1;
        if !t.replies.heartbeat {
          connected := false;
          var recovered := TryReconnect(t.replies);
        }
      }
    }

    method HeartbeatLoop(ticks: seq<Tick>)
      modifies this, creds
      ensures View() == AfterTicks(old(View()), settings, ticks)
    {
      for i := 0 to |ticks|
        invariant View() == AfterTicks(old(View()), settings, ticks[..i])
        invariant creds == old(creds) || fresh(creds)
      {
        assert ticks[..i + 1][..i] == ticks[..i];
        Pass(ticks[i]);
      }
      assert ticks[..|ticks|] == ticks;
    }
  }

  // ---------------------------------------------------------------------
  // Session bookkeeping

  // Diagnostics describe exactly the retained credentials; without credentials
  // nothing is connected; an attached session holds no password.
  predicate Consistent(s: State) {
    match s.creds
    case Some(c) =>
      s.login == Some(c.login) && s.server == c.server && s.mode == c.mode && c.mode != NoSession
      && (c.mode == Attached ==> c.password == "")
    case None => !s.connected && s.login == None && s.server == "" && s.mode == NoSession
  }

  datatype Event =
    | Connecting(login: int, password: string, server: string, replies: Replies)
    | Attaching(replies: Replies)
    | Disconnecting
    | Ticking(tick: Tick)
    | Picking(name: string)

  function After(s: State, settings: Settings, e: Event): State {
    match e
    case Connecting(login, password, server, r) => AfterConnect(s, login, password, server, r)
    case Attaching(r) => AfterAttach(s, r)
    case Disconnecting => AfterDisconnect(s)
    case Ticking(t) => AfterTick(s, settings, t)
    case Picking(name) => AfterPick(s, name)
  }

  function AfterAll(s: State, settings: Settings, events: seq<Event>): State {
    if events == [] then s else After(AfterAll(s, settings, events[..|events| - 1]), settings, events[|events| - 1])
  }

  function PickedAfter(picked: set<string>, note: Note): set<string> {
    match note
    case Picked(name) => picked + {name}
    case Attempted(ok) => if ok then {} else picked
    case CooledDown => picked
    case _ => {}
  }

  // The names picked since the session was last opened, recovered or ended.
  function PickedSince(trail: seq<Note>): set<string> {
    if trail == [] then {} else PickedAfter(PickedSince(trail[..|trail| - 1]), trail[|trail| - 1])
  }

  lemma PickedOf(trail: seq<Note>, note: Note)
    ensures PickedSince(trail + [note]) == PickedAfter(PickedSince(trail), note)
  {
    assert (trail + [note])[..|trail|] == trail;
  }

  lemma ReconnectStaysConsistent(s: State, settings: Settings, r: Replies)
    requires Consistent(s) && s.selected == PickedSince(s.trail)
    ensures var t := AfterReconnect(s, settings, r); Consistent(t) && t.selected == PickedSince(t.trail)
  {
    hide PickedSince;
    if WillAttempt(s, settings) {
      PickedOf(s.trail, Attempted(Recovers(s.creds.value, r)));
    }
  }

  lemma TickStaysConsistent(s: State, settings: Settings, t: Tick)
    requires Consistent(s) && s.selected == PickedSince(s.trail)
    ensures var u := AfterTick(s, settings, t); Consistent(u) && u.selected == PickedSince(u.trail)
  {
    hide PickedSince, AfterReconnect, CoolDown;
    if s.creds.None? {
      PickedOf(s.trail, Opened);
    } else if s.connected {
      ReconnectStaysConsistent(s.(calls := s.calls + 1, connected := false), settings, t.replies);
    } else {
      var b := if s.attempts >= settings.maxAttempts then s.(attempts := 0) else s;
      ReconnectStaysConsistent(b, settings, t.replies);
      PickedOf(AfterReconnect(b, settings, t.replies).trail, CooledDown);
    }
  }

  lemma StepStaysConsistent(s: State, settings: Settings, e: Event)
    requires Consistent(s) && s.selected == PickedSince(s.trail)
    ensures var t := After(s, settings, e); Consistent(t) && t.selected == PickedSince(t.trail)
  {
    hide PickedSince, AfterTick;
    match e
    case Ticking(t) => TickStaysConsistent(s, settings, t);
    case Picking(name) => PickedOf(s.trail, Picked(name));
    case Disconnecting => PickedOf(s.trail, Ended);
    case _ => PickedOf(s.trail, Opened);
  }

  // The bookkeeping invariant over every run, with atomic operations: the
  // diagnostics match the credentials, and the selected-symbol cache holds
  // exactly the names picked in the current session.
  lemma {:induction false} SessionStaysConsistent(s: State, settings: Settings, events: seq<Event>)
    requires Consistent(s) && s.selected == PickedSince(s.trail)
    ensures var t := AfterAll(s, settings, events); Consistent(t) && t.selected == PickedSince(t.trail)
  {
    if events != [] {
      hide After, PickedSince;
      var earlier := events[..|events| - 1];
      SessionStaysConsistent(s, settings, earlier);
      StepStaysConsistent(AfterAll(s, settings, earlier), settings, events[|events| - 1]);
    }
  }

  // After a disconnect, with auto-attach off, the loop leaves the terminal and
  // the session alone, however often it runs.
  lemma {:induction false} QuietWithoutCredentials(s: State, settings: Settings, ticks: seq<Tick>)
    requires s.creds.None? && !settings.autoAttach
    ensures AfterTicks(s, settings, ticks) == s
  {
    if ticks != [] {
      QuietWithoutCredentials(s, settings, ticks[..|ticks| - 1]);
    }
  }

  // ---------------------------------------------------------------------
  // The reconnect loop: bounded bursts, and never giving up

  // Failed attempts at the end of the history with no success, new session or
  // cool-down among them.
  function Streak(trail: seq<Note>): nat {
    if trail == [] then 0
    else
      match trail[|trail| - 1]
      case Attempted(ok) => if ok then 0 else 1 + Streak(trail[..|trail| - 1])
      case Picked(_) => Streak(trail[..|trail| - 1])
      case _ => 0
  }

  predicate StreaksWithin(trail: seq<Note>, n: nat) {
    forall i :: 0 <= i <= |trail| ==> Streak(trail[..i]) <= n
  }

  predicate BurstBound(s: State, max: nat) {
    && s.attempts <= max
    && (s.connected ==> Streak(s.trail) == 0)
    && Streak(s.trail) <= (if s.attempts == max then 1 else s.attempts + 1)
    && StreaksWithin(s.trail, max + 1)
  }

  lemma StreaksGrow(trail: seq<Note>, note: Note, n: nat)
    requires StreaksWithin(trail, n) && Streak(trail + [note]) <= n
    ensures StreaksWithin(trail + [note], n)
  {
    forall i | 0 <= i <= |trail| + 1
      ensures Streak((trail + [note])[..i]) <= n
    {
      if i <= |trail| {
        assert (trail + [note])[..i] == trail[..i];
      } else {
        assert (trail + [note])[..i] == trail + [note];
      }
    }
  }

  lemma StreakOf(trail: seq<Note>, note: Note)
    ensures Streak(trail + [note]) == match note
              case Attempted(ok) => (if ok then 0 else 1 + Streak(trail))
              case Picked(_) => Streak(trail)
              case _ => 0
  {
    assert (trail + [note])[..|trail|] == trail;
  }

  lemma NoteKeepsStreaks(s: State, note: Note, max: nat)
    requires BurstBound(s, max) && max >= 1 && (note.Opened? || note.Ended? || note.Picked? || note.CooledDown?)
    ensures StreaksWithin(s.trail + [note], max + 1)
    ensures note.Picked? ==> Streak(s.trail + [note]) == Streak(s.trail)
    ensures !note.Picked? ==> Streak(s.trail + [note]) == 0
  {
    StreakOf(s.trail, note);
    StreaksGrow(s.trail, note, max + 1);
  }

  lemma AttemptKeepsStreaks(s: State, settings: Settings, r: Replies)
    requires s.attempts <= settings.maxAttempts && StreaksWithin(s.trail, settings.maxAttempts + 1)
    requires s.attempts < settings.maxAttempts ==> Streak(s.trail) <= s.attempts + 1
    ensures var t := AfterReconnect(s, settings, r);
            && t.attempts <= settings.maxAttempts
            && StreaksWithin(t.trail, settings.maxAttempts + 1)
            && (WillAttempt(s, settings) ==> t.attempts == s.attempts + 1 && Streak(t.trail) == if t.connected then 0 else 1 + Streak(s.trail))
            && (!WillAttempt(s, settings) ==> t == s)
  {
    if WillAttempt(s, settings) {
      var note := Attempted(Recovers(s.creds.value, r));
      StreakOf(s.trail, note);
      StreaksGrow(s.trail, note, settings.maxAttempts + 1);
    }
  }

  lemma TickKeepsBurstBound(s: State, settings: Settings, t: Tick)
    requires BurstBound(s, settings.maxAttempts) && settings.maxAttempts >= 1
    ensures BurstBound(AfterTick(s, settings, t), settings.maxAttempts)
  {
    hide StreaksWithin, Streak;
    var max := settings.maxAttempts;
    if s.creds.None? {
      NoteKeepsStreaks(s, Opened, max);
    } else if s.connected {
      AttemptKeepsStreaks(s.(calls := s.calls + 1, connected := false), settings, t.replies);
    } else if settings.reconnectEnabled && t.now >= s.cooldownUntil {
      var b := if s.attempts >= max then s.(attempts := 0) else s;
      AttemptKeepsStreaks(b, settings, t.replies);
      var r := AfterReconnect(b, settings, t.replies);
      StreakOf(r.trail, CooledDown);
      StreaksGrow(r.trail, CooledDown, max + 1);
    }
  }

  lemma StepKeepsBurstBound(s: State, settings: Settings, e: Event)
    requires BurstBound(s, settings.maxAttempts) && settings.maxAttempts >= 1
    ensures BurstBound(After(s, settings, e), settings.maxAttempts)
  {
    hide StreaksWithin, Streak, AfterTick;
    match e
    case Ticking(t) => TickKeepsBurstBound(s, settings, t);
    case Picking(name) => NoteKeepsStreaks(s, Picked(name), settings.maxAttempts);
    case Disconnecting => NoteKeepsStreaks(s, Ended, settings.maxAttempts);
    case _ => NoteKeepsStreaks(s, Opened, settings.maxAttempts);
  }

  // Over every run the attempt counter stays within the maximum, and never more
  // than one attempt beyond it fails in a row without a cool-down in between.
  lemma {:induction false} BurstsStayBounded(s: State, settings: Settings, events: seq<Event>)
    requires BurstBound(s, settings.maxAttempts) && settings.maxAttempts >= 1
    ensures BurstBound(AfterAll(s, settings, events), settings.maxAttempts)
  {
    hide BurstBound, After;
    if events != [] {
      var earlier, e := events[..|events| - 1], events[|events| - 1];
      BurstsStayBounded(s, settings, earlier);
      StepKeepsBurstBound(AfterAll(s, settings, earlier), settings, e);
    }
  }

  predicate Failing(t: Tick) {
    !t.replies.heartbeat && !t.replies.initialize
  }

  // k failed attempts into a burst that began with a failed heartbeat.
  predicate Burning(s: State, t: State, max: nat, k: nat) {
    && t.creds == s.creds && t.creds.Some? && !t.connected && t.cooldownUntil == s.cooldownUntil
    && Streak(t.trail) == k && t.attempts == if k == 1 then max else k - 1
  }

  lemma HeartbeatFailureStartsBurst(s: State, settings: Settings, t: Tick)
    requires settings.reconnectEnabled && settings.maxAttempts >= 1 && s.creds.Some? && s.connected
    requires s.attempts == settings.maxAttempts - 1 && Streak(s.trail) == 0 && Failing(t)
    ensures Burning(s, AfterTick(s, settings, t), settings.maxAttempts, 1)
  {
    hide Streak;
    StreakOf(s.trail, Attempted(false));
  }

  lemma FailingTickBurnsOn(s: State, u: State, settings: Settings, t: Tick, k: nat)
    requires settings.reconnectEnabled && 1 <= k <= settings.maxAttempts && Burning(s, u, settings.maxAttempts, k)
    requires Failing(t) && t.now >= s.cooldownUntil
    ensures k < settings.maxAttempts ==> Burning(s, AfterTick(u, settings, t), settings.maxAttempts, k + 1)
    ensures k == settings.maxAttempts ==>
              var trail := AfterTick(u, settings, t).trail;
              trail == u.trail + [Attempted(false), CooledDown] && Streak(u.trail + [Attempted(false)]) == settings.maxAttempts + 1
  {
    hide Streak, CoolDown;
    StreakOf(u.trail, Attempted(false));
    assert u.trail + [Attempted(false)] + [CooledDown] == u.trail + [Attempted(false), CooledDown];
  }

  // The bound is reached, whatever the maximum: one attempt from a failed
  // heartbeat, then a full burst, and only then a cool-down.
  lemma {:induction false} OneMoreThanTheMaximum(s: State, settings: Settings, ticks: seq<Tick>)
    requires settings.reconnectEnabled && settings.maxAttempts >= 1 && s.creds.Some? && s.connected
    requires s.attempts == settings.maxAttempts - 1 && Streak(s.trail) == 0
    requires 1 <= |ticks| <= settings.maxAttempts + 1
    requires forall t :: t in ticks ==> Failing(t) && t.now >= s.cooldownUntil
    ensures |ticks| <= settings.maxAttempts ==> Burning(s, AfterTicks(s, settings, ticks), settings.maxAttempts, |ticks|)
    ensures |ticks| == settings.maxAttempts + 1 ==>
              exists before :: AfterTicks(s, settings, ticks).trail == before + [CooledDown] && Streak(before) == settings.maxAttempts + 1
  {
    hide AfterTick;
    var earlier, t := ticks[..|ticks| - 1], ticks[|ticks| - 1];
    assert t in ticks;
    if earlier == [] {
      HeartbeatFailureStartsBurst(s, settings, t);
    } else {
      OneMoreThanTheMaximum(s, settings, earlier);
      var u := AfterTicks(s, settings, earlier);
      FailingTickBurnsOn(s, u, settings, t, |earlier|);
      assert u.trail + [Attempted(false), CooledDown] == (u.trail + [Attempted(false)]) + [CooledDown];
    }
  }

  // Recovery is never abandoned: a disconnected tick with credentials, reconnect
  // enabled and the cool-down over makes a real attempt, exactly when the
  // configured maximum is at least one.
  lemma TickAttemptsIff(s: State, settings: Settings, t: Tick)
    requires s.creds.Some? && !s.connected && settings.reconnectEnabled && t.now >= s.cooldownUntil
    ensures AfterTick(s, settings, t).calls > s.calls <==> settings.maxAttempts >= 1
  {
  }

  // The cool-down ends: it never reaches further than one cool-down past the
  // latest clock reading, so every later disconnected tick attempts again.
  lemma {:induction false} CoolDownIsFinite(s: State, settings: Settings, events: seq<Event>, latest: real)
    requires 0.0 <= latest && settings.interval > 0.0 && s.cooldownUntil <= latest + CoolDown(settings)
    requires forall e :: e in events && e.Ticking? ==> e.tick.later <= latest
    ensures AfterAll(s, settings, events).cooldownUntil <= latest + CoolDown(settings)
  {
    if events != [] {
      var earlier, e := events[..|events| - 1], events[|events| - 1];
      assert e in events;
      CoolDownIsFinite(s, settings, earlier, latest);
    }
  }

  lemma AttemptedAgainAfterCoolDown(s: State, settings: Settings, events: seq<Event>, latest: real, t: Tick)
    requires 0.0 <= latest && settings.interval > 0.0 && s.cooldownUntil <= latest + CoolDown(settings)
    requires forall e :: e in events && e.Ticking? ==> e.tick.later <= latest
    requires settings.reconnectEnabled && settings.maxAttempts >= 1 && t.now >= latest + CoolDown(settings)
    requires var u := AfterAll(s, settings, events); u.creds.Some? && !u.connected
    ensures var u := AfterAll(s, settings, events);
            && AfterTick(u, settings, t).calls > u.calls
            && (Recovers(u.creds.value, t.replies) ==> AfterTick(u, settings, t).connected)
  {
    CoolDownIsFinite(s, settings, events, latest);
    TickAttemptsIff(AfterAll(s, settings, events), settings, t);
  }

  // ---------------------------------------------------------------------
  // One pass, case by case

  // The terminal answers a reconnect: it logs in with a password, or reports the
  // account it is already logged in to.
  predicate Answers(password: string, r: Replies) {
    r.initialize && if password == "" then r.account.Some? else r.login
  }

  // A connected pass leaves a healthy session alone; on a failed heartbeat it
  // makes one attempt, if it may, and is connected afterwards exactly when that
  // succeeds.
  lemma HeartbeatPass(s: State, settings: Settings, t: Tick)
    requires s.creds.Some? && s.connected
    ensures var u := AfterTick(s, settings, t);
            && (t.replies.heartbeat ==> u == s.(calls := s.calls + 1))
            && (!t.replies.heartbeat ==>
                  var may := settings.reconnectEnabled && s.attempts < settings.maxAttempts;
                  && u.attempts == s.attempts + (if may then 1 else 0)
                  && (u.connected <==> may && Answers(s.creds.value.password, t.replies))
                  && u.cooldownUntil == s.cooldownUntil)
  {
  }

  // A disconnected pass during the cool-down, or with reconnect off, does nothing.
  // Otherwise it makes one attempt, the first of a new burst when the last burst is
  // used up, and cools down exactly when the burst ends without success.
  lemma RecoveryPass(s: State, settings: Settings, t: Tick)
    requires s.creds.Some? && !s.connected && settings.maxAttempts >= 1
    ensures var u := AfterTick(s, settings, t);
            if !settings.reconnectEnabled || t.now < s.cooldownUntil then u == s
            else
              && u.attempts == (if s.attempts >= settings.maxAttempts then 1 else s.attempts + 1)
              && (u.connected <==> Answers(s.creds.value.password, t.replies))
              && u.cooldownUntil == if u.connected then 0.0
                                    else if u.attempts >= settings.maxAttempts then t.later + CoolDown(settings)
                                    else s.cooldownUntil
  {
  }

  // The cool-down: a backoff for each attempt of a burst, and at least two
  // heartbeat intervals.
  lemma CoolDownMeans(settings: Settings)
    requires settings.maxAttempts >= 1
    ensures CoolDown(settings) >= settings.backoff * settings.maxAttempts as real && CoolDown(settings) >= settings.interval * 2.0
    ensures CoolDown(settings) == settings.backoff * settings.maxAttempts as real || CoolDown(settings) == settings.interval * 2.0
  {
  }

  // Without a session and with auto-attach on, a pass whose wait is over attaches
  // exactly when the terminal reports an account; otherwise it waits twice as long
  // as before, no less than the backoff and no more than a minute.
  lemma AttachPass(s: State, settings: Settings, t: Tick)
    requires s.creds.None?
    ensures var u := AfterTick(s, settings, t);
            if !settings.autoAttach || t.now < s.nextAttach then u == s
            else if t.replies.initialize && t.replies.account.Some? then
              && u.connected && u.mode == Attached && u.nextAttach == 0.0 && u.attachBackoff == settings.backoff
              && u.creds == Some(Creds(t.replies.account.value.login, "", t.replies.account.value.server, Attached))
            else
              && u.creds.None? && u.nextAttach == t.now + u.attachBackoff && u.attachBackoff <= 60.0
              && (settings.backoff <= 60.0 ==> u.attachBackoff >= settings.backoff)
              && (settings.backoff <= 2.0 * s.attachBackoff <= 60.0 ==> u.attachBackoff == 2.0 * s.attachBackoff)
  {
  }
}
