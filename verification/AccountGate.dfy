// Execution account binding around the one terminal
// (app/application/services/account_execution_gate.py).
module AccountGate {
  import opened Wrappers

  // Users are named by their ids. One terminal login has at most one owner.
  datatype Gate = Gate(user: Option<nat>, login: int, hold: bool)

  datatype Event = Begin | Finish | Bind(user: nat, login: int) | Unbind(only: Option<nat>)

  datatype Session = Matched | NotConnected | Mismatch

  datatype Block = SwitchInProgress | SessionMismatch

  datatype Identity = Identity(user: nat, login: Option<int>)

  const OPEN := Gate(None, 0, false)

  // Another user's unbind is ignored.
  predicate Releases(g: Gate, releaser: Option<nat>) {
    releaser.None? || g.user.None? || releaser == g.user
  }

  function Do(g: Gate, e: Event): Gate {
    match e
    case Begin => g.(hold := true)
    case Finish => g.(hold := false)
    case Bind(u, l) => if l <= 1 then g else g.(user := Some(u), login := l)
    case Unbind(u) => if Releases(g, u) then g.(user := None, login := 0) else g
  }

  function Reached(g: Gate, events: seq<Event>): Gate {
    if events == [] then g else Do(Reached(g, events[..|events| - 1]), events[|events| - 1])
  }

  function Claimed(g: Gate, fallback: nat): Identity {
    if g.user.None? || g.login <= 1 then Identity(fallback, None) else Identity(g.user.value, Some(g.login))
  }

  function Classified(g: Gate, user: nat, owned: int, live: int): Session {
    if owned <= 1 || live <= 1 then NotConnected
    else if owned != live then Mismatch
    else if g.user.Some? && g.user.value != user then Mismatch
    else if g.login > 1 && g.login != owned then Mismatch
    else Matched
  }

  // The switch flag and the binding are read one after the other, under
  // separate acquisitions of the lock: `first` and `second` are those moments.
  function BlockedReason(first: Gate, second: Gate, user: nat, login: Option<int>): Option<Block> {
    if first.hold then Some(SwitchInProgress)
    else if second.user.None? || second.login <= 1 then None
    else if user != second.user.value then Some(SessionMismatch)
    else if login.Some? && login.value > 1 && login.value != second.login then Some(SessionMismatch)
    else None
  }

  // No user is bound exactly when the login is 0, and a bound login exceeds 1.
  predicate Kept(g: Gate) {
    (g.user.None? <==> g.login == 0) && (g.user.Some? ==> g.login > 1)
  }

  class ExecutionGate {
    var boundUser: Option<nat>
    var boundLogin: int
    var switchHold: bool

    ghost function View(): Gate
      reads this
    {
      Gate(boundUser, boundLogin, switchHold)
    }

    // No owner exactly when there is no login, and a bound login is a real one.
    ghost predicate Valid()
      reads this
    {
      Kept(View())
    }

    constructor ()
      ensures Valid() && View() == OPEN
    {
      boundUser, boundLogin, switchHold := None, 0, false;
    }

    method BeginAccountSwitch()
      requires Valid()
      modifies this
      ensures Valid() && View() == Do(old(View()), Begin)
    {
      switchHold := true;
    }

    method FinishAccountSwitch()
      requires Valid()
      modifies this
      ensures Valid() && View() == Do(old(View()), Finish)
    {
      switchHold := false;
    }

    method BindExecutionAccount(user: nat, login: int)
      requires Valid()
      modifies this
      ensures Valid() && View() == Do(old(View()), Bind(user, login))
    {
      if login <= 1 {
        return;
      }
      boundUser, boundLogin := Some(user), login;
    }

    method UnbindExecutionAccount(user: Option<nat>)
      requires Valid()
      modifies this
      ensures Valid() && View() == Do(old(View()), Unbind(user))
    {
      if user.Some? && boundUser.Some? && user != boundUser {
        return;
      }
      boundUser, boundLogin := None, 0;
    }

    // The owner of a bound terminal, else the caller; either may submit unless a
    // switch is open, and no other user could take the owner's place.
    method SubmitIdentity(fallback: nat) returns (id: Identity)
      requires Valid()
      ensures id == Claimed(View(), fallback)
      ensures BlockedReason(View(), View(), id.user, id.login) == if switchHold then Some(SwitchInProgress) else None
      ensures id.login.Some? <==> boundUser.Some?
      ensures boundUser.Some? ==> forall u: nat | u != id.user :: BlockedReason(View(), View(), u, id.login).Some?
      ensures boundUser.None? ==> id.user == fallback
    {
      if boundUser.None? || boundLogin <= 1 {
        return Identity(fallback, None);
      }
      return Identity(boundUser.value, Some(boundLogin));
    }

    // Matched exactly for a real login that is the live one and that the user
    // may submit under once no switch is open.
    method ClassifyAccountSession(user: nat, owned: int, live: int) returns (session: Session)
      requires Valid()
      ensures session == Classified(View(), user, owned, live)
      ensures session == Matched <==>
                1 < owned == live && BlockedReason(Do(View(), Finish), Do(View(), Finish), user, Some(owned)).None?
      ensures session == NotConnected <==> owned <= 1 || live <= 1
    {
      if owned <= 1 || live <= 1 {
        return NotConnected;
      }
      if owned != live {
        return Mismatch;
      }
      if boundUser.Some? && boundUser.value != user {
        return Mismatch;
      }
      if boundLogin > 1 && boundLogin != owned {
        return Mismatch;
      }
      return Matched;
    }

    // Blocked by a switch, or by an owner other than the submitter or bound to
    // another login; an unbound terminal blocks nobody.
    method SubmitBlockedReason(user: nat, login: Option<int>) returns (reason: Option<Block>)
      requires Valid()
      ensures reason == BlockedReason(View(), View(), user, login)
      ensures reason == Some(SwitchInProgress) <==> switchHold
      ensures reason.None? <==>
                && !switchHold
                && (boundUser.Some? ==> user == Claimed(View(), user).user && (login.Some? && login.value > 1 ==> login == Claimed(View(), user).login))
    {
      if switchHold {
        return Some(SwitchInProgress);
      }
      if boundUser.None? || boundLogin <= 1 {
        return None;
      }
      if user != boundUser.value {
        return Some(SessionMismatch);
      }
      var requested := if login.Some? then login.value else 0;
      if requested > 1 && requested != boundLogin {
        return Some(SessionMismatch);
      }
      return None;
    }
  }

  // ---------------------------------------------------------------------
  // The binding over every trace

  lemma {:induction false} TraceKeeps(g: Gate, events: seq<Event>)
    requires Kept(g)
    ensures Kept(Reached(g, events))
  {
    if events != [] {
      TraceKeeps(g, events[..|events| - 1]);
    }
  }

  // Ends the binding of `user`, by replacing or by releasing it.
  predicate Ends(e: Event, user: nat) {
    (e.Bind? && e.login > 1) || (e.Unbind? && (e.only.None? || e.only == Some(user)))
  }

  // Binds the user to the login at step i, and nothing ends that later.
  predicate BoundAt(events: seq<Event>, i: nat, user: nat, login: int) {
    && i < |events| && login > 1 && events[i] == Bind(user, login)
    && forall j :: i < j < |events| ==> !Ends(events[j], user)
  }

  // The gate is bound exactly to the last real bind that its owner, or nobody in
  // particular, has not released since.
  lemma {:induction false} BoundIffLastBind(events: seq<Event>, user: nat, login: int)
    ensures var g := Reached(OPEN, events);
            g.user == Some(user) && g.login == login <==> exists i: nat :: BoundAt(events, i, user, login)
  {
    if events != [] {
      var front, e := events[..|events| - 1], events[|events| - 1];
      BoundIffLastBind(front, user, login);
      TraceKeeps(OPEN, front);
      if exists i: nat :: BoundAt(front, i, user, login) {
        var i: nat :| BoundAt(front, i, user, login);
        if !Ends(e, user) {
          assert BoundAt(events, i, user, login);
        }
      }
      if e == Bind(user, login) && login > 1 {
        assert BoundAt(events, |front|, user, login);
      }
      if exists i: nat :: BoundAt(events, i, user, login) {
        var i: nat :| BoundAt(events, i, user, login);
        if i < |front| {
          assert front[i] == events[i];
          assert BoundAt(front, i, user, login);
        }
      }
    }
  }

  // The hold is up exactly when some switch began and none finished since.
  lemma {:induction false} HoldIffSwitchOpen(events: seq<Event>)
    ensures Reached(OPEN, events).hold <==>
            exists i :: 0 <= i < |events| && events[i] == Begin && forall j :: i < j < |events| ==> events[j] != Finish
  {
    if events != [] {
      var front, e := events[..|events| - 1], events[|events| - 1];
      HoldIffSwitchOpen(front);
      if Reached(OPEN, events).hold {
        if e == Begin {
          assert events[|front|] == Begin;
        } else {
          var i :| 0 <= i < |front| && front[i] == Begin && forall j :: i < j < |front| ==> front[j] != Finish;
          assert events[i] == Begin;
          assert forall j :: i < j < |events| ==> events[j] != Finish;
        }
      } else if e != Finish {
        assert forall i :: 0 <= i < |front| ==> front[i] == events[i];
      }
    }
  }

  // Nothing but a bind, the owner's unbind or an anonymous one moves a binding.
  lemma {:induction false} BindingSurvivesOthers(g: Gate, events: seq<Event>)
    requires g.user.Some?
    requires forall i :: 0 <= i < |events| ==> !Ends(events[i], g.user.value)
    ensures Reached(g, events).user == g.user && Reached(g, events).login == g.login
  {
    if events != [] {
      var front := events[..|events| - 1];
      assert forall i :: 0 <= i < |front| ==> front[i] == events[i];
      BindingSurvivesOthers(g, front);
      assert !Ends(events[|events| - 1], g.user.value);
    }
  }

  // ---------------------------------------------------------------------
  // Who may submit

  // Unblocked exactly when no switch is open and the owner, if there is one, is
  // the submitter and the login it names, if it names one, is the bound login.
  lemma UnblockedIff(events: seq<Event>, user: nat, login: Option<int>)
    ensures var g := Reached(OPEN, events);
            BlockedReason(g, g, user, login).None? <==>
              && !g.hold
              && (g.user.Some? ==> g.user.value == user && (login.Some? && login.value > 1 ==> login.value == g.login))
  {
    TraceKeeps(OPEN, events);
  }

  // Between taking the identity and checking it, events that neither open a
  // switch nor bind someone else leave an autonomous submit unblocked.
  lemma IdentityStaysUnblocked(before: seq<Event>, fallback: nat, after: seq<Event>)
    requires var g := Reached(OPEN, before); var id := Claimed(g, fallback);
             && !g.hold && forall i :: 0 <= i < |after| ==>
                  && after[i] != Begin
                  && (after[i].Bind? && after[i].login > 1 ==>
                        after[i].user == id.user && (id.login.Some? ==> after[i].login == id.login.value))
    ensures var g := Reached(OPEN, before); var id := Claimed(g, fallback); var h := Reached(g, after);
            BlockedReason(h, h, id.user, id.login).None?
  {
    TraceKeeps(OPEN, before);
    StaysWithin(Reached(OPEN, before), Claimed(Reached(OPEN, before), fallback), after);
  }

  lemma {:induction false} StaysWithin(g: Gate, id: Identity, after: seq<Event>)
    requires !g.hold && (g.user.Some? ==> g.user.value == id.user && (id.login.Some? ==> g.login == id.login.value))
    requires forall i :: 0 <= i < |after| ==>
               && after[i] != Begin
               && (after[i].Bind? && after[i].login > 1 ==>
                     after[i].user == id.user && (id.login.Some? ==> after[i].login == id.login.value))
    ensures var h := Reached(g, after);
            !h.hold && (h.user.Some? ==> h.user.value == id.user && (id.login.Some? ==> h.login == id.login.value))
  {
    if after != [] {
      var front := after[..|after| - 1];
      assert forall i :: 0 <= i < |front| ==> front[i] == after[i];
      StaysWithin(g, id, front);
    }
  }

  // A session classified as matched may submit under the classified login.
  lemma MatchedIsUnblocked(events: seq<Event>, user: nat, owned: int, live: int)
    requires var g := Reached(OPEN, events); !g.hold && Classified(g, user, owned, live) == Matched
    ensures var g := Reached(OPEN, events); BlockedReason(g, g, user, Some(owned)).None?
  {
    TraceKeeps(OPEN, events);
  }

  // With events between its two reads, an unblocked check still saw no switch at
  // the first and a matching owner at the second.
  lemma UnblockedAcrossReads(before: seq<Event>, between: seq<Event>, user: nat, login: Option<int>)
    ensures var first := Reached(OPEN, before); var second := Reached(first, between);
            BlockedReason(first, second, user, login).None? <==>
              && !first.hold
              && (second.user.Some? ==> second.user.value == user && (login.Some? && login.value > 1 ==> login.value == second.login))
  {
    TraceKeeps(OPEN, before);
    TraceKeeps(Reached(OPEN, before), between);
  }

  // A switch that begins between the two reads is missed.
  lemma SwitchBetweenReadsIsMissed(user: nat)
    ensures var second := Reached(OPEN, [Begin]);
            second.hold && BlockedReason(OPEN, second, user, None).None?
  {
    assert [Begin][..0] == [];
  }
}
