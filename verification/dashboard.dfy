/** The dashboard page (`/`): its mount effect, which checks the stored token,
    sets the role for the cards and arms the auto-logout timer, its effect
    cleanup, and its logout button. */
module Dashboard {
  import opened Base
  import opened Session
  import opened Effects
  import opened Guard

  /** The page's own state: the `role` state handed to the cards, and the
      logout-timer ref. */
  datatype Page = Page(role: string, timer: TimerRef)

  const Initial := Page("", NoTimer)

  /** One run of the mount effect: what it does, and the page state after. */
  datatype Step = Step(effects: seq<Effect>, next: Page)

  /** The redirect of a page without a usable session. */
  function ToLogin(): seq<Effect> {
    [Redirect(LoginPath, Replace)]
  }

  /** The body of the mount effect. The clock is read twice: `checkNow` by the
      expiry check, `armNow` for the timer delay; `newId` is the id the
      browser gives the new timer. */
  function RunEffect(decode: Decoder, slot: Option<string>, checkNow: int, armNow: int, newId: Handle, p: Page)
    : (st: Step)
    // no token: a silent redirect, nothing else
    ensures Evaluate(decode, slot, checkNow).Absent? ==> st == Step(ToLogin(), p)
    // a lapsed or unreadable token: notify, clear, redirect; no timer
    ensures Evaluate(decode, slot, checkNow).Expired? ==> st == Step(ExpiredAtMount(), p)
    // a live token: the role is published, an empty one bounces to the login
    // page without clearing the token, and the logout timer is re-armed for
    // the expiry instant
    ensures Evaluate(decode, slot, checkNow).Valid? ==>
              var v := Evaluate(decode, slot, checkNow);
              && st.next == Page(v.role, TimerRef(Some(newId), true))
              && st.effects == (if v.role == "" then ToLogin() else [])
                               + Rearm(p.timer.current, newId, v.expiresAtMs - armNow)
    // the guard never writes a credential
    ensures forall e :: e in st.effects ==> !e.SetToken?
  {
    if !Truthy(slot) then Step(ToLogin(), p)
    else if IsTokenExpired(decode, slot, checkNow) then Step(ExpiredAtMount(), p)
    else
      var userRole := GetRole(decode, slot);
      var bounce := if userRole == "" then ToLogin() else [];
      var exp := GetTokenExpiration(decode, slot);
      if exp.Some? && exp.value != 0 then
        Step(bounce + Rearm(p.timer.current, newId, exp.value - armNow), Page(userRole, TimerRef(Some(newId), true)))
      else
        Step(bounce, Page(userRole, p.timer.(cleanup := true)))
  }

  /** With a single clock reading, the timer delay is strictly positive; with
      two, it is positive unless the clock moved past the expiry instant in
      between. */
  lemma DelayIsPositive(decode: Decoder, slot: Option<string>, checkNow: int, armNow: int, newId: Handle, p: Page)
    requires Evaluate(decode, slot, checkNow).Valid?
    ensures var st := RunEffect(decode, slot, checkNow, armNow, newId, p);
            var arm := st.effects[|st.effects| - 1];
            && arm.ArmTimer?
            && arm.delay == GetTokenExpiration(decode, slot).value - armNow
            && arm.delay > checkNow - armNow
            && (checkNow == armNow ==> arm.delay > 0)
  {
  }

  /** A live token with an empty role: the page still redirects to the login
      page, but the token stays stored and the timer is still armed. */
  lemma EmptyRoleKeepsToken(decode: Decoder, slot: Option<string>, checkNow: int, armNow: int, newId: Handle, p: Page)
    requires Evaluate(decode, slot, checkNow).Valid?
    requires GetRole(decode, slot) == ""
    ensures var st := RunEffect(decode, slot, checkNow, armNow, newId, p);
            && Redirect(LoginPath, Replace) in st.effects
            && ClearToken !in st.effects
            && exists e :: e in st.effects && e.ArmTimer?
  {
  }

  /** `handleLogout`: the token is removed and the browser pushes `/login`.
      The timer is left to the effect cleanup that runs as the page unmounts. */
  function HandleLogout(): (es: seq<Effect>)
    ensures ClearToken in es && Redirect(LoginPath, Push) in es
    ensures forall e :: e in es ==> !e.TouchesTimers() && !e.SetToken? && !e.Notify?
  {
    [ClearToken, Redirect(LoginPath, Push)]
  }

  /** Logging out empties the slot and lands on the login page; the pending
      timers and the notifications are untouched. */
  lemma LogoutSignsOut(w: World)
    ensures Run(w, HandleLogout()).slot == None
    ensures Run(w, HandleLogout()).location == LoginPath
    ensures Run(w, HandleLogout()).timers == w.timers
    ensures Run(w, HandleLogout()).toasts == w.toasts
  {
  }

  /** What happens to the page and the browser, one event at a time. */
  datatype Event =
    | Rerun(checkNow: int, armNow: int, newId: Handle)  // (re-)running the mount effect
    | Unmount
    | FireTimer(h: Handle)
    | Logout

  /** The browser and the page together. */
  datatype State = State(world: World, page: Page)

  /** The page and the browser after one event. React runs the previously
      registered cleanup before running the effect again, and on unmount. */
  function Transition(decode: Decoder, w: World, p: Page, ev: Event): State {
    match ev
    case Rerun(checkNow, armNow, newId) =>
      var Undo(undo, t) := Cleanup(p.timer);
      var w0 := Run(w, undo);
      var st := RunEffect(decode, w0.slot, checkNow, armNow, newId, p.(timer := t));
      State(Run(w0, st.effects), st.next)
    case Unmount =>
      var Undo(undo, t) := Cleanup(p.timer);
      State(Run(w, undo), p.(timer := t))
    case FireTimer(h) => State(Fire(w, h), p)
    case Logout => State(Run(w, HandleLogout()), p)
  }

  /** Every event keeps the page the sole owner of the pending timers; right
      after a run on a live token exactly its new logout timer is pending, and
      after unmount none is. */
  lemma TransitionKeepsOwnership(decode: Decoder, w: World, p: Page, ev: Event)
    requires Owns(w, p.timer)
    ensures Owns(Transition(decode, w, p, ev).world, Transition(decode, w, p, ev).page.timer)
    ensures ev.Rerun? && Evaluate(decode, w.slot, ev.checkNow).Valid? ==>
              Transition(decode, w, p, ev).world.timers
              == map[ev.newId := Timer(Evaluate(decode, w.slot, ev.checkNow).expiresAtMs - ev.armNow, ExpiryLogout())]
    ensures ev.Unmount? ==> Transition(decode, w, p, ev).world.timers == map[] && !Transition(decode, w, p, ev).page.timer.cleanup
  {
    match ev
    case Rerun(checkNow, armNow, newId) =>
      RerunKeepsOwnership(decode, w, p, checkNow, armNow, newId);
    case Unmount =>
      CleanupClearsAll(w, p.timer);
    case FireTimer(h) =>
      FireKeepsOwnership(w, p.timer, h);
    case Logout =>
  }

  /** Re-running the effect: the previous cleanup empties the timers, then the
      run either arms exactly one logout timer or arms none. */
  lemma RerunKeepsOwnership(decode: Decoder, w: World, p: Page, checkNow: int, armNow: int, newId: Handle)
    requires Owns(w, p.timer)
    ensures var r := Transition(decode, w, p, Rerun(checkNow, armNow, newId));
            && Owns(r.world, r.page.timer)
            && (Evaluate(decode, w.slot, checkNow).Valid? ==>
                  r.world.timers == map[newId := Timer(Evaluate(decode, w.slot, checkNow).expiresAtMs - armNow, ExpiryLogout())])
  {
    var t := Cleanup(p.timer).next;
    CleanupClearsAll(w, p.timer);
    var w0 := Run(w, Cleanup(p.timer).effects);
    var st := RunEffect(decode, w0.slot, checkNow, armNow, newId, p.(timer := t));
    assert Transition(decode, w, p, Rerun(checkNow, armNow, newId)) == State(Run(w0, st.effects), st.next);
    if Evaluate(decode, w0.slot, checkNow).Valid? {
      RunLive(decode, w0, t, p.role, checkNow, armNow, newId);
    } else {
      RunDead(decode, w0, t, p.role, checkNow, armNow, newId);
    }
  }

  /** A run on a live token, from a world with nothing pending. */
  lemma RunLive(decode: Decoder, w0: World, t: TimerRef, role: string, checkNow: int, armNow: int, newId: Handle)
    requires w0.timers == map[]
    requires Evaluate(decode, w0.slot, checkNow).Valid?
    ensures var st := RunEffect(decode, w0.slot, checkNow, armNow, newId, Page(role, t));
            && Owns(Run(w0, st.effects), st.next.timer)
            && Run(w0, st.effects).timers
               == map[newId := Timer(Evaluate(decode, w0.slot, checkNow).expiresAtMs - armNow, ExpiryLogout())]
  {
    var v := Evaluate(decode, w0.slot, checkNow);
    var st := RunEffect(decode, w0.slot, checkNow, armNow, newId, Page(role, t));
    var bounce := if v.role == "" then ToLogin() else [];
    var arm := Rearm(t.current, newId, v.expiresAtMs - armNow);
    assert st.effects == bounce + arm;
    RunConcat(w0, bounce, arm);
    assert forall i :: 0 <= i < |bounce| ==> bounce[i] == Redirect(LoginPath, Replace);
    RearmLeavesOne(Run(w0, bounce), t.current, newId, v.expiresAtMs - armNow);
  }

  /** A run on an absent or lapsed token arms nothing. */
  lemma RunDead(decode: Decoder, w0: World, t: TimerRef, role: string, checkNow: int, armNow: int, newId: Handle)
    requires w0.timers == map[] && !t.cleanup
    requires !Evaluate(decode, w0.slot, checkNow).Valid?
    ensures var st := RunEffect(decode, w0.slot, checkNow, armNow, newId, Page(role, t));
            Owns(Run(w0, st.effects), st.next.timer)
  {
  }

  /** The page and the browser after a sequence of events. */
  function Replay(decode: Decoder, w: World, p: Page, evs: seq<Event>): State
    decreases |evs|
  {
    if |evs| == 0 then State(w, p)
    else
      var r := Transition(decode, w, p, evs[0]);
      Replay(decode, r.world, r.page, evs[1..])
  }

  /** Over any history of re-runs, firings, logouts and unmounts, the page
      holds at most one pending timer, and it is always its own logout timer. */
  lemma {:induction false} ReplayKeepsOwnership(decode: Decoder, w: World, p: Page, evs: seq<Event>)
    requires Owns(w, p.timer)
    ensures Owns(Replay(decode, w, p, evs).world, Replay(decode, w, p, evs).page.timer)
    ensures |Replay(decode, w, p, evs).world.timers| <= 1
    decreases |evs|
  {
    if |evs| == 0 {
      OwnsAtMostOne(w, p.timer);
    } else {
      TransitionKeepsOwnership(decode, w, p, evs[0]);
      var r := Transition(decode, w, p, evs[0]);
      ReplayKeepsOwnership(decode, r.world, r.page, evs[1..]);
    }
  }

  /** Replaying a history and then one more event is one more transition. */
  lemma {:induction false} ReplaySnoc(decode: Decoder, w: World, p: Page, evs: seq<Event>, ev: Event)
    ensures Replay(decode, w, p, evs + [ev])
            == Transition(decode, Replay(decode, w, p, evs).world, Replay(decode, w, p, evs).page, ev)
    decreases |evs|
  {
    if |evs| == 0 {
      assert evs + [ev] == [ev];
    } else {
      assert (evs + [ev])[1..] == evs[1..] + [ev];
      var r := Transition(decode, w, p, evs[0]);
      ReplaySnoc(decode, r.world, r.page, evs[1..], ev);
    }
  }

  /** Once the page has unmounted, no logout timer of it can fire: whatever
      the history, every firing afterwards changes nothing. */
  lemma NoLogoutAfterUnmount(decode: Decoder, w: World, p: Page, evs: seq<Event>, h: Handle)
    requires Owns(w, p.timer)
    ensures var r := Replay(decode, w, p, evs + [Unmount]);
            r.world.timers == map[] && Fire(r.world, h) == r.world
  {
    ReplayKeepsOwnership(decode, w, p, evs);
    ReplaySnoc(decode, w, p, evs, Unmount);
    var r := Replay(decode, w, p, evs);
    TransitionKeepsOwnership(decode, r.world, r.page, Unmount);
  }

  /** From the first mount, in a world with no pending timer, every history
      keeps the page the sole owner of at most one pending logout timer. */
  lemma FromMount(decode: Decoder, w: World, evs: seq<Event>)
    requires w.timers == map[]
    ensures Owns(Replay(decode, w, Initial, evs).world, Replay(decode, w, Initial, evs).page.timer)
    ensures |Replay(decode, w, Initial, evs).world.timers| <= 1
  {
    ReplayKeepsOwnership(decode, w, Initial, evs);
  }
}
