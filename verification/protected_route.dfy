/** The protected-route wrapper: its own copies of the expiry functions, its
    mount effect, and the `loading` gate that keeps its children hidden until
    the check has let them through. Unlike the dashboard page it never reads
    the role claim. */
module ProtectedRoute {
  import opened Base
  import Session
  import opened Effects
  import opened Guard

  /** The wrapper's own `getTokenExpiration`. */
  function GetTokenExpiration(decode: Session.Decoder, token: Option<string>): (ms: Option<int>)
    // a value is only ever read off a present, decodable token with a non-zero `exp`
    ensures ms.Some? ==>
              && Truthy(token) && decode(token.value).Some? && decode(token.value).value.exp.Some?
              && ms.value == decode(token.value).value.exp.value * 1000 && ms.value != 0
    ensures (Truthy(token) && decode(token.value).Some? && decode(token.value).value.exp.Some?
             && decode(token.value).value.exp.value != 0) ==> ms.Some?
  {
    if !Truthy(token) then None
    else
      match decode(token.value)
      case None => None
      case Some(decoded) =>
        if decoded.exp.None? || decoded.exp.value == 0 then None
        else Some(decoded.exp.value * 1000)
  }

  /** The wrapper's own `isTokenExpired`. */
  function IsTokenExpired(decode: Session.Decoder, token: Option<string>, now: int): (expired: bool)
    ensures !expired <==>
              GetTokenExpiration(decode, token).Some? && now < GetTokenExpiration(decode, token).value
  {
    var exp := GetTokenExpiration(decode, token);
    if exp.None? || exp.value == 0 then true
    else now >= exp.value
  }

  /** The two copies agree with the dashboard page's on every input. */
  lemma CopiesAgree(decode: Session.Decoder, token: Option<string>, now: int)
    ensures GetTokenExpiration(decode, token) == Session.GetTokenExpiration(decode, token)
    ensures IsTokenExpired(decode, token, now) == Session.IsTokenExpired(decode, token, now)
  {
  }

  /** The wrapper's state: `loading`, and the logout-timer ref. */
  datatype Route = Route(loading: bool, timer: TimerRef)

  const Initial := Route(true, NoTimer)

  /** `if (loading) return null`: children are rendered only once `loading`
      is false. */
  function RendersChildren(r: Route): (renders: bool)
    // the first render shows nothing
    ensures r == Initial ==> !renders
    ensures renders <==> !r.loading
  {
    !r.loading
  }

  datatype Step = Step(effects: seq<Effect>, next: Route)

  /** The body of the mount effect, with the clock read as `checkNow` by the
      expiry check and as `armNow` for the delay. */
  function RunEffect(decode: Session.Decoder, slot: Option<string>, checkNow: int, armNow: int, newId: Handle, r: Route)
    : (st: Step)
    // no token: a silent redirect; `loading` is unchanged
    ensures Session.Evaluate(decode, slot, checkNow).Absent? ==> st == Step([Redirect(LoginPath, Replace)], r)
    // a lapsed or unreadable token: notify, clear, redirect; `loading` is unchanged
    ensures Session.Evaluate(decode, slot, checkNow).Expired? ==> st == Step(ExpiredAtMount(), r)
    // a live token: the logout timer is re-armed for the expiry instant and
    // the children are let through
    ensures Session.Evaluate(decode, slot, checkNow).Valid? ==>
              st == Step(Rearm(r.timer.current, newId, Session.Evaluate(decode, slot, checkNow).expiresAtMs - armNow),
                         Route(false, TimerRef(Some(newId), true)))
    // `loading` is switched off exactly on the live path, and never back on
    ensures st.next.loading == (r.loading && !Session.Evaluate(decode, slot, checkNow).Valid?)
    ensures forall e :: e in st.effects ==> !e.SetToken?
  {
    if !Truthy(slot) then Step([Redirect(LoginPath, Replace)], r)
    else if IsTokenExpired(decode, slot, checkNow) then Step(ExpiredAtMount(), r)
    else
      var exp := GetTokenExpiration(decode, slot);
      if exp.Some? && exp.value != 0 then
        Step(Rearm(r.timer.current, newId, exp.value - armNow), Route(false, TimerRef(Some(newId), true)))
      else
        Step([], Route(false, r.timer.(cleanup := true)))
  }

  /** From the first render, the children appear exactly when the stored token
      is live at the check. */
  lemma RendersOnlyWhenLive(decode: Session.Decoder, slot: Option<string>, checkNow: int, armNow: int, newId: Handle)
    ensures RendersChildren(RunEffect(decode, slot, checkNow, armNow, newId, Initial).next)
            <==> !Session.IsTokenExpired(decode, slot, checkNow)
  {
  }

  /** The decision never depends on the role claim: removing every role claim
      changes nothing, so a live token without a role still lets the children
      through. */
  lemma IgnoresRole(decode: Session.Decoder, slot: Option<string>, checkNow: int, armNow: int, newId: Handle, r: Route)
    ensures RunEffect(Session.EraseRoles(decode), slot, checkNow, armNow, newId, r)
            == RunEffect(decode, slot, checkNow, armNow, newId, r)
  {
  }

  datatype Event =
    | Rerun(checkNow: int, armNow: int, newId: Handle)  // (re-)running the mount effect
    | Unmount
    | FireTimer(h: Handle)

  /** The browser and the wrapper together. */
  datatype State = State(world: World, route: Route)

  /** The wrapper and the browser after one event. React runs the previously
      registered cleanup before running the effect again, and on unmount. */
  function Transition(decode: Session.Decoder, w: World, r: Route, ev: Event): State {
    match ev
    case Rerun(checkNow, armNow, newId) =>
      var Undo(undo, t) := Cleanup(r.timer);
      var w0 := Run(w, undo);
      var st := RunEffect(decode, w0.slot, checkNow, armNow, newId, r.(timer := t));
      State(Run(w0, st.effects), st.next)
    case Unmount =>
      var Undo(undo, t) := Cleanup(r.timer);
      State(Run(w, undo), r.(timer := t))
    case FireTimer(h) => State(Fire(w, h), r)
  }

  /** Re-running the effect: the previous cleanup empties the timers, then the
      run either arms exactly one logout timer or arms none. */
  lemma RerunKeepsOwnership(decode: Session.Decoder, w: World, r: Route, checkNow: int, armNow: int, newId: Handle)
    requires Owns(w, r.timer)
    ensures var x := Transition(decode, w, r, Rerun(checkNow, armNow, newId));
            && Owns(x.world, x.route.timer)
            && (Session.Evaluate(decode, w.slot, checkNow).Valid? ==>
                  x.world.timers
                  == map[newId := Timer(Session.Evaluate(decode, w.slot, checkNow).expiresAtMs - armNow, ExpiryLogout())])
  {
    var t := Cleanup(r.timer).next;
    CleanupClearsAll(w, r.timer);
    var w0 := Run(w, Cleanup(r.timer).effects);
    var st := RunEffect(decode, w0.slot, checkNow, armNow, newId, r.(timer := t));
    assert Transition(decode, w, r, Rerun(checkNow, armNow, newId)) == State(Run(w0, st.effects), st.next);
    var v := Session.Evaluate(decode, w0.slot, checkNow);
    if v.Valid? {
      RearmLeavesOne(w0, t.current, newId, v.expiresAtMs - armNow);
    } else {
      assert st.next.timer == t;
      assert forall i :: 0 <= i < |st.effects| ==> !st.effects[i].TouchesTimers();
    }
  }

  /** Every event keeps the wrapper the sole owner of the pending timers;
      right after a run on a live token exactly its new logout timer is
      pending, and after unmount none is. */
  lemma TransitionKeepsOwnership(decode: Session.Decoder, w: World, r: Route, ev: Event)
    requires Owns(w, r.timer)
    ensures Owns(Transition(decode, w, r, ev).world, Transition(decode, w, r, ev).route.timer)
    ensures ev.Rerun? && Session.Evaluate(decode, w.slot, ev.checkNow).Valid? ==>
              Transition(decode, w, r, ev).world.timers
              == map[ev.newId := Timer(Session.Evaluate(decode, w.slot, ev.checkNow).expiresAtMs - ev.armNow, ExpiryLogout())]
    ensures ev.Unmount? ==> Transition(decode, w, r, ev).world.timers == map[]
  {
    match ev
    case Rerun(checkNow, armNow, newId) =>
      RerunKeepsOwnership(decode, w, r, checkNow, armNow, newId);
    case Unmount =>
      CleanupClearsAll(w, r.timer);
    case FireTimer(h) =>
      FireKeepsOwnership(w, r.timer, h);
  }

  /** The wrapper and the browser after a sequence of events. */
  function Replay(decode: Session.Decoder, w: World, r: Route, evs: seq<Event>): State
    decreases |evs|
  {
    if |evs| == 0 then State(w, r)
    else
      var x := Transition(decode, w, r, evs[0]);
      Replay(decode, x.world, x.route, evs[1..])
  }

  /** Over any history, at most one timer is pending, and once the children
      are shown they stay shown. */
  lemma {:induction false} ReplayKeepsOwnership(decode: Session.Decoder, w: World, r: Route, evs: seq<Event>)
    requires Owns(w, r.timer)
    ensures Owns(Replay(decode, w, r, evs).world, Replay(decode, w, r, evs).route.timer)
    ensures |Replay(decode, w, r, evs).world.timers| <= 1
    ensures RendersChildren(r) ==> RendersChildren(Replay(decode, w, r, evs).route)
    decreases |evs|
  {
    if |evs| == 0 {
      OwnsAtMostOne(w, r.timer);
    } else {
      TransitionKeepsOwnership(decode, w, r, evs[0]);
      var x := Transition(decode, w, r, evs[0]);
      ReplayKeepsOwnership(decode, x.world, x.route, evs[1..]);
    }
  }

  /** Replaying a history and then one more event is one more transition. */
  lemma {:induction false} ReplaySnoc(decode: Session.Decoder, w: World, r: Route, evs: seq<Event>, ev: Event)
    ensures Replay(decode, w, r, evs + [ev])
            == Transition(decode, Replay(decode, w, r, evs).world, Replay(decode, w, r, evs).route, ev)
    decreases |evs|
  {
    if |evs| == 0 {
      assert evs + [ev] == [ev];
    } else {
      assert (evs + [ev])[1..] == evs[1..] + [ev];
      var x := Transition(decode, w, r, evs[0]);
      ReplaySnoc(decode, x.world, x.route, evs[1..], ev);
    }
  }

  /** After unmount no logout timer of the wrapper can fire. */
  lemma NoLogoutAfterUnmount(decode: Session.Decoder, w: World, r: Route, evs: seq<Event>, h: Handle)
    requires Owns(w, r.timer)
    ensures var x := Replay(decode, w, r, evs + [Unmount]);
            x.world.timers == map[] && Fire(x.world, h) == x.world
  {
    ReplayKeepsOwnership(decode, w, r, evs);
    ReplaySnoc(decode, w, r, evs, Unmount);
    var x := Replay(decode, w, r, evs);
    TransitionKeepsOwnership(decode, x.world, x.route, Unmount);
  }
}
