/** What the dashboard page and the protected-route wrapper share: the
    notices and effects of their expired paths, the auto-logout callback, the
    ref holding the current logout timer, and the ownership invariant that
    keeps at most one logout timer pending per mounted guard. */
module Guard {
  import opened Base
  import opened Effects

  const ExpiredNotice := "Session expired. Please log in again."
  const LoggedOutNotice := "Session expired. You have been logged out."

  /** Found at mount: the stored token has lapsed or cannot be read. */
  function ExpiredAtMount(): (es: seq<Effect>)
    ensures forall e :: e in es ==> !e.TouchesTimers() && !e.SetToken?
  {
    [Notify(Error, ExpiredNotice), ClearToken, Redirect(LoginPath, Replace)]
  }

  /** The callback the logout timer runs when it fires. */
  function ExpiryLogout(): (es: seq<Effect>)
    ensures forall e :: e in es ==> !e.TouchesTimers() && !e.SetToken?
  {
    [Notify(Error, LoggedOutNotice), ClearToken, Redirect(LoginPath, Replace)]
  }

  /** Either list signs the user out: the slot is emptied and the browser is
      on the login page, with the list's own notice appended. */
  lemma SignsOut(w: World, es: seq<Effect>)
    requires es == ExpiredAtMount() || es == ExpiryLogout()
    ensures Run(w, es).slot == None
    ensures Run(w, es).location == LoginPath
    ensures Run(w, es).timers == w.timers
    ensures Run(w, es).toasts == w.toasts + [Toast(Error, if es == ExpiredAtMount() then ExpiredNotice else LoggedOutNotice)]
  {
    var w1 := Apply(w, es[0]);
    var w2 := Apply(w1, es[1]);
    var w3 := Apply(w2, es[2]);
    assert Run(w, es) == Run(w1, es[1..]);
    assert Run(w1, es[1..]) == Run(w2, es[2..]);
    assert Run(w2, es[2..]) == Run(w3, []);
  }

  /** The `useRef` that holds a guard's current logout timer, together with
      whether the guard's last effect run returned a cleanup function. */
  datatype TimerRef = TimerRef(current: Option<Handle>, cleanup: bool)

  const NoTimer := TimerRef(None, false)

  /** `if (logoutTimer.current) clearTimeout(logoutTimer.current)`. */
  function ClearCurrent(current: Option<Handle>): (es: seq<Effect>)
    // it clears the held timer, and touches nothing else
    ensures forall e :: e in es ==> current.Some? && e == CancelTimer(current.value)
    ensures current.Some? ==> CancelTimer(current.value) in es
  {
    if current.Some? then [CancelTimer(current.value)] else []
  }

  /** Clearing any previous timer, then arming the logout timer. */
  function Rearm(current: Option<Handle>, newId: Handle, delay: int): (es: seq<Effect>)
    ensures forall e :: e in es ==> !e.TouchesStorage() && !e.Notify? && !e.Redirect?
    ensures |es| > 0 && es[|es| - 1] == ArmTimer(newId, delay, ExpiryLogout())
    // everything before the arming cancels the held timer, and a held timer
    // is cancelled first
    ensures forall i :: 0 <= i < |es| - 1 ==> current.Some? && es[i] == CancelTimer(current.value)
    ensures current.Some? ==> es[0] == CancelTimer(current.value)
  {
    ClearCurrent(current) + [ArmTimer(newId, delay, ExpiryLogout())]
  }

  /** What running a cleanup does: its effects, and the ref afterwards. */
  datatype Undo = Undo(effects: seq<Effect>, next: TimerRef)

  /** The guard's effect cleanup: clears the current timer when the last run
      registered a cleanup; the ref itself keeps its (now stale) handle. */
  function Cleanup(t: TimerRef): (u: Undo)
    ensures u.next == t.(cleanup := false)
    ensures forall e :: e in u.effects ==> t.cleanup && t.current.Some? && e == CancelTimer(t.current.value)
    ensures t.cleanup && t.current.Some? ==> CancelTimer(t.current.value) in u.effects
  {
    Undo(if t.cleanup then ClearCurrent(t.current) else [], t.(cleanup := false))
  }

  /** A guard owns the world's timers: every pending timer is the logout timer
      its ref holds, and none is pending unless a cleanup is registered that
      will clear it. */
  predicate Owns(w: World, t: TimerRef) {
    && (forall h :: h in w.timers ==> t.current == Some(h) && w.timers[h].callback == ExpiryLogout())
    && (!t.cleanup ==> w.timers == map[])
  }

  /** An owning guard has at most one timer pending. */
  lemma OwnsAtMostOne(w: World, t: TimerRef)
    requires Owns(w, t)
    ensures |w.timers| <= 1
  {
    if t.current.Some? && t.current.value in w.timers {
      assert w.timers.Keys == {t.current.value};
    } else {
      assert w.timers.Keys == {};
    }
    assert |w.timers| == |w.timers.Keys|;
  }

  /** After the cleanup of an owning guard, no timer is pending. */
  lemma CleanupClearsAll(w: World, t: TimerRef)
    requires Owns(w, t)
    ensures Run(w, Cleanup(t).effects).timers == map[]
    ensures Owns(Run(w, Cleanup(t).effects), Cleanup(t).next)
    ensures Run(w, Cleanup(t).effects).slot == w.slot
  {
  }

  /** From a world with no pending timer, re-arming leaves exactly the new
      logout timer pending, whatever handle the ref still holds. */
  lemma RearmLeavesOne(w: World, current: Option<Handle>, newId: Handle, delay: int)
    requires w.timers == map[]
    ensures Run(w, Rearm(current, newId, delay)).timers == map[newId := Timer(delay, ExpiryLogout())]
    ensures Run(w, Rearm(current, newId, delay)).slot == w.slot
    ensures Owns(Run(w, Rearm(current, newId, delay)), TimerRef(Some(newId), true))
  {
  }

  /** Re-arming an owning guard, even with its previous timer still pending,
      replaces that timer: exactly the new logout timer is left pending. */
  lemma RearmReplacesOwned(w: World, current: Option<Handle>, cleanup: bool, newId: Handle, delay: int)
    requires Owns(w, TimerRef(current, cleanup))
    ensures Run(w, Rearm(current, newId, delay)).timers == map[newId := Timer(delay, ExpiryLogout())]
    ensures Owns(Run(w, Rearm(current, newId, delay)), TimerRef(Some(newId), true))
  {
  }

  /** Firing a timer keeps an owning guard owning; a pending one runs the
      logout callback. */
  lemma FireKeepsOwnership(w: World, t: TimerRef, h: Handle)
    requires Owns(w, t)
    ensures Owns(Fire(w, h), t)
    ensures h in w.timers ==> Fire(w, h) == Run(w.(timers := w.timers - {h}), ExpiryLogout())
  {
  }

  /** When the logout timer fires, the user is signed out: the slot is
      emptied, the "logged out" notice is shown and the browser is on the
      login page, and no timer is left pending. */
  lemma FiringSignsOut(w: World, t: TimerRef, h: Handle)
    requires Owns(w, t)
    requires h in w.timers
    ensures Fire(w, h).slot == None
    ensures Fire(w, h).location == LoginPath
    ensures Fire(w, h).toasts == w.toasts + [Toast(Error, LoggedOutNotice)]
    ensures Fire(w, h).timers == map[]
  {
    FireKeepsOwnership(w, t, h);
    SignsOut(w.(timers := w.timers - {h}), ExpiryLogout());
    assert w.timers.Keys == {h};
  }

  /** Once an owning guard has nothing pending, no firing has any effect. */
  lemma NothingLeftToFire(w: World, t: TimerRef, h: Handle)
    requires Owns(w, t) && !t.cleanup
    ensures Fire(w, h) == w
  {
  }
}
