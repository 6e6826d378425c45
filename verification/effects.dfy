/** What the pages do to the browser, as values: notifications, writes to the
    single `token` storage slot, navigation, and the arming and clearing of
    timers. `Run` interprets a list of effects against a world that holds the
    slot, the pending timers, the current location and the notifications. */
module Effects {
  import opened Base

  /** A timer id returned by `setTimeout`. Browser ids are positive, so a held
      handle is always truthy. */
  type Handle = h: nat | h > 0 witness 1

  /** `toast.success` or `toast.error`. */
  datatype Tone = Success | Error

  /** `router.replace` (no history entry) or `router.push`. */
  datatype Nav = Replace | Push

  datatype Effect =
    | Notify(tone: Tone, message: string)
    | ClearToken
    | SetToken(token: string)
    | Redirect(path: string, nav: Nav)
    | ArmTimer(handle: Handle, delay: int, callback: seq<Effect>)
    | CancelTimer(handle: Handle)
  {
    predicate TouchesStorage() {
      ClearToken? || SetToken?
    }

    predicate TouchesTimers() {
      ArmTimer? || CancelTimer?
    }
  }

  /** A timer that has been armed and has neither fired nor been cleared. */
  datatype Timer = Timer(delay: int, callback: seq<Effect>)

  datatype Toast = Toast(tone: Tone, message: string)

  datatype World = World(slot: Option<string>, timers: map<Handle, Timer>, location: string, toasts: seq<Toast>)

  const LoginPath := "/login"
  const HomePath := "/"

  function Apply(w: World, e: Effect): World {
    match e
    case Notify(tone, message) => w.(toasts := w.toasts + [Toast(tone, message)])
    case ClearToken => w.(slot := None)
    case SetToken(token) => w.(slot := Some(token))
    case Redirect(path, _) => w.(location := path)
    case ArmTimer(h, delay, callback) => w.(timers := w.timers[h := Timer(delay, callback)])
    // clearing an unknown, fired or already cleared handle does nothing
    case CancelTimer(h) => w.(timers := w.timers - {h})
  }

  /** Performs the effects in order. */
  function Run(w: World, es: seq<Effect>): (w': World)
    // only storage effects move the slot, only timer effects move the timers
    ensures (forall i :: 0 <= i < |es| ==> !es[i].TouchesStorage()) ==> w'.slot == w.slot
    ensures (forall i :: 0 <= i < |es| ==> !es[i].TouchesTimers()) ==> w'.timers == w.timers
    ensures (forall i :: 0 <= i < |es| ==> !es[i].Redirect?) ==> w'.location == w.location
    // notifications are only ever appended
    ensures |w.toasts| <= |w'.toasts| && w'.toasts[..|w.toasts|] == w.toasts
    decreases |es|
  {
    if |es| == 0 then w else Run(Apply(w, es[0]), es[1..])
  }

  /** Running two lists one after the other is running their concatenation. */
  lemma {:induction false} RunConcat(w: World, a: seq<Effect>, b: seq<Effect>)
    ensures Run(w, a + b) == Run(Run(w, a), b)
    decreases |a|
  {
    if |a| == 0 {
      assert a + b == b;
    } else {
      assert (a + b)[1..] == a[1..] + b;
      RunConcat(Apply(w, a[0]), a[1..], b);
    }
  }

  /** The browser firing the timer `h`: a pending timer is removed and its
      callback runs; a cleared or unknown handle fires nothing. */
  function Fire(w: World, h: Handle): (w': World)
    ensures h !in w.timers ==> w' == w
    ensures h in w.timers && (forall i :: 0 <= i < |w.timers[h].callback| ==> !w.timers[h].callback[i].TouchesTimers())
            ==> w'.timers == w.timers - {h}
  {
    if h in w.timers then Run(w.(timers := w.timers - {h}), w.timers[h].callback) else w
  }
}
