/** The login page (`/login`): the redirect on mount when a token is already
    stored, and what a submission does once the server has answered. */
module Login {
  import opened Base
  import opened Effects

  const SuccessNotice := "Login successful!"
  const RejectedFallback := "Login failed"
  const ThrownFallback := "Authentication failed"

  /** The mount effect: any non-empty stored token sends the browser to the
      dashboard. The token is not decoded and its expiry is not checked. */
  function MountRedirect(slot: Option<string>): (es: seq<Effect>)
    ensures es != [] <==> Truthy(slot)
    ensures forall e :: e in es ==> e == Redirect(HomePath, Replace)
  {
    if Truthy(slot) then [Redirect(HomePath, Replace)] else []
  }

  /** The parsed JSON body of the login response; either field may be missing. */
  datatype Body = Body(token: Option<string>, message: Option<string>)

  /** How the request ended: a response with its `ok` flag and body, or an
      error thrown by `fetch` or by parsing the body, with its message. */
  datatype Outcome = Responded(ok: bool, body: Body) | Threw(message: string)

  /** The form's state: the submit button's loading flag and the error text. */
  datatype Form = Form(isLoading: bool, error: string)

  /** `localStorage.setItem` stores the string form of its value: a missing
      token is stored as the text `undefined`. */
  function Stored(token: Option<string>): (text: string)
    ensures token.Some? ==> text == token.value
    ensures token.None? ==> text == "undefined"
  {
    token.GetOr("undefined")
  }

  /** `x || fallback` on an optional string. */
  function OrElse(x: Option<string>, fallback: string): string {
    if Truthy(x) then x.value else fallback
  }

  /** The message of the error the `catch` receives when the request did not
      succeed: a rejected response throws `data.message || 'Login failed'`. */
  function CaughtMessage(o: Outcome): (message: string)
    requires !(o.Responded? && o.ok)
    // a thrown error keeps its own message
    ensures o.Threw? ==> message == o.message
    // a rejected response never throws an empty message: the server's own
    // text when it sent one, the fallback otherwise
    ensures o.Responded? ==> message != ""
    ensures o.Responded? ==> (message == RejectedFallback <==> !Truthy(o.body.message) || o.body.message == Some(RejectedFallback))
    ensures o.Responded? && Truthy(o.body.message) ==> message == o.body.message.value
  {
    match o
    case Responded(_, body) => OrElse(body.message, RejectedFallback)
    case Threw(message) => message
  }

  /** `handleSubmit` before its request: loading on, error cleared. */
  function BeginSubmit(f: Form): (f': Form)
    ensures f'.isLoading && f'.error == ""
  {
    Form(true, "")
  }

  datatype Submitted = Submitted(effects: seq<Effect>, form: Form)

  /** `handleSubmit` after the request has ended. */
  function FinishSubmit(f: Form, o: Outcome): (s: Submitted)
    // the `finally`: loading always ends, the error text is left alone
    ensures s.form == f.(isLoading := false)
    // success: store the token, congratulate, go to the dashboard
    ensures o.Responded? && o.ok ==>
              s.effects == [SetToken(Stored(o.body.token)), Notify(Success, SuccessNotice), Redirect(HomePath, Push)]
    // failure: one error notification, and nothing else
    ensures !(o.Responded? && o.ok) ==> |s.effects| == 1 && s.effects[0].Notify? && s.effects[0].tone == Error
    ensures !(o.Responded? && o.ok) ==> s.effects[0].message != ""
  {
    match o
    case Responded(true, body) =>
      Submitted([SetToken(Stored(body.token)), Notify(Success, SuccessNotice), Redirect(HomePath, Push)],
                f.(isLoading := false))
    case _ =>
      Submitted([Notify(Error, OrElse(Some(CaughtMessage(o)), ThrownFallback))], f.(isLoading := false))
  }

  /** The failure notice: the server's message, else `Login failed` for a
      rejected response; the thrown message, else `Authentication failed`. */
  lemma FailureNotice(f: Form, o: Outcome)
    requires !(o.Responded? && o.ok)
    ensures var msg := FinishSubmit(f, o).effects[0].message;
            && (o.Responded? ==> msg == (if Truthy(o.body.message) then o.body.message.value else RejectedFallback))
            && (o.Threw? ==> msg == (if o.message != "" then o.message else ThrownFallback))
            && (msg == ThrownFallback ==> o.Threw? || o.body.message == Some(ThrownFallback))
  {
  }

  /** A submission is the only writer of the slot on this page: on success
      the slot holds the returned token, otherwise it is unchanged; no timer
      is touched either way. */
  lemma SubmitWritesOnlyOnSuccess(w: World, f: Form, o: Outcome)
    ensures var w' := Run(w, FinishSubmit(f, o).effects);
            && w'.slot == (if o.Responded? && o.ok then Some(Stored(o.body.token)) else w.slot)
            && w'.timers == w.timers
            && (o.Responded? && o.ok ==> w'.location == HomePath)
  {
    var es := FinishSubmit(f, o).effects;
    if o.Responded? && o.ok {
      var w1 := Apply(w, es[0]);
      var w2 := Apply(w1, es[1]);
      assert Run(w, es) == Run(w1, es[1..]);
      assert Run(w1, es[1..]) == Run(w2, es[2..]);
      assert Run(w2, es[2..]) == Run(Apply(w2, es[2]), []);
    } else {
      assert Run(w, es) == Run(Apply(w, es[0]), []);
    }
  }

  /** The loading flag is on exactly while a submission is outstanding. */
  lemma LoadingBracketsSubmission(f: Form, o: Outcome)
    ensures BeginSubmit(f).isLoading
    ensures !FinishSubmit(BeginSubmit(f), o).form.isLoading
    ensures FinishSubmit(BeginSubmit(f), o).form.error == ""
  {
  }
}
