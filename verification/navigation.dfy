/** How the dashboard page and the login page hand the browser to each
    other through the shared token slot. */
module Navigation {
  import opened Base
  import opened Session
  import opened Effects
  import Guard
  import Dashboard
  import Login

  /** A live token without a role: the dashboard sends the browser to the
      login page but keeps the token, and the login page, which only checks
      that a token is present, sends it straight back to the dashboard. */
  lemma EmptyRoleBounces(decode: Decoder, w: World, checkNow: int, armNow: int, newId: Handle, p: Dashboard.Page)
    requires Evaluate(decode, w.slot, checkNow).Valid?
    requires GetRole(decode, w.slot) == ""
    ensures var st := Dashboard.RunEffect(decode, w.slot, checkNow, armNow, newId, p);
            var w' := Run(w, st.effects);
            && w'.location == LoginPath
            && w'.slot == w.slot
            && Login.MountRedirect(w'.slot) == [Redirect(HomePath, Replace)]
  {
  }

  /** A lapsed token does not bounce: the dashboard clears it, so the login
      page that the browser lands on stays put. */
  lemma ExpiredTokenSettles(decode: Decoder, w: World, checkNow: int, armNow: int, newId: Handle, p: Dashboard.Page)
    requires Evaluate(decode, w.slot, checkNow).Expired?
    ensures var w' := Run(w, Dashboard.RunEffect(decode, w.slot, checkNow, armNow, newId, p).effects);
            && w'.location == LoginPath
            && w'.slot == None
            && Login.MountRedirect(w'.slot) == []
  {
  }
}
