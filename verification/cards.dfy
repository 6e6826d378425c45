/** The dashboard cards: which cards a role sees, the URL each card fetches,
    the modal's state as cards are clicked and closed, the edit and delete
    permissions on the three resource lists, and the label of the edit and
    delete actions. */
module Cards {
  import opened Base

  const Admin := "Admin"
  const Editor := "Editor"

  // ----- the permission checks, one per call site -----

  // Each check is the permission matrix's entry for its resource and action.

  function CanEditOrder(role: string): (ok: bool)
    ensures ok == Can(role, Order, Edit)
  { role == Admin || role == Editor }

  function CanDeleteOrder(role: string): (ok: bool)
    ensures ok == Can(role, Order, Delete)
  { role == Admin }

  function CanEditUser(role: string): (ok: bool)
    ensures ok == Can(role, User, Edit)
  { role == Admin || role == Editor }

  function CanDeleteUser(role: string): (ok: bool)
    ensures ok == Can(role, User, Delete)
  { role == Admin }

  function CanEditRider(role: string): (ok: bool)
    ensures ok == Can(role, Rider, Edit)
  { role == Admin || role == Editor }

  function CanDeleteRider(role: string): (ok: bool)
    ensures ok == Can(role, Rider, Delete)
  { role == Admin }

  // ----- the same rules as one matrix -----

  /** The three resources whose lists carry edit and delete buttons. */
  datatype Resource = Order | User | Rider

  datatype Action = View | Edit | Delete

  /** The permission matrix: every role may view the three lists, editors and
      admins may edit, only admins may delete. */
  function Can(role: string, resource: Resource, action: Action): (allowed: bool)
    ensures role == Admin ==> allowed
    ensures action == Delete && allowed ==> role == Admin
    ensures action == Edit && allowed ==> role == Admin || role == Editor
    ensures role == Editor ==> (allowed <==> action != Delete)
  {
    match action
    case View => true
    case Edit => role == Admin || role == Editor
    case Delete => role == Admin
  }

  /** The matrix does not depend on the resource. */
  lemma SameForEveryResource(role: string, a: Resource, b: Resource, action: Action)
    ensures Can(role, a, action) == Can(role, b, action)
  {
  }

  /** Whoever may delete may also edit. */
  lemma DeleteImpliesEdit(role: string, resource: Resource)
    ensures Can(role, resource, Delete) ==> Can(role, resource, Edit)
  {
  }

  /** Any role other than the two named ones, the empty role included, may
      only view. */
  lemma OtherRolesOnlyView(role: string, resource: Resource)
    requires role != Admin && role != Editor
    ensures Can(role, resource, View)
    ensures !Can(role, resource, Edit) && !Can(role, resource, Delete)
  {
  }

  // ----- the cards -----

  datatype Card = Card(key: string, title: string, adminOnly: bool)

  const CardData: seq<Card> := [
    Card("orders", "Orders", false),
    Card("riders", "Riders", false),
    Card("settings", "Settings", true),
    Card("users", "Users", false)
  ]

  /** A card is hidden exactly when it is admin-only and the role is not Admin. */
  function Shown(card: Card, role: string): (shown: bool)
    // Admin sees every card, and every role sees the cards open to all
    ensures role == Admin ==> shown
    ensures !card.adminOnly ==> shown
    ensures card.adminOnly && role != Admin ==> !shown
  {
    !(card.adminOnly && role != Admin)
  }

  /** The cards rendered for `role`, in their declared order. */
  function Visible(cards: seq<Card>, role: string): (shown: seq<Card>)
    // exactly the cards the role may see
    ensures forall c :: c in shown <==> c in cards && Shown(c, role)
    ensures |shown| <= |cards|
    // nothing is dropped when nothing is hidden
    ensures (forall i :: 0 <= i < |cards| ==> Shown(cards[i], role)) ==> shown == cards
    decreases |cards|
  {
    if |cards| == 0 then []
    else if Shown(cards[0], role) then [cards[0]] + Visible(cards[1..], role)
    else Visible(cards[1..], role)
  }

  /** Filtering a list is filtering its parts: the filter keeps the relative
      order of the cards and neither repeats nor adds any. */
  lemma {:induction false} VisibleConcat(a: seq<Card>, b: seq<Card>, role: string)
    ensures Visible(a + b, role) == Visible(a, role) + Visible(b, role)
    decreases |a|
  {
    if |a| == 0 {
      assert a + b == b;
    } else {
      assert (a + b)[0] == a[0];
      assert (a + b)[1..] == a[1..] + b;
      VisibleConcat(a[1..], b, role);
    }
  }

  /** Admin sees all four cards; every other role sees all but Settings, in
      the declared order. */
  lemma VisibleCardData(role: string)
    ensures role == Admin ==> Visible(CardData, role) == CardData
    ensures role != Admin ==> Visible(CardData, role) == [CardData[0], CardData[1], CardData[3]]
  {
  }

  /** The keys of the three resources' cards. */
  function KeyOf(resource: Resource): string {
    match resource
    case Order => "orders"
    case User => "users"
    case Rider => "riders"
  }

  /** Viewing is granted exactly where the resource's card is visible. */
  lemma ViewMatchesCards(role: string, resource: Resource)
    ensures Can(role, resource, View)
            <==> exists c :: c in Visible(CardData, role) && c.key == KeyOf(resource)
  {
  }

  // ----- fetching a card's details -----

  /** The keys `fetchDetails` knows. */
  const ResourceKeys := {"orders", "users", "settings", "riders"}

  /** The URL `fetchDetails` requests for a key, `None` when it returns `null`
      without a request. `base` is the configured API base URL. */
  function FetchUrl(base: string, key: string): (url: Option<string>)
    ensures url.Some? <==> key in ResourceKeys
    ensures url.Some? ==> url.value == base + "/" + key
  {
    if key == "orders" then Some(base + "/orders")
    else if key == "users" then Some(base + "/users")
    else if key == "settings" then Some(base + "/settings")
    else if key == "riders" then Some(base + "/riders")
    else None
  }

  /** Different keys request different URLs. */
  lemma FetchUrlInjective(base: string, k1: string, k2: string)
    requires FetchUrl(base, k1).Some? && FetchUrl(base, k1) == FetchUrl(base, k2)
    ensures k1 == k2
  {
    assert (base + "/" + k1)[|base| + 1..] == k1;
    assert (base + "/" + k2)[|base| + 1..] == k2;
  }

  /** Every card requests one. */
  lemma EveryCardFetches(base: string, card: Card)
    requires card in CardData
    ensures FetchUrl(base, card.key).Some?
  {
  }

  // ----- the details modal -----

  /** Payloads are opaque to the model. */
  datatype Payload = Payload(json: string)

  datatype Modal = Modal(selected: Option<string>, details: Option<Payload>, loading: bool, error: string)

  const Closed := Modal(None, None, false, "")

  /** A click: the modal state right after the click, and the request it
      starts (`None` when it starts none). */
  datatype Click = Click(next: Modal, request: Option<string>)

  /** `handleCardClick` up to its `await`. */
  function ClickCard(base: string, role: string, m: Modal, key: string, adminOnly: bool): (c: Click)
    // an admin-only card clicked by anyone else changes nothing
    ensures adminOnly && role != Admin ==> c == Click(m, None)
    // otherwise the modal opens on the key, loading, with no stale data or error
    ensures !(adminOnly && role != Admin) ==>
              c.next == Modal(Some(key), None, true, "") && c.request == FetchUrl(base, key)
  {
    if adminOnly && role != Admin then Click(m, None)
    else Click(Modal(Some(key), None, true, ""), FetchUrl(base, key))
  }

  /** How a started request ended. */
  datatype Reply = Fetched(data: Payload) | Threw

  const FetchError := "Failed to fetch details"

  /** `handleCardClick` after its `await`: a key without a URL yields `null`
      details, a reply fills them in, a failure sets the error; in every case
      loading ends. */
  function Settle(m: Modal, request: Option<string>, reply: Reply): (m': Modal)
    ensures !m'.loading && m'.selected == m.selected
    ensures request.None? ==> m' == m.(details := None, loading := false)
    ensures request.Some? && reply.Fetched? ==> m' == m.(details := Some(reply.data), loading := false)
    ensures request.Some? && reply.Threw? ==> m' == m.(error := FetchError, loading := false)
  {
    if request.None? then m.(details := None, loading := false)
    else
      match reply
      case Fetched(data) => m.(details := Some(data), loading := false)
      case Threw => m.(error := FetchError, loading := false)
  }

  /** A card the role can see always ends with the modal showing its key and
      no longer loading, with either the data or the fixed error. */
  lemma ClickThenSettle(base: string, role: string, m: Modal, card: Card, reply: Reply)
    requires card in CardData && Shown(card, role)
    ensures var c := ClickCard(base, role, m, card.key, card.adminOnly);
            var m' := Settle(c.next, c.request, reply);
            && m'.selected == Some(card.key) && !m'.loading
            && (reply.Fetched? ==> m'.details == Some(reply.data) && m'.error == "")
            && (reply.Threw? ==> m'.details == None && m'.error == FetchError)
  {
  }

  /** `handleClose`: the modal closes and forgets its data and error; the
      loading flag is left as it is. */
  function Close(m: Modal): (m': Modal)
    ensures m'.selected.None? && m'.details.None? && m'.error == ""
    ensures m'.loading == m.loading
  {
    m.(selected := None, details := None, error := "")
  }

  /** Once settled, closing returns the modal to its initial state. */
  lemma CloseAfterSettle(m: Modal, request: Option<string>, reply: Reply)
    ensures Close(Settle(m, request, reply)) == Closed
  {
  }

  // ----- the edit and delete buttons -----

  /** The controls a list row shows. */
  datatype Controls = Controls(edit: bool, delete: bool)

  /** The buttons on the rows of the open modal, by its selected key. The
      settings panel has no rows. */
  function RowControls(role: string, selected: string): (c: Controls)
    ensures selected !in {"orders", "users", "riders"} ==> c == Controls(false, false)
  {
    if selected == "orders" then Controls(CanEditOrder(role), CanDeleteOrder(role))
    else if selected == "users" then Controls(CanEditUser(role), CanDeleteUser(role))
    else if selected == "riders" then Controls(CanEditRider(role), CanDeleteRider(role))
    else Controls(false, false)
  }

  /** The buttons a list shows are the matrix entries for its resource. */
  lemma ControlsFollowMatrix(role: string, resource: Resource)
    ensures RowControls(role, KeyOf(resource))
            == Controls(Can(role, resource, Edit), Can(role, resource, Delete))
  {
  }

  /** `selected?.slice(0, -1)`: the selected key without its last character
      (`undefined` when nothing is selected). */
  function ItemLabel(selected: Option<string>): (name: Option<string>)
    ensures selected.None? <==> name.None?
    // the name is the key less exactly its last character
    ensures selected.Some? && selected.value != "" ==>
              name.value + [selected.value[|selected.value| - 1]] == selected.value
    ensures selected == Some("") ==> name == Some("")
  {
    match selected
    case None => None
    case Some(key) => if |key| == 0 then Some("") else Some(key[..|key| - 1])
  }

  /** The singular name of a resource, as the matrix calls it. */
  function Singular(resource: Resource): string {
    match resource
    case Order => "order"
    case User => "user"
    case Rider => "rider"
  }

  /** On each resource's list the label is the singular resource name. */
  lemma LabelIsSingular(resource: Resource)
    ensures ItemLabel(Some(KeyOf(resource))) == Some(Singular(resource))
    ensures KeyOf(resource) == Singular(resource) + "s"
  {
  }
}
