/** The grid of scrim cards (components/scrims-grid.tsx): which list it shows,
    what each card's badge and action button say, and the bookkeeping of the
    "apply" button (`applyingTo`, `appliedScrims`). */
module ScrimsGrid {
  import opened Types

  // ---------- items ----------

  /** An element of the list being rendered: a plain scrim (dashboard) or an
      entry of "my scrims". */
  datatype GridItem = ScrimItem(scrim: Scrim) | ResponseItem(response: MyScrimResponse)

  /** `myScrimsData ? myScrimsData : scrims`: an array, even an empty one, is
      truthy, so a given `myScrimsData` always wins. */
  function SelectItems(scrims: Option<seq<Scrim>>, myScrimsData: Option<seq<MyScrimResponse>>): (r: Option<seq<GridItem>>)
    ensures myScrimsData.Some? ==> r.Some? && |r.value| == |myScrimsData.value|
    ensures myScrimsData.Some? ==> forall i :: 0 <= i < |r.value| ==> r.value[i].ResponseItem? && r.value[i].response == myScrimsData.value[i]
    ensures myScrimsData.None? ==> (r.Some? <==> scrims.Some?)
    ensures myScrimsData.None? && scrims.Some? ==> |r.value| == |scrims.value|
    ensures myScrimsData.None? && scrims.Some? ==> forall i :: 0 <= i < |r.value| ==> r.value[i].ScrimItem? && r.value[i].scrim == scrims.value[i]
  {
    match myScrimsData
    case Some(data) => Some(seq(|data|, i requires 0 <= i < |data| => ResponseItem(data[i])))
    case None =>
      match scrims
      case Some(list) => Some(seq(|list|, i requires 0 <= i < |list| => ScrimItem(list[i])))
      case None => None
  }

  /** The scrim an item stands for: its `.scrim` when it has one, else itself. */
  function ItemScrim(item: GridItem): (r: Scrim)
    ensures item.ScrimItem? ==> r == item.scrim
    ensures item.ResponseItem? ==> r == item.response.scrim
  {
    match item
    case ScrimItem(s) => s
    case ResponseItem(r) => r.scrim
  }

  /** `item.postulationState || null`: only the `postulationState` spelling is read. */
  function ItemPostulation(item: GridItem): (r: Option<PostulationState>)
    ensures item.ScrimItem? ==> r.None?
    ensures item.ResponseItem? ==> r == item.response.postulationState
  {
    match item
    case ScrimItem(_) => None
    case ResponseItem(r) => r.postulationState
  }

  // ---------- the card ----------

  /** Whether the signed-in user organises the scrim; nobody owns anything
      while signed out. */
  predicate IsOwner(currentUser: Option<User>, scrim: Scrim)
    ensures currentUser.None? ==> !IsOwner(currentUser, scrim)
  {
    currentUser.Some? && currentUser.value.id == scrim.organizadorId
  }

  /** Whether the user counts as applied: in this session, or through a
      pending or accepted application. A rejected application does not count. */
  predicate HasApplied(appliedScrims: set<string>, id: string, postulation: Option<PostulationState>)
    ensures id in appliedScrims ==> HasApplied(appliedScrims, id, postulation)
    ensures postulation == Some(PENDIENTE) || postulation == Some(ACEPTADA) ==> HasApplied(appliedScrims, id, postulation)
    ensures postulation.None? || postulation == Some(RECHAZADA) ==>
      (HasApplied(appliedScrims, id, postulation) <==> id in appliedScrims)
  {
    id in appliedScrims || postulation == Some(PENDIENTE) || postulation == Some(ACEPTADA)
  }

  /** The card's footer: the owner's "Administrar" link, or the apply button. */
  datatype CardAction = Administer | ApplyButton(text: string, disabled: bool)

  const ApplyLabel: string := "Postularse"
  const AppliedLabel: string := "¡Postulado!"
  const ApplyingLabel: string := "Postulando..."
  const ClosedLabel: string := "Cerrado"

  /** The first-match cascade over owner, applied, applying and scrim state. */
  function Action(isOwner: bool, hasApplied: bool, postulation: Option<PostulationState>,
                  isApplying: bool, estado: ScrimState): (a: CardAction)
    ensures a.Administer? <==> isOwner
    ensures a == ApplyButton(ApplyLabel, false) <==> !isOwner && !hasApplied && !isApplying && estado == BUSCANDO
    ensures a.ApplyButton? && a.disabled <==> !isOwner && (hasApplied || isApplying || estado != BUSCANDO)
    ensures !isOwner && hasApplied ==>
      a.text == if postulation.Some? then "Estado: " + postulation.value.Name() else AppliedLabel
    ensures !isOwner && !hasApplied && isApplying ==> a.text == ApplyingLabel
    ensures !isOwner && !hasApplied && !isApplying && estado != BUSCANDO ==> a.text == ClosedLabel
  {
    if isOwner then Administer
    else if hasApplied then
      ApplyButton(if postulation.Some? then "Estado: " + postulation.value.Name() else AppliedLabel, true)
    else if isApplying then ApplyButton(ApplyingLabel, true)
    else if estado != BUSCANDO then ApplyButton(ClosedLabel, true)
    else ApplyButton(ApplyLabel, false)
  }

  datatype BadgeVariant = Default | Destructive | Secondary

  /** The badge shows the application's state when there is one, else the scrim's. */
  function Badge(postulation: Option<PostulationState>, estado: ScrimState): (v: BadgeVariant)
    ensures v == Destructive <==> postulation == Some(RECHAZADA)
    ensures v == Default <==> postulation == Some(ACEPTADA) || (postulation.None? && estado == BUSCANDO)
  {
    match postulation
    case Some(p) => if p == ACEPTADA then Default else if p == RECHAZADA then Destructive else Secondary
    case None => if estado == BUSCANDO then Default else Secondary
  }

  datatype CardView = CardView(
    scrimId: string,
    titleLinked: bool,
    badge: BadgeVariant,
    badgeText: string,
    action: CardAction)

  /** One card, as the current user sees it. The apply button is enabled
      exactly when the user does not own the scrim, has not applied to it
      (in this session, or with a pending or accepted application), is not
      applying to it right now, and the scrim is still looking for players. */
  function Card(currentUser: Option<User>, applyingTo: Option<string>, appliedScrims: set<string>,
                item: GridItem): (c: CardView)
    ensures c.scrimId == ItemScrim(item).id
    ensures c.action.Administer? <==> IsOwner(currentUser, ItemScrim(item))
    ensures c.titleLinked <==> !IsOwner(currentUser, ItemScrim(item))
    ensures c.action == ApplyButton(ApplyLabel, false) <==>
      !IsOwner(currentUser, ItemScrim(item)) &&
      ItemScrim(item).id !in appliedScrims &&
      ItemPostulation(item) != Some(PENDIENTE) && ItemPostulation(item) != Some(ACEPTADA) &&
      applyingTo != Some(ItemScrim(item).id) &&
      ItemScrim(item).estado == BUSCANDO
    ensures c.badge == Destructive <==> ItemPostulation(item) == Some(RECHAZADA)
    ensures c.badgeText == if ItemPostulation(item).Some? then ItemPostulation(item).value.Name() else ItemScrim(item).estado.Name()
  {
    var scrim := ItemScrim(item);
    var postulation := ItemPostulation(item);
    var isOwner := IsOwner(currentUser, scrim);
    CardView(
      scrim.id,
      !isOwner,
      Badge(postulation, scrim.estado),
      if postulation.Some? then postulation.value.Name() else scrim.estado.Name(),
      Action(isOwner, HasApplied(appliedScrims, scrim.id, postulation), postulation,
             applyingTo == Some(scrim.id), scrim.estado))
  }

  // ---------- the grid ----------

  const DefaultEmptyMessage: string := "No se encontraron scrims."

  datatype GridView = LoadingView | ErrorView(message: string) | EmptyView(message: string) | CardsView(cards: seq<CardView>)

  /** The render: loading, then error, then the empty message, then one card
      per item in order. */
  function Render(scrims: Option<seq<Scrim>>, myScrimsData: Option<seq<MyScrimResponse>>,
                  loading: bool, error: Option<string>, emptyMessage: Option<string>,
                  currentUser: Option<User>, applyingTo: Option<string>, appliedScrims: set<string>): (v: GridView)
    ensures loading <==> v.LoadingView?
    ensures v.ErrorView? <==> !loading && Truthy(error)
    ensures v.ErrorView? ==> v.message == error.value
    ensures v.EmptyView? <==>
      !loading && !Truthy(error) &&
      (SelectItems(scrims, myScrimsData).None? || SelectItems(scrims, myScrimsData).value == [])
    ensures v.EmptyView? ==> v.message == if Truthy(emptyMessage) then emptyMessage.value else DefaultEmptyMessage
    ensures v.CardsView? ==>
      var items := SelectItems(scrims, myScrimsData).value;
      |v.cards| == |items| > 0 &&
      forall i :: 0 <= i < |items| ==> v.cards[i] == Card(currentUser, applyingTo, appliedScrims, items[i])
  {
    if loading then LoadingView
    else if Truthy(error) then ErrorView(error.value)
    else
      var items := SelectItems(scrims, myScrimsData);
      if items.None? || items.value == [] then
        EmptyView(if Truthy(emptyMessage) then emptyMessage.value else DefaultEmptyMessage)
      else
        var list := items.value;
        CardsView(seq(|list|, i requires 0 <= i < |list| => Card(currentUser, applyingTo, appliedScrims, list[i])))
  }

  /** The alias `postulacionState` never influences a card. */
  lemma AliasIgnored(currentUser: Option<User>, applyingTo: Option<string>, appliedScrims: set<string>,
                     r: MyScrimResponse, alias: Option<PostulationState>)
    ensures Card(currentUser, applyingTo, appliedScrims, ResponseItem(r.(postulacionState := alias)))
         == Card(currentUser, applyingTo, appliedScrims, ResponseItem(r))
  {
  }

  // ---------- the apply handler ----------

  /** The grid component's own state. */
  class ScrimsGridState {
    var applyingTo: Option<string>
    var appliedScrims: set<string>

    constructor ()
      ensures applyingTo.None? && appliedScrims == {}
    {
      applyingTo, appliedScrims := None, {};
    }

    /** `handlePostular`, up to the request: applying to one's own scrim is
        refused with no request and no change; otherwise the scrim becomes the
        one being applied to and the request goes out. */
    method StartPostular(currentUser: Option<User>, scrim: Scrim) returns (requestSent: bool)
      modifies this`applyingTo
      ensures requestSent <==> !IsOwner(currentUser, scrim)
      ensures applyingTo == if requestSent then Some(scrim.id) else old(applyingTo)
    {
      if IsOwner(currentUser, scrim) {
        return false;
      }
      applyingTo := Some(scrim.id);
      requestSent := true;
    }

    /** `handlePostular`, after the response: a success adds exactly the
        scrim's id to the applied set; nothing is ever removed; the button
        stops "applying" whatever the outcome. */
    method FinishPostular(scrim: Scrim, response: Response<()>)
      modifies this
      ensures applyingTo.None?
      ensures appliedScrims == if response.Ok? then old(appliedScrims) + {scrim.id} else old(appliedScrims)
    {
      if response.Ok? {
        appliedScrims := appliedScrims + {scrim.id};
      }
      applyingTo := None;
    }
  }

  /** While its request is out, the card of that scrim shows "Postulando..."
      (unless it already counted as applied); after a successful application
      the card can no longer be applied to. */
  method ApplyThenRender(grid: ScrimsGridState, currentUser: Option<User>, item: GridItem, response: Response<()>)
    returns (during: CardView, after: CardView)
    requires !IsOwner(currentUser, ItemScrim(item))
    requires !HasApplied(grid.appliedScrims, ItemScrim(item).id, ItemPostulation(item))
    modifies grid
    ensures during.action == ApplyButton(ApplyingLabel, true)
    ensures response.Ok? ==> after.action.ApplyButton? && after.action.disabled
    ensures response.Failed? ==> after == Card(currentUser, None, old(grid.appliedScrims), item)
    ensures response.Failed? && old(grid.applyingTo) != Some(ItemScrim(item).id) ==>
      after == Card(currentUser, old(grid.applyingTo), old(grid.appliedScrims), item)
  {
    var sent := grid.StartPostular(currentUser, ItemScrim(item));
    during := Card(currentUser, grid.applyingTo, grid.appliedScrims, item);
    grid.FinishPostular(ItemScrim(item), response);
    after := Card(currentUser, grid.applyingTo, grid.appliedScrims, item);
  }
}
