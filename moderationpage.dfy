/** The administrators' moderation panel (app/moderation/page.tsx): the access
    guard, the fetch of pending feedback, the removal of a moderated item and
    what the page renders. */
module ModerationPage {
  import opened Types
  import opened AuthContext

  /** `auth.user?.rol === 'ADMIN'`: a missing user is never an administrator. */
  predicate IsAdmin(user: Option<User>)
    ensures user.None? ==> !IsAdmin(user)
  {
    user.Some? && user.value.rol == ADMIN
  }

  /** What the page's effect does. */
  datatype AccessStep = DenyAndRedirect(nav: Nav) | FetchPending | Idle

  /** Once the session has loaded, anyone who is not a signed-in administrator
      is sent to the landing page; a signed-in administrator gets the pending
      feedback fetched; while loading, nothing happens for anyone else. */
  function Access(auth: AuthView): (s: AccessStep)
    ensures s.DenyAndRedirect? <==> !auth.loading && !(auth.isAuthenticated && IsAdmin(auth.user))
    ensures s.DenyAndRedirect? ==> s.nav == NavRoot
    ensures s == FetchPending <==> auth.isAuthenticated && IsAdmin(auth.user)
  {
    if !auth.loading && (!auth.isAuthenticated || !IsAdmin(auth.user)) then DenyAndRedirect(NavRoot)
    else if auth.isAuthenticated && IsAdmin(auth.user) then FetchPending
    else Idle
  }

  /** `list.filter(feedback => feedback.id !== id)`. */
  function RemoveFeedback(list: seq<Feedback>, id: string): (r: seq<Feedback>)
    ensures forall f :: f in r <==> f in list && f.id != id
    ensures |r| <= |list|
  {
    if list == [] then []
    else if list[0].id == id then RemoveFeedback(list[1..], id)
    else [list[0]] + RemoveFeedback(list[1..], id)
  }

  /** The removal keeps the other items in their original order: it works
      piecewise over any split of the list. */
  lemma {:induction false} RemoveFeedbackConcat(a: seq<Feedback>, b: seq<Feedback>, id: string)
    ensures RemoveFeedback(a + b, id) == RemoveFeedback(a, id) + RemoveFeedback(b, id)
  {
    if a == [] {
      assert a + b == b;
    } else {
      assert (a + b)[0] == a[0];
      assert (a + b)[1..] == a[1..] + b;
      RemoveFeedbackConcat(a[1..], b, id);
    }
  }

  /** Removing an id no item carries changes nothing, so moderating the same
      item twice removes it once. */
  lemma {:induction false} RemoveFeedbackAbsent(list: seq<Feedback>, id: string)
    requires forall f :: f in list ==> f.id != id
    ensures RemoveFeedback(list, id) == list
  {
    if list != [] {
      RemoveFeedbackAbsent(list[1..], id);
      assert [list[0]] + list[1..] == list;
    }
  }

  lemma RemoveFeedbackIdempotent(list: seq<Feedback>, id: string)
    ensures RemoveFeedback(RemoveFeedback(list, id), id) == RemoveFeedback(list, id)
  {
    RemoveFeedbackAbsent(RemoveFeedback(list, id), id);
  }

  const LoadErrorMessage: string := "No se pudo cargar el feedback pendiente."

  datatype ModerationView = WaitingView | AccessDenied | Panel(items: seq<Feedback>, error: Option<string>)

  class ModerationPageState {
    var pendingFeedback: seq<Feedback>
    var loading: bool
    var error: Option<string>

    constructor ()
      ensures pendingFeedback == [] && loading && error.None?
    {
      pendingFeedback, loading, error := [], true, None;
    }

    /** The effect, up to the request. */
    method RunEffect(auth: AuthView) returns (nav: Option<Nav>, fetching: bool)
      modifies this`loading
      ensures nav.Some? <==> Access(auth).DenyAndRedirect?
      ensures nav.Some? ==> nav.value == NavRoot
      ensures fetching <==> Access(auth) == FetchPending
      ensures loading == (fetching || old(loading))
    {
      match Access(auth) {
        case DenyAndRedirect(target) =>
          nav, fetching := Some(target), false;
        case FetchPending =>
          loading := true;
          nav, fetching := None, true;
        case Idle =>
          nav, fetching := None, false;
      }
    }

    /** The effect, after the response: the list is replaced, or the error set;
        loading ends either way. */
    method FinishFetch(response: Response<seq<Feedback>>)
      modifies this
      ensures !loading
      ensures response.Ok? ==> pendingFeedback == response.data && error == old(error)
      ensures response.Failed? ==> pendingFeedback == old(pendingFeedback) && error == Some(LoadErrorMessage)
    {
      match response {
        case Ok(data) => pendingFeedback := data;
        case Failed(_) => error := Some(LoadErrorMessage);
      }
      loading := false;
    }

    /** `handleModerate(id, newState)` once its request has completed: a
        success removes exactly the items with that id, a failure changes nothing. */
    method Moderate(feedbackId: string, response: Response<()>)
      modifies this`pendingFeedback
      ensures pendingFeedback == if response.Ok? then RemoveFeedback(old(pendingFeedback), feedbackId) else old(pendingFeedback)
    {
      if response.Ok? {
        pendingFeedback := RemoveFeedback(pendingFeedback, feedbackId);
      }
    }

    /** The render: waiting while either flag is set, then the role check, then
        the panel. */
    function View(auth: AuthView): (v: ModerationView)
      reads this
      ensures v.WaitingView? <==> auth.loading || loading
      ensures v.AccessDenied? <==> !auth.loading && !loading && !IsAdmin(auth.user)
      ensures v.Panel? ==> IsAdmin(auth.user) && v.items == pendingFeedback && v.error == error
    {
      if auth.loading || loading then WaitingView
      else if !IsAdmin(auth.user) then AccessDenied
      else Panel(pendingFeedback, error)
    }
  }
}
