/**
 * The admin page listing pending subscriptions: one fetch fills the list,
 * and approving one removes it from the list on success while its button is
 * disabled for the duration of the request.
 */
module AdminSubscription {
  import opened Common

  /** A pending subscription row; only its id takes part in the page's logic. */
  datatype PendingSub = PendingSub(id: int, userEmail: string, amount: int, durationDays: int, mpesaCode: string)

  /** `prev.filter((s) => s.id !== id)` */
  function WithoutId(subs: seq<PendingSub>, id: int): (r: seq<PendingSub>)
    ensures forall i :: 0 <= i < |r| ==> r[i].id != id
    ensures SubseqOf(r, subs)
    ensures (forall i :: 0 <= i < |subs| ==> subs[i].id != id) ==> r == subs
    ensures |r| <= |subs|
  {
    if subs == [] then []
    else
      var rest := WithoutId(subs[1..], id);
      assert subs == [subs[0]] + subs[1..];
      if subs[0].id == id then
        SubseqSkip(rest, subs);
        rest
      else
        assert ([subs[0]] + rest)[1..] == rest;
        [subs[0]] + rest
  }

  /** Every row without the id stays as often as it occurred, and no row with it is left. */
  lemma {:induction false} WithoutIdCounts(subs: seq<PendingSub>, id: int)
    ensures forall s :: multiset(WithoutId(subs, id))[s] == if s.id == id then 0 else multiset(subs)[s]
    ensures forall s :: s in WithoutId(subs, id) <==> s in subs && s.id != id
    decreases |subs|
  {
    if subs != [] {
      WithoutIdCounts(subs[1..], id);
      assert subs == [subs[0]] + subs[1..];
      assert multiset(subs) == multiset{subs[0]} + multiset(subs[1..]);
      if subs[0].id != id {
        assert multiset(WithoutId(subs, id)) == multiset{subs[0]} + multiset(WithoutId(subs[1..], id));
      }
    }
  }

  /** Filtering the same id twice removes nothing more. */
  lemma WithoutIdIdempotent(subs: seq<PendingSub>, id: int)
    ensures WithoutId(WithoutId(subs, id), id) == WithoutId(subs, id)
  {
  }

  /** The approve button of a row is disabled exactly while that row's id is being approved. */
  predicate Disabled(approvingId: Option<int>, sub: PendingSub)
  {
    approvingId == Some(sub.id)
  }

  /** While an approval of `id` is under way, the disabled rows are exactly the rows with that id; with none under way, no row is. */
  lemma DisabledSpec(subs: seq<PendingSub>, id: int)
    ensures forall s :: s in subs ==> (Disabled(Some(id), s) <==> s.id == id)
    ensures forall s :: s in subs ==> !Disabled(None, s)
  {
  }

  /** The page's state: `subscriptions`, `loading` and `approvingId`. */
  class Page {
    var subscriptions: seq<PendingSub>
    var loading: bool
    var approvingId: Option<int>

    constructor ()
      ensures subscriptions == [] && loading && approvingId.None?
    {
      subscriptions := [];
      loading := true;
      approvingId := None;
    }

    /** `fetchSubscriptions`: the list becomes the response on success, and loading ends either way. */
    method Fetch(res: Reply<seq<PendingSub>>)
      modifies this
      ensures res.Success? ==> subscriptions == res.data
      ensures res.Failure? ==> subscriptions == old(subscriptions)
      ensures !loading && approvingId == old(approvingId)
    {
      match res {
        case Success(data) => subscriptions := data;
        case Failure(_) =>
      }
      loading := false;
    }

    /**
     * `approveSubscription(id)`: `approvingId` is the id while the POST is
     * under way (`during`), every row with that id leaves the list on
     * success, the list stays as it was on failure, and `approvingId` is
     * cleared whatever the outcome.
     */
    method Approve(id: int, res: Reply<()>) returns (during: Option<int>)
      modifies this
      ensures during == Some(id)
      ensures res.Success? ==> subscriptions == WithoutId(old(subscriptions), id)
      ensures res.Failure? ==> subscriptions == old(subscriptions)
      ensures approvingId.None? && loading == old(loading)
    {
      approvingId := Some(id);
      during := approvingId;
      if res.Success? {
        subscriptions := WithoutId(subscriptions, id);
      }
      approvingId := None;
    }
  }
}
