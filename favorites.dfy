/** The tasker's favourites page: removing a favourite goes through a
    confirmation dialog, and a confirmed removal filters the list. */
module Favorites {
  import opened Js
  import opened Web
  import Gateway
  import Market

  const RemovedMessage := "Removed from favorites"
  const RemoveFailedMessage := "Unable to remove from favorites"

  /** `favorites.filter(fav => fav.taskId._id !== id)` */
  function Without(favs: seq<Market.Favorite>, id: string): (r: seq<Market.Favorite>)
    ensures |r| <= |favs|
    ensures forall i :: 0 <= i < |r| ==> r[i].taskId != id && r[i] in favs
  {
    if favs == [] then []
    else (if favs[0].taskId != id then [favs[0]] else []) + Without(favs[1..], id)
  }

  /** Removal keeps every other entry. */
  lemma {:induction false} WithoutKeepsOthers(favs: seq<Market.Favorite>, id: string, f: Market.Favorite)
    requires f in favs && f.taskId != id
    ensures f in Without(favs, id)
  {
    if favs[0] != f {
      assert f in favs[1..];
      WithoutKeepsOthers(favs[1..], id, f);
    }
  }

  /** Removal distributes over concatenation, so the kept entries stay in order. */
  lemma {:induction false} WithoutConcat(a: seq<Market.Favorite>, b: seq<Market.Favorite>, id: string)
    ensures Without(a + b, id) == Without(a, id) + Without(b, id)
  {
    if a == [] {
      assert a + b == b;
    } else {
      assert (a + b)[0] == a[0] && (a + b)[1..] == a[1..] + b;
      WithoutConcat(a[1..], b, id);
    }
  }

  /** Removing the same task twice changes nothing the second time. */
  lemma {:induction false} WithoutIdempotent(favs: seq<Market.Favorite>, id: string)
    ensures Without(Without(favs, id), id) == Without(favs, id)
  {
    if favs != [] {
      WithoutIdempotent(favs[1..], id);
      if favs[0].taskId != id {
        assert Without(favs, id) == [favs[0]] + Without(favs[1..], id);
        assert ([favs[0]] + Without(favs[1..], id))[1..] == Without(favs[1..], id);
      } else {
        assert Without(favs, id) == [] + Without(favs[1..], id) == Without(favs[1..], id);
      }
    }
  }

  /** The page's state. `taskToRemove` is the `{id, title}` awaiting confirmation. */
  class Page {
    var favorites: seq<Market.Favorite>
    var loading: bool
    var error: string
    var success: string
    var removingId: Option<string>
    var showRemoveConfirm: bool
    var taskToRemove: Option<Market.Favorite>

    constructor ()
      ensures favorites == [] && loading && error == "" && success == ""
      ensures removingId.None? && !showRemoveConfirm && taskToRemove.None?
    {
      favorites := [];
      loading := true;
      error := "";
      success := "";
      removingId := None;
      showRemoveConfirm := false;
      taskToRemove := None;
    }

    /** `handleRemoveClick(taskId, title)`: remember the task and open the
      dialog; nothing is removed yet. */
    method RemoveClick(taskId: string, title: string)
      modifies this
      ensures taskToRemove == Some(Market.Favorite(taskId, title)) && showRemoveConfirm
      ensures favorites == old(favorites) && error == old(error) && success == old(success)
      ensures removingId == old(removingId) && loading == old(loading)
    {
      taskToRemove := Some(Market.Favorite(taskId, title));
      showRemoveConfirm := true;
    }

    /** The dialog's `onClose`: close it and forget the task. */
    method Cancel()
      modifies this
      ensures !showRemoveConfirm && taskToRemove.None?
      ensures favorites == old(favorites) && error == old(error) && success == old(success)
      ensures removingId == old(removingId) && loading == old(loading)
    {
      showRemoveConfirm := false;
      taskToRemove := None;
    }

    /** `handleRemoveFavorite`: nothing to do without a pending task. Otherwise
      the delete is sent; on success exactly that task's entries leave the
      list and the dialog closes; on failure the list is kept, an error is
      shown and the dialog stays. Either way `removingId` ends cleared. */
    method ConfirmRemove(b: Browser, reply: Reply<()>)
      modifies this, b
      ensures old(taskToRemove).None? ==> unchanged(this) && unchanged(b)
      ensures old(taskToRemove).Some? ==> removingId.None? && loading == old(loading)
      ensures old(taskToRemove).Some? && reply.Ok? ==>
                favorites == Without(old(favorites), old(taskToRemove).value.taskId)
                && success == RemovedMessage && error == ""
                && !showRemoveConfirm && taskToRemove.None?
      ensures old(taskToRemove).Some? && !reply.Ok? ==>
                favorites == old(favorites) && error == RemoveFailedMessage && success == ""
                && showRemoveConfirm == old(showRemoveConfirm) && taskToRemove == old(taskToRemove)
      ensures old(taskToRemove).Some? ==> (b.storage, b.location) == Gateway.Settled(reply, old(b.storage), old(b.location))
    {
      if taskToRemove.None? {
        return;
      }
      var pending := taskToRemove.value;
      removingId := Some(pending.taskId);
      error := "";
      success := "";
      var delivered := Gateway.Receive(b, reply);
      if delivered.Ok? {
        favorites := Without(favorites, pending.taskId);
        success := RemovedMessage;
        showRemoveConfirm := false;
        taskToRemove := None;
      } else {
        error := RemoveFailedMessage;
      }
      removingId := None;
    }
  }
}
