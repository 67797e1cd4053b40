/** The tasker's view of a task: the favourite toggle with its confirmation
    for removal, the requester's contact details masked until revealed, and
    the link to message the requester. */
module TaskerTaskDetail {
  import opened Js
  import opened Web
  import Gateway
  import Market
  import Routes
  import MessageHistory

  const LoadFailedMessage := "Unable to load task information"
  const AddedMessage := "Added to favorites"
  const AddFailedMessage := "Unable to add to favorites"
  const RemovedMessage := "Removed from favorites"
  const RemoveFailedMessage := "Unable to remove from favorites"

  const EmailMask := "***************"
  const PhoneMask := "***********"

  /** A task as this page reads it: the task and its requester's id, email
      and phone ("" when missing). */
  datatype TaskView = TaskView(task: Market.Task, requesterId: string, email: string, phone: string)

  /** `maskEmail`: nothing for a missing email, else a fixed row of stars. */
  function MaskEmail(email: string): (m: string)
    ensures email == "" ==> m == ""
    ensures email != "" ==> |m| == 15 && forall i :: 0 <= i < |m| ==> m[i] == '*'
  {
    if email == "" then "" else EmailMask
  }

  /** `maskPhone`: nothing for a missing phone, else a fixed row of stars. */
  function MaskPhone(phone: string): (m: string)
    ensures phone == "" ==> m == ""
    ensures phone != "" ==> |m| == 11 && forall i :: 0 <= i < |m| ==> m[i] == '*'
  {
    if phone == "" then "" else PhoneMask
  }

  /** The email line: absent without an email, else the email itself once
      revealed and its mask before. */
  function EmailLine(email: string, showContactInfo: bool): (line: Option<string>)
    ensures line.None? <==> email == ""
    ensures line.Some? && showContactInfo ==> line.value == email
  {
    if email == "" then None else Some(if showContactInfo then email else MaskEmail(email))
  }

  /** The phone line, the same way. */
  function PhoneLine(phone: string, showContactInfo: bool): (line: Option<string>)
    ensures line.None? <==> phone == ""
    ensures line.Some? && showContactInfo ==> line.value == phone
  {
    if phone == "" then None else Some(if showContactInfo then phone else MaskPhone(phone))
  }

  /** Until revealed, the lines tell nothing about the contact details beyond
      their presence: any two present emails, or phones, read the same, not
      even their lengths show. */
  lemma HiddenContactRevealsNothing(e1: string, e2: string, p1: string, p2: string)
    requires e1 != "" && e2 != "" && p1 != "" && p2 != ""
    ensures EmailLine(e1, false) == EmailLine(e2, false) == Some(EmailMask)
    ensures PhoneLine(p1, false) == PhoneLine(p2, false) == Some(PhoneMask)
  {
  }

  /** `handleMessage`: the chat with the task's requester about this task. */
  function MessagePath(id: string, requesterId: string): string {
    "/messages/" + id + "/" + requesterId
  }

  /** The message button opens the chat about this task with its requester,
      which renders for the signed-in tasker. */
  lemma MessageOpensChat(id: string, requesterId: string, u: User)
    requires Routes.Param(id) && Routes.Param(requesterId) && RoleOf(u) == Routes.Tasker
    ensures Routes.Match(MessagePath(id, requesterId)) == Routes.Chat(id, requesterId)
    ensures Routes.Element(Routes.Match(MessagePath(id, requesterId)), Some(u)) == Routes.Render
  {
    var c := Market.Conversation(id, requesterId, 0, "");
    assert MessagePath(id, requesterId) == MessageHistory.ConversationPath(c);
    MessageHistory.ConversationLinkOpensChat(c, Some(u));
  }

  /** The page's state for the task `id`; `task` is `null` until it loads. */
  class Page {
    const id: string
    var task: Option<TaskView>
    var isFavorited: bool
    var loading: bool
    var error: string
    var success: string
    var showRemoveFavoriteConfirm: bool
    var favoriteActionLoading: bool
    var showContactInfo: bool

    /** Contact details start hidden. */
    constructor (id: string)
      ensures this.id == id && task.None? && !isFavorited && loading && error == "" && success == ""
      ensures !showRemoveFavoriteConfirm && !favoriteActionLoading && !showContactInfo
    {
      this.id := id;
      task := None;
      isFavorited := false;
      loading := true;
      error := "";
      success := "";
      showRemoveFavoriteConfirm := false;
      favoriteActionLoading := false;
      showContactInfo := false;
    }

    /** `fetchTask`: a reply replaces the task; an error shows a fixed message.
      Loading ends either way. */
    method FetchTask(b: Browser, reply: Reply<TaskView>)
      modifies this, b
      ensures !loading
      ensures reply.Ok? ==> task == Some(reply.data) && error == old(error)
      ensures !reply.Ok? ==> task == old(task) && error == LoadFailedMessage
      ensures isFavorited == old(isFavorited) && success == old(success) && showContactInfo == old(showContactInfo)
      ensures showRemoveFavoriteConfirm == old(showRemoveFavoriteConfirm)
      ensures favoriteActionLoading == old(favoriteActionLoading)
      ensures (b.storage, b.location) == Gateway.Settled(reply, old(b.storage), old(b.location))
    {
      var delivered := Gateway.Receive(b, reply);
      if delivered.Ok? {
        task := Some(delivered.data);
      } else {
        error := LoadFailedMessage;
      }
      loading := false;
    }

    /** `checkFavorite`: a reply sets the mark; an error is only logged. */
    method CheckFavorite(b: Browser, reply: Reply<bool>)
      modifies this, b
      ensures isFavorited == (if reply.Ok? then reply.data else old(isFavorited))
      ensures task == old(task) && loading == old(loading) && error == old(error) && success == old(success)
      ensures showRemoveFavoriteConfirm == old(showRemoveFavoriteConfirm)
      ensures favoriteActionLoading == old(favoriteActionLoading) && showContactInfo == old(showContactInfo)
      ensures (b.storage, b.location) == Gateway.Settled(reply, old(b.storage), old(b.location))
    {
      var delivered := Gateway.Receive(b, reply);
      if delivered.Ok? {
        isFavorited := delivered.data;
      }
    }

    /** `addToFavorites`: the task is posted; any 2xx reply marks it and
      reports it, an error shows a fixed message. The busy flag ends cleared. */
    method AddToFavorites(b: Browser, reply: Reply<()>) returns (sent: map<string, string>)
      modifies this, b
      ensures sent == map["taskId" := id]
      ensures !favoriteActionLoading
      ensures reply.Ok? ==> isFavorited && success == AddedMessage && error == ""
      ensures !reply.Ok? ==> isFavorited == old(isFavorited) && success == "" && error == AddFailedMessage
      ensures task == old(task) && loading == old(loading) && showContactInfo == old(showContactInfo)
      ensures showRemoveFavoriteConfirm == old(showRemoveFavoriteConfirm)
      ensures (b.storage, b.location) == Gateway.Settled(reply, old(b.storage), old(b.location))
    {
      favoriteActionLoading := true;
      error := "";
      success := "";
      sent := map["taskId" := id];
      var delivered := Gateway.Receive(b, reply);
      if delivered.Ok? {
        isFavorited := true;
        success := AddedMessage;
      } else {
        error := AddFailedMessage;
      }
      favoriteActionLoading := false;
    }

    /** `removeFromFavorites` (the dialog's confirm): any 2xx reply unmarks the
      task, reports it and closes the dialog; an error shows a fixed message
      and leaves the dialog open. The busy flag ends cleared. */
    method RemoveFromFavorites(b: Browser, reply: Reply<()>)
      modifies this, b
      ensures !favoriteActionLoading
      ensures reply.Ok? ==> !isFavorited && success == RemovedMessage && error == "" && !showRemoveFavoriteConfirm
      ensures !reply.Ok? ==> isFavorited == old(isFavorited) && success == "" && error == RemoveFailedMessage
                             && showRemoveFavoriteConfirm == old(showRemoveFavoriteConfirm)
      ensures task == old(task) && loading == old(loading) && showContactInfo == old(showContactInfo)
      ensures (b.storage, b.location) == Gateway.Settled(reply, old(b.storage), old(b.location))
    {
      favoriteActionLoading := true;
      error := "";
      success := "";
      var delivered := Gateway.Receive(b, reply);
      if delivered.Ok? {
        isFavorited := false;
        success := RemovedMessage;
        showRemoveFavoriteConfirm := false;
      } else {
        error := RemoveFailedMessage;
      }
      favoriteActionLoading := false;
    }

    /** `handleFavoriteToggle`: a marked task only opens the confirmation and
      sends nothing; an unmarked one is added at once. */
    method FavoriteToggle(b: Browser, reply: Reply<()>) returns (sent: Option<map<string, string>>)
      modifies this, b
      ensures old(isFavorited) ==> sent.None? && showRemoveFavoriteConfirm && isFavorited
                                   && error == old(error) && success == old(success)
                                   && favoriteActionLoading == old(favoriteActionLoading)
                                   && b.storage == old(b.storage) && b.location == old(b.location)
      ensures !old(isFavorited) ==> sent == Some(map["taskId" := id]) && !favoriteActionLoading
                                    && showRemoveFavoriteConfirm == old(showRemoveFavoriteConfirm)
                                    && (reply.Ok? ==> isFavorited && success == AddedMessage && error == "")
                                    && (!reply.Ok? ==> !isFavorited && error == AddFailedMessage && success == "")
                                    && (b.storage, b.location) == Gateway.Settled(reply, old(b.storage), old(b.location))
      ensures task == old(task) && loading == old(loading) && showContactInfo == old(showContactInfo)
    {
      if isFavorited {
        showRemoveFavoriteConfirm := true;
        sent := None;
      } else {
        var body := AddToFavorites(b, reply);
        sent := Some(body);
      }
    }

    /** The dialog's `onClose`: only the dialog closes. */
    method CancelRemove()
      modifies this
      ensures !showRemoveFavoriteConfirm
      ensures isFavorited == old(isFavorited) && error == old(error) && success == old(success)
      ensures favoriteActionLoading == old(favoriteActionLoading) && showContactInfo == old(showContactInfo)
      ensures task == old(task) && loading == old(loading)
    {
      showRemoveFavoriteConfirm := false;
    }

    /** `toggleContactInfo`: reveal or hide the contact details. */
    method ToggleContactInfo()
      modifies this
      ensures showContactInfo == !old(showContactInfo)
      ensures isFavorited == old(isFavorited) && error == old(error) && success == old(success)
      ensures favoriteActionLoading == old(favoriteActionLoading)
      ensures showRemoveFavoriteConfirm == old(showRemoveFavoriteConfirm)
      ensures task == old(task) && loading == old(loading)
    {
      showContactInfo := !showContactInfo;
    }
  }
}
