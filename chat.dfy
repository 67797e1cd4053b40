/** The chat page between the current user and one other user about one task:
    who the other participant is, which bubbles carry an avatar, the send
    button, sending a message, and the link back to the task. */
module Chat {
  import opened Js
  import opened Web
  import Gateway
  import Market
  import Routes

  const LoadFailedMessage := "Unable to load conversation"
  const SendFailedMessage := "Unable to send message"

  /** The body of the conversation reply: its messages and, when the backend
      sends one, the task (only whether it is present matters to the page). */
  datatype ConversationData = ConversationData(messages: seq<Market.Message>, task: Option<Market.Task>)

  /** The other participant as read off the first message: its receiver when
      the current user sent it, else its sender; nothing without messages. */
  function OtherUserOf(messages: seq<Market.Message>, me: string): (r: Option<string>)
    ensures r.None? <==> messages == []
    ensures r.Some? ==> r.value == messages[0].senderId || r.value == messages[0].receiverId
  {
    if messages == [] then None
    else if messages[0].senderId == me then Some(messages[0].receiverId)
    else Some(messages[0].senderId)
  }

  /** When the current user took part in the first message, and that message
      was between two different users, the other participant is never the
      current user. */
  lemma OtherUserIsNotMe(messages: seq<Market.Message>, me: string)
    requires messages != [] && messages[0].senderId != messages[0].receiverId
    requires me == messages[0].senderId || me == messages[0].receiverId
    ensures OtherUserOf(messages, me).Some? && OtherUserOf(messages, me).value != me
  {
  }

  /** A bubble carries an avatar when it starts the list or its sender differs
      from the previous bubble's. */
  predicate ShowAvatar(messages: seq<Market.Message>, i: int)
    requires 0 <= i < |messages|
  {
    i == 0 || messages[i - 1].senderId != messages[i].senderId
  }

  /** Consecutive messages of one sender form a run headed by exactly one
      avatar: every message has an avatar-carrying message at or before it
      with only that sender in between. */
  lemma {:induction false} EveryRunHasAvatar(messages: seq<Market.Message>, i: int)
    requires 0 <= i < |messages|
    ensures exists j :: 0 <= j <= i && ShowAvatar(messages, j)
                        && forall k :: j <= k <= i ==> messages[k].senderId == messages[i].senderId
  {
    if ShowAvatar(messages, i) {
      assert forall k :: i <= k <= i ==> messages[k].senderId == messages[i].senderId;
    } else {
      EveryRunHasAvatar(messages, i - 1);
      var j :| 0 <= j <= i - 1 && ShowAvatar(messages, j)
               && forall k :: j <= k <= i - 1 ==> messages[k].senderId == messages[i - 1].senderId;
      assert forall k :: j <= k <= i ==> messages[k].senderId == messages[i].senderId;
    }
  }

  /** Within a run no second avatar appears. */
  lemma NoAvatarInsideRun(messages: seq<Market.Message>, i: int)
    requires 0 < i < |messages| && messages[i - 1].senderId == messages[i].senderId
    ensures !ShowAvatar(messages, i)
  {
  }

  /** `disabled={sending || !newMessage.trim()}` */
  predicate CanSend(newMessage: string, sending: bool) {
    !sending && Trim(newMessage) != ""
  }

  /** The send button is enabled exactly when nothing is in flight and the
      input holds something other than white space. */
  lemma CanSendIffNotBlank(newMessage: string, sending: bool)
    ensures CanSend(newMessage, sending) <==> !sending && !AllSpace(newMessage)
  {
    TrimEmptyIffAllSpace(newMessage);
  }

  /** The JSON body of a sent message. */
  function SendBody(taskId: string, userId: string, content: string): (body: map<string, string>)
    ensures body.Keys == {"taskId", "receiverId", "content"}
    ensures body["taskId"] == taskId && body["receiverId"] == userId && body["content"] == content
  {
    map["taskId" := taskId, "receiverId" := userId, "content" := content]
  }

  /** Where "View Task" leads: the requester's or the tasker's task page. */
  function ViewTaskPath(role: string, taskId: string): (p: string)
    ensures role == Routes.Requester ==> p == "/requester/task/" + taskId
    ensures role != Routes.Requester ==> p == "/tasker/task/" + taskId
  {
    if role == Routes.Requester then "/requester/task/" + taskId else "/tasker/task/" + taskId
  }

  /** The two task pages' paths, spelled as the route table builds them. */
  lemma TaskPaths(taskId: string)
    ensures Routes.Path(Routes.RequesterTaskDetail(taskId)) == "/requester/task/" + taskId
    ensures Routes.Path(Routes.TaskerTaskDetail(taskId)) == "/tasker/task/" + taskId
  {
    AreaTaskPath(Routes.Requester, taskId);
    AreaTaskPath(Routes.Tasker, taskId);
  }

  lemma AreaTaskPath(area: string, taskId: string)
    ensures Routes.Join(["", area, "task", taskId]) == "/" + area + "/task/" + taskId
  {
    var segs := ["", area, "task", taskId];
    assert segs[1..] == [area, "task", taskId];
    assert segs[1..][1..] == ["task", taskId];
    assert segs[1..][1..][1..] == [taskId];
    assert Routes.Join(["task", taskId]) == "task" + "/" + taskId;
    assert Routes.Join([area, "task", taskId]) == area + "/" + ("task" + "/" + taskId);
    assert Routes.Join(segs) == "" + "/" + (area + "/" + ("task" + "/" + taskId));
  }

  /** "View Task" opens the task for requesters and taskers; any other role
      (an administrator reading a chat) is sent to the root instead. */
  lemma ViewTaskLands(u: User, taskId: string)
    requires Routes.Param(taskId)
    ensures Routes.Element(Routes.Match(ViewTaskPath(RoleOf(u), taskId)), Some(u)) == Routes.Render
            <==> RoleOf(u) == Routes.Requester || RoleOf(u) == Routes.Tasker
  {
    TaskPaths(taskId);
    Routes.MatchPath(Routes.RequesterTaskDetail(taskId));
    Routes.MatchPath(Routes.TaskerTaskDetail(taskId));
  }

  /** The page's state for the conversation about `taskId` with `userId`. */
  class Page {
    const taskId: string
    const userId: string
    var messages: seq<Market.Message>
    var hasTask: bool
    var otherUser: Option<string>
    var newMessage: string
    var loading: bool
    var sending: bool
    var error: string

    constructor (taskId: string, userId: string)
      ensures this.taskId == taskId && this.userId == userId
      ensures messages == [] && !hasTask && otherUser.None? && newMessage == ""
      ensures loading && !sending && error == ""
    {
      this.taskId := taskId;
      this.userId := userId;
      messages := [];
      hasTask := false;
      otherUser := None;
      newMessage := "";
      loading := true;
      sending := false;
      error := "";
    }

    /** `fetchConversation`, for the signed-in user `me`: a reply replaces the
      messages and the task and clears the error; the other participant is
      re-read only when there are messages. An error keeps everything and
      shows a fixed message. Loading ends either way. */
    method FetchConversation(b: Browser, me: string, reply: Reply<ConversationData>)
      modifies this, b
      ensures !loading && newMessage == old(newMessage) && sending == old(sending)
      ensures reply.Ok? ==> messages == reply.data.messages && hasTask == reply.data.task.Some? && error == ""
      ensures reply.Ok? && reply.data.messages != [] ==> otherUser == OtherUserOf(reply.data.messages, me)
      ensures reply.Ok? && reply.data.messages == [] ==> otherUser == old(otherUser)
      ensures !reply.Ok? ==> messages == old(messages) && hasTask == old(hasTask)
                             && otherUser == old(otherUser) && error == LoadFailedMessage
      ensures (b.storage, b.location) == Gateway.Settled(reply, old(b.storage), old(b.location))
    {
      var delivered := Gateway.Receive(b, reply);
      if delivered.Ok? {
        messages := delivered.data.messages;
        hasTask := delivered.data.task.Some?;
        if |delivered.data.messages| > 0 {
          otherUser := OtherUserOf(delivered.data.messages, me);
        }
        error := "";
      } else {
        error := LoadFailedMessage;
      }
      loading := false;
    }

    /** `handleSendMessage`: a blank input sends nothing and changes nothing.
      Otherwise the trimmed text is posted; a reply with `success` appends the
      stored message and clears the input, one without it changes nothing
      more; an error shows a fixed message and keeps the input. `sending`
      ends cleared. */
    method Send(b: Browser, reply: Reply<Market.Message>) returns (sent: Option<map<string, string>>)
      modifies this, b
      ensures Trim(old(newMessage)) == "" ==> sent.None? && unchanged(this) && unchanged(b)
      ensures Trim(old(newMessage)) != "" ==>
                sent == Some(SendBody(taskId, userId, Trim(old(newMessage)))) && !sending
                && loading == old(loading) && hasTask == old(hasTask) && otherUser == old(otherUser)
      ensures Trim(old(newMessage)) != "" && reply.Succeeded() ==>
                messages == old(messages) + [reply.data] && newMessage == "" && error == ""
      ensures Trim(old(newMessage)) != "" && reply.Ok? && !reply.success ==>
                messages == old(messages) && newMessage == old(newMessage) && error == ""
      ensures Trim(old(newMessage)) != "" && !reply.Ok? ==>
                messages == old(messages) && newMessage == old(newMessage) && error == SendFailedMessage
      ensures Trim(old(newMessage)) != "" ==> (b.storage, b.location) == Gateway.Settled(reply, old(b.storage), old(b.location))
    {
      var content := Trim(newMessage);
      if content == "" {
        sent := None;
        return;
      }
      var body := Post(b, reply, content);
      sent := Some(body);
    }

    /** The part of `handleSendMessage` after the blank check: posts `content`
      and settles the screen on the reply. */
    method Post(b: Browser, reply: Reply<Market.Message>, content: string) returns (body: map<string, string>)
      modifies this, b
      ensures body == SendBody(taskId, userId, content) && !sending
      ensures loading == old(loading) && hasTask == old(hasTask) && otherUser == old(otherUser)
      ensures reply.Succeeded() ==> messages == old(messages) + [reply.data] && newMessage == "" && error == ""
      ensures reply.Ok? && !reply.success ==> messages == old(messages) && newMessage == old(newMessage) && error == ""
      ensures !reply.Ok? ==> messages == old(messages) && newMessage == old(newMessage) && error == SendFailedMessage
      ensures (b.storage, b.location) == Gateway.Settled(reply, old(b.storage), old(b.location))
    {
      sending := true;
      error := "";
      body := SendBody(taskId, userId, content);
      var delivered := Gateway.Receive(b, reply);
      if delivered.Ok? {
        if delivered.success {
          messages := messages + [delivered.data];
          newMessage := "";
        }
      } else {
        error := SendFailedMessage;
      }
      sending := false;
    }
  }

  /** The content a send posts is never blank and never starts or ends with
      white space. */
  lemma SentContentTrimmed(newMessage: string)
    requires Trim(newMessage) != ""
    ensures !IsSpace(Trim(newMessage)[0]) && !IsSpace(Trim(newMessage)[|Trim(newMessage)| - 1])
    ensures !AllSpace(newMessage)
  {
    TrimShape(newMessage);
    TrimEmptyIffAllSpace(newMessage);
  }
}
