/** The requester's page for one of their tasks: its status label, which
    actions it offers for which status, the conversations about it, and the
    delete, complete and payment-proof handlers. */
module RequesterTaskDetail {
  import opened Js
  import opened Web
  import Gateway
  import Market
  import MessageHistory

  const LoadFailedMessage := "Unable to load task information"
  const DeleteFailedMessage := "Unable to delete task"
  const CompletedMessage := "Task marked as completed successfully!"
  const CompleteFallback := "Unable to complete task"
  const SelectProofMessage := "Please select a payment proof image"
  const ProofUploadedMessage := "Payment proof uploaded successfully!"
  const ProofFallback := "Unable to upload payment proof"
  const TasksPath := "/requester/tasks"

  /** `getStatusText`: the two known statuses capitalised, any other shown as is. */
  function StatusText(status: string): (t: string)
    ensures status == Market.Pending ==> t == "Pending"
    ensures status == Market.Completed ==> t == "Completed"
    ensures status != Market.Pending && status != Market.Completed ==> t == status
  {
    if status == Market.Pending then "Pending"
    else if status == Market.Completed then "Completed"
    else status
  }

  /** `getStatusColor`: yellow, green, or grey for anything else. */
  function StatusColor(status: string): (c: string)
    ensures status == Market.Pending ==> c == "bg-yellow-100 text-yellow-800"
    ensures status == Market.Completed ==> c == "bg-green-100 text-green-800"
    ensures status != Market.Pending && status != Market.Completed ==> c == "bg-gray-100 text-gray-800"
  {
    if status == Market.Pending then "bg-yellow-100 text-yellow-800"
    else if status == Market.Completed then "bg-green-100 text-green-800"
    else "bg-gray-100 text-gray-800"
  }

  /** For the two known statuses the detail page's label is the badge the
      tasker's message history shows. */
  lemma StatusTextAgreesWithBadge(status: string)
    requires MessageHistory.TaskerBadge(status).Some?
    ensures StatusText(status) == MessageHistory.TaskerBadge(status).value
  {
  }

  /** The "mark as completed" button: only a pending task offers it. */
  predicate CanComplete(t: Market.Task) {
    t.status == Market.Pending
  }

  /** The edit and delete buttons: any task not completed yet. */
  predicate CanEditOrDelete(t: Market.Task) {
    t.status != Market.Completed
  }

  /** The upload form for a payment proof: a task not completed and without a proof. */
  predicate ShowsProofUpload(t: Market.Task) {
    t.status != Market.Completed && t.paymentProofUrl == ""
  }

  /** The uploaded proof: shown whenever the task has one. */
  predicate ShowsProof(t: Market.Task) {
    t.paymentProofUrl != ""
  }

  /** A task that can be completed can also still be edited and deleted, and a
      completed task offers none of the three. */
  lemma ActionsByStatus(t: Market.Task)
    ensures CanComplete(t) ==> CanEditOrDelete(t)
    ensures t.status == Market.Completed ==> !CanComplete(t) && !CanEditOrDelete(t) && !ShowsProofUpload(t)
  {
  }

  /** The upload form and the uploaded proof never show together, and one of
      them shows unless the task was completed without a proof. */
  lemma ProofSectionsExclusive(t: Market.Task)
    ensures !(ShowsProofUpload(t) && ShowsProof(t))
    ensures ShowsProofUpload(t) || ShowsProof(t) <==> !(t.status == Market.Completed && t.paymentProofUrl == "")
  {
  }

  /** `response.data.data.filter(conv => conv.taskId === id)` */
  function TaskConversations(convs: seq<Market.Conversation>, id: string): (r: seq<Market.Conversation>)
    ensures |r| <= |convs|
    ensures forall i :: 0 <= i < |r| ==> r[i].taskId == id && r[i] in convs
  {
    if convs == [] then []
    else (if convs[0].taskId == id then [convs[0]] else []) + TaskConversations(convs[1..], id)
  }

  /** No conversation about this task is dropped. */
  lemma {:induction false} TaskConversationsComplete(convs: seq<Market.Conversation>, id: string, c: Market.Conversation)
    requires c in convs && c.taskId == id
    ensures c in TaskConversations(convs, id)
  {
    if convs[0] != c {
      assert c in convs[1..];
      TaskConversationsComplete(convs[1..], id, c);
    }
  }

  /** The kept conversations stay in the order the backend sent them. */
  lemma {:induction false} TaskConversationsConcat(a: seq<Market.Conversation>, b: seq<Market.Conversation>, id: string)
    ensures TaskConversations(a + b, id) == TaskConversations(a, id) + TaskConversations(b, id)
  {
    if a == [] {
      assert a + b == b;
    } else {
      var head := if a[0].taskId == id then [a[0]] else [];
      assert (a + b)[0] == a[0] && (a + b)[1..] == a[1..] + b;
      calc {
        TaskConversations(a + b, id);
        head + TaskConversations(a[1..] + b, id);
        { TaskConversationsConcat(a[1..], b, id); }
        head + (TaskConversations(a[1..], id) + TaskConversations(b, id));
        (head + TaskConversations(a[1..], id)) + TaskConversations(b, id);
      }
    }
  }

  /** The page's state for the task `id`; `task` is `null` until it loads. */
  class Page {
    const id: string
    var task: Option<Market.Task>
    var conversations: seq<Market.Conversation>
    var loading: bool
    var error: string
    var success: string
    var showDeleteConfirm: bool
    var showCompleteConfirm: bool
    var completing: bool
    var paymentProofFile: Option<File>
    var uploadingPayment: bool

    constructor (id: string)
      ensures this.id == id && task.None? && conversations == [] && loading
      ensures error == "" && success == "" && !showDeleteConfirm && !showCompleteConfirm
      ensures !completing && paymentProofFile.None? && !uploadingPayment
    {
      this.id := id;
      task := None;
      conversations := [];
      loading := true;
      error := "";
      success := "";
      showDeleteConfirm := false;
      showCompleteConfirm := false;
      completing := false;
      paymentProofFile := None;
      uploadingPayment := false;
    }

    /** `fetchTask`: a reply replaces the task; an error keeps it and shows a
      fixed message. Loading ends either way; nothing else changes. */
    method FetchTask(b: Browser, reply: Reply<Market.Task>)
      modifies this, b
      ensures !loading
      ensures reply.Ok? ==> task == Some(reply.data) && error == old(error)
      ensures !reply.Ok? ==> task == old(task) && error == LoadFailedMessage
      ensures conversations == old(conversations) && success == old(success)
      ensures showDeleteConfirm == old(showDeleteConfirm) && showCompleteConfirm == old(showCompleteConfirm)
      ensures completing == old(completing) && paymentProofFile == old(paymentProofFile)
      ensures uploadingPayment == old(uploadingPayment)
      ensures (b.storage, b.location) == Gateway.Settled(reply, old(b.storage), old(b.location))
    {
      var delivered := Gateway.Receive(b, reply);
      if delivered.Ok? {
        task := Some(delivered.data);
      } else {
        error := LoadFailedMessage;
      }
      loading := false;
    }

    /** `fetchConversations`: keeps the conversations about this task; an
      error is only logged. */
    method FetchConversations(b: Browser, reply: Reply<seq<Market.Conversation>>)
      modifies this, b
      ensures reply.Ok? ==> conversations == TaskConversations(reply.data, id)
      ensures !reply.Ok? ==> conversations == old(conversations)
      ensures task == old(task) && loading == old(loading) && error == old(error) && success == old(success)
      ensures showDeleteConfirm == old(showDeleteConfirm) && showCompleteConfirm == old(showCompleteConfirm)
      ensures completing == old(completing) && paymentProofFile == old(paymentProofFile)
      ensures uploadingPayment == old(uploadingPayment)
      ensures (b.storage, b.location) == Gateway.Settled(reply, old(b.storage), old(b.location))
    {
      var delivered := Gateway.Receive(b, reply);
      if delivered.Ok? {
        conversations := TaskConversations(delivered.data, id);
      }
    }

    /** `handleDelete`: any 2xx reply leads to the task list; an error shows a
      fixed message and closes the dialog. */
    method Delete(b: Browser, reply: Reply<()>) returns (nav: Option<string>)
      modifies this, b
      ensures reply.Ok? ==> nav == Some(TasksPath) && unchanged(this)
      ensures !reply.Ok? ==> nav.None? && error == DeleteFailedMessage && !showDeleteConfirm
                             && task == old(task) && success == old(success)
                             && showCompleteConfirm == old(showCompleteConfirm)
                             && conversations == old(conversations) && loading == old(loading)
                             && completing == old(completing) && paymentProofFile == old(paymentProofFile)
                             && uploadingPayment == old(uploadingPayment)
      ensures (b.storage, b.location) == Gateway.Settled(reply, old(b.storage), old(b.location))
    {
      var delivered := Gateway.Receive(b, reply);
      if delivered.Ok? {
        nav := Some(TasksPath);
      } else {
        nav := None;
        error := DeleteFailedMessage;
        showDeleteConfirm := false;
      }
    }

    /** `handleComplete`: a reply with `success` reports it, closes the dialog
      and loads the task again (`refetch` is that second reply); one without
      `success` changes nothing more; an error shows the server's message or
      the fallback. `completing` ends cleared. */
    method Complete(b: Browser, reply: Reply<()>, refetch: Reply<Market.Task>)
      modifies this, b
      ensures !completing && showDeleteConfirm == old(showDeleteConfirm)
      ensures conversations == old(conversations) && paymentProofFile == old(paymentProofFile)
      ensures uploadingPayment == old(uploadingPayment)
      ensures !reply.Succeeded() ==> loading == old(loading)
      ensures reply.Succeeded() ==>
                success == CompletedMessage && !showCompleteConfirm && !loading
                && (refetch.Ok? ==> task == Some(refetch.data) && error == "")
                && (!refetch.Ok? ==> task == old(task) && error == LoadFailedMessage)
                && (b.storage, b.location) == Gateway.Settled(refetch, old(b.storage), old(b.location))
      ensures reply.Ok? && !reply.success ==>
                success == "" && error == "" && task == old(task) && showCompleteConfirm == old(showCompleteConfirm)
                && b.storage == old(b.storage) && b.location == old(b.location)
      ensures !reply.Ok? ==>
                success == "" && error == CaughtMessage(reply, CompleteFallback) && task == old(task)
                && showCompleteConfirm == old(showCompleteConfirm)
                && (b.storage, b.location) == Gateway.Settled(reply, old(b.storage), old(b.location))
    {
      completing := true;
      error := "";
      success := "";
      var delivered := Gateway.Receive(b, reply);
      if delivered.Ok? {
        if delivered.success {
          success := CompletedMessage;
          showCompleteConfirm := false;
          FetchTask(b, refetch);
        }
      } else {
        error := CaughtMessage(delivered, CompleteFallback);
      }
      completing := false;
    }

    /** `handlePaymentProofUpload`: without a chosen file only an error is
      shown. Otherwise the file is posted as `paymentProof`; a reply with
      `success` reports it, forgets the file and loads the task again; an
      error shows the server's message or the fallback and keeps the file.
      `uploadingPayment` ends cleared. */
    method UploadProof(b: Browser, reply: Reply<()>, refetch: Reply<Market.Task>)
      returns (sent: Option<seq<Part>>)
      modifies this, b
      ensures old(paymentProofFile).None? ==>
                sent.None? && error == SelectProofMessage && success == old(success)
                && task == old(task) && uploadingPayment == old(uploadingPayment) && unchanged(b)
                && loading == old(loading) && paymentProofFile == old(paymentProofFile)
      ensures old(paymentProofFile).Some? ==>
                sent == Some([FilePart("paymentProof", old(paymentProofFile).value)]) && !uploadingPayment
      ensures old(paymentProofFile).Some? && reply.Succeeded() ==>
                success == ProofUploadedMessage && paymentProofFile.None? && !loading
                && (refetch.Ok? ==> task == Some(refetch.data) && error == "")
                && (!refetch.Ok? ==> task == old(task) && error == LoadFailedMessage)
                && (b.storage, b.location) == Gateway.Settled(refetch, old(b.storage), old(b.location))
      ensures old(paymentProofFile).Some? && reply.Ok? && !reply.success ==>
                success == "" && error == "" && task == old(task) && paymentProofFile == old(paymentProofFile)
                && loading == old(loading)
                && b.storage == old(b.storage) && b.location == old(b.location)
      ensures old(paymentProofFile).Some? && !reply.Ok? ==>
                success == "" && error == CaughtMessage(reply, ProofFallback)
                && task == old(task) && paymentProofFile == old(paymentProofFile) && loading == old(loading)
                && (b.storage, b.location) == Gateway.Settled(reply, old(b.storage), old(b.location))
      ensures conversations == old(conversations) && completing == old(completing)
      ensures showDeleteConfirm == old(showDeleteConfirm) && showCompleteConfirm == old(showCompleteConfirm)
    {
      if paymentProofFile.None? {
        error := SelectProofMessage;
        return None;
      }
      uploadingPayment := true;
      error := "";
      success := "";
      sent := Some([FilePart("paymentProof", paymentProofFile.value)]);
      var delivered := Gateway.Receive(b, reply);
      if delivered.Ok? {
        if delivered.success {
          success := ProofUploadedMessage;
          paymentProofFile := None;
          FetchTask(b, refetch);
        }
      } else {
        error := CaughtMessage(delivered, ProofFallback);
      }
      uploadingPayment := false;
    }
  }
}
