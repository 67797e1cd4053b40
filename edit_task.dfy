/** The task edit page: only the description and the price can be changed;
    the title is shown but never sent. */
module EditTask {
  import opened Js
  import opened Web
  import Gateway

  const LoadFailedMessage := "Unable to load task information"
  const RequiredMessage := "Please fill in all required fields"
  const UpdatedMessage := "Task updated successfully!"
  const UpdateFallback := "Unable to update task"

  datatype EditForm = EditForm(description: string, price: string)

  /** A field of the fetched task, "" when it is missing. */
  function FieldOf(task: User, name: string): string {
    if name in task then task[name] else ""
  }

  /** The JSON body of the update: the two form fields and nothing else. */
  function EditBody(f: EditForm): (b: map<string, string>)
    ensures b.Keys == {"description", "price"}
    ensures "title" !in b
    ensures b["description"] == f.description && b["price"] == f.price
  {
    map["description" := f.description, "price" := f.price]
  }

  /** The page the update leads back to. */
  function DetailPath(id: string): (p: string)
    ensures StartsWith(p, "/requester/task/") && p[|"/requester/task/"|..] == id
  {
    "/requester/task/" + id
  }

  /** The page's state for the task `id`. */
  class Page {
    const id: string
    var form: EditForm
    var taskTitle: string
    var loading: bool
    var submitting: bool
    var error: string
    var success: string

    constructor (id: string)
      ensures this.id == id && form == EditForm("", "") && taskTitle == ""
      ensures loading && !submitting && error == "" && success == ""
    {
      this.id := id;
      form := EditForm("", "");
      taskTitle := "";
      loading := true;
      submitting := false;
      error := "";
      success := "";
    }

    /** `fetchTask`: a reply fills the title and the form from the task; an
      error sets a message and leaves the form alone. Loading ends either way.
      `reply` carries the task. */
    method FetchTask(b: Browser, reply: Reply<User>)
      modifies this, b
      ensures !loading && submitting == old(submitting) && success == old(success)
      ensures reply.Ok? ==> taskTitle == FieldOf(reply.data, "title") && error == old(error)
                            && form == EditForm(FieldOf(reply.data, "description"), FieldOf(reply.data, "price"))
      ensures !reply.Ok? ==> taskTitle == old(taskTitle) && form == old(form) && error == LoadFailedMessage
      ensures (b.storage, b.location) == Gateway.Settled(reply, old(b.storage), old(b.location))
    {
      var delivered := Gateway.Receive(b, reply);
      if delivered.Ok? {
        var task := delivered.data;
        taskTitle := FieldOf(task, "title");
        form := EditForm(FieldOf(task, "description"), FieldOf(task, "price"));
        loading := false;
      } else {
        error := LoadFailedMessage;
        loading := false;
      }
    }

    /** `handleSubmit`: both fields are required; any 2xx reply reports success
      and leads back to the task's page (after a delay) with `submitting` left
      set; an error shows the server's message or the fallback and ends
      `submitting`. */
    method Submit(b: Browser, reply: Reply<()>) returns (sent: Option<map<string, string>>, nav: Option<string>)
      modifies this, b
      ensures form == old(form) && taskTitle == old(taskTitle) && loading == old(loading)
      ensures form.description == "" || form.price == "" ==>
                sent.None? && nav.None? && error == RequiredMessage && success == ""
                && submitting == old(submitting) && unchanged(b)
      ensures form.description != "" && form.price != "" ==> sent == Some(EditBody(form))
      ensures form.description != "" && form.price != "" && reply.Ok? ==>
                success == UpdatedMessage && error == "" && submitting && nav == Some(DetailPath(id))
      ensures form.description != "" && form.price != "" && !reply.Ok? ==>
                success == "" && nav.None? && !submitting && error == CaughtMessage(reply, UpdateFallback)
      ensures form.description != "" && form.price != "" ==> (b.storage, b.location) == Gateway.Settled(reply, old(b.storage), old(b.location))
    {
      error := "";
      success := "";
      sent := None;
      nav := None;
      if form.description == "" || form.price == "" {
        error := RequiredMessage;
        return;
      }
      submitting := true;
      sent := Some(EditBody(form));
      var delivered := Gateway.Receive(b, reply);
      if delivered.Ok? {
        success := UpdatedMessage;
        nav := Some(DetailPath(id));
      } else {
        error := CaughtMessage(delivered, UpdateFallback);
        submitting := false;
      }
    }
  }
}
