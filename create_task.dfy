/** The task creation page: the form, the wards and posting fee derived from
    the reference data, the checks before sending, the multipart body, and the
    payment-proof step shown once the task exists. */
module CreateTask {
  import opened Js
  import opened Web
  import Gateway
  import Catalog

  const DefaultProvince := "Hue City"
  const RequiredMessage := "Please fill in all required fields"
  const ImagesMessage := "Please upload at least 2 images"
  const MinImages := 2
  const CreatedMessage := "Task created successfully!"
  const CreateFallback := "Unable to create task"
  const SelectProofMessage := "Please select a payment proof file"
  const ProofFailedMessage := "Unable to upload payment proof"
  const TasksPath := "/requester/tasks"

  datatype Form = Form(title: string, description: string, category: string, province: string,
                       ward: string, price: string, deadline: string)

  /** The form as the page opens: the default province, every other field empty. */
  const InitialForm := Form("", "", "", DefaultProvince, "", "", "")

  /** The wards after the effect on the province and the locations: the wards of
      the first location of that province when there is one; otherwise (no
      province, no locations yet, or an unknown province) they stay as they were. */
  function WardsAfter(province: string, locations: seq<Catalog.Location>, wards: seq<string>): (r: seq<string>)
    ensures province != "" && Catalog.Find(locations, Catalog.ProvinceOf, province).Some? ==>
              r == Catalog.Find(locations, Catalog.ProvinceOf, province).value.wards
    ensures province == "" || Catalog.Find(locations, Catalog.ProvinceOf, province).None? ==> r == wards
  {
    if province != "" && |locations| > 0 then
      var location := Catalog.Find(locations, Catalog.ProvinceOf, province);
      if location.Some? then location.value.wards else wards
    else wards
  }

  /** The posting fee after the effect on the category and the categories: the
      fee of the first category of that name when there is one; otherwise it stays. */
  function FeeAfter(category: string, categories: seq<Catalog.Category>, fee: int): (r: int)
    ensures category != "" && Catalog.Find(categories, Catalog.NameOf, category).Some? ==>
              r == Catalog.Find(categories, Catalog.NameOf, category).value.postingFee
    ensures category == "" || Catalog.Find(categories, Catalog.NameOf, category).None? ==> r == fee
  {
    if category != "" && |categories| > 0 then
      var found := Catalog.Find(categories, Catalog.NameOf, category);
      if found.Some? then found.value.postingFee else fee
    else fee
  }

  /** The six fields the page requires (the province always has a value from its list). */
  predicate Filled(f: Form) {
    f.title != "" && f.description != "" && f.category != "" && f.ward != "" && f.price != "" && f.deadline != ""
  }

  /** The message of the first failing check: the required fields, then at
      least two images. */
  function Validate(f: Form, imageCount: nat): (r: Option<string>)
    ensures r.None? <==> Filled(f) && imageCount >= MinImages
    ensures r == Some(RequiredMessage) <==> !Filled(f)
    ensures r == Some(ImagesMessage) <==> Filled(f) && imageCount < MinImages
  {
    if !Filled(f) then Some(RequiredMessage)
    else if imageCount < MinImages then Some(ImagesMessage)
    else None
  }

  /** The initial form is refused for its empty fields, whatever images were chosen. */
  lemma InitialFormRefused(imageCount: nat)
    ensures Validate(InitialForm, imageCount) == Some(RequiredMessage)
  {
  }

  const ProvinceOpen := "{\"province\":\""
  const WardOpen := "\",\"ward\":\""
  const LocationClose := "\"}"

  /** `JSON.stringify({province, ward})` for values it need not escape (no
      quotes, backslashes or control characters). For values without quotes,
      reading the text back gives the two values. */
  function LocationJson(province: string, ward: string): (j: string)
    ensures '"' !in province && '"' !in ward ==> ReadLocation(j) == Some((province, ward))
  {
    var j := ProvinceOpen + province + WardOpen + ward + LocationClose;
    if '"' in province || '"' in ward then j
    else
      assert j[..|ProvinceOpen|] == ProvinceOpen;
      assert j[|ProvinceOpen|..] == province + (WardOpen + ward + LocationClose);
      ReadsBack(province, WardOpen + ward + LocationClose, j[|ProvinceOpen|..]);
      assert (WardOpen + ward + LocationClose)[|WardOpen|..] == ward + LocationClose;
      ReadsBack(ward, LocationClose, ward + LocationClose);
      j
  }

  /** The length of the longest prefix of `s` without a quote. */
  function QuoteFree(s: string): (n: nat)
    ensures n <= |s| && '"' !in s[..n] && (n < |s| ==> s[n] == '"')
  {
    if s == [] || s[0] == '"' then 0 else 1 + QuoteFree(s[1..])
  }

  lemma {:induction false} QuoteFreePrefix(a: string, b: string)
    requires '"' !in a && b != [] && b[0] == '"'
    ensures QuoteFree(a + b) == |a|
  {
    if a == [] {
    } else {
      assert a[0] in a;
      assert (a + b)[1..] == a[1..] + b;
      QuoteFreePrefix(a[1..], b);
    }
  }

  /** A reader for the text of a location object whose values hold no quotes:
      the province up to the first quote after its key, then the ward. */
  function ReadLocation(j: string): Option<(string, string)> {
    if !StartsWith(j, ProvinceOpen) then None
    else
      var rest := j[|ProvinceOpen|..];
      var province := rest[..QuoteFree(rest)];
      var after := rest[QuoteFree(rest)..];
      if !StartsWith(after, WardOpen) then None
      else
        var tail := after[|WardOpen|..];
        if tail[QuoteFree(tail)..] != LocationClose then None
        else Some((province, tail[..QuoteFree(tail)]))
  }

  /** A quote-free value followed by a closing text that starts with a quote
      is read up to that quote. */
  lemma ReadsBack(v: string, close: string, s: string)
    requires '"' !in v && close != [] && close[0] == '"' && s == v + close
    ensures QuoteFree(s) == |v| && s[..|v|] == v && s[|v|..] == close
  {
    QuoteFreePrefix(v, close);
  }

  /** The fixed fields of the body, in append order. */
  function Head(f: Form): seq<Part> {
    [Field("title", f.title), Field("description", f.description), Field("category", f.category),
     Field("location", LocationJson(f.province, f.ward)), Field("price", f.price), Field("deadline", f.deadline)]
  }

  /** The body of the create request, built by successive appends and then one
      `images` part per chosen image, in the order they were chosen. */
  method BuildPayload(f: Form, images: seq<File>) returns (parts: seq<Part>)
    ensures |parts| == 6 + |images|
    ensures parts[..6] == Head(f)
    ensures forall j :: 0 <= j < |images| ==> parts[6 + j] == FilePart("images", images[j])
  {
    parts := [Field("title", f.title)];
    parts := parts + [Field("description", f.description)];
    parts := parts + [Field("category", f.category)];
    parts := parts + [Field("location", LocationJson(f.province, f.ward))];
    parts := parts + [Field("price", f.price)];
    parts := parts + [Field("deadline", f.deadline)];
    assert parts == Head(f);
    var i := 0;
    while i < |images|
      invariant 0 <= i <= |images|
      invariant |parts| == 6 + i
      invariant parts[..6] == Head(f)
      invariant forall j :: 0 <= j < i ==> parts[6 + j] == FilePart("images", images[j])
    {
      parts := parts + [FilePart("images", images[i])];
      i := i + 1;
    }
  }

  /** The page's state. */
  class Page {
    var form: Form
    var images: seq<File>
    var wards: seq<string>
    var postingFee: int
    var loading: bool
    var error: string
    var success: string
    var createdTaskId: string

    constructor ()
      ensures form == InitialForm && images == [] && wards == [] && postingFee == 0
      ensures !loading && error == "" && success == "" && createdTaskId == ""
    {
      form := InitialForm;
      images := [];
      wards := [];
      postingFee := 0;
      loading := false;
      error := "";
      success := "";
      createdTaskId := "";
    }

    /** The effect on the province and the fetched locations. */
    method SyncWards(locations: seq<Catalog.Location>)
      modifies this
      ensures wards == WardsAfter(form.province, locations, old(wards))
      ensures form == old(form) && postingFee == old(postingFee) && images == old(images)
      ensures loading == old(loading) && error == old(error) && success == old(success)
      ensures createdTaskId == old(createdTaskId)
    {
      if form.province != "" && |locations| > 0 {
        var location := Catalog.Find(locations, Catalog.ProvinceOf, form.province);
        if location.Some? {
          wards := location.value.wards;
        }
      }
    }

    /** The effect on the category and the fetched categories. */
    method SyncFee(categories: seq<Catalog.Category>)
      modifies this
      ensures postingFee == FeeAfter(form.category, categories, old(postingFee))
      ensures form == old(form) && wards == old(wards) && images == old(images)
      ensures loading == old(loading) && error == old(error) && success == old(success)
      ensures createdTaskId == old(createdTaskId)
    {
      if form.category != "" && |categories| > 0 {
        var found := Catalog.Find(categories, Catalog.NameOf, form.category);
        if found.Some? {
          postingFee := found.value.postingFee;
        }
      }
    }

    /** `handleSubmit`: a failing check sets its message and sends nothing;
      otherwise the body is sent, success records the new task's id (which
      switches the page to the payment-proof step), and an error shows the
      server's message or the fallback. `reply` carries the created task. */
    method Submit(b: Browser, reply: Reply<User>) returns (sent: Option<seq<Part>>)
      modifies this, b
      ensures form == old(form) && images == old(images) && wards == old(wards) && postingFee == old(postingFee)
      ensures Validate(form, |images|).Some? ==>
                sent.None? && error == Validate(form, |images|).value && success == ""
                && loading == old(loading) && createdTaskId == old(createdTaskId) && unchanged(b)
      ensures Validate(form, |images|).None? ==>
                sent.Some? && |sent.value| == 6 + |images| && sent.value[..6] == Head(form)
                && (forall j :: 0 <= j < |images| ==> sent.value[6 + j] == FilePart("images", images[j]))
                && !loading
      ensures Validate(form, |images|).None? && reply.Succeeded() ==>
                success == CreatedMessage && error == "" && createdTaskId == IdOf(reply.data)
      ensures Validate(form, |images|).None? && !reply.Succeeded() ==>
                success == "" && createdTaskId == old(createdTaskId)
                && error == (if reply.Ok? then "" else CaughtMessage(reply, CreateFallback))
      ensures Validate(form, |images|).None? ==> (b.storage, b.location) == Gateway.Settled(reply, old(b.storage), old(b.location))
    {
      error := "";
      success := "";
      sent := None;
      var check := Validate(form, |images|);
      if check.Some? {
        error := check.value;
        return;
      }
      loading := true;
      var body := BuildPayload(form, images);
      sent := Some(body);
      var delivered := Gateway.Receive(b, reply);
      if delivered.Ok? {
        if delivered.success {
          success := CreatedMessage;
          createdTaskId := IdOf(delivered.data);
        }
      } else {
        error := CaughtMessage(delivered, CreateFallback);
      }
      loading := false;
    }
  }

  /** The payment-proof step for a created task. */
  class ProofUpload {
    const taskId: string
    var proofFile: Option<File>
    var loading: bool
    var error: string

    constructor (taskId: string)
      ensures this.taskId == taskId && proofFile == None && !loading && error == ""
    {
      this.taskId := taskId;
      proofFile := None;
      loading := false;
      error := "";
    }

    /** `handleUpload`: without a file it only sets a message. With one it sends
      the `paymentProof` part; any 2xx reply, whatever its body says, leads on
      to the task list, and an error shows a fixed message (never the server's)
      and ends loading. `nav` is where `onSuccess` navigates. */
    method Upload(b: Browser, reply: Reply<()>) returns (sent: Option<seq<Part>>, nav: Option<string>)
      modifies this, b
      ensures proofFile == old(proofFile)
      ensures old(proofFile).None? ==> sent.None? && nav.None? && error == SelectProofMessage
                                       && loading == old(loading) && unchanged(b)
      ensures old(proofFile).Some? ==> sent == Some([FilePart("paymentProof", old(proofFile).value)])
      ensures old(proofFile).Some? && reply.Ok? ==> nav == Some(TasksPath) && error == "" && loading
      ensures old(proofFile).Some? && !reply.Ok? ==>
                nav.None? && error == ProofFailedMessage && !loading
      ensures old(proofFile).Some? ==> (b.storage, b.location) == Gateway.Settled(reply, old(b.storage), old(b.location))
    {
      sent := None;
      nav := None;
      if proofFile.None? {
        error := SelectProofMessage;
        return;
      }
      loading := true;
      error := "";
      sent := Some([FilePart("paymentProof", proofFile.value)]);
      var delivered := Gateway.Receive(b, reply);
      if delivered.Ok? {
        nav := Some(TasksPath);
      } else {
        error := ProofFailedMessage;
        loading := false;
      }
    }

    /** `handleSkip`: always leads on to the task list. */
    method Skip() returns (nav: Option<string>)
      ensures nav == Some(TasksPath)
    {
      nav := Some(TasksPath);
    }
  }
}
