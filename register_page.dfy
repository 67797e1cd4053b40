/** The sign-up page: an ordered chain of checks on the form, the multipart
    body it sends, and what it does with the session store's answer. */
module RegisterPage {
  import opened Js
  import opened Web
  import Gateway
  import Session

  /** The registration form's fields. */
  datatype Form = Form(fullName: string, dateOfBirth: string, email: string, phone: string,
                       password: string, confirmPassword: string)

  const InitialForm := Form("", "", "", "", "", "")

  const RequiredMessage := "Please fill in all required fields"
  const ContactMessage := "Please provide email or phone number"
  const MismatchMessage := "Password confirmation does not match"
  const LengthMessage := "Password must be at least 6 characters"
  const MinPasswordLength := 6

  predicate HasRequired(f: Form) {
    f.fullName != "" && f.dateOfBirth != "" && f.password != ""
  }

  predicate HasContact(f: Form) {
    f.email != "" || f.phone != ""
  }

  /** The message the first failing check shows, or `None` when the form may be
      sent. Each message is shown only when every earlier check has passed. */
  function Validate(f: Form): (r: Option<string>)
    ensures r.None? <==> HasRequired(f) && HasContact(f) && f.password == f.confirmPassword
                         && JsLength(f.password) >= MinPasswordLength
    ensures r == Some(RequiredMessage) <==> !HasRequired(f)
    ensures r == Some(ContactMessage) <==> HasRequired(f) && !HasContact(f)
    ensures r == Some(MismatchMessage) <==> HasRequired(f) && HasContact(f) && f.password != f.confirmPassword
    ensures r == Some(LengthMessage) <==> HasRequired(f) && HasContact(f) && f.password == f.confirmPassword
                                           && JsLength(f.password) < MinPasswordLength
  {
    if !HasRequired(f) then Some(RequiredMessage)
    else if !HasContact(f) then Some(ContactMessage)
    else if f.password != f.confirmPassword then Some(MismatchMessage)
    else if JsLength(f.password) < MinPasswordLength then Some(LengthMessage)
    else None
  }

  /** A password of exactly six characters is long enough; five is not. */
  lemma LengthBoundary(f: Form)
    requires HasRequired(f) && HasContact(f) && f.password == f.confirmPassword
    ensures |f.password| >= MinPasswordLength ==> Validate(f).None?
    ensures JsLength(f.password) == MinPasswordLength - 1 ==> Validate(f) == Some(LengthMessage)
  {
  }

  /** `if (value) formData.append(name, value)` */
  function Optional(name: string, value: string): (r: seq<Part>)
    ensures value != "" ==> r == [Field(name, value)]
    ensures value == "" ==> r == []
  {
    if value != "" then [Field(name, value)] else []
  }

  /** The form data the page sends, in append order. */
  function Payload(f: Form, proof: Option<File>): seq<Part> {
    [Field("fullName", f.fullName), Field("dateOfBirth", f.dateOfBirth)]
    + Optional("email", f.email) + Optional("phone", f.phone)
    + [Field("password", f.password), Field("confirmPassword", f.confirmPassword)]
    + (if proof.Some? then [FilePart("proofOfExperience", proof.value)] else [])
  }

  /** The body starts with the name and date of birth, always carries both
      passwords with their values, carries email and phone with their values
      when filled in, and ends with the chosen proof of experience if any. */
  lemma PayloadLayout(f: Form, proof: Option<File>)
    ensures var parts := Payload(f, proof);
      && |parts| == 4 + (if f.email != "" then 1 else 0) + (if f.phone != "" then 1 else 0)
                      + (if proof.Some? then 1 else 0)
      && parts[..2] == [Field("fullName", f.fullName), Field("dateOfBirth", f.dateOfBirth)]
      && (f.email != "" ==> Field("email", f.email) in parts)
      && (f.phone != "" ==> Field("phone", f.phone) in parts)
      && Field("password", f.password) in parts && Field("confirmPassword", f.confirmPassword) in parts
      && (proof.Some? ==> parts[|parts| - 1] == FilePart("proofOfExperience", proof.value))
      && (proof.None? ==> forall i :: 0 <= i < |parts| ==> parts[i].Field?)
  {
  }

  /** The names the body carries: the four fixed ones, email and phone when
      filled in, the proof when a file was chosen, and nothing else. */
  lemma PayloadHas(f: Form, proof: Option<File>, n: string)
    ensures HasPart(Payload(f, proof), n) <==>
      n == "fullName" || n == "dateOfBirth" || n == "password" || n == "confirmPassword"
      || (n == "email" && f.email != "") || (n == "phone" && f.phone != "")
      || (n == "proofOfExperience" && proof.Some?)
  {
    var head := [Field("fullName", f.fullName), Field("dateOfBirth", f.dateOfBirth)];
    var contact := Optional("email", f.email) + Optional("phone", f.phone);
    var passwords := [Field("password", f.password), Field("confirmPassword", f.confirmPassword)];
    var file: seq<Part> := if proof.Some? then [FilePart("proofOfExperience", proof.value)] else [];
    assert Payload(f, proof) == head + contact + passwords + file;
    NamesOfPieces(head, contact, passwords, file, n);
    HasPartOfFew(head[0], head[1], n);
    HasPartOfFew(passwords[0], passwords[1], n);
    HasPartConcat(Optional("email", f.email), Optional("phone", f.phone), n);
    HasPartOfFew(Field("email", f.email), Field("email", f.email), n);
    HasPartOfFew(Field("phone", f.phone), Field("phone", f.phone), n);
    if proof.Some? {
      HasPartOfFew(file[0], file[0], n);
    }
  }

  /** The body carries an email, a phone or a proof part exactly when that
      field was filled in or a file was chosen. */
  lemma PayloadNames(f: Form, proof: Option<File>)
    ensures var parts := Payload(f, proof);
      && (HasPart(parts, "email") <==> f.email != "")
      && (HasPart(parts, "phone") <==> f.phone != "")
      && (HasPart(parts, "proofOfExperience") <==> proof.Some?)
  {
    PayloadHas(f, proof, "email");
    PayloadHas(f, proof, "phone");
    PayloadHas(f, proof, "proofOfExperience");
  }

  lemma NamesOfPieces(a: seq<Part>, b: seq<Part>, c: seq<Part>, d: seq<Part>, n: string)
    ensures HasPart(a + b + c + d, n) <==> HasPart(a, n) || HasPart(b, n) || HasPart(c, n) || HasPart(d, n)
  {
    HasPartConcat(a, b, n);
    HasPartConcat(a + b, c, n);
    HasPartConcat(a + b + c, d, n);
  }

  /** The form data sent to the server, built by successive appends. */
  method BuildPayload(f: Form, proof: Option<File>) returns (parts: seq<Part>)
    ensures parts == Payload(f, proof)
  {
    parts := [Field("fullName", f.fullName)];
    parts := parts + [Field("dateOfBirth", f.dateOfBirth)];
    if f.email != "" {
      parts := parts + [Field("email", f.email)];
    }
    if f.phone != "" {
      parts := parts + [Field("phone", f.phone)];
    }
    parts := parts + [Field("password", f.password)];
    parts := parts + [Field("confirmPassword", f.confirmPassword)];
    if proof.Some? {
      parts := parts + [FilePart("proofOfExperience", proof.value)];
    }
  }

  /** The page's state. */
  class Page {
    var form: Form
    var proofFile: Option<File>
    var error: string
    var loading: bool
    const session: Session.SessionStore

    constructor (session: Session.SessionStore)
      ensures form == InitialForm && proofFile == None && error == "" && !loading
      ensures this.session == session
    {
      form := InitialForm;
      proofFile := None;
      error := "";
      loading := false;
      this.session := session;
    }

    /** `handleSubmit`: a failed check sets its message and makes no call; a valid
      form is sent, and success navigates to the role chooser while failure shows
      the store's message. `sent` is the body handed to `register`, `nav` the
      navigation target. */
    method Submit(reply: Reply<User>) returns (sent: Option<seq<Part>>, nav: Option<string>)
      modifies this, session, session.browser
      ensures form == old(form) && proofFile == old(proofFile)
      ensures loading == (old(loading) && Validate(form).Some?)
      ensures Validate(form).Some? ==> error == Validate(form).value && sent.None? && nav.None?
                                       && unchanged(session, session.browser)
      ensures Validate(form).None? ==> sent == Some(Payload(form, proofFile))
                                       && (HasPart(sent.value, "email") <==> form.email != "")
                                       && (HasPart(sent.value, "phone") <==> form.phone != "")
                                       && (HasPart(sent.value, "proofOfExperience") <==> proofFile.Some?)
      ensures Validate(form).None? && Session.RegisterResult(reply).Succeeded? ==>
                nav == Some("/choose-role") && error == "" && session.user == Some(Session.RegisterResult(reply).user)
                && session.browser.storage == Session.Committed(reply.data)
                && session.browser.location == old(session.browser.location)
      ensures Validate(form).None? && Session.RegisterResult(reply).Failed? ==>
                nav.None? && error == Session.RegisterResult(reply).message && error != ""
                && session.user == old(session.user)
                && (session.browser.storage, session.browser.location) == Gateway.Settled(reply, old(session.browser.storage), old(session.browser.location))
      ensures Validate(form).None? ==> session.loading == old(session.loading)
    {
      error := "";
      nav := None;
      sent := None;
      var check := Validate(form);
      if check.Some? {
        error := check.value;
        return;
      }
      loading := true;
      var body := BuildPayload(form, proofFile);
      PayloadNames(form, proofFile);
      sent := Some(body);
      var result := session.Register(reply);
      if result.Succeeded? {
        nav := Some("/choose-role");
      } else {
        error := result.message;
      }
      loading := false;
    }
  }
}
