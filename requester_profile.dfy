/** The requester's profile page: the edit form filled from the signed-in
    user, saving it, and the shared avatar and password settings. */
module RequesterProfile {
  import opened Js
  import opened Web
  import Gateway
  import Session
  import Account

  const RequiredMessage := "Please fill in all required fields"
  const SavedMessage := "Profile updated successfully!"
  const SaveFallback := "Unable to update profile"

  /** The profile edit form. */
  datatype ProfileForm = ProfileForm(fullName: string, dateOfBirth: string, email: string, phone: string)

  const EmptyForm := ProfileForm("", "", "", "")

  /** `s.split('T')[0]`: the text before the first `T`, all of it when there is none. */
  function DatePart(s: string): (r: string)
    ensures |r| <= |s| && r == s[..|r|]
    ensures 'T' !in r
    ensures |r| < |s| ==> s[|r|] == 'T'
  {
    if s == [] || s[0] == 'T' then [] else [s[0]] + DatePart(s[1..])
  }

  /** An ISO timestamp gives its calendar date; a bare date is kept as it is. */
  lemma {:induction false} DatePartOfTimestamp(date: string, time: string)
    requires 'T' !in date
    ensures DatePart(date + "T" + time) == date
    ensures DatePart(date) == date
  {
    var s := date + "T" + time;
    if date == [] {
      assert s[0] == 'T';
    } else {
      assert date[0] in date && s[0] == date[0];
      assert s[1..] == date[1..] + "T" + time;
      DatePartOfTimestamp(date[1..], time);
    }
  }

  /** The form the page shows for a user: each field the user's value or "",
      the date of birth cut at the time part. */
  function InitForm(u: User): (f: ProfileForm)
    ensures f.fullName == (if "fullName" in u then u["fullName"] else "")
    ensures f.email == (if "email" in u then u["email"] else "")
    ensures f.phone == (if "phone" in u then u["phone"] else "")
    ensures "dateOfBirth" !in u ==> f.dateOfBirth == ""
    ensures "dateOfBirth" in u ==> f.dateOfBirth == DatePart(u["dateOfBirth"]) && 'T' !in f.dateOfBirth
  {
    ProfileForm(
      if "fullName" in u then u["fullName"] else "",
      if "dateOfBirth" in u then DatePart(u["dateOfBirth"]) else "",
      if "email" in u then u["email"] else "",
      if "phone" in u then u["phone"] else "")
  }

  /** The JSON body of the profile update: the four form fields. */
  function ProfileBody(f: ProfileForm): (b: map<string, string>)
    ensures b.Keys == {"fullName", "dateOfBirth", "email", "phone"}
    ensures b["fullName"] == f.fullName && b["dateOfBirth"] == f.dateOfBirth
    ensures b["email"] == f.email && b["phone"] == f.phone
  {
    map["fullName" := f.fullName, "dateOfBirth" := f.dateOfBirth, "email" := f.email, "phone" := f.phone]
  }

  /** Saving the form the page shows and merging the reply's echo of it back
      into the user reproduces the same form. */
  lemma SaveThenReload(u: User)
    ensures InitForm(u + ProfileBody(InitForm(u))) == InitForm(u)
  {
    var f := InitForm(u);
    var v := u + ProfileBody(f);
    DatePartOfTimestamp(f.dateOfBirth, "");
    assert v["dateOfBirth"] == f.dateOfBirth;
  }

  /** The page's state: the profile form, the edit mode, and the settings it
      shares with the account page (including `loading`, `error` and `success`). */
  class Page {
    var form: ProfileForm
    var isEditing: bool
    const settings: Account.Settings

    constructor (settings: Account.Settings)
      ensures form == EmptyForm && !isEditing && this.settings == settings
    {
      form := EmptyForm;
      isEditing := false;
      this.settings := settings;
    }

    /** The effect on `user`: refill the form whenever there is a user. */
    method Sync()
      modifies this
      ensures settings.session.user.Some? ==> form == InitForm(settings.session.user.value)
      ensures settings.session.user.None? ==> form == old(form)
      ensures isEditing == old(isEditing)
    {
      var user := settings.session.user;
      if user.Some? {
        form := InitForm(user.value);
      }
    }

    /** `handleSubmit`: name and date of birth are required; a successful save
      merges the returned user into the session and leaves edit mode; an error
      shows the server's message or the fallback; a 2xx body with `success:
      false` shows nothing. `reply` carries the updated user. */
    method SaveProfile(reply: Reply<User>) returns (sent: Option<map<string, string>>)
      modifies this, settings, settings.session, settings.session.browser
      ensures form == old(form)
      ensures settings.avatarFile == old(settings.avatarFile) && settings.passwords == old(settings.passwords)
      ensures form.fullName == "" || form.dateOfBirth == "" ==>
                sent.None? && settings.error == RequiredMessage && settings.success == ""
                && isEditing == old(isEditing) && settings.loading == old(settings.loading)
                && unchanged(settings.session, settings.session.browser)
      ensures form.fullName != "" && form.dateOfBirth != "" ==> sent == Some(ProfileBody(form)) && !settings.loading
      ensures form.fullName != "" && form.dateOfBirth != "" && reply.Succeeded() ==>
                settings.session.user == Some(Session.Spread(old(settings.session.user)) + reply.data)
                && settings.success == SavedMessage && settings.error == "" && !isEditing
                && settings.session.browser.storage
                   == Durable(old(settings.session.browser.storage.token), settings.session.user)
                && settings.session.browser.location == old(settings.session.browser.location)
      ensures form.fullName != "" && form.dateOfBirth != "" && !reply.Succeeded() ==>
                settings.session.user == old(settings.session.user) && settings.success == ""
                && isEditing == old(isEditing)
                && settings.error == (if reply.Ok? then "" else CaughtMessage(reply, SaveFallback))
                && (settings.session.browser.storage, settings.session.browser.location)
                   == Gateway.Settled(reply, old(settings.session.browser.storage), old(settings.session.browser.location))
      ensures form.fullName != "" && form.dateOfBirth != "" ==> settings.session.loading == old(settings.session.loading)
    {
      settings.error := "";
      settings.success := "";
      sent := None;
      if form.fullName == "" || form.dateOfBirth == "" {
        settings.error := RequiredMessage;
        return;
      }
      settings.loading := true;
      sent := Some(ProfileBody(form));
      var delivered := Gateway.Receive(settings.session.browser, reply);
      if delivered.Ok? {
        if delivered.success {
          settings.session.UpdateUser(delivered.data);
          settings.success := SavedMessage;
          isEditing := false;
        }
      } else {
        settings.error := CaughtMessage(delivered, SaveFallback);
      }
      settings.loading := false;
    }
  }
}
