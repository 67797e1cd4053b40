/** The account settings both the administrator's account page and the
    requester's profile page offer, with the same handlers: choosing and
    uploading an avatar, and changing the password. */
module Account {
  import opened Js
  import opened Web
  import Gateway
  import Session

  const AvatarLimit := 5 * 1024 * 1024
  const TooLargeMessage := "File too large! Please select an image under 5MB"
  const SelectImageMessage := "Please select an image"
  const AvatarSuccess := "Avatar updated successfully!"
  const AvatarFallback := "Unable to upload avatar"

  const FillAllMessage := "Please fill in all fields"
  const MismatchMessage := "New passwords do not match"
  const LengthMessage := "New password must be at least 6 characters"
  const MinPasswordLength := 6
  const PasswordSuccess := "Password changed successfully!"
  const PasswordFallback := "Unable to change password. Please check your current password."

  /** An image is accepted when it is at most 5 MiB. */
  predicate AvatarAccepted(f: File) {
    f.size <= AvatarLimit
  }

  /** The limit is inclusive: exactly 5 MiB is accepted, one byte more is not. */
  lemma AvatarLimitInclusive(name: string)
    ensures AvatarAccepted(File(name, 5242880))
    ensures !AvatarAccepted(File(name, 5242881))
  {
  }

  /** The password-change form. */
  datatype PasswordForm = PasswordForm(currentPassword: string, newPassword: string, confirmPassword: string)

  const EmptyPasswords := PasswordForm("", "", "")

  predicate AllFilled(p: PasswordForm) {
    p.currentPassword != "" && p.newPassword != "" && p.confirmPassword != ""
  }

  /** The message of the first failing check, in the order: every field filled
      in, the new password confirmed, the new password long enough. */
  function ValidatePassword(p: PasswordForm): (r: Option<string>)
    ensures r.None? <==> AllFilled(p) && p.newPassword == p.confirmPassword
                         && JsLength(p.newPassword) >= MinPasswordLength
    ensures r == Some(FillAllMessage) <==> !AllFilled(p)
    ensures r == Some(MismatchMessage) <==> AllFilled(p) && p.newPassword != p.confirmPassword
    ensures r == Some(LengthMessage) <==> AllFilled(p) && p.newPassword == p.confirmPassword
                                           && JsLength(p.newPassword) < MinPasswordLength
  {
    if !AllFilled(p) then Some(FillAllMessage)
    else if p.newPassword != p.confirmPassword then Some(MismatchMessage)
    else if JsLength(p.newPassword) < MinPasswordLength then Some(LengthMessage)
    else None
  }

  /** The cleared form is never valid, so a second submit after a successful
      change stops at the first check. */
  lemma ClearedFormRejected()
    ensures ValidatePassword(EmptyPasswords) == Some(FillAllMessage)
  {
  }

  /** The JSON body of the password change: the confirmation is not sent. */
  function PasswordBody(p: PasswordForm): (b: map<string, string>)
    ensures b.Keys == {"currentPassword", "newPassword"}
    ensures b["currentPassword"] == p.currentPassword && b["newPassword"] == p.newPassword
  {
    map["currentPassword" := p.currentPassword, "newPassword" := p.newPassword]
  }

  /** A successful avatar upload changes only `avatarUrl` of the user. */
  lemma AvatarMergeChangesOnlyUrl(u: User, url: string)
    ensures var v := Session.Spread(Some(u)) + map["avatarUrl" := url];
      v["avatarUrl"] == url && v.Keys == u.Keys + {"avatarUrl"}
      && forall k :: k in u && k != "avatarUrl" ==> v[k] == u[k]
  {
    Session.UpdateMerges(u, map["avatarUrl" := url]);
  }

  /** The avatar and password state of one settings page. */
  class Settings {
    var avatarFile: Option<File>
    var passwords: PasswordForm
    var loading: bool
    var error: string
    var success: string
    const session: Session.SessionStore

    constructor (session: Session.SessionStore)
      ensures avatarFile == None && passwords == EmptyPasswords && !loading && error == "" && success == ""
      ensures this.session == session
    {
      avatarFile := None;
      passwords := EmptyPasswords;
      loading := false;
      error := "";
      success := "";
      this.session := session;
    }

    /** `handleAvatarChange`: no file changes nothing; a file over the limit is
      refused with a message; any other file is kept and the error cleared. */
    method ChooseAvatar(file: Option<File>)
      modifies this
      ensures file.None? ==> avatarFile == old(avatarFile) && error == old(error)
      ensures file.Some? && !AvatarAccepted(file.value) ==> avatarFile == old(avatarFile) && error == TooLargeMessage
      ensures file.Some? && AvatarAccepted(file.value) ==> avatarFile == file && error == ""
      ensures passwords == old(passwords) && loading == old(loading) && success == old(success)
    {
      if file.Some? {
        if file.value.size > 5 * 1024 * 1024 {
          error := TooLargeMessage;
          return;
        }
        avatarFile := file;
        error := "";
      }
    }

    /** `handleAvatarUpload`: without a chosen file it only sets a message. With
      one it sends it as the `avatar` part; success merges the new `avatarUrl`
      into the session user and forgets the file, an error shows the server's
      message or the fallback. `reply` carries the new `avatarUrl`. */
    method UploadAvatar(reply: Reply<string>) returns (sent: Option<seq<Part>>)
      modifies this, session, session.browser
      ensures passwords == old(passwords)
      ensures old(avatarFile).None? ==> sent.None? && error == SelectImageMessage && avatarFile.None?
                                        && loading == old(loading) && success == old(success)
                                        && unchanged(session, session.browser)
      ensures old(avatarFile).Some? ==> sent == Some([FilePart("avatar", old(avatarFile).value)]) && !loading
                                        && session.loading == old(session.loading)
      ensures old(avatarFile).Some? && reply.Succeeded() ==>
                session.user == Some(Session.Spread(old(session.user)) + map["avatarUrl" := reply.data])
                && success == AvatarSuccess && error == "" && avatarFile.None?
                && session.browser.storage == Durable(old(session.browser.storage.token), session.user)
                && session.browser.location == old(session.browser.location)
      ensures old(avatarFile).Some? && reply.Ok? && !reply.success ==>
                session.user == old(session.user) && success == "" && error == "" && avatarFile == old(avatarFile)
                && session.browser.storage == old(session.browser.storage)
                && session.browser.location == old(session.browser.location)
      ensures old(avatarFile).Some? && !reply.Ok? ==>
                session.user == old(session.user) && success == "" && avatarFile == old(avatarFile)
                && error == CaughtMessage(reply, AvatarFallback)
                && (session.browser.storage, session.browser.location)
                   == Gateway.Settled(reply, old(session.browser.storage), old(session.browser.location))
    {
      sent := None;
      if avatarFile.None? {
        error := SelectImageMessage;
        return;
      }
      loading := true;
      error := "";
      success := "";
      sent := Some([FilePart("avatar", avatarFile.value)]);
      var delivered := Gateway.Receive(session.browser, reply);
      if delivered.Ok? {
        if delivered.success {
          session.UpdateUser(map["avatarUrl" := delivered.data]);
          success := AvatarSuccess;
          avatarFile := None;
        }
      } else {
        error := CaughtMessage(delivered, AvatarFallback);
      }
      loading := false;
    }

    /** `handlePasswordSubmit`: a failing check sets its message and sends
      nothing; otherwise the current and new passwords are sent, success clears
      all three fields, an error shows the server's message or the fallback. */
    method SubmitPassword(reply: Reply<()>) returns (sent: Option<map<string, string>>)
      modifies this, session.browser
      ensures avatarFile == old(avatarFile)
      ensures ValidatePassword(old(passwords)).Some? ==>
                sent.None? && error == ValidatePassword(old(passwords)).value && success == ""
                && passwords == old(passwords) && loading == old(loading) && unchanged(session.browser)
      ensures ValidatePassword(old(passwords)).None? ==> sent == Some(PasswordBody(old(passwords))) && !loading
      ensures ValidatePassword(old(passwords)).None? && reply.Succeeded() ==>
                passwords == EmptyPasswords && success == PasswordSuccess && error == ""
      ensures ValidatePassword(old(passwords)).None? && !reply.Succeeded() ==>
                passwords == old(passwords) && success == ""
                && error == (if reply.Ok? then "" else CaughtMessage(reply, PasswordFallback))
      ensures ValidatePassword(old(passwords)).None? ==>
                (session.browser.storage, session.browser.location) == Gateway.Settled(reply, old(session.browser.storage), old(session.browser.location))
    {
      error := "";
      success := "";
      sent := None;
      var check := ValidatePassword(passwords);
      if check.Some? {
        error := check.value;
        return;
      }
      loading := true;
      sent := Some(PasswordBody(passwords));
      var delivered := Gateway.Receive(session.browser, reply);
      if delivered.Ok? {
        if delivered.success {
          success := PasswordSuccess;
          passwords := EmptyPasswords;
        }
      } else {
        error := CaughtMessage(delivered, PasswordFallback);
      }
      loading := false;
    }
  }
}
