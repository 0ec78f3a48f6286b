/** The profile edit form (application/frontend/src/components/ProfileEditForm.jsx):
    its initial state, photo selection, and the submit handler that sends
    the form as multipart data and stores a reissued token. */
module ProfileEditForm {

  import opened Wrappers
  import opened Text
  import opened Api
  import opened Ui

  /** A JavaScript value that is a string, `null` or `undefined`. */
  datatype JsText = Text(s: string) | Null | Undefined

  predicate TruthyText(v: JsText) {
    v.Text? && v.s != ""
  }

  /** `String(v)`, which `FormData.append` applies to non-file values. */
  function JsString(v: JsText): (r: string)
    ensures v.Text? ==> r == v.s
  {
    match v
    case Text(s) => s
    case Null => "null"
    case Undefined => "undefined"
  }

  /** The photo state: a picked `File`, or the URL string the profile
      object carried. */
  datatype Photo = FilePhoto(file: File) | UrlPhoto(url: string)

  predicate TruthyPhoto(p: Option<Photo>) {
    p.Some? && (p.value.UrlPhoto? ==> p.value.url != "")
  }

  /** The `profile` prop, with the keys the form reads. */
  datatype Profile = Profile(
    name: JsText, email: JsText, username: JsText, gender: JsText, birthdate: JsText,
    photo: Option<Photo>)

  /** The form's state: the text fields, the photo and its preview. */
  datatype EditState = EditState(
    name: JsText, email: JsText, username: JsText, gender: JsText, birthdate: JsText,
    photo: Option<Photo>, preview: Option<Photo>)

  /** The state on mount. */
  function Init(p: Profile): (s: EditState)
    ensures TruthyText(p.gender) ==> s.gender == p.gender
    ensures !TruthyText(p.gender) ==> s.gender == Text("Male")
    ensures s.name == p.name && s.email == p.email && s.username == p.username && s.birthdate == p.birthdate
    ensures s.photo == (if TruthyPhoto(p.photo) then p.photo else None)
    ensures s.photo == s.preview
  {
    var photo := if TruthyPhoto(p.photo) then p.photo else None;
    EditState(p.name, p.email, p.username, if TruthyText(p.gender) then p.gender else Text("Male"),
              p.birthdate, photo, photo)
  }

  /** `handlePhotoChange` and `handleDrop`: the first selected file becomes
      the photo and its object URL the preview; an empty selection changes
      nothing. */
  function PickPhoto(s: EditState, files: seq<File>, objectUrl: string): (r: EditState)
    ensures |files| == 0 ==> r == s
    ensures |files| > 0 ==> r == s.(photo := Some(FilePhoto(files[0])), preview := Some(UrlPhoto(objectUrl)))
  {
    if |files| > 0 then s.(photo := Some(FilePhoto(files[0])), preview := Some(UrlPhoto(objectUrl))) else s
  }

  const TextFields: seq<string> := ["full_name", "email", "username", "gender", "birth_date"]

  /** The `FormData` built by `handleSubmit`. */
  function FormParts(s: EditState): (parts: seq<(string, Part)>)
    ensures |parts| == 5 || |parts| == 6
    ensures forall i :: 0 <= i < 5 ==> parts[i].0 == TextFields[i]
    ensures parts[0].1 == TextPart(JsString(s.name)) && parts[1].1 == TextPart(JsString(s.email))
    ensures parts[2].1 == TextPart(JsString(s.username)) && parts[3].1 == TextPart(JsString(s.gender))
    ensures parts[4].1 == TextPart(JsString(s.birthdate))
    ensures |parts| == 6 <==> s.photo.Some? && s.photo.value.FilePhoto?
    ensures |parts| == 6 ==> parts[5] == ("file", FilePart(s.photo.value.file))
  {
    var fields := [("full_name", TextPart(JsString(s.name))), ("email", TextPart(JsString(s.email))),
                   ("username", TextPart(JsString(s.username))), ("gender", TextPart(JsString(s.gender))),
                   ("birth_date", TextPart(JsString(s.birthdate)))];
    if s.photo.Some? && s.photo.value.FilePhoto? then fields + [("file", FilePart(s.photo.value.file))] else fields
  }

  /** The reply field the handler reads. */
  datatype ProfileReply = ProfileReply(accessToken: Option<string>)

  /** The request sent, the store afterwards, whether `onSave` was called,
      and the toast. */
  datatype SubmitOutcome = SubmitOutcome(sent: Request, store: TokenStore, saved: bool, toast: Toast)

  /** `handleSubmit`; `hasOnSave` says whether the `onSave` prop was given. */
  function Submit(s: EditState, store: TokenStore, hasOnSave: bool, resp: Response<ProfileReply>)
    : (r: SubmitOutcome)
    ensures r.sent.verb == Put && r.sent.path == "/account/profile"
    ensures r.sent.body == FormBody(FormParts(s)) && ContentType !in r.sent.headers
    ensures Settle(resp).Err? ==> r.store == store && !r.saved && r.toast == ErrorToast("Failed to update profile")
    ensures Settle(resp).Ok? ==> r.saved == hasOnSave
    ensures Settle(resp).Ok? && Truthy(Settle(resp).value.accessToken) ==> r.store == Settle(resp).value.accessToken
    ensures !(Settle(resp).Ok? && Truthy(Settle(resp).value.accessToken)) ==> r.store == store
  {
    var ex := PutData(store, "/account/profile", FormBody(FormParts(s)), resp);
    match ex.result
    case Err(_) => SubmitOutcome(ex.sent, store, false, ErrorToast("Failed to update profile"))
    case Ok(data) =>
      var toast := if hasOnSave then SuccessToast("Profile updated successfully") else NoToast;
      var store' := if Truthy(data.accessToken) then data.accessToken else store;
      SubmitOutcome(ex.sent, store', hasOnSave, toast)
  }

  /** Without a new pick, the photo the profile came with is never sent. */
  lemma InitialPhotoNotResent(p: Profile, store: TokenStore, hasOnSave: bool, resp: Response<ProfileReply>)
    requires p.photo.None? || p.photo.value.UrlPhoto?
    ensures |Submit(Init(p), store, hasOnSave, resp).sent.body.parts| == 5
  {
  }

  /** A picked file is what the next save uploads: it goes last, as the
      sixth part, under the name "file". */
  lemma PickedPhotoIsSent(s: EditState, files: seq<File>, objectUrl: string,
                          store: TokenStore, hasOnSave: bool, resp: Response<ProfileReply>)
    requires |files| > 0
    ensures var body := Submit(PickPhoto(s, files, objectUrl), store, hasOnSave, resp).sent.body;
            && body.FormBody? && |body.parts| == 6
            && body.parts[5] == ("file", FilePart(files[0]))
  {
  }
}
