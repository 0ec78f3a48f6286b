/** Account routes (application/backend/routers/user_router.py): the
    bearer-token check every protected route depends on, profile update
    and account deletion. */
module UserRouter {

  import opened Wrappers
  import opened Text
  import opened Tables
  import opened Crypto
  import opened Auth

  /** The 401 `get_current_user` raises for every kind of bad credential. */
  function CredentialsError(): HttpError {
    HttpError(401, "Could not validate credentials", map["WWW-Authenticate" := "Bearer"])
  }

  /** `get_current_user`: the token must decode, carry a `sub`, and name an
      existing user; anything else is the same 401. */
  function CurrentUser(users: Users, token: string, now: int, crypto: Primitives): (r: Result<int, HttpError>)
    ensures r.Ok? <==> && crypto.decode(token, now).Some?
                       && crypto.decode(token, now).value.sub.Some?
                       && UsernameTaken(users, crypto.decode(token, now).value.sub.value)
    ensures r.Ok? ==> r.value in users && users[r.value].username == crypto.decode(token, now).value.sub.value
    ensures r.Err? ==> r.error == CredentialsError()
  {
    match crypto.decode(token, now)
    case None => Err(CredentialsError())
    case Some(claims) =>
      match claims.sub
      case None => Err(CredentialsError())
      case Some(name) =>
        match FindByUsername(users, name)
        case None => Err(CredentialsError())
        case Some(id) => Ok(id)
  }

  /** A token from a successful login identifies, until it expires, the
      user who logged in. */
  lemma {:induction false} LoginTokenAuthenticates(users: Users, email: string, password: string, env: Env, now: int, later: int)
    requires Unique(users)
    requires TokensRoundTrip(env.crypto)
    requires Login(users, Some(email), password, env, now).Ok?
    requires later <= Expiry(now, None, env.expireMinutes)
    ensures var id := CurrentUser(users, Login(users, Some(email), password, env, now).value, later, env.crypto);
            id.Ok? && id.value in users && users[id.value].email == email
  {
    var token := Login(users, Some(email), password, env, now).value;
    var owner := FindByEmail(users, email).value;
    TokenCarriesClaims(env, users[owner].username, now, None, later);
    var id := CurrentUser(users, token, later, env.crypto);
    assert id.Ok?;
    assert users[id.value].username == users[owner].username;
  }

  /** The decimal digits of a non-negative number. */
  function Digits(n: nat): (r: string)
    ensures |r| >= 1
    ensures forall i :: 0 <= i < |r| ==> '0' <= r[i] <= '9'
  {
    var d := ['0' + (n % 10) as char];
    if n < 10 then d else Digits(n / 10) + d
  }

  /** Python's `str` of an integer. */
  function IntText(n: int): string {
    if n < 0 then "-" + Digits(-n) else Digits(n)
  }

  /** An uploaded file: its name and the content type the client sent,
      which Starlette leaves as None when the part has none. */
  datatype Upload = Upload(filename: string, contentType: Option<string>)

  /** The upload check of `update_profile`. */
  predicate IsImageType(contentType: string) {
    var t := Lower(contentType);
    StartsWith(t, "image/") || EndsWith(t, "jpeg") || EndsWith(t, "jpg") || EndsWith(t, "png")
  }

  /** The check ignores the case of the content type. */
  lemma {:induction false} ImageTypeIgnoresCase(contentType: string)
    ensures IsImageType(contentType) <==> IsImageType(Lower(contentType))
  {
    LowerIdempotent(contentType);
  }

  /** Every `image/...` type passes, whatever its case, and so does any
      type ending in an image extension, `image/` or not. */
  lemma ImageTypeExamples()
    ensures IsImageType("image/png") && IsImageType("IMAGE/GIF")
    ensures IsImageType("application/jpg")
  {
    assert Lower("IMAGE/GIF") == "image/gif";
  }

  /** A type that is neither `image/...` nor ends in an image extension is
      refused. */
  lemma NonImageTypeRefused()
    ensures !IsImageType("application/pdf")
  {
    var t := Lower("application/pdf");
    assert t[0] == 'a' && t[|t| - 1] == 'f';
    assert t[..|"image/"|][0] == 'a';
    assert t[|t| - 4..][3] == 'f' && t[|t| - 3..][2] == 'f';
  }

  /** The name under which an accepted upload is stored. */
  function StoredImageName(id: int, filename: string): string {
    "user_" + IntText(id) + "_" + filename
  }

  /** The multipart form fields of `PUT /account/profile`; an omitted
      field is None. */
  datatype ProfileForm = ProfileForm(
    fullName: Option<string>,
    email: Option<string>,
    username: Option<string>,
    gender: Option<string>,
    birthDate: Option<string>)

  /** The reply of a successful update (schemas.UpdateProfileOutput). */
  datatype ProfileUpdated = ProfileUpdated(
    message: string,
    profileImage: string,
    accessToken: Option<string>,
    gender: Option<string>)

  /** The table afterwards, the reply, and the stored image deleted from
      disk, if any. */
  datatype ProfileResult = ProfileResult(
    users: Users,
    reply: Result<ProfileUpdated, HttpError>,
    removedImage: Option<string>)

  const NotFound := HttpError(404, "User not found", map[])
  const InvalidFileType := HttpError(400, "Invalid file type. Only images are allowed.", map[])
  /** An exception the route does not catch (a date `strptime` rejects, a
      missing content type, a violated unique constraint at commit). */
  const ServerError := HttpError(500, "Internal Server Error", map[])

  /** Overwrites a field iff a value was supplied. */
  function Overwrite<T>(prior: T, supplied: Option<T>): (r: T)
    ensures supplied.Some? ==> r == supplied.value
    ensures supplied.None? ==> r == prior
  {
    if supplied.Some? then supplied.value else prior
  }

  /** The date check passes: no birth date was supplied, or it parses. */
  predicate DateParses(form: ProfileForm, parseDate: string -> Option<nat>) {
    form.birthDate.Some? ==> parseDate(form.birthDate.value).Some?
  }

  /** The upload check passes: no file was sent, or its type is an image. */
  predicate FileAccepted(file: Option<Upload>) {
    file.Some? ==> file.value.contentType.Some? && IsImageType(file.value.contentType.value)
  }

  /** The row as `update_profile` leaves it for commit, or the exception it
      raises on the way: the date is parsed while fields are assigned, the
      file is checked after. */
  function Stage(
    u: User, id: int, form: ProfileForm, file: Option<Upload>,
    parseDate: string -> Option<nat>, mediaFolder: string): (r: Result<User, HttpError>)
    ensures r.Ok? <==> DateParses(form, parseDate) && FileAccepted(file)
    ensures !DateParses(form, parseDate) ==> r == Err(ServerError)
    ensures DateParses(form, parseDate) && file.Some? && file.value.contentType.None? ==> r == Err(ServerError)
    ensures && DateParses(form, parseDate) && file.Some? && file.value.contentType.Some?
            && !IsImageType(file.value.contentType.value)
            ==> r == Err(InvalidFileType)
    ensures r.Ok? ==>
              && r.value.username == Overwrite(u.username, form.username)
              && r.value.email == Overwrite(u.email, form.email)
              && r.value.fullName == (if form.fullName.Some? then form.fullName else u.fullName)
              && r.value.gender == (if form.gender.Some? then form.gender else u.gender)
              && r.value.birthDate == (if form.birthDate.Some? then parseDate(form.birthDate.value) else u.birthDate)
              && r.value.hashedPassword == u.hashedPassword
              && r.value.profileImage
                 == (if file.Some? then Some(mediaFolder + "/" + StoredImageName(id, file.value.filename))
                     else u.profileImage)
  {
    var fields := u.(username := Overwrite(u.username, form.username),
                     email := Overwrite(u.email, form.email),
                     fullName := if form.fullName.Some? then form.fullName else u.fullName,
                     gender := if form.gender.Some? then form.gender else u.gender);
    if form.birthDate.Some? && parseDate(form.birthDate.value).None? then Err(ServerError)
    else
      var dated := if form.birthDate.Some? then fields.(birthDate := parseDate(form.birthDate.value)) else fields;
      match file
      case None => Ok(dated)
      case Some(f) =>
        match f.contentType
        case None => Err(ServerError)
        case Some(t) =>
          if IsImageType(t) then Ok(dated.(profileImage := Some(mediaFolder + "/" + StoredImageName(id, f.filename))))
          else Err(InvalidFileType)
  }

  /** `update_profile` for the user with key `id`. `parseDate` stands for
      `strptime(s, '%Y-%m-%d')`, `mediaFolder` for `MEDIA_FOLDER`. The
      commit fails, and changes nothing, when the new row would break the
      unique constraints; the route itself does not check them. */
  function UpdateProfile(
    users: Users, id: int, form: ProfileForm, file: Option<Upload>,
    parseDate: string -> Option<nat>, mediaFolder: string, env: Env, now: int): (r: ProfileResult)
    ensures id !in users ==> r == ProfileResult(users, Err(NotFound), None)
    ensures id in users && Stage(users[id], id, form, file, parseDate, mediaFolder).Err?
            ==> r == ProfileResult(users, Err(Stage(users[id], id, form, file, parseDate, mediaFolder).error), None)
    ensures r.reply.Ok? <==>
              && id in users
              && Stage(users[id], id, form, file, parseDate, mediaFolder).Ok?
              && Unique(users[id := Stage(users[id], id, form, file, parseDate, mediaFolder).value])
    ensures && id in users && Stage(users[id], id, form, file, parseDate, mediaFolder).Ok?
            && !Unique(users[id := Stage(users[id], id, form, file, parseDate, mediaFolder).value])
            ==> r.reply == Err(ServerError)
    ensures r.reply.Err? ==> r.users == users
    ensures Unique(users) ==> Unique(r.users)
    ensures r.removedImage
            == if && id in users && Stage(users[id], id, form, file, parseDate, mediaFolder).Ok?
                  && file.Some? && Truthy(users[id].profileImage)
               then users[id].profileImage else None
    ensures r.reply.Ok? ==>
              && id in users
              && Stage(users[id], id, form, file, parseDate, mediaFolder).Ok?
              && r.users == users[id := Stage(users[id], id, form, file, parseDate, mediaFolder).value]
    ensures r.reply.Ok? && id in r.users ==>
              var after := r.users[id];
              && r.reply.value.profileImage == (if Truthy(after.profileImage) then after.profileImage.value else "")
              && r.reply.value.gender == after.gender
              && (r.reply.value.accessToken.Some? <==> form.username.Some? && form.username.value != users[id].username)
              && (r.reply.value.accessToken.Some?
                  ==> r.reply.value.accessToken.value == CreateAccessToken(env, after.username, now, None))
  {
    if id !in users then ProfileResult(users, Err(NotFound), None)
    else
      var prior := users[id];
      match Stage(prior, id, form, file, parseDate, mediaFolder)
      case Err(e) => ProfileResult(users, Err(e), None)
      case Ok(updated) =>
        var removed := if file.Some? && Truthy(prior.profileImage) then prior.profileImage else None;
        var users' := users[id := updated];
        if !Unique(users') then ProfileResult(users, Err(ServerError), removed)
        else
          var token :=
            if form.username.Some? && form.username.value != prior.username
            then Some(CreateAccessToken(env, updated.username, now, None))
            else None;
          var image := if Truthy(updated.profileImage) then updated.profileImage.value else "";
          ProfileResult(users', Ok(ProfileUpdated("Profile updated successfully", image, token, updated.gender)), removed)
  }

  /** The table without a user's entries, in their original order. */
  function WithoutUser(entries: seq<Entry>, id: int): (r: seq<Entry>)
    ensures forall e :: e in r <==> e in entries && e.userId != id
    ensures |r| <= |entries|
  {
    if entries == [] then []
    else if entries[0].userId == id then WithoutUser(entries[1..], id)
    else [entries[0]] + WithoutUser(entries[1..], id)
  }

  /** Removing one user's entries leaves every other user's entries, in
      order and with multiplicity. */
  lemma {:induction false} WithoutUserKeepsOthers(entries: seq<Entry>, id: int, other: int)
    requires other != id
    ensures EntriesOf(WithoutUser(entries, id), other) == EntriesOf(entries, other)
    decreases |entries|
  {
    if entries != [] {
      WithoutUserKeepsOthers(entries[1..], id, other);
      if entries[0].userId != id {
        assert WithoutUser(entries, id) == [entries[0]] + WithoutUser(entries[1..], id);
        assert ([entries[0]] + WithoutUser(entries[1..], id))[1..] == WithoutUser(entries[1..], id);
      }
    }
  }

  /** Both tables after a deletion, the reply, and the image removed. */
  datatype Deleted = Deleted(users: Users, entries: seq<Entry>, reply: Result<string, HttpError>, removedImage: Option<string>)

  /** `delete_account`: removes the user row and all of its entries. */
  function DeleteAccount(users: Users, entries: seq<Entry>, id: int): (r: Deleted)
    ensures id !in users ==> r == Deleted(users, entries, Err(NotFound), None)
    ensures id in users ==>
              && r.reply == Ok("Account deleted successfully")
              && r.users.Keys == users.Keys - {id}
              && (forall k :: k in r.users ==> r.users[k] == users[k])
              && r.entries == WithoutUser(entries, id)
              && (forall e :: e in r.entries <==> e in entries && e.userId != id)
              && r.removedImage == (if Truthy(users[id].profileImage) then users[id].profileImage else None)
  {
    if id !in users then Deleted(users, entries, Err(NotFound), None)
    else
      var image := if Truthy(users[id].profileImage) then users[id].profileImage else None;
      Deleted(users - {id}, WithoutUser(entries, id), Ok("Account deleted successfully"), image)
  }

  /** Deletion keeps the table's invariants: unique usernames and emails,
      and at most one entry per user per day. */
  lemma {:induction false} DeleteKeepsInvariants(users: Users, entries: seq<Entry>, id: int)
    requires Unique(users) && OnePerDay(entries)
    ensures Unique(DeleteAccount(users, entries, id).users)
    ensures OnePerDay(DeleteAccount(users, entries, id).entries)
  {
    if id in users {
      WithoutUserKeepsOnePerDay(entries, id);
    }
  }

  lemma {:induction false} WithoutUserKeepsOnePerDay(entries: seq<Entry>, id: int)
    requires OnePerDay(entries)
    ensures OnePerDay(WithoutUser(entries, id))
    decreases |entries|
  {
    if entries != [] {
      OnePerDayTail(entries);
      WithoutUserKeepsOnePerDay(entries[1..], id);
      if entries[0].userId != id {
        var rest := WithoutUser(entries[1..], id);
        OnePerDayHead(entries);
        OnePerDayCons(entries[0], rest);
      }
    }
  }
}
