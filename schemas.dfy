/** The shared input validators. A validator reports issues, each at a field
    path with the schema's own message (None where the schema relies on the
    library's default message); an input is accepted when there is none.
    Email and URL syntax are checks the model does not open: they are passed
    in as predicates. */
module Schemas {
  import opened Wrappers
  import opened Pattern

  // Limits and lists of the application constants.
  const MaxFileSize: nat := 100 * 1024 * 1024
  const AllowedImageTypes: seq<string> := ["image/jpeg", "image/png", "image/webp", "image/gif"]
  const AllowedVideoTypes: seq<string> := ["video/mp4", "video/webm", "video/quicktime"]
  const AllowedDocumentTypes: seq<string> := ["application/pdf", "text/plain", "application/msword"]
  const MinUsernameLength: nat := 3
  const MaxUsernameLength: nat := 30
  const MinPasswordLength: nat := 8
  const MaxBioLength: nat := 500
  const MaxTitleLength: nat := 100
  const MaxDescriptionLength: nat := 5000

  /** A character's length in UTF-16 code units, the unit of JavaScript's
      `length`. */
  function Utf16Units(c: char): nat {
    if c as int >= 0x10000 then 2 else 1
  }

  function JsLength(s: string): (n: nat)
    ensures |s| <= n <= 2 * |s|
    ensures n == 0 <==> s == []
  {
    if s == [] then 0 else JsLength(s[..|s| - 1]) + Utf16Units(s[|s| - 1])
  }

  /** Outside the astral planes JavaScript's length is the character count. */
  lemma {:induction false} BmpLength(s: string)
    requires forall i :: 0 <= i < |s| ==> s[i] as int < 0x10000
    ensures JsLength(s) == |s|
  {
    if s != [] {
      BmpLength(s[..|s| - 1]);
    }
  }

  datatype Issue = Issue(path: string, message: Option<string>)

  function Check(ok: bool, path: string, message: Option<string>): (r: seq<Issue>)
    ensures r == [] <==> ok
    ensures !ok ==> r == [Issue(path, message)]
  {
    if ok then [] else [Issue(path, message)]
  }

  /** `.min(n)` and `.max(n)` on a string. */
  function MinLength(s: string, n: nat, path: string, message: Option<string>): seq<Issue> {
    Check(JsLength(s) >= n, path, message)
  }

  function MaxLength(s: string, n: nat, path: string, message: Option<string>): seq<Issue> {
    Check(JsLength(s) <= n, path, message)
  }

  /** An accepted input yields a value; otherwise the issues. */
  function Finish<T>(issues: seq<Issue>, value: T): (r: Result<T, seq<Issue>>)
    ensures r.Ok? <==> issues == []
    ensures r.Ok? ==> r.value == value
    ensures r.Err? ==> r.error == issues
  {
    if issues == [] then Ok(value) else Err(issues)
  }

  // ---------------------------------------------------------------------
  // Phone and username

  const PasswordsDiffer: Option<string> := Some("Passwords don't match")

  /** phoneSchema. */
  function PhoneIssues(s: string): (r: seq<Issue>)
    ensures r == [] <==> IsPhone(s)
  {
    PhonePatternMeaning(s);
    Check(Matches(PhonePattern, s), "", Some("Invalid phone number"))
  }

  /** The username field of createUserSchema. */
  function UsernameIssues(s: string): (r: seq<Issue>)
    ensures r == [] <==>
      MinUsernameLength <= JsLength(s) <= MaxUsernameLength && Matches(UsernamePattern, s)
  {
    MinLength(s, MinUsernameLength, "username", Some("Username must be at least 3 characters"))
    + MaxLength(s, MaxUsernameLength, "username", Some("Username must be at most 30 characters"))
    + Check(Matches(UsernamePattern, s), "username",
            Some("Username can only contain letters, numbers, hyphens, and underscores"))
  }

  /** A username is valid exactly when it has 3 to 30 characters, each a
      letter, a digit, "_" or "-". */
  lemma {:induction false} UsernameValid(s: string)
    ensures UsernameIssues(s) == [] <==>
      MinUsernameLength <= |s| <= MaxUsernameLength && forall i :: 0 <= i < |s| ==> UsernameChar(s[i])
  {
    UsernamePatternMeaning(s);
    if forall i :: 0 <= i < |s| ==> UsernameChar(s[i]) {
      BmpLength(s);
    }
  }

  // ---------------------------------------------------------------------
  // Pagination

  /** A field after `z.coerce.number()`: not given, not a finite number, or
      a number. */
  datatype Coerced = Absent | NonFinite | Number(x: real)

  predicate IsInteger(x: real) {
    x == x.Floor as real
  }

  /** `.int().min(lo)`, with `.max(hi)` when given. */
  function IntegerIssues(v: Coerced, path: string, lo: int, hi: Option<int>): seq<Issue> {
    match v
    case Absent => []
    case NonFinite => [Issue(path, None)]
    case Number(x) =>
      Check(IsInteger(x), path, None) + Check(lo as real <= x, path, None)
      + Check(hi.None? || x <= hi.value as real, path, None)
  }

  predicate IntegerOk(v: Coerced, lo: int, hi: Option<int>) {
    v.Absent? || (v.Number? && IsInteger(v.x) && lo as real <= v.x && (hi.None? || v.x <= hi.value as real))
  }

  function IntegerValue(v: Coerced, default: int): int {
    if v.Number? then v.x.Floor else default
  }

  datatype Pagination = Pagination(page: int, limit: int, cursor: Option<string>)

  /** paginationSchema: an integer page of at least 1, defaulting to 1, and
      an integer limit from 1 to 100, defaulting to 20. */
  function ParsePagination(page: Coerced, limit: Coerced, cursor: Option<string>): (r: Result<Pagination, seq<Issue>>)
    ensures r.Ok? <==> IntegerOk(page, 1, None) && IntegerOk(limit, 1, Some(100))
    ensures r.Ok? ==> r.value.page >= 1 && 1 <= r.value.limit <= 100 && r.value.cursor == cursor
    ensures r.Ok? ==> r.value.page == (if page.Absent? then 1 else page.x.Floor)
    ensures r.Ok? ==> r.value.limit == (if limit.Absent? then 20 else limit.x.Floor)
    ensures r.Ok? && page.Number? ==> r.value.page as real == page.x
    ensures r.Ok? && limit.Number? ==> r.value.limit as real == limit.x
  {
    Finish(IntegerIssues(page, "page", 1, None) + IntegerIssues(limit, "limit", 1, Some(100)),
           Pagination(IntegerValue(page, 1), IntegerValue(limit, 20), cursor))
  }

  // ---------------------------------------------------------------------
  // Users and passwords

  /** loginSchema (the optional `remember` flag has no check). */
  function LoginIssues(email: string, password: string, isEmail: string -> bool): (r: seq<Issue>)
    ensures r == [] <==> isEmail(email) && password != []
  {
    Check(isEmail(email), "email", Some("Invalid email address"))
    + MinLength(password, 1, "password", Some("Password is required"))
  }

  datatype NewUser = NewUser(
    email: string,
    name: string,
    username: string,
    password: string,
    bio: Option<string>,
    avatar: Option<string>)

  /** createUserSchema. */
  function CreateUserIssues(u: NewUser, isEmail: string -> bool, isUrl: string -> bool): (r: seq<Issue>)
    ensures r == [] <==>
      isEmail(u.email) && 2 <= JsLength(u.name) <= 50 && UsernameIssues(u.username) == []
      && JsLength(u.password) >= MinPasswordLength
      && (u.bio.None? || JsLength(u.bio.value) <= MaxBioLength)
      && (u.avatar.None? || isUrl(u.avatar.value))
  {
    var identity := Check(isEmail(u.email), "email", Some("Invalid email address")) + NameIssues(u.name);
    var secret := UsernameIssues(u.username)
      + MinLength(u.password, MinPasswordLength, "password", Some("Password must be at least 8 characters"));
    var profile := OptionalIssues(u.bio, s => JsLength(s) <= MaxBioLength, "bio", None)
      + OptionalIssues(u.avatar, isUrl, "avatar", Some("Invalid URL"));
    identity + secret + profile
  }

  function NameIssues(name: string): (r: seq<Issue>)
    ensures r == [] <==> 2 <= JsLength(name) <= 50
  {
    MinLength(name, 2, "name", Some("Name must be at least 2 characters")) + MaxLength(name, 50, "name", None)
  }

  /** A check on an optional field, skipped when the field is absent. */
  function OptionalIssues(v: Option<string>, ok: string -> bool, path: string, message: Option<string>): (r: seq<Issue>)
    ensures r == [] <==> v.None? || ok(v.value)
  {
    if v.Some? then Check(ok(v.value), path, message) else []
  }

  /** The refinement shared by the three password forms. */
  function ConfirmIssues(password: string, confirmPassword: string): seq<Issue> {
    Check(password == confirmPassword, "confirmPassword", PasswordsDiffer)
  }

  /** changePasswordSchema. */
  function ChangePasswordIssues(currentPassword: string, newPassword: string, confirmPassword: string): (r: seq<Issue>)
    ensures r == [] <==>
      currentPassword != [] && JsLength(newPassword) >= MinPasswordLength
      && confirmPassword != [] && newPassword == confirmPassword
    ensures newPassword != confirmPassword ==> Issue("confirmPassword", PasswordsDiffer) in r
  {
    MinLength(currentPassword, 1, "currentPassword", Some("Current password is required"))
    + MinLength(newPassword, MinPasswordLength, "newPassword", Some("Password must be at least 8 characters"))
    + MinLength(confirmPassword, 1, "confirmPassword", Some("Password confirmation is required"))
    + ConfirmIssues(newPassword, confirmPassword)
  }

  /** registerSchema: createUserSchema plus a confirmation and accepted terms. */
  function RegisterIssues(u: NewUser, confirmPassword: string, terms: bool,
                          isEmail: string -> bool, isUrl: string -> bool): (r: seq<Issue>)
    ensures r == [] <==>
      CreateUserIssues(u, isEmail, isUrl) == [] && confirmPassword != [] && terms
      && u.password == confirmPassword
    ensures !terms ==> Issue("terms", Some("You must accept the terms and conditions")) in r
    ensures u.password != confirmPassword ==> Issue("confirmPassword", PasswordsDiffer) in r
  {
    CreateUserIssues(u, isEmail, isUrl)
    + MinLength(confirmPassword, 1, "confirmPassword", Some("Password confirmation is required"))
    + Check(terms, "terms", Some("You must accept the terms and conditions"))
    + ConfirmIssues(u.password, confirmPassword)
  }

  /** resetPasswordSchema. */
  function ResetPasswordIssues(token: string, password: string, confirmPassword: string): (r: seq<Issue>)
    ensures r == [] <==>
      token != [] && JsLength(password) >= MinPasswordLength && confirmPassword != []
      && password == confirmPassword
    ensures password != confirmPassword ==> Issue("confirmPassword", PasswordsDiffer) in r
  {
    MinLength(token, 1, "token", Some("Reset token is required"))
    + MinLength(password, MinPasswordLength, "password", Some("Password must be at least 8 characters"))
    + MinLength(confirmPassword, 1, "confirmPassword", Some("Password confirmation is required"))
    + ConfirmIssues(password, confirmPassword)
  }

  // ---------------------------------------------------------------------
  // Uploads

  datatype UploadKind = ImageFile | VideoFile | DocumentFile

  /** `z.enum(['image', 'video', 'document'])`. */
  function UploadKindOf(s: string): Option<UploadKind> {
    if s == "image" then Some(ImageFile)
    else if s == "video" then Some(VideoFile)
    else if s == "document" then Some(DocumentFile)
    else None
  }

  function AllowedTypes(kind: UploadKind): seq<string> {
    match kind
    case ImageFile => AllowedImageTypes
    case VideoFile => AllowedVideoTypes
    case DocumentFile => AllowedDocumentTypes
  }

  datatype FileInfo = FileInfo(size: nat, mimeType: string)

  /** The refinement of fileUploadSchema: a size check, then a type check
      for the declared kind. */
  function FileAcceptable(file: FileInfo, kind: UploadKind): (ok: bool)
    ensures ok <==> file.size <= MaxFileSize && file.mimeType in AllowedTypes(kind)
  {
    if file.size > MaxFileSize then false
    else if kind == ImageFile && file.mimeType !in AllowedImageTypes then false
    else if kind == VideoFile && file.mimeType !in AllowedVideoTypes then false
    else if kind == DocumentFile && file.mimeType !in AllowedDocumentTypes then false
    else true
  }

  /** fileUploadSchema: an unknown kind fails the enum and the refinement
      is not run. */
  function FileUploadIssues(file: FileInfo, kind: string): (r: seq<Issue>)
    ensures UploadKindOf(kind).None? ==> r == [Issue("type", None)]
    ensures UploadKindOf(kind).Some? ==> (r == [] <==> FileAcceptable(file, UploadKindOf(kind).value))
  {
    match UploadKindOf(kind)
    case None => [Issue("type", None)]
    case Some(k) => Check(FileAcceptable(file, k), "", Some("Invalid file type or size"))
  }

  /** A file over 100 MiB is refused whatever its kind and type. */
  lemma OversizeRejected(file: FileInfo, kind: string)
    requires file.size > MaxFileSize
    ensures FileUploadIssues(file, kind) != []
  {
  }

  // ---------------------------------------------------------------------
  // Videos, webhooks and bans

  datatype VideoInput = VideoInput(
    title: string,
    description: Option<string>,
    url: string,
    thumbnail: Option<string>,
    duration: real,
    tags: Option<seq<string>>,
    category: Option<string>,
    isPublic: Option<bool>)

  datatype Video = Video(
    title: string,
    description: Option<string>,
    url: string,
    thumbnail: Option<string>,
    duration: real,
    tags: Option<seq<string>>,
    category: Option<string>,
    isPublic: bool)

  /** createVideoSchema; isPublic defaults to true. */
  function ParseVideo(v: VideoInput, isUrl: string -> bool): (r: Result<Video, seq<Issue>>)
    ensures r.Ok? <==>
      1 <= JsLength(v.title) <= MaxTitleLength
      && (v.description.None? || JsLength(v.description.value) <= MaxDescriptionLength)
      && isUrl(v.url) && (v.thumbnail.None? || isUrl(v.thumbnail.value))
      && v.duration > 0.0 && (v.tags.None? || |v.tags.value| <= 10)
    ensures r.Ok? ==> r.value.isPublic == v.isPublic.GetOr(true) && r.value.title == v.title
  {
    var issues :=
      MinLength(v.title, 1, "title", Some("Title is required"))
      + MaxLength(v.title, MaxTitleLength, "title", None)
      + OptionalIssues(v.description, s => JsLength(s) <= MaxDescriptionLength, "description", None)
      + Check(isUrl(v.url), "url", Some("Invalid URL"))
      + OptionalIssues(v.thumbnail, isUrl, "thumbnail", Some("Invalid URL"))
      + Check(v.duration > 0.0, "duration", Some("Duration must be positive"))
      + (if v.tags.Some? then Check(|v.tags.value| <= 10, "tags", Some("Maximum 10 tags allowed")) else []);
    Finish(issues, Video(v.title, v.description, v.url, v.thumbnail, v.duration, v.tags, v.category,
                         v.isPublic.GetOr(true)))
  }

  datatype Webhook = Webhook(url: string, events: seq<string>, secret: string, active: bool)

  /** webhookSchema; active defaults to true. */
  function ParseWebhook(url: string, events: seq<string>, secret: string, active: Option<bool>,
                        isUrl: string -> bool): (r: Result<Webhook, seq<Issue>>)
    ensures r.Ok? <==> isUrl(url) && JsLength(secret) >= 16
    ensures r.Ok? ==> r.value == Webhook(url, events, secret, active.GetOr(true))
  {
    Finish(Check(isUrl(url), "url", Some("Invalid URL"))
           + MinLength(secret, 16, "secret", Some("Webhook secret must be at least 16 characters")),
           Webhook(url, events, secret, active.GetOr(true)))
  }

  const BanDurations: seq<string> := ["1d", "7d", "30d", "permanent"]

  datatype Ban = Ban(userId: string, reason: string, duration: string)

  /** banUserSchema; the duration defaults to "7d". */
  function ParseBan(userId: string, reason: string, duration: Option<string>): (r: Result<Ban, seq<Issue>>)
    ensures r.Ok? <==>
      userId != [] && JsLength(reason) >= 10 && (duration.None? || duration.value in BanDurations)
    ensures r.Ok? ==> r.value.duration == duration.GetOr("7d") && r.value.duration in BanDurations
  {
    Finish(MinLength(userId, 1, "userId", Some("ID is required"))
           + MinLength(reason, 10, "reason", Some("Ban reason must be at least 10 characters"))
           + (if duration.Some? then Check(duration.value in BanDurations, "duration", None) else []),
           Ban(userId, reason, duration.GetOr("7d")))
  }
}
