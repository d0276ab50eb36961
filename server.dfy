/** The profile REST service: the validator that gates writes, the data
    file holding the single profile record, and the route handlers that
    validate, persist and respond. */
module Server {
  import opened JsValues
  import opened Profiles

  // ---------------------------------------------------------------------
  // Validation (server.js:76-104)
  // ---------------------------------------------------------------------

  /** The message the server reports for each field. */
  function ErrorMessage(f: Field): string {
    match f
    case Name => "Имя должно содержать от 3 до 50 символов"
    case Photo => "Некорректный URL фото"
    case Bio => "Описание должно содержать от 10 до 300 символов"
    case Skills => "Введите хотя бы один навык"
    case GitHub => "Некорректный URL GitHub"
    case Resume => "Некорректный URL резюме"
  }

  /** The rule for one field, applied to that field's value `v` (None when
      the body has no such property). Lengths are not trimmed. */
  predicate RuleFails(f: Field, v: Option<Json>, isValidURL: string -> bool) {
    match f
    case Name => !Truthy(v) || Below(Length(v.value), 3) || Above(Length(v.value), 50)
    case Photo => Truthy(v) && !UrlParses(v.value, isValidURL)
    case Bio => !Truthy(v) || Below(Length(v.value), 10) || Above(Length(v.value), 300)
    case Skills => !Truthy(v) || !v.value.JArray? || |v.value.items| == 0
    case GitHub => !Truthy(v) || !UrlParses(v.value, isValidURL)
    case Resume => !Truthy(v) || !UrlParses(v.value, isValidURL)
  }

  /** `validateProfile(data)`: six independent checks, each adding its own
      key. The result has a key exactly for the fields whose rule fails on
      that field's own value, so every failing field is reported, and each
      key carries that field's message. */
  function ValidateProfile(data: Json, isValidURL: string -> bool): (errors: map<Field, string>)
    ensures forall f: Field :: f in errors <==> RuleFails(f, Get(data, Key(f)), isValidURL)
    ensures forall f | f in errors :: errors[f] == ErrorMessage(f)
  {
    map f | f in AllFields && RuleFails(f, Get(data, Key(f)), isValidURL) :: ErrorMessage(f)
  }

  /** For a body of strings the six rules read as plain bounds:
      name length in [3, 50] and bio length in [10, 300], both untrimmed;
      photo absent or empty, or a URL; skills non-empty; github and resume
      non-empty URLs. */
  lemma StringFieldRules(data: Json, name: string, photo: Option<string>, bio: string,
                         skills: seq<Json>, github: string, resume: string, isValidURL: string -> bool)
    requires HasStringFields(data, name, photo, bio, skills, github, resume)
    ensures var errors := ValidateProfile(data, isValidURL);
      && (Name in errors <==> !(3 <= |name| <= 50))
      && (Photo in errors <==> photo.Some? && photo.value != "" && !isValidURL(photo.value))
      && (Bio in errors <==> !(10 <= |bio| <= 300))
      && (Skills in errors <==> skills == [])
      && (GitHub in errors <==> github == "" || !isValidURL(github))
      && (Resume in errors <==> resume == "" || !isValidURL(resume))
  {
    assert RuleFails(Name, Get(data, Key(Name)), isValidURL) <==> !(3 <= |name| <= 50) by {
      assert Key(Name) == "name";
    }
    assert RuleFails(Photo, Get(data, Key(Photo)), isValidURL) <==>
           photo.Some? && photo.value != "" && !isValidURL(photo.value) by {
      assert Key(Photo) == "photo";
    }
    assert RuleFails(Bio, Get(data, Key(Bio)), isValidURL) <==> !(10 <= |bio| <= 300) by {
      assert Key(Bio) == "bio";
    }
    assert RuleFails(Skills, Get(data, Key(Skills)), isValidURL) <==> skills == [] by {
      assert Key(Skills) == "skills";
    }
    assert RuleFails(GitHub, Get(data, Key(GitHub)), isValidURL) <==> github == "" || !isValidURL(github) by {
      assert Key(GitHub) == "github";
    }
    assert RuleFails(Resume, Get(data, Key(Resume)), isValidURL) <==> resume == "" || !isValidURL(resume) by {
      assert Key(Resume) == "resume";
    }
  }

  /** ... and such a body is accepted exactly when all six hold. */
  lemma StringProfileAccepted(data: Json, name: string, photo: Option<string>, bio: string,
                              skills: seq<Json>, github: string, resume: string, isValidURL: string -> bool)
    requires HasStringFields(data, name, photo, bio, skills, github, resume)
    ensures ValidateProfile(data, isValidURL) == map[] <==>
      && 3 <= |name| <= 50 && 10 <= |bio| <= 300 && skills != []
      && (photo.Some? && photo.value != "" ==> isValidURL(photo.value))
      && github != "" && isValidURL(github) && resume != "" && isValidURL(resume)
  {
    StringFieldRules(data, name, photo, bio, skills, github, resume, isValidURL);
    var errors := ValidateProfile(data, isValidURL);
    if errors != map[] {
      var f :| f in errors;
    }
  }

  /** The rules are independent: whether a field is reported, and with which
      message, depends on that field's value alone, whatever the others are. */
  lemma RulesAreIndependent(d1: Json, d2: Json, f: Field, isValidURL: string -> bool)
    requires Get(d1, Key(f)) == Get(d2, Key(f))
    ensures f in ValidateProfile(d1, isValidURL) <==> f in ValidateProfile(d2, isValidURL)
    ensures f in ValidateProfile(d1, isValidURL) ==>
      ValidateProfile(d1, isValidURL)[f] == ValidateProfile(d2, isValidURL)[f]
  {
  }

  /** Only an object can pass: any other value has no `name`, so the name
      rule fails on it. */
  lemma AcceptedBodyIsObject(data: Json, isValidURL: string -> bool)
    requires ValidateProfile(data, isValidURL) == map[]
    ensures data.JObject? && Truthy(Some(data))
  {
    assert Name !in ValidateProfile(data, isValidURL);
  }

  /** A body missing `github` or `resume` is always reported for that field,
      and so is one whose `skills` is missing or an empty list. */
  lemma MissingRequiredFieldsReported(data: Json, isValidURL: string -> bool)
    ensures Get(data, "github") == None ==> GitHub in ValidateProfile(data, isValidURL)
    ensures Get(data, "resume") == None ==> Resume in ValidateProfile(data, isValidURL)
    ensures Get(data, "skills") == None || Get(data, "skills") == Some(JArray([])) ==>
      Skills in ValidateProfile(data, isValidURL)
    ensures Get(data, "name") == None ==> Name in ValidateProfile(data, isValidURL)
    ensures Get(data, "bio") == None ==> Bio in ValidateProfile(data, isValidURL)
  {
    assert Key(GitHub) == "github" && Key(Resume) == "resume" && Key(Skills) == "skills";
    assert Key(Name) == "name" && Key(Bio) == "bio";
  }

  /** An absent, null or empty photo is never reported. */
  lemma EmptyPhotoAccepted(data: Json, isValidURL: string -> bool)
    requires Get(data, "photo") in {None, Some(JNull), Some(JString(""))}
    ensures Photo !in ValidateProfile(data, isValidURL)
  {
    assert Key(Photo) == "photo";
  }

  /** The name check looks at the untrimmed length: three spaces pass it,
      and so does any non-zero number, whose `length` is undefined. */
  lemma NameCheckIsUntrimmed(data: Json, isValidURL: string -> bool)
    requires Get(data, "name") == Some(JString("   ")) || exists n: int :: n != 0 && Get(data, "name") == Some(JNumber(n))
    ensures Name !in ValidateProfile(data, isValidURL)
  {
    assert Key(Name) == "name";
  }

  /** POST `{name: "Al", bio: "short", skills: [], github: "bad", resume: "bad"}`
      is reported on every field except the absent photo. */
  lemma ShortProfileErrors(data: Json, isValidURL: string -> bool)
    requires HasStringFields(data, "Al", None, "short", [], "bad", "bad")
    requires !isValidURL("bad")
    ensures forall f: Field :: f in ValidateProfile(data, isValidURL) <==> f != Photo
  {
    StringFieldRules(data, "Al", None, "short", [], "bad", "bad", isValidURL);
  }

  // ---------------------------------------------------------------------
  // The two fixed records (server.js:41-48 and 166-173)
  // ---------------------------------------------------------------------

  const SeedPhoto: string := "https://cdn.pixabay.com/photo/2018/10/09/16/11/kylian-mbappe-3737379_1280.jpg"
  const SeedGitHub: string := "https://github.com/ivanivanov"
  const SeedResume: string := "https://example.com/resume.pdf"
  const SeedBio: string := "Я фронтенд-разработчик, увлекаюсь веб-технологиями и анимациями."

  /** The record `initializeDataFile` writes when there is no data file. */
  const SeedProfile: Json :=
    JObject(RecordFields("Иван Иванов", SeedPhoto, SeedBio, ["HTML", "CSS", "JavaScript"], SeedGitHub, SeedResume))

  /** The record DELETE writes. */
  const ResetProfile: Json := JObject(RecordFields("Имя Фамилия", PlaceholderPhoto, "", [], "", ""))

  /** The seed record passes validation whenever its three URLs parse. */
  lemma SeedProfileIsValid(isValidURL: string -> bool)
    requires isValidURL(SeedPhoto) && isValidURL(SeedGitHub) && isValidURL(SeedResume)
    ensures ValidateProfile(SeedProfile, isValidURL) == map[]
  {
    var skills := StringItems(["HTML", "CSS", "JavaScript"]);
    assert |SeedBio| == 64;
    assert SeedPhoto != "" && SeedGitHub != "" && SeedResume != "";
    StringProfileAccepted(SeedProfile, "Иван Иванов", Some(SeedPhoto), SeedBio, skills,
                          SeedGitHub, SeedResume, isValidURL);
  }

  /** The reset record does not: bio, skills, github and resume are all
      reported, and photo is reported exactly when the placeholder URL does
      not parse. Storage therefore holds an invalid record after DELETE. */
  lemma ResetProfileIsInvalid(isValidURL: string -> bool)
    ensures forall f: Field :: f in ValidateProfile(ResetProfile, isValidURL) <==>
      f != Name && (f == Photo ==> !isValidURL(PlaceholderPhoto))
  {
    assert |"Имя Фамилия"| == 11 && PlaceholderPhoto != "";
    StringFieldRules(ResetProfile, "Имя Фамилия", Some(PlaceholderPhoto), "", StringItems([]), "", "", isValidURL);
  }

  // ---------------------------------------------------------------------
  // Responses and requests
  // ---------------------------------------------------------------------

  const MsgReadFailed: string := "Не удалось прочитать данные профиля"
  const MsgCreated: string := "Профиль создан"
  const MsgCreateFailed: string := "Не удалось сохранить профиль"
  const MsgUpdated: string := "Профиль обновлен"
  const MsgUpdateFailed: string := "Не удалось обновить профиль"
  const MsgReset: string := "Профиль сброшен"
  const MsgResetFailed: string := "Не удалось сбросить профиль"
  const MsgNotFound: string := "Маршрут не найден"
  const MsgInternal: string := "Внутренняя ошибка сервера"

  /** The JSON payloads the server sends. */
  datatype Reply =
    | ProfileBody(profile: Json)                    // the record itself
    | Saved(message: string, profile: Json)         // { message, profile }
    | FieldErrors(errors: map<Field, string>)       // { errors }
    | Failure(error: string)                        // { error }
    | NoContent                                     // an empty CORS preflight answer

  datatype Response = Response(status: int, reply: Reply)

  datatype HttpMethod = GET | HEAD | POST | PUT | DELETE | OPTIONS | OtherMethod(name: string)

  /** The request body after the body parsers: a JSON value (an empty object
      when the request carried none), or a body the JSON parser rejected. */
  datatype RequestBody = Parsed(value: Json) | Malformed

  /** `path` is the URL's path, without the query string. */
  datatype Request = Request(verb: HttpMethod, path: string, body: RequestBody)

  function LowerChar(c: char): char {
    if 'A' <= c <= 'Z' then (c as int + 32) as char else c
  }

  const ProfilePath: string := "/api/profile"

  /** Express's default route matching for "/api/profile": ASCII case is
      ignored and one trailing slash is allowed. */
  predicate IsProfilePath(path: string) {
    && (|path| == |ProfilePath| || (|path| == |ProfilePath| + 1 && path[|ProfilePath|] == '/'))
    && forall i | 0 <= i < |ProfilePath| :: LowerChar(path[i]) == ProfilePath[i]
  }

  /** The code that ends up answering a request. */
  datatype Endpoint = Preflight | BadBody | ReadRoute | CreateRoute | UpdateRoute | ResetRoute | NotFound

  /** Middleware and route order: `cors()` answers every OPTIONS request,
      the JSON parser's errors go to the error handler, then the four routes
      (HEAD runs the GET route), then the 404 fallback. */
  function RouteOf(req: Request): (e: Endpoint)
    ensures e in {ReadRoute, CreateRoute, UpdateRoute, ResetRoute} ==> IsProfilePath(req.path)
    ensures e == NotFound <==>
      req.verb != OPTIONS && req.body.Parsed? &&
      (!IsProfilePath(req.path) || req.verb.OtherMethod?)
  {
    if req.verb == OPTIONS then Preflight
    else if req.body.Malformed? then BadBody
    else if !IsProfilePath(req.path) then NotFound
    else
      match req.verb
      case GET => ReadRoute
      case HEAD => ReadRoute
      case POST => CreateRoute
      case PUT => UpdateRoute
      case DELETE => ResetRoute
      case OtherMethod(_) => NotFound
  }

  /** `/api/unknown` falls through to the 404 handler. */
  lemma UnknownPathIsNotFound(verb: HttpMethod, body: Json)
    requires verb != OPTIONS
    ensures RouteOf(Request(verb, "/api/unknown", Parsed(body))) == NotFound
  {
    assert LowerChar("/api/unknown"[5]) != ProfilePath[5];
  }

  // ---------------------------------------------------------------------
  // The data file and the handlers
  // ---------------------------------------------------------------------

  /** What the data file holds after `initializeDataFile`: an existing
      file is kept; a missing one gets the seed record if the write works. */
  function Initialized(file: Option<Json>, writeOk: bool): (r: Option<Json>)
    ensures file.Some? ==> r == file
    ensures file.None? ==> (r == Some(SeedProfile) <==> writeOk) && (r.None? <==> !writeOk)
  {
    if file.None? && writeOk then Some(SeedProfile) else file
  }

  /** Initialising twice is initialising once (with either attempt's write
      success); in particular a second run after a successful one changes
      nothing. */
  lemma {:induction false} InitializeIdempotent(file: Option<Json>, w1: bool, w2: bool)
    ensures Initialized(Initialized(file, w1), w2) == Initialized(file, w1 || w2)
    ensures w1 ==> Initialized(Initialized(file, w1), w2) == Initialized(file, w1)
  {
  }

  /** The running service: the contents of `profileData.json` and the URL
      parser it was started with. */
  class ProfileServer {
    /** The parsed contents of the data file; None when there is no file. */
    var stored: Option<Json>
    /** Whether the WHATWG URL parser accepts a string (`new URL(s)` does not throw). */
    const isValidURL: string -> bool

    /** The data file holds nothing, the seed record, the reset record or a
        record that passed validation. */
    ghost predicate Valid()
      reads this
    {
      || stored == None
      || stored == Some(SeedProfile)
      || stored == Some(ResetProfile)
      || (stored.Some? && ValidateProfile(stored.value, isValidURL) == map[])
    }

    /** A server started with no data file. */
    constructor (isValidURL: string -> bool)
      ensures this.isValidURL == isValidURL
      ensures stored == None && Valid()
    {
      this.isValidURL := isValidURL;
      stored := None;
    }

    /** A server started next to an existing data file. */
    constructor WithDataFile(isValidURL: string -> bool, file: Json)
      ensures this.isValidURL == isValidURL
      ensures stored == Some(file)
    {
      this.isValidURL := isValidURL;
      stored := Some(file);
    }

    /** `initializeDataFile()`; `writeOk` tells whether `writeFileSync`
        succeeds. `ok` is false when that write throws, which is uncaught
        at startup. */
    method InitializeDataFile(writeOk: bool) returns (ok: bool)
      modifies this
      ensures stored == Initialized(old(stored), writeOk)
      ensures ok <==> old(stored).Some? || writeOk
      ensures old(Valid()) ==> Valid()
    {
      ok := true;
      if stored.None? {
        if writeOk {
          stored := Some(SeedProfile);
        } else {
          ok := false;
        }
      }
    }

    /** `readProfileData()`: the parsed record, or None (the source's null)
        when the file is missing or cannot be read or parsed (`readOk` false). */
    method ReadProfileData(readOk: bool) returns (data: Option<Json>)
      ensures data.Some? <==> readOk && stored.Some?
      ensures data.Some? ==> data == stored
    {
      if readOk && stored.Some? {
        data := stored;
      } else {
        data := None;
      }
    }

    /** `writeProfileData(data)`: on success the file holds exactly `data`;
        a failed write leaves it as it was. */
    method WriteProfileData(data: Json, writeOk: bool) returns (success: bool)
      modifies this
      ensures success == writeOk
      ensures stored == if writeOk then Some(data) else old(stored)
    {
      if writeOk {
        stored := Some(data);
        success := true;
      } else {
        success := false;
      }
    }

    /** GET /api/profile: the stored record with 200, or 500 when the read
        fails or yields a falsy value. Nothing is written. */
    method GetProfile(readOk: bool) returns (res: Response)
      ensures readOk && stored.Some? && Truthy(stored) ==> res == Response(200, ProfileBody(stored.value))
      ensures !(readOk && Truthy(stored)) ==> res == Response(500, Failure(MsgReadFailed))
    {
      var data := ReadProfileData(readOk);
      if !Truthy(data) {
        return Response(500, Failure(MsgReadFailed));
      }
      res := Response(200, ProfileBody(data.value));
    }

    /** The shared shape of POST and PUT: validate; on errors answer 400
        and leave the file alone; otherwise write and echo the body. */
    method Store(body: Json, writeOk: bool, okStatus: int, okMessage: string, failMessage: string)
      returns (res: Response)
      modifies this
      ensures var errors := ValidateProfile(body, isValidURL);
        && (errors != map[] ==> res == Response(400, FieldErrors(errors)) && stored == old(stored))
        && (errors == map[] && writeOk ==> res == Response(okStatus, Saved(okMessage, body)) && stored == Some(body))
        && (errors == map[] && !writeOk ==> res == Response(500, Failure(failMessage)) && stored == old(stored))
      ensures old(Valid()) ==> Valid()
    {
      var errors := ValidateProfile(body, isValidURL);
      if |errors.Keys| > 0 {
        return Response(400, FieldErrors(errors));
      }
      assert errors == map[];
      var success := WriteProfileData(body, writeOk);
      if !success {
        return Response(500, Failure(failMessage));
      }
      res := Response(okStatus, Saved(okMessage, body));
    }

    /** POST /api/profile: 400 with the field errors and no write, or 201
        with the stored body, or 500 when the write fails. */
    method PostProfile(body: Json, writeOk: bool) returns (res: Response)
      modifies this
      ensures var errors := ValidateProfile(body, isValidURL);
        && (errors != map[] ==> res == Response(400, FieldErrors(errors)) && stored == old(stored))
        && (errors == map[] && writeOk ==> res == Response(201, Saved(MsgCreated, body)) && stored == Some(body))
        && (errors == map[] && !writeOk ==> res == Response(500, Failure(MsgCreateFailed)) && stored == old(stored))
      ensures old(Valid()) ==> Valid()
    {
      res := Store(body, writeOk, 201, MsgCreated, MsgCreateFailed);
    }

    /** PUT /api/profile: as POST, answering 200 on success. */
    method PutProfile(body: Json, writeOk: bool) returns (res: Response)
      modifies this
      ensures var errors := ValidateProfile(body, isValidURL);
        && (errors != map[] ==> res == Response(400, FieldErrors(errors)) && stored == old(stored))
        && (errors == map[] && writeOk ==> res == Response(200, Saved(MsgUpdated, body)) && stored == Some(body))
        && (errors == map[] && !writeOk ==> res == Response(500, Failure(MsgUpdateFailed)) && stored == old(stored))
      ensures old(Valid()) ==> Valid()
    {
      res := Store(body, writeOk, 200, MsgUpdated, MsgUpdateFailed);
    }

    /** DELETE /api/profile: whatever was stored, the file then holds the
        reset record and the reply carries that same record; a failed write
        answers 500 and changes nothing. */
    method DeleteProfile(writeOk: bool) returns (res: Response)
      modifies this
      ensures writeOk ==> stored == Some(ResetProfile) && res == Response(200, Saved(MsgReset, ResetProfile))
      ensures !writeOk ==> stored == old(stored) && res == Response(500, Failure(MsgResetFailed))
      ensures old(Valid()) ==> Valid()
    {
      var success := WriteProfileData(ResetProfile, writeOk);
      if !success {
        return Response(500, Failure(MsgResetFailed));
      }
      res := Response(200, Saved(MsgReset, ResetProfile));
    }

    /** One request through the whole application. `ioOk` is whether the
        data file read or write the route performs succeeds. Only a
        successful DELETE, or a successful POST or PUT of a body that passes
        validation, changes the file. */
    method Handle(req: Request, ioOk: bool) returns (res: Response)
      modifies this
      ensures RouteOf(req) == Preflight ==> res == Response(204, NoContent)
      ensures RouteOf(req) == BadBody ==> res == Response(500, Failure(MsgInternal))
      ensures RouteOf(req) == NotFound ==> res == Response(404, Failure(MsgNotFound))
      ensures RouteOf(req) == ReadRoute ==>
        res == (if ioOk && Truthy(old(stored)) then Response(200, ProfileBody(old(stored).value))
                else Response(500, Failure(MsgReadFailed)))
      ensures RouteOf(req) == ResetRoute ==>
        && res == (if ioOk then Response(200, Saved(MsgReset, ResetProfile)) else Response(500, Failure(MsgResetFailed)))
        && stored == (if ioOk then Some(ResetProfile) else old(stored))
      ensures RouteOf(req) == CreateRoute ==>
        var errors := ValidateProfile(req.body.value, isValidURL);
        && res == (if errors != map[] then Response(400, FieldErrors(errors))
                   else if ioOk then Response(201, Saved(MsgCreated, req.body.value))
                   else Response(500, Failure(MsgCreateFailed)))
        && stored == (if errors == map[] && ioOk then Some(req.body.value) else old(stored))
      ensures RouteOf(req) == UpdateRoute ==>
        var errors := ValidateProfile(req.body.value, isValidURL);
        && res == (if errors != map[] then Response(400, FieldErrors(errors))
                   else if ioOk then Response(200, Saved(MsgUpdated, req.body.value))
                   else Response(500, Failure(MsgUpdateFailed)))
        && stored == (if errors == map[] && ioOk then Some(req.body.value) else old(stored))
      ensures RouteOf(req) !in {CreateRoute, UpdateRoute, ResetRoute} ==> stored == old(stored)
      ensures old(Valid()) ==> Valid()
    {
      var route := RouteOf(req);
      match route {
        case Preflight => res := Response(204, NoContent);
        case BadBody => res := Response(500, Failure(MsgInternal));
        case NotFound => res := Response(404, Failure(MsgNotFound));
        case ReadRoute => res := GetProfile(ioOk);
        case CreateRoute => res := PostProfile(req.body.value, ioOk);
        case UpdateRoute => res := PutProfile(req.body.value, ioOk);
        case ResetRoute => res := DeleteProfile(ioOk);
      }
    }
  }

  /** A valid PUT followed by a GET returns exactly the payload that was put. */
  method PutThenGet(server: ProfileServer, body: Json) returns (put: Response, get: Response)
    requires ValidateProfile(body, server.isValidURL) == map[]
    modifies server
    ensures put == Response(200, Saved(MsgUpdated, body))
    ensures server.stored == Some(body)
    ensures get == Response(200, ProfileBody(body))
  {
    AcceptedBodyIsObject(body, server.isValidURL);
    put := server.PutProfile(body, true);
    get := server.GetProfile(true);
  }

  /** A GET right after a successful DELETE returns the reset record,
      whatever was stored before. */
  method DeleteThenGet(server: ProfileServer) returns (del: Response, get: Response)
    modifies server
    ensures del == Response(200, Saved(MsgReset, ResetProfile))
    ensures get == Response(200, ProfileBody(ResetProfile))
  {
    del := server.DeleteProfile(true);
    get := server.GetProfile(true);
  }

  /** On a fresh start, initialisation followed by a GET returns the seed
      record, and initialising again changes nothing. */
  method FirstStart(isValidURL: string -> bool) returns (server: ProfileServer, get: Response)
    ensures fresh(server) && server.stored == Some(SeedProfile)
    ensures get == Response(200, ProfileBody(SeedProfile))
  {
    server := new ProfileServer(isValidURL);
    var ok := server.InitializeDataFile(true);
    ok := server.InitializeDataFile(true);
    get := server.GetProfile(true);
  }
}
