/** The browser-side profile editor: the form validator, the submit
    handler that copies the trimmed inputs into the in-memory profile, and
    the save to and load from the browser's local storage. */
module Client {
  import opened JsValues
  import opened JsStrings
  import opened Profiles

  /** The raw `value` of the six form inputs. */
  datatype FormInputs = FormInputs(name: string, photo: string, bio: string, skills: string,
                                   github: string, resume: string)

  function Input(inp: FormInputs, f: Field): string {
    match f
    case Name => inp.name
    case Photo => inp.photo
    case Bio => inp.bio
    case Skills => inp.skills
    case GitHub => inp.github
    case Resume => inp.resume
  }

  /** The text the form shows under a field that fails its check. */
  function FormMessage(f: Field): string {
    match f
    case Name => "Имя должно содержать от 3 до 50 символов."
    case Photo => "Введите корректный URL для фото."
    case Bio => "Описание должно содержать от 10 до 300 символов."
    case Skills => "Введите хотя бы один навык."
    case GitHub => "Введите корректный URL GitHub."
    case Resume => "Введите корректный URL PDF резюме."
  }

  /** The check `validateForm` applies to the trimmed value `t` of a field. */
  predicate FormRuleFails(f: Field, t: string, isValidURL: string -> bool) {
    match f
    case Name => |t| < 3 || |t| > 50
    case Photo => t != "" && !isValidURL(t)
    case Bio => |t| < 10 || |t| > 300
    case Skills => t == ""
    case GitHub => t == "" || !isValidURL(t)
    case Resume => t == "" || !isValidURL(t)
  }

  /** `validateForm` flags field `f` of the form. */
  predicate Flagged(inp: FormInputs, f: Field, isValidURL: string -> bool) {
    FormRuleFails(f, Trim(Input(inp, f)), isValidURL)
  }

  /** `validateForm` returns true: no field is flagged. */
  predicate FormAccepted(inp: FormInputs, isValidURL: string -> bool) {
    && !Flagged(inp, Name, isValidURL) && !Flagged(inp, Photo, isValidURL)
    && !Flagged(inp, Bio, isValidURL) && !Flagged(inp, Skills, isValidURL)
    && !Flagged(inp, GitHub, isValidURL) && !Flagged(inp, Resume, isValidURL)
  }

  /** What one error element shows: nothing, or the message of its field.
      These are the only two texts the page ever puts there. */
  datatype ErrorText = Blank | Message(field: Field)
  {
    /** The element's `textContent`. */
    function Content(): (s: string)
      ensures Blank? <==> s == ""
      ensures Message? ==> s == FormMessage(field)
    {
      match this
      case Blank => ""
      case Message(f) => FormMessage(f)
    }
  }

  /** The six error elements of the form. */
  datatype ErrorTexts = ErrorTexts(name: ErrorText, photo: ErrorText, bio: ErrorText, skills: ErrorText,
                                   github: ErrorText, resume: ErrorText)
  {
    /** The element under field `f`. */
    function At(f: Field): ErrorText {
      match f
      case Name => name
      case Photo => photo
      case Bio => bio
      case Skills => skills
      case GitHub => github
      case Resume => resume
    }
  }

  /** Every error element empty, as `clearErrors` leaves them. */
  const NoErrors := ErrorTexts(Blank, Blank, Blank, Blank, Blank, Blank)

  /** What the check of field `f` leaves in its error element. */
  function Verdict(inp: FormInputs, f: Field, isValidURL: string -> bool): (t: ErrorText)
    ensures t.Content() == if Flagged(inp, f, isValidURL) then FormMessage(f) else ""
  {
    if Flagged(inp, f, isValidURL) then Message(f) else Blank
  }

  /** The error elements show the message under each flagged field and the
      empty text under every other. */
  predicate ShowsVerdict(shown: ErrorTexts, inp: FormInputs, isValidURL: string -> bool) {
    forall f: Field :: shown.At(f) == Verdict(inp, f, isValidURL)
  }

  /** The verdict, assembled from what each of the six checks showed. */
  lemma ShowsVerdictByField(shown: ErrorTexts, inp: FormInputs, isValidURL: string -> bool)
    requires shown.name == Verdict(inp, Name, isValidURL)
    requires shown.photo == Verdict(inp, Photo, isValidURL)
    requires shown.bio == Verdict(inp, Bio, isValidURL)
    requires shown.skills == Verdict(inp, Skills, isValidURL)
    requires shown.github == Verdict(inp, GitHub, isValidURL)
    requires shown.resume == Verdict(inp, Resume, isValidURL)
    ensures ShowsVerdict(shown, inp, isValidURL)
  {
    forall f: Field ensures shown.At(f) == Verdict(inp, f, isValidURL) {
      FieldCases(f);
    }
  }

  /** The six form rules on the trimmed inputs:
      name length in [3, 50], bio length in [10, 300], skills non-empty,
      github and resume non-empty URLs, and the photo a URL unless empty. */
  lemma FormFieldRules(inp: FormInputs, isValidURL: string -> bool)
    ensures Flagged(inp, Name, isValidURL) <==> !(3 <= |Trim(inp.name)| <= 50)
    ensures Flagged(inp, Photo, isValidURL) <==> Trim(inp.photo) != "" && !isValidURL(Trim(inp.photo))
    ensures Flagged(inp, Bio, isValidURL) <==> !(10 <= |Trim(inp.bio)| <= 300)
    ensures Flagged(inp, Skills, isValidURL) <==> AllWhiteSpace(inp.skills)
    ensures Flagged(inp, GitHub, isValidURL) <==> Trim(inp.github) == "" || !isValidURL(Trim(inp.github))
    ensures Flagged(inp, Resume, isValidURL) <==> Trim(inp.resume) == "" || !isValidURL(Trim(inp.resume))
  {
    TrimSpec(inp.skills);
  }

  /** Whitespace around an input never changes the verdict: every check
      reads the trimmed value. */
  lemma {:induction false} PaddingDoesNotChangeVerdict(inp: FormInputs, f: Field, w1: string, w2: string,
                                                       isValidURL: string -> bool)
    requires AllWhiteSpace(w1) && AllWhiteSpace(w2)
    ensures FormRuleFails(f, Trim(w1 + Input(inp, f) + w2), isValidURL) <==>
            FormRuleFails(f, Trim(Input(inp, f)), isValidURL)
  {
    TrimIgnoresPadding(w1, Input(inp, f), w2);
  }

  /** The form checks lengths after trimming: a name of three spaces is
      flagged, and so is "  ab " for all its five characters. */
  lemma BlankNameFlagged(inp: FormInputs, isValidURL: string -> bool)
    requires inp.name in {"   ", "  ab "}
    ensures Flagged(inp, Name, isValidURL)
  {
    SpaceAndComma();
    if inp.name == "   " {
      assert AllWhiteSpace(inp.name);
      TrimSpec(inp.name);
    } else {
      VisibleAsciiIsNotWhiteSpace('a');
      VisibleAsciiIsNotWhiteSpace('b');
      assert AllWhiteSpace("  ") && AllWhiteSpace(" ");
      assert inp.name == "  " + "ab" + " ";
      TrimUnique("  ", "ab", " ");
    }
  }

  /** The skills check only asks for a non-blank input: a lone comma
      passes it although it yields no skills. */
  lemma LoneCommaPassesForm(inp: FormInputs, isValidURL: string -> bool)
    requires inp.skills == ","
    ensures !Flagged(inp, Skills, isValidURL)
    ensures ParseSkills(inp.skills) == []
  {
    LoneCommaHasNoSkills();
  }

  /** The photo the submit handler stores: the trimmed input, or the
      placeholder image when that is empty. */
  function PhotoOrPlaceholder(t: string): (photo: string)
    ensures photo != ""
    ensures t != "" ==> photo == t
    ensures t == "" ==> photo == PlaceholderPhoto
  {
    if t == "" then PlaceholderPhoto else t
  }

  /** The properties the submit handler assigns: trimmed strings, the photo
      defaulting to the placeholder, and the skills parsed from the
      comma-separated input. */
  function EditedFields(inp: FormInputs): map<string, Json> {
    RecordFields(Trim(inp.name), PhotoOrPlaceholder(Trim(inp.photo)), Trim(inp.bio),
                 ParseSkills(inp.skills), Trim(inp.github), Trim(inp.resume))
  }

  /** The record a valid submit leaves: the six properties replaced by the
      trimmed inputs and the parsed skills, an empty photo input stored as
      the placeholder, and every other property kept. */
  lemma {:induction false} EditedRecordShape(base: map<string, Json>, inp: FormInputs)
    ensures HasStringFields(JObject(base + EditedFields(inp)), Trim(inp.name),
                            Some(PhotoOrPlaceholder(Trim(inp.photo))), Trim(inp.bio),
                            StringItems(ParseSkills(inp.skills)), Trim(inp.github), Trim(inp.resume))
    ensures Get(JObject(base + EditedFields(inp)), "photo") ==
      Some(JString(if Trim(inp.photo) == "" then PlaceholderPhoto else Trim(inp.photo)))
    ensures forall k | k in base && k !in EditedFields(inp) :: k in base + EditedFields(inp) && (base + EditedFields(inp))[k] == base[k]
  {
    OverwriteFields(base, Trim(inp.name), PhotoOrPlaceholder(Trim(inp.photo)), Trim(inp.bio),
                    ParseSkills(inp.skills), Trim(inp.github), Trim(inp.resume));
  }

  /** The initial in-memory profile. */
  const InitialProfile: Json :=
    JObject(RecordFields("Иван Иванов", PlaceholderPhoto,
                         "Я фронтенд-разработчик, увлекаюсь веб-технологиями и анимациями.",
                         ["HTML", "CSS", "JavaScript"], "https://github.com/ivanivanov",
                         "https://example.com/resume.pdf"))

  /** What a submit did. */
  datatype SubmitOutcome =
    | Rejected      // validation failed; the messages are shown
    | Submitted     // the profile was updated (if it is an object) and saved
    | Threw         // `profileData` is null, so the first assignment threw a TypeError

  /** The page's state: the in-memory profile, the text of the six error
      elements and the `userProfile` entry of local storage. */
  class ProfileEditor {
    var profileData: Json
    var errorText: ErrorTexts
    var storage: Option<string>
    /** Whether `new URL(s)` accepts a string. */
    const isValidURL: string -> bool
    /** `JSON.parse`; None when it throws. */
    const jsonParse: string -> Option<Json>
    /** `JSON.stringify`. */
    const jsonStringify: Json -> string

    /** The page as loaded, before `loadProfileData` runs; `storage` is what
        local storage already holds. */
    constructor (isValidURL: string -> bool, jsonParse: string -> Option<Json>,
                 jsonStringify: Json -> string, storage: Option<string>)
      ensures this.isValidURL == isValidURL && this.jsonParse == jsonParse
      ensures this.jsonStringify == jsonStringify && this.storage == storage
      ensures profileData == InitialProfile && errorText == NoErrors
    {
      this.isValidURL := isValidURL;
      this.jsonParse := jsonParse;
      this.jsonStringify := jsonStringify;
      this.storage := storage;
      profileData := InitialProfile;
      errorText := NoErrors;
    }

    /** `clearErrors()`: every error element is emptied. */
    method ClearErrors()
      modifies this
      ensures errorText == NoErrors
      ensures profileData == old(profileData) && storage == old(storage)
    {
      errorText := NoErrors;
    }

    /** One check of `validateForm`: the input is trimmed and tested; when it
        fails, the field's message is the text to show and the form is not
        valid. */
    method CheckField(inp: FormInputs, f: Field) returns (shown: ErrorText, passed: bool)
      ensures passed <==> !Flagged(inp, f, isValidURL)
      ensures shown == Verdict(inp, f, isValidURL)
    {
      var value := Trim(Input(inp, f));
      shown, passed := Blank, true;
      if FormRuleFails(f, value, isValidURL) {
        shown, passed := Message(f), false;
      }
    }

    /** `validateForm()`: clears the errors, then checks the six trimmed
        inputs in turn, showing a message under each one that fails. The
        result is true exactly when none does; the profile and storage are
        not touched. */
    method ValidateForm(inp: FormInputs) returns (isValid: bool)
      modifies this
      ensures ShowsVerdict(errorText, inp, isValidURL)
      ensures isValid <==> FormAccepted(inp, isValidURL)
      ensures profileData == old(profileData) && storage == old(storage)
    {
      ClearErrors();
      var nameText, nameOk := CheckField(inp, Name);
      var photoText, photoOk := CheckField(inp, Photo);
      var bioText, bioOk := CheckField(inp, Bio);
      var skillsText, skillsOk := CheckField(inp, Skills);
      var githubText, githubOk := CheckField(inp, GitHub);
      var resumeText, resumeOk := CheckField(inp, Resume);
      errorText := ErrorTexts(nameText, photoText, bioText, skillsText, githubText, resumeText);
      isValid := nameOk && photoOk && bioOk && skillsOk && githubOk && resumeOk;
      ShowsVerdictByField(errorText, inp, isValidURL);
    }

    /** `saveProfileData(data)`: local storage holds the JSON text of `data`. */
    method SaveProfileData(data: Json)
      modifies this
      ensures storage == Some(jsonStringify(data))
      ensures profileData == old(profileData) && errorText == old(errorText)
    {
      storage := Some(jsonStringify(data));
    }

    /** The submit handler. A form that fails validation changes only the
        error texts. Otherwise the six properties are assigned on
        `profileData` and it is saved: an object gets the edited fields and
        keeps its other properties; null makes the first assignment throw,
        so nothing is saved; on any other value the assignments have no
        effect and the value is saved as it is. */
    method Submit(inp: FormInputs) returns (outcome: SubmitOutcome)
      modifies this
      ensures ShowsVerdict(errorText, inp, isValidURL)
      ensures !FormAccepted(inp, isValidURL) ==>
        outcome == Rejected && profileData == old(profileData) && storage == old(storage)
      ensures FormAccepted(inp, isValidURL) && old(profileData).JNull? ==>
        outcome == Threw && profileData == old(profileData) && storage == old(storage)
      ensures FormAccepted(inp, isValidURL) && old(profileData).JObject? ==>
        && outcome == Submitted
        && profileData == JObject(old(profileData).fields + EditedFields(inp))
        && storage == Some(jsonStringify(profileData))
      ensures FormAccepted(inp, isValidURL) && !old(profileData).JNull? && !old(profileData).JObject? ==>
        outcome == Submitted && profileData == old(profileData) && storage == Some(jsonStringify(profileData))
    {
      var isValid := ValidateForm(inp);
      if !isValid {
        return Rejected;
      }
      if profileData.JNull? {
        return Threw;
      }
      if profileData.JObject? {
        profileData := JObject(profileData.fields + EditedFields(inp));
      }
      SaveProfileData(profileData);
      outcome := Submitted;
    }

    /** `loadProfileData()`: when local storage holds a non-empty entry that
        parses, the profile becomes the parsed value; otherwise (no entry,
        an empty one, or a parse error, which is swallowed) nothing changes. */
    method LoadProfileData()
      modifies this
      ensures storage.Some? && storage.value != "" && jsonParse(storage.value).Some? ==>
        profileData == jsonParse(storage.value).value
      ensures !(storage.Some? && storage.value != "" && jsonParse(storage.value).Some?) ==>
        profileData == old(profileData)
      ensures storage == old(storage) && errorText == old(errorText)
    {
      var stored := storage;
      if stored.Some? && stored.value != "" {
        var parsed := jsonParse(stored.value);
        if parsed.Some? {
          profileData := parsed.value;
        }
      }
    }
  }

  /** A profile saved by a submit comes back on the next page load, as
      long as `JSON.parse` reads back what `JSON.stringify` wrote. */
  method SubmitThenReload(editor: ProfileEditor, inp: FormInputs) returns (outcome: SubmitOutcome)
    requires editor.profileData.JObject?
    requires FormAccepted(inp, editor.isValidURL)
    requires var saved := JObject(editor.profileData.fields + EditedFields(inp));
      editor.jsonStringify(saved) != "" && editor.jsonParse(editor.jsonStringify(saved)) == Some(saved)
    modifies editor
    ensures outcome == Submitted
    ensures editor.profileData == JObject(old(editor.profileData).fields + EditedFields(inp))
  {
    outcome := editor.Submit(inp);
    editor.profileData := InitialProfile;
    editor.LoadProfileData();
  }
}
