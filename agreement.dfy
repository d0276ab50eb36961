/** How the two validators relate: the record the submit handler builds
    from a form, sent as the body of a POST or PUT, against the server's
    `validateProfile`. The rules agree field by field except where the
    client reads the input differently from what it then stores. */
module Agreement {
  import opened JsValues
  import opened JsStrings
  import opened Profiles
  import Server
  import opened Client

  /** Field by field, the server reports the submitted record exactly where
      the form flagged the input, with two exceptions: an empty photo input
      is stored as the placeholder, which the server checks as a URL; and
      the server rejects the skills whenever they parse to no skill at all,
      which the form misses for inputs such as ",". */
  lemma EditedRecordVerdict(base: map<string, Json>, inp: FormInputs, isValidURL: string -> bool)
    ensures var errors := Server.ValidateProfile(JObject(base + EditedFields(inp)), isValidURL);
      && (Name in errors <==> Flagged(inp, Name, isValidURL))
      && (Bio in errors <==> Flagged(inp, Bio, isValidURL))
      && (GitHub in errors <==> Flagged(inp, GitHub, isValidURL))
      && (Resume in errors <==> Flagged(inp, Resume, isValidURL))
      && (Trim(inp.photo) != "" ==> (Photo in errors <==> Flagged(inp, Photo, isValidURL)))
      && (Trim(inp.photo) == "" ==> !Flagged(inp, Photo, isValidURL) && (Photo in errors <==> !isValidURL(PlaceholderPhoto)))
      && (Skills in errors <==> OnlyCommasAndWhiteSpace(inp.skills))
      && (Flagged(inp, Skills, isValidURL) ==> Skills in errors)
  {
    var data := JObject(base + EditedFields(inp));
    var errors := Server.ValidateProfile(data, isValidURL);
    var name, photo, bio := Trim(inp.name), Trim(inp.photo), Trim(inp.bio);
    var github, resume := Trim(inp.github), Trim(inp.resume);
    assert && (Name in errors <==> !(3 <= |name| <= 50))
           && (Photo in errors <==> !isValidURL(PhotoOrPlaceholder(photo)))
           && (Bio in errors <==> !(10 <= |bio| <= 300))
           && (Skills in errors <==> OnlyCommasAndWhiteSpace(inp.skills))
           && (GitHub in errors <==> github == "" || !isValidURL(github))
           && (Resume in errors <==> resume == "" || !isValidURL(resume)) by {
      var skills := ParseSkills(inp.skills);
      EditedRecordShape(base, inp);
      Server.StringFieldRules(data, name, Some(PhotoOrPlaceholder(photo)), bio,
                              StringItems(skills), github, resume, isValidURL);
      assert |StringItems(skills)| == |skills|;
    }
    FormFieldRules(inp, isValidURL);
    if AllWhiteSpace(inp.skills) {
      TrimSpec(inp.skills);
      BlankInputHasNoSkills(inp.skills);
    }
  }

  /** A form that passes `validateForm` yields a record the server accepts,
      provided the skills input names at least one skill and, when the photo
      input is empty, the placeholder URL parses. */
  lemma AcceptedFormPassesServer(base: map<string, Json>, inp: FormInputs, isValidURL: string -> bool)
    requires FormAccepted(inp, isValidURL)
    requires !OnlyCommasAndWhiteSpace(inp.skills)
    requires Trim(inp.photo) == "" ==> isValidURL(PlaceholderPhoto)
    ensures Server.ValidateProfile(JObject(base + EditedFields(inp)), isValidURL) == map[]
  {
    EditedRecordVerdict(base, inp, isValidURL);
    var errors := Server.ValidateProfile(JObject(base + EditedFields(inp)), isValidURL);
    if errors != map[] {
      var f :| f in errors;
      FieldCases(f);
    }
  }

  /** The gap on skills: "," passes the form but the record built from it
      carries an empty skills list, which the server rejects. */
  lemma LoneCommaRejectedByServer(base: map<string, Json>, inp: FormInputs, isValidURL: string -> bool)
    requires inp.skills == ","
    ensures !Flagged(inp, Skills, isValidURL)
    ensures Skills in Server.ValidateProfile(JObject(base + EditedFields(inp)), isValidURL)
  {
    LoneCommaPassesForm(inp, isValidURL);
    EditedRecordVerdict(base, inp, isValidURL);
  }

  /** The gap on names, the other way round: a name of 3 to 50 characters
      that trims to fewer than 3, such as "   " or "  ab ", passes the
      server's untrimmed check while the form flags it. */
  lemma UntrimmedNameGap(data: Json, inp: FormInputs, isValidURL: string -> bool)
    requires Get(data, "name") == Some(JString(inp.name))
    requires 3 <= |inp.name| <= 50 && |Trim(inp.name)| < 3
    ensures Flagged(inp, Name, isValidURL)
    ensures Name !in Server.ValidateProfile(data, isValidURL)
  {
    assert Key(Name) == "name";
  }
}
