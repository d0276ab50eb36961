/** The six fields of a profile record and the constants both components share. */
module Profiles {
  import opened JsValues

  /** The fields the validators check, in the order they check them. */
  datatype Field = Name | Photo | Bio | Skills | GitHub | Resume

  /** The JSON property name of each field. */
  function Key(f: Field): string {
    match f
    case Name => "name"
    case Photo => "photo"
    case Bio => "bio"
    case Skills => "skills"
    case GitHub => "github"
    case Resume => "resume"
  }

  const AllFields: set<Field> := {Name, Photo, Bio, Skills, GitHub, Resume}

  /** Every field is one of the six. */
  lemma FieldCases(f: Field)
    ensures f in AllFields
    ensures f == Name || f == Photo || f == Bio || f == Skills || f == GitHub || f == Resume
  {
  }

  /** The placeholder image URL (server.js:168, script.js:37 and 184). */
  const PlaceholderPhoto: string := "https://via.placeholder.com/150"
  /** `data` carries the six profile properties as strings, except the
      skills list; `photo` may be absent. Any other properties are ignored. */
  predicate HasStringFields(data: Json, name: string, photo: Option<string>, bio: string,
                            skills: seq<Json>, github: string, resume: string)
  {
    && Get(data, "name") == Some(JString(name))
    && Get(data, "photo") == (if photo.Some? then Some(JString(photo.value)) else None)
    && Get(data, "bio") == Some(JString(bio))
    && Get(data, "skills") == Some(JArray(skills))
    && Get(data, "github") == Some(JString(github))
    && Get(data, "resume") == Some(JString(resume))
  }

  /** The six properties of a profile object, skills as a list of strings. */
  function RecordFields(name: string, photo: string, bio: string, skills: seq<string>,
                        github: string, resume: string): (m: map<string, Json>)
    ensures m.Keys == set f | f in AllFields :: Key(f)
    ensures HasStringFields(JObject(m), name, Some(photo), bio, StringItems(skills), github, resume)
  {
    map["name" := JString(name), "photo" := JString(photo), "bio" := JString(bio),
        "skills" := JArray(StringItems(skills)), "github" := JString(github),
        "resume" := JString(resume)]
  }

  /** Setting the six properties on an object replaces them and keeps its
      other properties. */
  lemma {:induction false} OverwriteFields(base: map<string, Json>, name: string, photo: string, bio: string,
                                           skills: seq<string>, github: string, resume: string)
    ensures var m := base + RecordFields(name, photo, bio, skills, github, resume);
      && HasStringFields(JObject(m), name, Some(photo), bio, StringItems(skills), github, resume)
      && forall k | k in base && k !in RecordFields(name, photo, bio, skills, github, resume) :: k in m && m[k] == base[k]
  {
    var r := RecordFields(name, photo, bio, skills, github, resume);
    var m := base + r;
    forall f | f in AllFields ensures Get(JObject(m), Key(f)) == Get(JObject(r), Key(f)) {
      assert Key(f) in r.Keys;
    }
    assert Name in AllFields && Photo in AllFields && Bio in AllFields;
    assert Skills in AllFields && GitHub in AllFields && Resume in AllFields;
  }
}
