/** The user-model helpers: the avatar upload path, the display name of a user and of a
    profile, and the validation and defaulting `UserManager` applies before it saves a new
    user. `normalize_email` and `generate_unique_username` are not part of this model:
    the manager is given them as functions. */
module Accounts {
  import opened Wrappers
  import opened Text
  import opened Values
  import opened Uuids

  // ------------------------------------------------------------ avatars

  /** The extension `upload_avatar` keeps: the text after the last `.`, or `jpg` for a
      name without one. */
  function AvatarExtension(filename: string): (ext: string)
    ensures '.' !in ext
    ensures '.' in filename ==>
              |ext| < |filename| && filename == filename[..|filename| - |ext| - 1] + "." + ext
    ensures '.' !in filename ==> ext == "jpg"
  {
    if '.' in filename then
      var ext := LastField(filename, '.');
      assert filename == filename[..|filename| - |ext| - 1] + "." + ext;
      ext
    else "jpg"
  }

  /** `upload_avatar(instance, filename)`, the random UUID `uuid4()` draws given as
      `random`: the folder `avatar/`, the 32 digits of `random.hex`, a dot and the
      extension. */
  function UploadAvatar(random: Uuid, filename: string): (path: string)
    ensures |path| == 40 + |AvatarExtension(filename)|
    ensures path[..7] == "avatar/" && path[7..39] == Hex(random) && path[39] == '.'
    ensures path[40..] == AvatarExtension(filename)
  {
    var front := "avatar/" + Hex(random);
    var ext := AvatarExtension(filename);
    ConcatParts("avatar/", Hex(random));
    ConcatParts(front + ".", ext);
    assert (front + ".")[..39] == front;
    front + "." + ext
  }

  /** The path's digits read back as the UUID, and the path's own extension is the
      upload's, so distinct UUIDs give distinct paths. */
  lemma UploadAvatarSpec(random: Uuid, filename: string)
    ensures var path := UploadAvatar(random, filename);
            && ParseUuid(path[7..39]) == Some(random)
            && LastField(path, '.') == AvatarExtension(filename)
  {
    ParseHex(random);
    LastFieldAfterLast("avatar/" + Hex(random), AvatarExtension(filename));
  }

  /** The field after the last `.` of `p + "." + ext`, when `ext` has no `.`, is `ext`. */
  lemma {:induction false} LastFieldAfterLast(p: string, ext: string)
    requires '.' !in ext
    ensures LastField(p + "." + ext, '.') == ext
    decreases |ext|
  {
    var s := p + "." + ext;
    if ext == [] {
      assert s[|s| - 1] == '.';
    } else {
      var front := ext[..|ext| - 1];
      assert s[..|s| - 1] == p + "." + front;
      assert s[|s| - 1] == ext[|ext| - 1];
      LastFieldAfterLast(p, front);
      assert front + [ext[|ext| - 1]] == ext;
    }
  }

  /** Distinct UUIDs give distinct avatar paths. */
  lemma UploadAvatarInjective(u: Uuid, v: Uuid, f: string, g: string)
    requires UploadAvatar(u, f) == UploadAvatar(v, g)
    ensures u == v
  {
    UploadAvatarSpec(u, f);
    UploadAvatarSpec(v, g);
  }

  // -------------------------------------------------------------- names

  datatype Person = Person(email: string, firstName: string, lastName: string)

  /** `get_full_name`: the first and last name joined by a space and stripped, or the
      email when that leaves nothing. */
  function FullName(p: Person): (r: string)
    ensures var name := p.firstName + " " + p.lastName;
            && (AllSpace(name) ==> r == p.email)
            && (!AllSpace(name) ==> r == Strip(name) && r != [])
  {
    var name := Strip(p.firstName + " " + p.lastName);
    StripEmpty(p.firstName + " " + p.lastName);
    if name != [] then name else p.email
  }

  /** A name with a character other than whitespace, in either part, is shown stripped,
      and the email is not used. */
  lemma FullNameShown(p: Person)
    requires !AllSpace(p.firstName) || !AllSpace(p.lastName)
    ensures FullName(p) == Strip(p.firstName + " " + p.lastName) && FullName(p) != []
  {
    var name := p.firstName + " " + p.lastName;
    if !AllSpace(p.firstName) {
      var k :| 0 <= k < |p.firstName| && !IsSpace(p.firstName[k]);
      assert name[k] == p.firstName[k];
    } else {
      var k :| 0 <= k < |p.lastName| && !IsSpace(p.lastName[k]);
      assert name[|p.firstName| + 1 + k] == p.lastName[k];
    }
  }

  /** With no first name, a clean last name is shown on its own. */
  lemma FullNameLastOnly(p: Person)
    requires p.firstName == []
    requires p.lastName != [] && !IsSpace(p.lastName[0]) && !IsSpace(p.lastName[|p.lastName| - 1])
    ensures FullName(p) == p.lastName
  {
    var name := p.firstName + " " + p.lastName;
    assert name[1..] == p.lastName;
    StripKeeps(p.lastName, IsSpace);
    assert StripLeft(name, IsSpace) == p.lastName;
    assert !AllSpace(name) by {
      assert !IsSpace(name[1]);
    }
  }

  /** A name with no whitespace at its ends, next to a non-empty one, is shown as is. */
  lemma FullNameJoined(p: Person)
    requires p.firstName != [] && !IsSpace(p.firstName[0])
    requires p.lastName != [] && !IsSpace(p.lastName[|p.lastName| - 1])
    ensures FullName(p) == p.firstName + " " + p.lastName
  {
    var s := p.firstName + " " + p.lastName;
    assert s[0] == p.firstName[0] && s[|s| - 1] == p.lastName[|p.lastName| - 1];
    StripUnchanged(s);
  }

  /** With names that are blank or empty the email is shown. */
  lemma FullNameFallback(p: Person)
    requires AllSpace(p.firstName) && AllSpace(p.lastName)
    ensures FullName(p) == p.email
  {
    assert AllSpace(" ");
    AllSpaceConcat(p.firstName, " ");
    AllSpaceConcat(p.firstName + " ", p.lastName);
    StripEmpty(p.firstName + " " + p.lastName);
  }

  /** `User.__str__` */
  function UserStr(p: Person): (r: string)
    ensures r == FullName(p)
  {
    FullName(p)
  }

  /** `UserProfile.__str__` */
  function ProfileStr(owner: Person): (r: string)
    ensures |r| >= 11 && r[..11] == "Profile of " && r[11..] == UserStr(owner)
  {
    "Profile of " + FullName(owner)
  }

  // -------------------------------------------------------- the manager

  /** A user as `create_user` saves it: the normalized email, the raw password handed to
      `set_password` (hashing is not part of the model; `None` makes the password
      unusable) and the other model fields by name. */
  datatype NewUser = NewUser(email: string, password: Option<string>, fields: map<string, Json>)

  /** `d.setdefault(key, value)` */
  function SetDefault(d: map<string, Json>, key: string, value: Json): (r: map<string, Json>)
    ensures key in r && (key in d ==> r[key] == d[key]) && (key !in d ==> r[key] == value)
    ensures forall k :: k != key ==> (k in r <==> k in d)
    ensures forall k :: k != key && k in d ==> r[k] == d[k]
  {
    if key in d then d else d[key := value]
  }

  /** The flags `create_superuser` defaults and then checks, in order: `is_staff` first,
      then `is_superuser`. */
  function SuperuserFields(extra: map<string, Json>): (r: Result<map<string, Json>, Exception>)
    ensures r.Ok? ==> && "is_staff" in r.value && "is_superuser" in r.value && "is_active" in r.value
                      && Truthy(r.value["is_staff"]) && Truthy(r.value["is_superuser"])
    ensures r.Err? ==> r.error.ValueError?
  {
    var fields := SetDefault(SetDefault(SetDefault(extra, "is_staff", JBool(true)),
                                        "is_superuser", JBool(true)),
                             "is_active", JBool(true));
    if !Truthy(fields["is_staff"]) then Err(ValueError("Superuser must have is_staff=True."))
    else if !Truthy(fields["is_superuser"]) then Err(ValueError("Superuser must have is_superuser=True."))
    else Ok(fields)
  }

  function Flag(extra: map<string, Json>, key: string): Json {
    if key in extra then extra[key] else JBool(true)
  }

  /** The three flags default to `True` and keep what the caller gave; a falsy
      `is_staff` is refused, and only then a falsy `is_superuser`; no other field
      changes. */
  lemma SuperuserFieldsSpec(extra: map<string, Json>)
    ensures !Truthy(Flag(extra, "is_staff")) <==>
              SuperuserFields(extra) == Err(ValueError("Superuser must have is_staff=True."))
    ensures Truthy(Flag(extra, "is_staff")) && !Truthy(Flag(extra, "is_superuser")) <==>
              SuperuserFields(extra) == Err(ValueError("Superuser must have is_superuser=True."))
    ensures SuperuserFields(extra).Ok? <==>
              Truthy(Flag(extra, "is_staff")) && Truthy(Flag(extra, "is_superuser"))
    ensures SuperuserFields(extra).Ok? ==>
              var fields := SuperuserFields(extra).value;
              && fields["is_staff"] == Flag(extra, "is_staff")
              && fields["is_superuser"] == Flag(extra, "is_superuser")
              && fields["is_active"] == Flag(extra, "is_active")
              && (forall k :: k in extra ==> k in fields && fields[k] == extra[k])
              && (forall k :: k in fields ==> k in extra || k in {"is_staff", "is_superuser", "is_active"})
  {
    var staff := "Superuser must have is_staff=True.";
    var superuser := "Superuser must have is_superuser=True.";
    assert staff != superuser by {
      assert staff[24] != superuser[24];
    }
  }

  /** `UserManager`: it saves the users it creates, in order. */
  class UserManager {
    /** `normalize_email` */
    const normalize: string -> string
    /** `generate_unique_username` */
    const generateUsername: string -> string
    var saved: seq<NewUser>

    constructor (normalize: string -> string, generateUsername: string -> string)
      ensures this.normalize == normalize && this.generateUsername == generateUsername
      ensures saved == []
    {
      this.normalize := normalize;
      this.generateUsername := generateUsername;
      saved := [];
    }

    /** `create_user(email, password, **extra)`: a missing or empty email is refused
        before anything is saved; otherwise the email is normalized, `username` is set to
        the generated name unless the caller gave one, and the user is saved. */
    method CreateUser(email: Option<string>, password: Option<string>, extra: map<string, Json>)
      returns (r: Result<NewUser, Exception>)
      modifies this
      ensures email.None? || email.value == [] ==>
                r == Err(ValueError("The Email field must be set")) && saved == old(saved)
      ensures email.Some? && email.value != [] ==>
                var e := normalize(email.value);
                && r == Ok(NewUser(e, password, SetDefault(extra, "username", JStr(generateUsername(e)))))
                && saved == old(saved) + [r.value]
    {
      if email.None? || email.value == [] {
        return Err(ValueError("The Email field must be set"));
      }
      var e := normalize(email.value);
      var username := generateUsername(e);
      var fields := SetDefault(extra, "username", JStr(username));
      var user := NewUser(e, password, fields);
      saved := saved + [user];
      r := Ok(user);
    }

    /** `create_superuser(email, password, **extra)`: the flags are defaulted and
        checked, and then `create_user` runs on the completed fields. */
    method CreateSuperuser(email: Option<string>, password: Option<string>, extra: map<string, Json>)
      returns (r: Result<NewUser, Exception>)
      modifies this
      ensures SuperuserFields(extra).Err? ==> r == Err(SuperuserFields(extra).error) && saved == old(saved)
      ensures SuperuserFields(extra).Ok? && (email.None? || email.value == []) ==>
                r == Err(ValueError("The Email field must be set")) && saved == old(saved)
      ensures SuperuserFields(extra).Ok? && email.Some? && email.value != [] ==>
                var e := normalize(email.value);
                var fields := SetDefault(SuperuserFields(extra).value, "username", JStr(generateUsername(e)));
                && r == Ok(NewUser(e, password, fields))
                && saved == old(saved) + [r.value]
    {
      var checked := SuperuserFields(extra);
      if checked.Err? {
        return Err(checked.error);
      }
      r := CreateUser(email, password, checked.value);
    }
  }
}
