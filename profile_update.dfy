/** The profile-update form (src/Component/updat-pro.js): a profile object edited one
    key at a time, a validator that builds an error map, and a submit handler that
    sends the profile with a PUT request and reports how the request ended. */
module ProfileUpdate {
  import opened Assets
  import opened Web

  /** A value stored under a key of the profile object. */
  datatype Value = Num(n: int) | Str(s: string) | Pic(avatar: Avatar)

  /** The profile is a plain object: any key may be written, not only the initial ones. */
  type Profile = map<string, Value>

  const UpdateUrl := "http://localhost:5555/api/users"

  const InitialProfile: Profile := map[
    "UserID" := Num(1),
    "UserName" := Str(""),
    "Email" := Str(""),
    "Phone" := Str(""),
    "Password" := Str(""),
    "Birthday" := Str(""),
    "AvatarUrl" := Pic(Avatars[0])
  ]

  /** The only keys the validator ever reports. */
  const ValidatedKeys: set<string> := {"UserName", "Email", "Password"}

  const NameRequired := "Name is required"
  const EmailRequired := "Email is required"
  const PasswordTooShort := "Password must be at least 8 characters"
  const MinPasswordLength := 8

  const UpdatedStatus := "Profile updated successfully"
  const FailedPrefix := "Failed to update profile: "
  const ErrorPrefix := "Error: "

  /** The body of a non-ok response as `response.json()` reads it: not JSON at all (the
      promise rejects with a parse error), or an object whose `message` may be absent. */
  datatype ErrorBody = NotJson(parseError: string) | Json(message: Option<string>)

  datatype UpdateRequest = UpdateRequest(verb: string, url: string, body: Profile)

  /** `profile[key]`, where `None` is JavaScript's `undefined`. */
  function Lookup(p: Profile, key: string): Option<Value> {
    if key in p then Some(p[key]) else None
  }

  /** JavaScript's `!v` on the values a profile holds. */
  predicate Falsy(v: Option<Value>) {
    match v
    case None => true
    case Some(Num(n)) => n == 0
    case Some(Str(s)) => s == ""
    case Some(Pic(_)) => false
  }

  /** `!v || v.length < 8`, where `length` counts UTF-16 code units. A number has no
      `length`, and `undefined < 8` is false; an asset reference is never stored under
      `Password` (see TextFieldsAreStrings). */
  predicate TooShort(v: Option<Value>) {
    Falsy(v) || (v.Some? && v.value.Str? && Utf16Length(v.value.s) < MinPasswordLength)
  }

  /** The five text inputs always hold strings: they start as "" and `handleChange`
      only ever stores the input's string value. */
  ghost predicate TextFieldsAreStrings(p: Profile) {
    && "UserName" in p && p["UserName"].Str?
    && "Email" in p && p["Email"].Str?
    && "Phone" in p && p["Phone"].Str?
    && "Password" in p && p["Password"].Str?
    && "Birthday" in p && p["Birthday"].Str?
  }

  /** The updater `handleChange` hands to `setProfile`: `{...prevState, [name]: value}`. */
  function ChangeField(prev: Profile, name: string, value: string): (next: Profile)
    ensures next.Keys == prev.Keys + {name}
    ensures next[name] == Str(value)
    ensures forall k :: k != name ==> Lookup(next, k) == Lookup(prev, k)
  {
    prev[name := Str(value)]
  }

  /** The updater `handleAvatarChange` hands to `setProfile`: `{...prevState, avatar}`.
      It writes the lowercase key "avatar", so the submitted `AvatarUrl` never changes. */
  function ChangeAvatar(prev: Profile, a: Avatar): (next: Profile)
    ensures next.Keys == prev.Keys + {"avatar"}
    ensures next["avatar"] == Pic(a)
    ensures Lookup(next, "AvatarUrl") == Lookup(prev, "AvatarUrl")
    ensures forall k :: k != "avatar" ==> Lookup(next, k) == Lookup(prev, k)
  {
    prev["avatar" := Pic(a)]
  }

  /** The rule `validateForm` applies to each reported key. */
  predicate Fails(p: Profile, key: string) {
    if key == "UserName" then Falsy(Lookup(p, "UserName"))
    else if key == "Email" then Falsy(Lookup(p, "Email"))
    else if key == "Password" then TooShort(Lookup(p, "Password"))
    else false
  }

  function MessageFor(key: string): string {
    if key == "UserName" then NameRequired
    else if key == "Email" then EmailRequired
    else PasswordTooShort
  }

  /** The error map `validateForm` builds, as a reference definition: one entry per
      failing rule. */
  function Validate(p: Profile): (errors: map<string, string>)
    ensures errors.Keys <= ValidatedKeys
    ensures "UserName" in errors <==> Falsy(Lookup(p, "UserName"))
    ensures "Email" in errors <==> Falsy(Lookup(p, "Email"))
    ensures "Password" in errors <==> TooShort(Lookup(p, "Password"))
    ensures "UserName" in errors ==> errors["UserName"] == NameRequired
    ensures "Email" in errors ==> errors["Email"] == EmailRequired
    ensures "Password" in errors ==> errors["Password"] == PasswordTooShort
  {
    map key | key in ValidatedKeys && Fails(p, key) :: MessageFor(key)
  }

  /** The profile passes validation. */
  predicate Accepts(p: Profile) {
    !Falsy(Lookup(p, "UserName")) && !Falsy(Lookup(p, "Email")) && !TooShort(Lookup(p, "Password"))
  }

  /** `validateForm` returns true exactly when the map it built is empty. */
  lemma AcceptsIffNoErrors(p: Profile)
    ensures Accepts(p) <==> Validate(p) == map[]
  {
  }

  /** On the strings the inputs hold: a name or email error exactly when the field is
      empty, a password error exactly when its `length` (in UTF-16 code units) is below
      eight, the empty password included. No format check is made on the email. */
  lemma ValidateOnTextFields(p: Profile)
    requires TextFieldsAreStrings(p)
    ensures "UserName" in Validate(p) <==> p["UserName"].s == ""
    ensures "Email" in Validate(p) <==> p["Email"].s == ""
    ensures "Password" in Validate(p) <==> Utf16Length(p["Password"].s) < MinPasswordLength
  {
  }

  /** A password of four characters outside the Basic Multilingual Plane has `length` 8,
      so it passes: the rule counts code units, not characters. */
  lemma FourEmojiPasswordIsAccepted()
    ensures Accepts(InitialProfile["UserName" := Str("bob")]["Email" := Str("bob@x.com")]
                                   ["Password" := Str(['\U{1F600}', '\U{1F600}', '\U{1F600}', '\U{1F600}'])])
  {
    var pw := ['\U{1F600}', '\U{1F600}', '\U{1F600}', '\U{1F600}'];
    assert pw[1..][1..][1..][1..] == [];
    assert Utf16Length(pw) == 8;
  }

  /** Keys other than UserName, Email and Password (Phone, Birthday, avatar, ...) never
      influence validation: the phone pattern is not enforced. */
  lemma OtherKeysDoNotMatter(p: Profile, key: string, v: Value)
    requires key !in ValidatedKeys
    ensures Validate(p[key := v]) == Validate(p)
  {
  }

  /** Choosing an avatar never changes the outcome of validation. */
  lemma AvatarChoiceKeepsErrors(p: Profile, a: Avatar)
    ensures Validate(ChangeAvatar(p, a)) == Validate(p)
  {
  }

  /** The render layer reads `errors.name`, `errors.email`, `errors.phone` and
      `errors.password`; the validator never writes any of these keys. */
  lemma ErrorsNeverUseRenderedKeys(p: Profile)
    ensures "name" !in Validate(p) && "email" !in Validate(p)
    ensures "phone" !in Validate(p) && "password" !in Validate(p)
  {
  }

  /** The untouched form is rejected on all three validated fields. */
  lemma InitialProfileIsRejected()
    ensures Validate(InitialProfile) ==
      map["UserName" := NameRequired, "Email" := EmailRequired, "Password" := PasswordTooShort]
  {
  }

  /** A filled-in form whose only gap is the name gets exactly the name error, whatever
      the (non-empty) email and the (eight characters or longer) password are. */
  lemma MissingNameOnly(email: string, password: string)
    requires email != "" && |password| >= MinPasswordLength
    ensures Validate(InitialProfile["Email" := Str(email)]["Password" := Str(password)])
      == map["UserName" := NameRequired]
  {
    var p := InitialProfile["Email" := Str(email)]["Password" := Str(password)];
    assert Lookup(p, "Email") == Some(Str(email));
    assert Lookup(p, "Password") == Some(Str(password));
    assert Validate(p).Keys == {"UserName"};
  }

  /** `updateStatus` after the request ends: success, the server's `message` after a
      non-ok response, or the caught error's message (which includes a body that is not
      JSON, since `response.json()` then rejects inside the `try`). */
  function UpdateStatus(outcome: Outcome<ErrorBody>): (status: string)
    ensures outcome.Ok? <==> status == UpdatedStatus
    ensures StartsWith(status, FailedPrefix) <==> outcome.NotOk? && outcome.body.Json?
    ensures StartsWith(status, ErrorPrefix) <==> outcome.Threw? || (outcome.NotOk? && outcome.body.NotJson?)
    ensures outcome.NotOk? && outcome.body.Json? && outcome.body.message.Some? ==>
      status[|FailedPrefix|..] == outcome.body.message.value
    ensures outcome.NotOk? && outcome.body.Json? && outcome.body.message.None? ==>
      status[|FailedPrefix|..] == "undefined"
    ensures outcome.Threw? ==> status[|ErrorPrefix|..] == outcome.message
    ensures outcome.NotOk? && outcome.body.NotJson? ==> status[|ErrorPrefix|..] == outcome.body.parseError
  {
    match outcome
    case Ok =>
      FirstCharDiffers(UpdatedStatus, FailedPrefix);
      FirstCharDiffers(UpdatedStatus, ErrorPrefix);
      UpdatedStatus
    case NotOk(Json(Some(m))) => Failed(m)
    case NotOk(Json(None)) => Failed("undefined")
    case NotOk(NotJson(e)) => Caught(e)
    case Threw(e) => Caught(e)
  }

  function Failed(detail: string): (status: string)
    ensures StartsWith(status, FailedPrefix) && status[|FailedPrefix|..] == detail
    ensures status != UpdatedStatus && !StartsWith(status, ErrorPrefix)
  {
    var status := Prefixed(FailedPrefix, detail);
    FirstCharDiffers(status, UpdatedStatus);
    FirstCharDiffers(status, ErrorPrefix);
    status
  }

  function Caught(message: string): (status: string)
    ensures StartsWith(status, ErrorPrefix) && status[|ErrorPrefix|..] == message
    ensures status != UpdatedStatus && !StartsWith(status, FailedPrefix)
  {
    var status := Prefixed(ErrorPrefix, message);
    FirstCharDiffers(status, UpdatedStatus);
    FirstCharDiffers(status, FailedPrefix);
    status
  }

  /** The update form component: its three pieces of state, plus the log of PUT
      requests it has issued. */
  class ProfileUpdateForm {
    var profile: Profile
    var errors: map<string, string>
    var updateStatus: Option<string>
    var requests: seq<UpdateRequest>

    ghost predicate Valid()
      reads this
    {
      TextFieldsAreStrings(profile) && errors.Keys <= ValidatedKeys
    }

    /** The initial state: `UserID` 1, empty strings, the first avatar, no errors, no status. */
    constructor ()
      ensures Valid()
      ensures profile == InitialProfile && profile["UserID"] == Num(1)
      ensures profile["AvatarUrl"] == Pic(Avatars[0])
      ensures errors == map[] && updateStatus == None && requests == []
    {
      profile := InitialProfile;
      errors := map[];
      updateStatus := None;
      requests := [];
    }

    method HandleChange(name: string, value: string)
      requires Valid()
      modifies this`profile
      ensures Valid()
      ensures profile == ChangeField(old(profile), name, value)
    {
      profile := ChangeField(profile, name, value);
    }

    method HandleAvatarChange(a: Avatar)
      requires Valid()
      modifies this`profile
      ensures Valid()
      ensures profile == ChangeAvatar(old(profile), a)
    {
      profile := ChangeAvatar(profile, a);
    }

    /** Builds the error map key by key, stores it, and reports whether it is empty. */
    method ValidateForm() returns (ok: bool)
      requires Valid()
      modifies this`errors
      ensures Valid()
      ensures errors == Validate(profile)
      ensures ok <==> errors == map[]
      ensures ok <==> Accepts(profile)
      ensures "UserName" in errors <==> profile["UserName"].s == ""
      ensures "Email" in errors <==> profile["Email"].s == ""
      ensures "Password" in errors <==> Utf16Length(profile["Password"].s) < MinPasswordLength
    {
      var newErrors: map<string, string> := map[];
      if Falsy(Lookup(profile, "UserName")) {
        newErrors := newErrors["UserName" := NameRequired];
      }
      if Falsy(Lookup(profile, "Email")) {
        newErrors := newErrors["Email" := EmailRequired];
      }
      if TooShort(Lookup(profile, "Password")) {
        newErrors := newErrors["Password" := PasswordTooShort];
      }
      assert newErrors == Validate(profile);
      errors := newErrors;
      ok := |newErrors| == 0;
      AcceptsIffNoErrors(profile);
      ValidateOnTextFields(profile);
    }

    /** Sends the current profile and records how the request ended. */
    method UpdateProfile(outcome: Outcome<ErrorBody>)
      modifies this`updateStatus, this`requests
      ensures requests == old(requests) + [UpdateRequest("PUT", UpdateUrl, profile)]
      ensures updateStatus == Some(UpdateStatus(outcome))
    {
      requests := requests + [UpdateRequest("PUT", UpdateUrl, profile)];
      updateStatus := Some(UpdateStatus(outcome));
    }

    /** Validates, and sends only a profile that passes; nothing guards against a
        second submit while a request is still pending. */
    method HandleSubmit(outcome: Outcome<ErrorBody>)
      requires Valid()
      modifies this`errors, this`updateStatus, this`requests
      ensures Valid()
      ensures errors == Validate(profile)
      ensures Accepts(profile) ==>
        requests == old(requests) + [UpdateRequest("PUT", UpdateUrl, profile)] &&
        updateStatus == Some(UpdateStatus(outcome))
      ensures !Accepts(profile) ==> requests == old(requests) && updateStatus == old(updateStatus)
    {
      var ok := ValidateForm();
      if ok {
        UpdateProfile(outcome);
      }
    }
  }
}
