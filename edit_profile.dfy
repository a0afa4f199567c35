/**
 * The profile editor: a per-field validator built from length limits and
 * the two regular expressions of the form, the whole-form check, and the
 * handlers that keep the field values and their error messages in step
 * and refuse to submit an invalid form.
 */
module EditProfile {
  import opened Js

  const NameTooLong := "Must be 20 characters or less"
  const PhoneTooLong := "Must be 13 characters or less"
  const PhoneBadChars := "Only numbers and + allowed"
  const EmailBad := "Invalid email format"

  /** The characters of `[0-9+]`. */
  predicate PhoneChar(c: char)
  {
    '0' <= c <= '9' || c == '+'
  }

  /** `/^[0-9+]+$/.test(value)`. */
  predicate PhonePattern(value: string)
  {
    |value| > 0 && forall i :: 0 <= i < |value| ==> PhoneChar(value[i])
  }

  /** A run of `[^\s@]+`. */
  predicate Word(s: string)
  {
    |s| > 0 && forall i :: 0 <= i < |s| ==> !IsSpace(s[i]) && s[i] != '@'
  }

  /**
   * `/^[^\s@]+@[^\s@]+\.[^\s@]+$/.test(value)`: the value splits at an '@'
   * at `at` and a '.' at `dot` into three runs of `[^\s@]+`.
   */
  predicate EmailPattern(value: string)
  {
    exists at, dot :: 0 <= at < dot < |value| && EmailSplit(value, at, dot)
  }

  predicate EmailSplit(value: string, at: int, dot: int)
    requires 0 <= at < dot < |value|
  {
    value[at] == '@' && value[dot] == '.'
    && Word(value[..at]) && Word(value[at + 1..dot]) && Word(value[dot + 1..])
  }

  /**
   * The plain reading of the e-mail pattern: no whitespace, exactly one
   * '@', something before it, and a '.' in the domain that is neither its
   * first nor its last character.
   */
  predicate EmailShape(value: string)
  {
    (forall i :: 0 <= i < |value| ==> !IsSpace(value[i]))
    && (exists at :: 0 < at < |value| && value[at] == '@'
         && (forall i :: 0 <= i < |value| && value[i] == '@' ==> i == at)
         && (exists k :: at + 1 < k < |value| - 1 && value[k] == '.'))
  }

  /** The regular expression accepts exactly the values of the plain reading. */
  lemma EmailPatternShape(value: string)
    ensures EmailPattern(value) <==> EmailShape(value)
  {
    if EmailPattern(value) {
      var at, dot :| 0 <= at < dot < |value| && EmailSplit(value, at, dot);
      forall i | 0 <= i < |value| ensures !IsSpace(value[i]) && (value[i] == '@' ==> i == at) {
        if i < at {
          assert value[..at][i] == value[i];
        } else if at < i < dot {
          assert value[at + 1..dot][i - at - 1] == value[i];
        } else if dot < i {
          assert value[dot + 1..][i - dot - 1] == value[i];
        }
      }
      assert at + 1 < dot < |value| - 1 && value[dot] == '.';
    }
    if EmailShape(value) {
      var at :| 0 < at < |value| && value[at] == '@'
        && (forall i :: 0 <= i < |value| && value[i] == '@' ==> i == at)
        && exists k :: at + 1 < k < |value| - 1 && value[k] == '.';
      var dot :| at + 1 < dot < |value| - 1 && value[dot] == '.';
      assert Word(value[..at]);
      assert Word(value[at + 1..dot]);
      assert Word(value[dot + 1..]);
      assert EmailSplit(value, at, dot);
    }
  }

  /** The fields whose validation reads `value.length`. */
  const LengthFields: set<string> := {"first_name", "last_name", "phone"}

  /** `value.length` can be read: only `null` (and `undefined`) would throw. */
  predicate Readable(name: string, value: Value)
  {
    value.Null? ==> name !in LengthFields
  }

  /**
   * `value.length > limit`. A string has its length; the `length` of a
   * number or a boolean is `undefined`, and `undefined > limit` is false;
   * an object's `length` property is converted to a number.
   */
  predicate LongerThan(value: Value, limit: nat)
  {
    match value
    case Str(s) => |s| > limit
    case Obj(fields) => var n := ToNumber(Get(fields, "length")); n.Some? && n.value > limit
    case _ => false
  }

  /** The text a regular expression's `test` reads: `String(value)`. */
  function Text(value: Value): string
  {
    ToStr(Some(value))
  }

  /** `validateField(name, value)`: the error message of one field, "" when valid. */
  function ValidateField(name: string, value: Value): (e: string)
    requires Readable(name, value)
    ensures e in {"", NameTooLong, PhoneTooLong, PhoneBadChars, EmailBad}
  {
    match name
    case "first_name" => if LongerThan(value, 20) then NameTooLong else ""
    case "last_name" => if LongerThan(value, 20) then NameTooLong else ""
    case "phone" =>
      if LongerThan(value, 13) then PhoneTooLong
      else if Truthy(Some(value)) && !PhonePattern(Text(value)) then PhoneBadChars
      else ""
    case "email" => if Truthy(Some(value)) && !EmailPattern(Text(value)) then EmailBad else ""
    case _ => ""
  }

  /** A name is in error exactly when it is longer than 20 characters. */
  lemma NameRule(name: string, value: string)
    requires name == "first_name" || name == "last_name"
    ensures ValidateField(name, Str(value)) != "" <==> |value| > 20
    ensures ValidateField(name, Str(value)) != "" ==> ValidateField(name, Str(value)) == NameTooLong
  {
  }

  /**
   * The phone length limit comes first; below it any character outside
   * `[0-9+]` is an error; the empty phone is valid.
   */
  lemma PhoneRule(value: string)
    ensures |value| > 13 ==> ValidateField("phone", Str(value)) == PhoneTooLong
    ensures |value| <= 13 ==>
      (ValidateField("phone", Str(value)) == PhoneBadChars <==> exists i :: 0 <= i < |value| && !PhoneChar(value[i]))
    ensures ValidateField("phone", Str(value)) == "" <==> (|value| <= 13 && forall i :: 0 <= i < |value| ==> PhoneChar(value[i]))
  {
  }

  /**
   * A phone fetched as a number has no `length`, so no length limit
   * applies: a non-negative number of any size is valid, a negative one
   * has a '-' outside `[0-9+]`.
   */
  lemma NumericPhoneRule(n: int)
    ensures ValidateField("phone", Num(n)) == if n < 0 then PhoneBadChars else ""
  {
    if n < 0 {
      assert Text(Num(n))[0] == '-';
    } else if n > 0 {
      assert Text(Num(n)) == Digits(n);
    }
  }

  /** An e-mail is valid when empty or when it has the plain shape of an address. */
  lemma EmailRule(value: string)
    ensures ValidateField("email", Str(value)) == "" <==> value == "" || EmailShape(value)
    ensures ValidateField("email", Str(value)) != "" ==> ValidateField("email", Str(value)) == EmailBad
  {
    EmailPatternShape(value);
  }

  /** A field name the validator does not know never has an error. */
  lemma UnknownFieldRule(name: string, value: Value)
    requires name !in Fields
    ensures ValidateField(name, value) == ""
  {
  }

  /** The four fields of the form. */
  const Fields: set<string> := {"first_name", "last_name", "email", "phone"}

  /** Every field of the form is present and its validation can read it. */
  predicate Complete(data: map<string, Value>)
  {
    Fields <= data.Keys && forall f :: f in Fields ==> Readable(f, data[f])
  }

  /** The `newErrors` object of `validateForm`. */
  function FormErrors(data: map<string, Value>): (errors: map<string, string>)
    requires Complete(data)
    ensures errors.Keys == Fields
    ensures forall f :: f in Fields ==> errors[f] == ValidateField(f, data[f])
  {
    map f | f in Fields :: ValidateField(f, data[f])
  }

  /** What `validateForm` answers: no field has an error. */
  predicate FormValid(data: map<string, Value>)
    requires Complete(data)
  {
    forall f :: f in Fields ==> ValidateField(f, data[f]) == ""
  }

  /** The form holds only strings, as every edit leaves it. */
  predicate Textual(data: map<string, Value>)
    requires Fields <= data.Keys
  {
    forall f :: f in Fields ==> data[f].Str?
  }

  /**
   * The form is valid exactly when each field meets its own rule; for a
   * form of strings these are the plain limits on length and characters.
   */
  lemma FormValidMeaning(data: map<string, Value>)
    requires Complete(data)
    ensures FormValid(data) <==>
      (!LongerThan(data["first_name"], 20) && !LongerThan(data["last_name"], 20)
      && (!Truthy(Some(data["email"])) || EmailPattern(Text(data["email"])))
      && !LongerThan(data["phone"], 13) && (!Truthy(Some(data["phone"])) || PhonePattern(Text(data["phone"]))))
    ensures Textual(data) ==>
      (FormValid(data) <==>
        (|data["first_name"].s| <= 20 && |data["last_name"].s| <= 20
        && (data["email"].s == "" || EmailShape(data["email"].s))
        && |data["phone"].s| <= 13 && (forall i :: 0 <= i < |data["phone"].s| ==> PhoneChar(data["phone"].s[i]))))
  {
    assert Fields == {"first_name", "last_name", "email", "phone"};
    if Textual(data) {
      EmailRule(data["email"].s);
      PhoneRule(data["phone"].s);
    }
  }

  /** `response.data[f] || ''`: a truthy value is kept as it is, anything else becomes "". */
  function Fetched(data: Record, f: string): (v: Value)
    ensures Truthy(Get(data, f)) ==> v == data[f]
    ensures !Truthy(Get(data, f)) ==> v == Str("")
    ensures !v.Null?
  {
    if Truthy(Get(data, f)) then data[f] else Str("")
  }

  /** The failure of the `PATCH`: the response body, or `None` when there was no response. */
  datatype PatchReply = Accepted | Refused(data: Option<Record>)

  /** `err.response?.data?.message || 'Failed to update profile'`. */
  function FailureMessage(data: Option<Record>): (m: string)
    ensures data.None? || !Truthy(Get(data.value, "message")) ==> m == "Failed to update profile"
    ensures data.Some? && Truthy(Get(data.value, "message")) ==> m == ToStr(Get(data.value, "message"))
  {
    if data.Some? then OrElse(Get(data.value, "message"), "Failed to update profile") else "Failed to update profile"
  }

  /** The form's state. `patches` records the `PATCH users/<id>/` requests with their bodies. */
  class ProfileForm {
    var profileData: map<string, Value>
    var errors: map<string, string>
    var loading: bool
    var saving: bool
    var fetchError: Option<string>
    var toasts: seq<Toast>
    var navigations: seq<string>
    var patches: seq<(string, map<string, Value>)>

    /** The four fields of both records always exist, and none is null. */
    predicate Valid()
      reads this
    {
      Complete(profileData) && Fields <= errors.Keys
    }

    constructor ()
      ensures Valid()
      ensures profileData == map["first_name" := Str(""), "last_name" := Str(""), "email" := Str(""), "phone" := Str("")]
      ensures errors == map["first_name" := "", "last_name" := "", "email" := "", "phone" := ""]
      ensures loading && !saving && fetchError == None
      ensures toasts == [] && navigations == [] && patches == []
    {
      profileData := map["first_name" := Str(""), "last_name" := Str(""), "email" := Str(""), "phone" := Str("")];
      errors := map["first_name" := "", "last_name" := "", "email" := "", "phone" := ""];
      loading := true;
      saving := false;
      fetchError := None;
      toasts := [];
      navigations := [];
      patches := [];
    }

    /**
     * The mount effect: only a user with a truthy `id` triggers the fetch,
     * and only then does `loading` end. `reply` is the response body, or
     * `None` when the request failed.
     */
    method FetchProfile(userId: Option<Value>, reply: Option<Record>)
      requires Valid()
      modifies this
      ensures Valid()
      ensures !Truthy(userId) ==> loading == old(loading) && profileData == old(profileData) && fetchError == old(fetchError)
      ensures Truthy(userId) ==> !loading
      ensures Truthy(userId) && reply.Some? ==>
        profileData == (map f | f in Fields :: Fetched(reply.value, f)) && fetchError == old(fetchError)
      ensures Truthy(userId) && reply.None? ==>
        profileData == old(profileData) && fetchError == Some("Failed to fetch profile data")
      ensures errors == old(errors) && saving == old(saving)
      ensures toasts == old(toasts) && navigations == old(navigations) && patches == old(patches)
    {
      if !Truthy(userId) {
        return;
      }
      if reply.Some? {
        profileData := map f | f in Fields :: Fetched(reply.value, f);
      } else {
        fetchError := Some("Failed to fetch profile data");
      }
      loading := false;
    }

    /** `handleChange`: the named field takes the value and its own error message; nothing else changes. */
    method HandleChange(name: string, value: string)
      requires Valid()
      modifies this
      ensures Valid()
      ensures profileData == old(profileData)[name := Str(value)]
      ensures errors == old(errors)[name := ValidateField(name, Str(value))]
      ensures forall k :: k != name && k in old(profileData) ==> k in profileData && profileData[k] == old(profileData)[k]
      ensures forall k :: k != name && k in old(errors) ==> k in errors && errors[k] == old(errors)[k]
      ensures loading == old(loading) && saving == old(saving) && fetchError == old(fetchError)
      ensures toasts == old(toasts) && navigations == old(navigations) && patches == old(patches)
    {
      profileData := profileData[name := Str(value)];
      errors := errors[name := ValidateField(name, Str(value))];
    }

    /** `validateForm`: the errors become exactly the four field results. */
    method ValidateForm() returns (ok: bool)
      requires Valid()
      modifies this
      ensures Valid()
      ensures errors == FormErrors(profileData)
      ensures ok <==> FormValid(profileData)
      ensures profileData == old(profileData) && loading == old(loading) && saving == old(saving)
      ensures fetchError == old(fetchError)
      ensures toasts == old(toasts) && navigations == old(navigations) && patches == old(patches)
    {
      errors := FormErrors(profileData);
      ok := forall f | f in Fields :: errors[f] == "";
    }

    /**
     * `handleSubmit`. An invalid form shows an error toast and sends
     * nothing. Otherwise the form is sent with `PATCH users/<id>/`; without
     * a user, reading `user.id` throws inside the same `try` and ends as a
     * failure before anything is sent. `saving` is false afterwards.
     */
    method HandleSubmit(user: Option<Record>, reply: PatchReply)
      requires Valid()
      modifies this
      ensures Valid()
      ensures errors == FormErrors(old(profileData)) && profileData == old(profileData)
      ensures !FormValid(profileData) ==>
        toasts == old(toasts) + [Error("Please fix the errors in the form")]
        && patches == old(patches) && navigations == old(navigations) && saving == old(saving)
      ensures FormValid(profileData) && user.None? ==>
        toasts == old(toasts) + [Error("Failed to update profile")]
        && patches == old(patches) && navigations == old(navigations) && !saving
      ensures FormValid(profileData) && user.Some? ==>
        patches == old(patches) + [("users/" + ToStr(Get(user.value, "id")) + "/", profileData)] && !saving
      ensures FormValid(profileData) && user.Some? && reply.Accepted? ==>
        toasts == old(toasts) + [Success("Profile updated successfully!")] && navigations == old(navigations) + ["/profile"]
      ensures FormValid(profileData) && user.Some? && reply.Refused? ==>
        toasts == old(toasts) + [Error(FailureMessage(reply.data))] && navigations == old(navigations)
      ensures loading == old(loading) && fetchError == old(fetchError)
    {
      var ok := ValidateForm();
      if !ok {
        toasts := toasts + [Error("Please fix the errors in the form")];
        return;
      }
      saving := true;
      if user.None? {
        toasts := toasts + [Error(FailureMessage(None))];
      } else {
        patches := patches + [("users/" + ToStr(Get(user.value, "id")) + "/", profileData)];
        if reply.Accepted? {
          toasts := toasts + [Success("Profile updated successfully!")];
          navigations := navigations + ["/profile"];
        } else {
          toasts := toasts + [Error(FailureMessage(reply.data))];
        }
      }
      saving := false;
    }
  }
}
