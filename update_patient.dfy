/**
 * The patient editor: the role-dependent API prefix, the patient URL that
 * both the load and the save use, the per-field update of the patient
 * record, and the choices of the three select fields.
 */
module UpdatePatient {
  import opened Js

  /** An entry of a select field's option list. */
  datatype Choice = Choice(value: string, caption: string)

  const Conditions: seq<Choice> := [Choice("Normal", "Normal"), Choice("Severe", "Severe")]
  const Statuses: seq<Choice> := [Choice("Recovered", "Recovered"), Choice("Dead", "Dead"), Choice("Alive", "Alive")]
  const Genders: seq<Choice> := [Choice("Male", "Male"), Choice("Female", "Female")]

  /** The options a field's select renders; the other fields are free text. */
  function Options(field: string): (opts: seq<Choice>)
    ensures field !in {"gender", "condition", "status"} ==> opts == []
  {
    match field
    case "gender" => Genders
    case "condition" => Conditions
    case "status" => Statuses
    case _ => []
  }

  /** The values each select can produce, and that each option shows its own value. */
  lemma OptionValues(field: string, i: nat)
    requires i < |Options(field)|
    ensures Options(field)[i].caption == Options(field)[i].value
    ensures field == "status" ==> Options(field)[i].value in {"Recovered", "Dead", "Alive"}
    ensures field == "condition" ==> Options(field)[i].value in {"Normal", "Severe"}
    ensures field == "gender" ==> Options(field)[i].value in {"Male", "Female"}
  {
  }

  /** `getEndpointPrefix()` for the value of `user.role`. */
  function EndpointPrefix(role: Option<Value>): (p: string)
    ensures p == "doctor/" <==> role == Some(Str("Doctor"))
    ensures p == "sheha/" <==> role == Some(Str("Sheha"))
    ensures p == "supervisor/" <==> role == Some(Str("Health Supervisor"))
    ensures p == "" <==> role !in {Some(Str("Doctor")), Some(Str("Sheha")), Some(Str("Health Supervisor"))}
  {
    match role
    case Some(Str("Doctor")) => "doctor/"
    case Some(Str("Sheha")) => "sheha/"
    case Some(Str("Health Supervisor")) => "supervisor/"
    case _ => ""
  }

  /**
   * The role spelled without a space, as the case pages spell it, gets no
   * prefix: such a user loads and saves through the unprefixed endpoint.
   */
  lemma UnspacedSupervisorUnprefixed()
    ensures EndpointPrefix(Some(Str("HealthSupervisor"))) == ""
  {
  }

  /** `${apiUrl}${endpointPrefix}patients/${id}/`. */
  function PatientUrl(apiUrl: string, role: Option<Value>, id: string): string
  {
    apiUrl + EndpointPrefix(role) + "patients/" + id + "/"
  }

  /** Two roles share a patient URL exactly when they share the prefix. */
  lemma PatientUrlSeparatesRoles(apiUrl: string, r1: Option<Value>, r2: Option<Value>, id: string)
    ensures PatientUrl(apiUrl, r1, id) == PatientUrl(apiUrl, r2, id) <==> EndpointPrefix(r1) == EndpointPrefix(r2)
  {
    var p1, p2 := EndpointPrefix(r1), EndpointPrefix(r2);
    var u1, u2 := PatientUrl(apiUrl, r1, id), PatientUrl(apiUrl, r2, id);
    if p1 != p2 {
      var n := |apiUrl|;
      assert u1[n] == (p1 + "patients/")[0] && u2[n] == (p2 + "patients/")[0];
      assert u1[n + 1] == (p1 + "patients/")[1] && u2[n + 1] == (p2 + "patients/")[1];
      assert u1[n] != u2[n] || u1[n + 1] != u2[n + 1];
    }
  }

  /** The editor's state; `gets` and `puts` record the requests sent. */
  class PatientEditor {
    const apiUrl: string
    /** The `:id` route parameter. */
    const id: string
    var patient: Option<Record>
    var loading: bool
    var saving: bool
    var gets: seq<string>
    var puts: seq<(string, Option<Record>)>
    /** How many times `navigate(-1)` went back. */
    var backs: nat

    constructor (apiUrl: string, id: string)
      ensures this.apiUrl == apiUrl && this.id == id
      ensures patient == None && loading && !saving
      ensures gets == [] && puts == [] && backs == 0
    {
      this.apiUrl := apiUrl;
      this.id := id;
      patient := None;
      loading := true;
      saving := false;
      gets := [];
      puts := [];
      backs := 0;
    }

    /**
     * The load effect: nothing is requested until there is a user; then the
     * patient is fetched from the role's URL and `loading` ends. `reply` is
     * the response body, or `None` when the request failed.
     */
    method FetchPatient(user: Option<Record>, reply: Option<Record>)
      modifies this
      ensures user.None? ==> gets == old(gets) && loading == old(loading) && patient == old(patient)
      ensures user.Some? ==> gets == old(gets) + [PatientUrl(apiUrl, Get(user.value, "role"), id)] && !loading
      ensures user.Some? ==> patient == if reply.Some? then reply else old(patient)
      ensures saving == old(saving) && puts == old(puts) && backs == old(backs)
    {
      if user.None? {
        return;
      }
      gets := gets + [PatientUrl(apiUrl, Get(user.value, "role"), id)];
      if reply.Some? {
        patient := reply;
      }
      loading := false;
    }

    /** `handleChange(field, value)`: one field set; spreading a null patient gives `{}`. */
    method HandleChange(field: string, value: Value)
      modifies this
      ensures patient.Some? && Get(patient.value, field) == Some(value)
      ensures forall k :: k != field ==>
        Get(patient.value, k) == (if old(patient).Some? then Get(old(patient).value, k) else None)
      ensures loading == old(loading) && saving == old(saving)
      ensures gets == old(gets) && puts == old(puts) && backs == old(backs)
    {
      var prev := if patient.Some? then patient.value else map[];
      patient := Some(Put(prev, field, Some(value)));
    }

    /** Picking the `i`-th entry of a select field. */
    method HandleSelect(field: string, i: nat)
      requires i < |Options(field)|
      modifies this
      ensures patient.Some? && Get(patient.value, field) == Some(Str(Options(field)[i].value))
      ensures forall k :: k != field ==>
        Get(patient.value, k) == (if old(patient).Some? then Get(old(patient).value, k) else None)
      ensures loading == old(loading) && saving == old(saving)
      ensures gets == old(gets) && puts == old(puts) && backs == old(backs)
    {
      HandleChange(field, Str(Options(field)[i].value));
    }

    /**
     * `handleSubmit`: without a user, `user.role` throws before anything is
     * sent; otherwise the patient is sent with `PUT` to the very URL it was
     * loaded from, and a success goes back one page. `saving` ends false.
     */
    method HandleSubmit(user: Option<Record>, succeeded: bool)
      modifies this
      ensures user.None? ==> puts == old(puts) && backs == old(backs)
      ensures user.Some? ==> puts == old(puts) + [(PatientUrl(apiUrl, Get(user.value, "role"), id), patient)]
      ensures user.Some? && succeeded ==> backs == old(backs) + 1
      ensures user.Some? && !succeeded ==> backs == old(backs)
      ensures !saving && patient == old(patient) && loading == old(loading) && gets == old(gets)
    {
      saving := true;
      if user.Some? {
        puts := puts + [(PatientUrl(apiUrl, Get(user.value, "role"), id), patient)];
        if succeeded {
          backs := backs + 1;
        }
      }
      saving := false;
    }
  }
}
