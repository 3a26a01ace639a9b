/**
 * The client-side form schema `pomodoroConfigSchema`
 * (frontend/src/domain/pomodoroConfig/validations/pomodoroConfig.ts).
 * It repeats the backend's bounds, defaults and cross-field rule with its own
 * literals, but has no integer check, so its values are real numbers.
 * It is written for version 4 of Zod (the message passed directly to
 * `z.number`), and is modelled as that version behaves: a range violation
 * does not stop the refinement, a missing key or a wrong type does, and a
 * default replaces an absent value without being checked.
 * The field-level messages are Portuguese UI text and are modelled by their
 * issue codes; the refinement's message is modelled exactly.
 */
module PomodoroConfigForm {
  import opened Wrappers
  import V = PomodoroConfigValidation

  /** The parsed form values; numbers are not required to be whole. */
  datatype FormValues = FormValues(
    workDuration: real,
    shortBreakDuration: real,
    longBreakDuration: real,
    cyclesBeforeLongBreak: real,
    advancedConfigActive: bool)

  const FORM_REFINEMENT_MESSAGE := "O intervalo longo deve ser maior que o intervalo curto"

  const FORM_REFINEMENT_ISSUE := V.Issue(["longBreakDuration"], V.Custom(FORM_REFINEMENT_MESSAGE))

  /** `z.number(msg).min(lo).max(hi)`, optionally followed by `.default(d)`;
      the default replaces an absent value without being checked again, so
      the one default the schema uses lies within its own bounds. */
  function NumberField(fields: map<string, V.Json>, key: string, lo: int, hi: int, default: Option<real>)
    : (r: V.FieldResult<real>)
    requires default.Some? ==> lo as real <= default.value <= hi as real
    ensures r.Aborted? ==> r.issues != []
    ensures r.Parsed? && r.issues == [] ==> lo as real <= r.value <= hi as real
    ensures r.Parsed? ==>
      if key in fields then fields[key] == V.Num(r.value) else default == Some(r.value)
  {
    match V.Lookup(fields, key)
    case None =>
      if default.Some? then V.Parsed(default.value, []) else V.Aborted([V.Issue([key], V.Required)])
    case Some(Num(x)) => V.Parsed(x, V.RangeIssues(key, x, lo, hi))
    case Some(_) => V.Aborted([V.Issue([key], V.InvalidType)])
  }

  /** Every value the form schema can produce. */
  predicate FormWithinLimits(v: FormValues) {
    && 1.0 <= v.workDuration <= 60.0
    && 1.0 <= v.shortBreakDuration <= 10.0
    && 15.0 <= v.longBreakDuration <= 30.0
    && 2.0 <= v.cyclesBeforeLongBreak <= 8.0
    && v.longBreakDuration > v.shortBreakDuration
  }

  /** `pomodoroConfigSchema.safeParse(values)`. */
  function FormValidate(body: V.Body): (r: Result<FormValues, seq<V.Issue>>)
    ensures r.Success? ==> FormWithinLimits(r.value)
    ensures r.Failure? ==> r.error != []
  {
    match body
    case NonObject => Failure([V.Issue([], V.InvalidType)])
    case Object(fields) =>
      var work := NumberField(fields, "workDuration", 1, 60, None);
      var short := NumberField(fields, "shortBreakDuration", 1, 10, None);
      var long := NumberField(fields, "longBreakDuration", 15, 30, None);
      var cycles := NumberField(fields, "cyclesBeforeLongBreak", 2, 8, Some(4.0));
      var advanced := V.BooleanField(fields, "advancedConfigActive", false);
      var aborted := work.Aborted? || short.Aborted? || long.Aborted? || cycles.Aborted? || advanced.Aborted?;
      var refinement := if aborted || long.value > short.value then [] else [FORM_REFINEMENT_ISSUE];
      var issues := work.issues + short.issues + long.issues + cycles.issues + advanced.issues + refinement;
      if issues != [] then
        Failure(issues)
      else
        Success(FormValues(work.value, short.value, long.value, cycles.value, advanced.value))
  }

  /** The backend's integer values seen as form values. */
  function Lift(v: V.ConfigValues): FormValues {
    FormValues(v.workDuration as real, v.shortBreakDuration as real, v.longBreakDuration as real,
               v.cyclesBeforeLongBreak as real, v.advancedConfigActive)
  }

  /** The numeric keys of the body hold whole numbers wherever they hold a number. */
  predicate WholeNumbers(body: V.Body) {
    body.Object? &&
    forall key :: key in body.fields && body.fields[key].Num? &&
      key in {"workDuration", "shortBreakDuration", "longBreakDuration", "cyclesBeforeLongBreak"}
      ==> V.IsInteger(body.fields[key].x)
  }

  /** The form accepts exactly: work in [1,60], short in [1,10], long in
      [15,30], cycles absent or in [2,8], advanced absent or a boolean, and
      long above short, with no requirement that the numbers be whole. */
  lemma FormAcceptsExactly(body: V.Body)
    ensures FormValidate(body).Success? <==>
      && body.Object?
      && var f := body.fields;
      && V.Lookup(f, "workDuration").Some? && V.Lookup(f, "workDuration").value.Num?
      && V.Lookup(f, "shortBreakDuration").Some? && V.Lookup(f, "shortBreakDuration").value.Num?
      && V.Lookup(f, "longBreakDuration").Some? && V.Lookup(f, "longBreakDuration").value.Num?
      && 1.0 <= V.Lookup(f, "workDuration").value.x <= 60.0
      && 1.0 <= V.Lookup(f, "shortBreakDuration").value.x <= 10.0
      && 15.0 <= V.Lookup(f, "longBreakDuration").value.x <= 30.0
      && (V.Lookup(f, "cyclesBeforeLongBreak").None? ||
          (V.Lookup(f, "cyclesBeforeLongBreak").value.Num? &&
           2.0 <= V.Lookup(f, "cyclesBeforeLongBreak").value.x <= 8.0))
      && (V.Lookup(f, "advancedConfigActive").None? || V.Lookup(f, "advancedConfigActive").value.Bool?)
      && V.Lookup(f, "longBreakDuration").value.x > V.Lookup(f, "shortBreakDuration").value.x
  {
  }

  /** On success the form's output carries the supplied numbers unchanged,
      whole or not; an absent cycle count becomes 4 and an absent advanced
      flag false. */
  lemma FormKeepsSuppliedValues(body: V.Body)
    requires FormValidate(body).Success?
    ensures var f, v := body.fields, FormValidate(body).value;
      && V.Lookup(f, "workDuration") == Some(V.Num(v.workDuration))
      && V.Lookup(f, "shortBreakDuration") == Some(V.Num(v.shortBreakDuration))
      && V.Lookup(f, "longBreakDuration") == Some(V.Num(v.longBreakDuration))
      && (if V.Lookup(f, "cyclesBeforeLongBreak").Some?
          then V.Lookup(f, "cyclesBeforeLongBreak") == Some(V.Num(v.cyclesBeforeLongBreak))
          else v.cyclesBeforeLongBreak == 4.0)
      && v.advancedConfigActive == (V.Lookup(f, "advancedConfigActive") == Some(V.Bool(true)))
  {
  }

  /** Anything the backend accepts, the form accepts with the same values. */
  lemma FormAgreesWithBackend(body: V.Body)
    requires V.Validate(body).Success?
    ensures FormValidate(body) == Success(Lift(V.Validate(body).value))
  {
    V.ValidateKeepsSuppliedValues(body);
  }

  /** The backend accepts exactly what the form accepts with whole numbers. */
  lemma BackendIsFormWithWholeNumbers(body: V.Body)
    ensures V.Validate(body).Success? <==> FormValidate(body).Success? && WholeNumbers(body)
  {
    V.ValidateAcceptsExactly(body);
    FormAcceptsExactly(body);
    if V.Validate(body).Success? {
      forall key | key in body.fields && body.fields[key].Num? &&
        key in {"workDuration", "shortBreakDuration", "longBreakDuration", "cyclesBeforeLongBreak"}
        ensures V.IsInteger(body.fields[key].x)
      {
        assert V.Lookup(body.fields, key) == Some(body.fields[key]);
      }
    }
  }

  /** A fractional duration within range passes the form but not the backend. */
  lemma FormAcceptsFractions()
    ensures FormValidate(V.Durations(2.5, 5.0, 15.0, 4.0)) == Success(FormValues(2.5, 5.0, 15.0, 4.0, false))
    ensures V.Validate(V.Durations(2.5, 5.0, 15.0, 4.0)).Failure?
  {
    V.DurationsLookup(2.5, 5.0, 15.0, 4.0);
    V.ValidateAcceptsExactly(V.Durations(2.5, 5.0, 15.0, 4.0));
    assert !V.IsInteger(2.5) by { assert (2.5).Floor == 2; }
  }

  /** A long break not above the short break is reported on
      `longBreakDuration` with the form's own message. */
  lemma FormRefinementRejects(body: V.Body, short: real, long: real)
    requires body.Object?
    requires V.Lookup(body.fields, "workDuration").Some? && V.Lookup(body.fields, "workDuration").value.Num?
    requires V.Lookup(body.fields, "shortBreakDuration") == Some(V.Num(short))
    requires V.Lookup(body.fields, "longBreakDuration") == Some(V.Num(long))
    requires V.Lookup(body.fields, "cyclesBeforeLongBreak").None? || V.Lookup(body.fields, "cyclesBeforeLongBreak").value.Num?
    requires V.Lookup(body.fields, "advancedConfigActive").None? || V.Lookup(body.fields, "advancedConfigActive").value.Bool?
    requires long <= short
    ensures FormValidate(body).Failure?
    ensures V.Issue(["longBreakDuration"], V.Custom("O intervalo longo deve ser maior que o intervalo curto"))
              in FormValidate(body).error
  {
    var fields := body.fields;
    var issues := NumberField(fields, "workDuration", 1, 60, None).issues
      + NumberField(fields, "shortBreakDuration", 1, 10, None).issues
      + NumberField(fields, "longBreakDuration", 15, 30, None).issues
      + NumberField(fields, "cyclesBeforeLongBreak", 2, 8, Some(4.0)).issues
      + V.BooleanField(fields, "advancedConfigActive", false).issues;
    assert FormValidate(body).error == issues + [FORM_REFINEMENT_ISSUE];
  }
}
