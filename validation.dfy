/**
 * The backend request schema `configSchema`
 * (backend/src/services/pomodoroConfig/pomodoroConfigValidation.ts):
 * an untyped request body becomes either a typed, defaulted configuration
 * or a list of violations.
 *
 * The schema library, Zod, is modelled as its version 3 behaves (the
 * service reads the violations through `error.errors`, a version 3
 * interface), by its effect: each field runs its checks in the declared
 * order (integer, minimum, maximum); a missing mandatory field or a value of
 * the wrong type aborts the object, so the object-level refinement is not
 * evaluated; a failed integer or range check only marks the object dirty,
 * and the refinement is still evaluated on the raw numbers.
 */
module PomodoroConfigValidation {
  import opened Wrappers
  import D = PomodoroConfigDefaults

  /** A JSON value as it can appear in a request body. */
  datatype Json = Num(x: real) | Bool(b: bool) | Str(s: string) | Null | Compound

  /** The request body: a JSON object, or any other JSON value. */
  datatype Body = Object(fields: map<string, Json>) | NonObject

  datatype IssueCode =
    | Required                   // a mandatory key is absent
    | InvalidType                // the value has the wrong JSON type
    | NotInteger                 // a number with a fractional part
    | TooSmall(minimum: int)
    | TooBig(maximum: int)
    | Custom(message: string)    // the object-level refinement

  /** A violation: the path of the offending field and what is wrong with it. */
  datatype Issue = Issue(path: seq<string>, code: IssueCode)

  /** The validated, defaulted value (`ConfigInput`). */
  datatype ConfigValues = ConfigValues(
    workDuration: int,
    shortBreakDuration: int,
    longBreakDuration: int,
    cyclesBeforeLongBreak: int,
    advancedConfigActive: bool)

  /** The outcome of one field's schema: a value with the issues of the checks
      that failed on it, or an abort that stops the object-level refinement. */
  datatype FieldResult<T> = Parsed(value: T, issues: seq<Issue>) | Aborted(issues: seq<Issue>)

  const REFINEMENT_MESSAGE := "Long break duration must be greater than short break duration"

  function Key(f: D.Field): string {
    match f
    case WorkDuration => "workDuration"
    case ShortBreakDuration => "shortBreakDuration"
    case LongBreakDuration => "longBreakDuration"
    case CyclesBeforeLongBreak => "cyclesBeforeLongBreak"
  }

  const ADVANCED_KEY := "advancedConfigActive"

  function Lookup(fields: map<string, Json>, key: string): Option<Json> {
    if key in fields then Some(fields[key]) else None
  }

  predicate IsInteger(x: real) {
    x.Floor as real == x
  }

  /** The issues of the `min` and `max` checks, in that order. */
  function RangeIssues(key: string, x: real, lo: int, hi: int): (r: seq<Issue>)
    ensures r == [] <==> lo as real <= x <= hi as real
  {
    (if x < lo as real then [Issue([key], TooSmall(lo))] else [])
    + (if x > hi as real then [Issue([key], TooBig(hi))] else [])
  }

  /** `z.number().int().min(lo).max(hi)`, optionally followed by
      `.optional().default(d)`, where the default is itself checked. */
  function IntegerField(fields: map<string, Json>, f: D.Field, default: Option<int>): (r: FieldResult<real>)
    ensures r.Aborted? ==> r.issues != []
    ensures r.Parsed? && r.issues == [] ==> IsInteger(r.value) && D.InLimits(f, r.value.Floor)
    ensures r.Parsed? ==>
      if Key(f) in fields then fields[Key(f)] == Num(r.value) else default == Some(r.value.Floor)
  {
    var key, lo, hi := Key(f), D.Limits(f).min, D.Limits(f).max;
    match Lookup(fields, key)
    case None =>
      if default.Some? then
        var x := default.value as real;
        Parsed(x, RangeIssues(key, x, lo, hi))
      else
        Aborted([Issue([key], Required)])
    case Some(Num(x)) =>
      Parsed(x, (if IsInteger(x) then [] else [Issue([key], NotInteger)]) + RangeIssues(key, x, lo, hi))
    case Some(_) =>
      Aborted([Issue([key], InvalidType)])
  }

  /** `z.boolean().optional().default(default)`. */
  function BooleanField(fields: map<string, Json>, key: string, default: bool): (r: FieldResult<bool>)
    ensures r.Aborted? <==> Lookup(fields, key).Some? && !Lookup(fields, key).value.Bool?
    ensures r.Parsed? ==> r.issues == []
  {
    match Lookup(fields, key)
    case None => Parsed(default, [])
    case Some(Bool(b)) => Parsed(b, [])
    case Some(_) => Aborted([Issue([key], InvalidType)])
  }

  /** The violation the cross-field refinement reports. */
  const REFINEMENT_ISSUE := Issue([Key(D.LongBreakDuration)], Custom(REFINEMENT_MESSAGE))

  /** The `refine` predicate: the long break must exceed the short break. */
  function LongBreakRefinement(short: real, long: real): (r: seq<Issue>)
    ensures r == [] <==> long > short
  {
    if long > short then [] else [REFINEMENT_ISSUE]
  }

  /** Every value the schema can produce: all fields within their limits and
      the long break strictly above the short break. */
  predicate WithinLimits(v: ConfigValues) {
    && D.InLimits(D.WorkDuration, v.workDuration)
    && D.InLimits(D.ShortBreakDuration, v.shortBreakDuration)
    && D.InLimits(D.LongBreakDuration, v.longBreakDuration)
    && D.InLimits(D.CyclesBeforeLongBreak, v.cyclesBeforeLongBreak)
    && v.longBreakDuration > v.shortBreakDuration
  }

  /** The five editable fields as the defaults table gives them. */
  function DefaultValues(): (v: ConfigValues)
    ensures WithinLimits(v)
  {
    ConfigValues(D.WORK_DURATION, D.SHORT_BREAK_DURATION, D.LONG_BREAK_DURATION,
                 D.CYCLES_BEFORE_LONG_BREAK, D.ADVANCED_CONFIG_ACTIVE)
  }

  /** `configSchema.safeParse(body)`. */
  function Validate(body: Body): (r: Result<ConfigValues, seq<Issue>>)
    ensures r.Success? ==> WithinLimits(r.value)
    ensures r.Failure? ==> r.error != []
  {
    match body
    case NonObject => Failure([Issue([], InvalidType)])
    case Object(fields) =>
      var work := IntegerField(fields, D.WorkDuration, None);
      var short := IntegerField(fields, D.ShortBreakDuration, None);
      var long := IntegerField(fields, D.LongBreakDuration, None);
      var cycles := IntegerField(fields, D.CyclesBeforeLongBreak, Some(D.CYCLES_BEFORE_LONG_BREAK));
      var advanced := BooleanField(fields, ADVANCED_KEY, false);
      var aborted := work.Aborted? || short.Aborted? || long.Aborted? || cycles.Aborted? || advanced.Aborted?;
      var issues := work.issues + short.issues + long.issues + cycles.issues + advanced.issues
        + (if aborted then [] else LongBreakRefinement(short.value, long.value));
      if issues != [] then
        Failure(issues)
      else
        Success(ConfigValues(work.value.Floor, short.value.Floor, long.value.Floor,
                             cycles.value.Floor, advanced.value))
  }

  // ---------------------------------------------------------------------
  // An independent statement of what the schema accepts and produces.

  predicate IntegerWithin(v: Option<Json>, lo: int, hi: int) {
    v.Some? && v.value.Num? && IsInteger(v.value.x) && lo as real <= v.value.x <= hi as real
  }

  /** The acceptance rule in words: work, short and long breaks are integers
      in [1,60], [1,10] and [15,30]; cycles is absent or an integer in [2,8];
      the advanced flag is absent or a boolean; the long break exceeds the
      short break. */
  predicate Acceptable(body: Body) {
    && body.Object?
    && var f := body.fields;
    && IntegerWithin(Lookup(f, "workDuration"), 1, 60)
    && IntegerWithin(Lookup(f, "shortBreakDuration"), 1, 10)
    && IntegerWithin(Lookup(f, "longBreakDuration"), 15, 30)
    && (Lookup(f, "cyclesBeforeLongBreak").None? || IntegerWithin(Lookup(f, "cyclesBeforeLongBreak"), 2, 8))
    && (Lookup(f, "advancedConfigActive").None? || Lookup(f, "advancedConfigActive").value.Bool?)
    && Lookup(f, "longBreakDuration").value.x > Lookup(f, "shortBreakDuration").value.x
  }

  /** The value a field of an accepted body carries: the supplied number, or
      the default when the key is absent. */
  function SuppliedOr(fields: map<string, Json>, key: string, default: int): int {
    match Lookup(fields, key)
    case Some(Num(x)) => x.Floor
    case _ => default
  }

  /** The schema accepts exactly the bodies the rule in words describes. */
  lemma ValidateAcceptsExactly(body: Body)
    ensures Validate(body).Success? <==> Acceptable(body)
  {
  }

  /** On success the output carries the supplied values unchanged, and an
      absent cycle count or advanced flag becomes 4 or false. */
  lemma ValidateKeepsSuppliedValues(body: Body)
    requires Validate(body).Success?
    ensures var f, v := body.fields, Validate(body).value;
      && Lookup(f, "workDuration") == Some(Num(v.workDuration as real))
      && Lookup(f, "shortBreakDuration") == Some(Num(v.shortBreakDuration as real))
      && Lookup(f, "longBreakDuration") == Some(Num(v.longBreakDuration as real))
      && v.cyclesBeforeLongBreak == SuppliedOr(f, "cyclesBeforeLongBreak", 4)
      && (Lookup(f, "cyclesBeforeLongBreak").Some? ==>
            Lookup(f, "cyclesBeforeLongBreak") == Some(Num(v.cyclesBeforeLongBreak as real)))
      && v.advancedConfigActive == (Lookup(f, "advancedConfigActive") == Some(Bool(true)))
  {
  }

  /** The three durations are mandatory: omitting one is rejected with a
      `Required` violation on that key, unlike the two optional fields. */
  lemma DurationsAreMandatory(body: Body, f: D.Field)
    requires body.Object? && f != D.CyclesBeforeLongBreak
    requires Key(f) !in body.fields
    ensures Validate(body).Failure?
    ensures Issue([Key(f)], Required) in Validate(body).error
  {
    var fields := body.fields;
    var r := IntegerField(fields, f, None);
    assert r == Aborted([Issue([Key(f)], Required)]);
  }

  /** A number with a fractional part is rejected in each numeric field. */
  lemma NonIntegersRejected(body: Body, f: D.Field)
    requires body.Object? && Lookup(body.fields, Key(f)).Some?
    requires Lookup(body.fields, Key(f)).value.Num? && !IsInteger(Lookup(body.fields, Key(f)).value.x)
    ensures Validate(body).Failure?
    ensures Issue([Key(f)], NotInteger) in Validate(body).error
  {
    var fields := body.fields;
    var default := if f == D.CyclesBeforeLongBreak then Some(D.CYCLES_BEFORE_LONG_BREAK) else None;
    assert Issue([Key(f)], NotInteger) in IntegerField(fields, f, default).issues;
  }

  /** When every field has the right type and the long break does not exceed
      the short break, the refinement's violation is reported on
      `longBreakDuration`, whether or not the durations are in range. */
  lemma RefinementRejects(body: Body, short: real, long: real)
    requires body.Object?
    requires Lookup(body.fields, "workDuration").Some? && Lookup(body.fields, "workDuration").value.Num?
    requires Lookup(body.fields, "shortBreakDuration") == Some(Num(short))
    requires Lookup(body.fields, "longBreakDuration") == Some(Num(long))
    requires Lookup(body.fields, "cyclesBeforeLongBreak").None? || Lookup(body.fields, "cyclesBeforeLongBreak").value.Num?
    requires Lookup(body.fields, "advancedConfigActive").None? || Lookup(body.fields, "advancedConfigActive").value.Bool?
    requires long <= short
    ensures Validate(body).Failure?
    ensures Issue(["longBreakDuration"], Custom("Long break duration must be greater than short break duration"))
              in Validate(body).error
  {
    var fields := body.fields;
    var issues := IntegerField(fields, D.WorkDuration, None).issues
      + IntegerField(fields, D.ShortBreakDuration, None).issues
      + IntegerField(fields, D.LongBreakDuration, None).issues
      + IntegerField(fields, D.CyclesBeforeLongBreak, Some(D.CYCLES_BEFORE_LONG_BREAK)).issues
      + BooleanField(fields, ADVANCED_KEY, false).issues;
    assert Validate(body).error == issues + [REFINEMENT_ISSUE];
  }

  /** A range violation (too small or too big) on the field at `key`. */
  predicate RangeViolationOn(issues: seq<Issue>, key: string) {
    exists i :: i in issues && i.path == [key] && (i.code.TooSmall? || i.code.TooBig?)
  }

  /** The issues of one field's schema never carry the refinement's code. */
  lemma FieldIssuesAreNotCustom(fields: map<string, Json>, f: D.Field, default: Option<int>)
    ensures forall i :: i in IntegerField(fields, f, default).issues ==> !i.code.Custom?
  {
  }

  /** The refinement can only fire when a break duration is already out of
      range: its violation never comes without a range violation on the short
      or the long break. */
  lemma RefinementNeverAlone(body: Body)
    requires Validate(body).Failure? && REFINEMENT_ISSUE in Validate(body).error
    ensures RangeViolationOn(Validate(body).error, "shortBreakDuration")
         || RangeViolationOn(Validate(body).error, "longBreakDuration")
  {
    var fields := body.fields;
    var work := IntegerField(fields, D.WorkDuration, None);
    var short := IntegerField(fields, D.ShortBreakDuration, None);
    var long := IntegerField(fields, D.LongBreakDuration, None);
    var cycles := IntegerField(fields, D.CyclesBeforeLongBreak, Some(D.CYCLES_BEFORE_LONG_BREAK));
    var advanced := BooleanField(fields, ADVANCED_KEY, false);
    var fieldIssues := work.issues + short.issues + long.issues + cycles.issues + advanced.issues;
    FieldIssuesAreNotCustom(fields, D.WorkDuration, None);
    FieldIssuesAreNotCustom(fields, D.ShortBreakDuration, None);
    FieldIssuesAreNotCustom(fields, D.LongBreakDuration, None);
    FieldIssuesAreNotCustom(fields, D.CyclesBeforeLongBreak, Some(D.CYCLES_BEFORE_LONG_BREAK));
    assert REFINEMENT_ISSUE !in fieldIssues;
    var aborted := work.Aborted? || short.Aborted? || long.Aborted? || cycles.Aborted? || advanced.Aborted?;
    assert !aborted && long.value <= short.value;
    var err := Validate(body).error;
    assert err == fieldIssues + LongBreakRefinement(short.value, long.value);
    if short.value < 1.0 {
      assert Issue(["shortBreakDuration"], TooSmall(1)) in short.issues;
      assert Issue(["shortBreakDuration"], TooSmall(1)) in err;
    } else if short.value > 10.0 {
      assert Issue(["shortBreakDuration"], TooBig(10)) in short.issues;
      assert Issue(["shortBreakDuration"], TooBig(10)) in err;
    } else {
      assert long.value < 15.0;
      assert Issue(["longBreakDuration"], TooSmall(15)) in long.issues;
      assert Issue(["longBreakDuration"], TooSmall(15)) in err;
    }
  }

  /** A body holding the three durations and the cycle count. */
  function Durations(work: real, short: real, long: real, cycles: real): Body {
    Object(map["workDuration" := Num(work), "shortBreakDuration" := Num(short),
               "longBreakDuration" := Num(long), "cyclesBeforeLongBreak" := Num(cycles)])
  }

  lemma DurationsLookup(work: real, short: real, long: real, cycles: real)
    ensures var f := Durations(work, short, long, cycles).fields;
      && Lookup(f, "workDuration") == Some(Num(work))
      && Lookup(f, "shortBreakDuration") == Some(Num(short))
      && Lookup(f, "longBreakDuration") == Some(Num(long))
      && Lookup(f, "cyclesBeforeLongBreak") == Some(Num(cycles))
      && Lookup(f, "advancedConfigActive") == None
  {
  }

  /** Acceptance of a body built by `Durations`, by the rule in words. */
  lemma DurationsAccepted(work: int, short: int, long: int, cycles: int)
    ensures Validate(Durations(work as real, short as real, long as real, cycles as real)).Success?
        <==> 1 <= work <= 60 && 1 <= short <= 10 && 15 <= long <= 30 && 2 <= cycles <= 8 && long > short
  {
    DurationsLookup(work as real, short as real, long as real, cycles as real);
    ValidateAcceptsExactly(Durations(work as real, short as real, long as real, cycles as real));
  }

  /** Each limit is inclusive: the extremes are accepted and one unit beyond
      either end is rejected. */
  lemma BoundaryValues()
    ensures Validate(Durations(1.0, 5.0, 15.0, 4.0)).Success?
    ensures Validate(Durations(60.0, 5.0, 15.0, 4.0)).Success?
    ensures Validate(Durations(0.0, 5.0, 15.0, 4.0)).Failure?
    ensures Validate(Durations(61.0, 5.0, 15.0, 4.0)).Failure?
    ensures Validate(Durations(25.0, 1.0, 15.0, 4.0)).Success?
    ensures Validate(Durations(25.0, 10.0, 15.0, 4.0)).Success?
    ensures Validate(Durations(25.0, 0.0, 15.0, 4.0)).Failure?
    ensures Validate(Durations(25.0, 11.0, 15.0, 4.0)).Failure?
    ensures Validate(Durations(25.0, 5.0, 30.0, 4.0)).Success?
    ensures Validate(Durations(25.0, 5.0, 14.0, 4.0)).Failure?
    ensures Validate(Durations(25.0, 5.0, 31.0, 4.0)).Failure?
    ensures Validate(Durations(25.0, 5.0, 15.0, 2.0)).Success?
    ensures Validate(Durations(25.0, 5.0, 15.0, 8.0)).Success?
    ensures Validate(Durations(25.0, 5.0, 15.0, 1.0)).Failure?
    ensures Validate(Durations(25.0, 5.0, 15.0, 9.0)).Failure?
  {
    DurationsAccepted(1, 5, 15, 4);
    DurationsAccepted(60, 5, 15, 4);
    DurationsAccepted(0, 5, 15, 4);
    DurationsAccepted(61, 5, 15, 4);
    DurationsAccepted(25, 1, 15, 4);
    DurationsAccepted(25, 10, 15, 4);
    DurationsAccepted(25, 0, 15, 4);
    DurationsAccepted(25, 11, 15, 4);
    DurationsAccepted(25, 5, 30, 4);
    DurationsAccepted(25, 5, 14, 4);
    DurationsAccepted(25, 5, 31, 4);
    DurationsAccepted(25, 5, 15, 2);
    DurationsAccepted(25, 5, 15, 8);
    DurationsAccepted(25, 5, 15, 1);
    DurationsAccepted(25, 5, 15, 9);
  }

  /** Keys other than the five fields, such as a client-sent `customized`
      flag, are stripped by the object schema and cannot change the outcome. */
  lemma OtherKeysIgnored(a: map<string, Json>, b: map<string, Json>)
    requires forall f: D.Field :: Lookup(a, Key(f)) == Lookup(b, Key(f))
    requires Lookup(a, ADVANCED_KEY) == Lookup(b, ADVANCED_KEY)
    ensures Validate(Object(a)) == Validate(Object(b))
  {
    assert Lookup(a, Key(D.WorkDuration)) == Lookup(b, Key(D.WorkDuration));
    assert Lookup(a, Key(D.ShortBreakDuration)) == Lookup(b, Key(D.ShortBreakDuration));
    assert Lookup(a, Key(D.LongBreakDuration)) == Lookup(b, Key(D.LongBreakDuration));
    assert Lookup(a, Key(D.CyclesBeforeLongBreak)) == Lookup(b, Key(D.CyclesBeforeLongBreak));
  }
}
