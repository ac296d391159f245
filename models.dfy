/** The records of core/models.py, their choice lists and defaults, and the derived
    fields the model classes compute: the user's unique id and age, a visit record's
    summary and a video's view counter. */
module Models {
  import opened Base
  import opened Text

  // ---------------------------------------------------------------- roles

  /** User.role is a plain string column; the views compare it with these literals. */
  const PATIENT: string := "patient"
  const DOCTOR: string := "doctor"
  const THERAPIST: string := "therapist"

  const ROLE_CHOICES: seq<(string, string)> :=
    [(PATIENT, "Patient"), (DOCTOR, "Doctor"), (THERAPIST, "Therapist")]

  // ---------------------------------------------------------------- choice lists

  /** The first component of some pair of a choices list equals `key`. */
  predicate IsChoice(choices: seq<(string, string)>, key: string)
  {
    exists i :: 0 <= i < |choices| && choices[i].0 == key
  }

  /** No key occurs twice, so a dict built from the list loses no pair. */
  predicate DistinctKeys(choices: seq<(string, string)>)
  {
    forall i, j :: 0 <= i < j < |choices| ==> choices[i].0 != choices[j].0
  }

  /** `dict(choices).get(key, default)`. A dict built from pairs keeps the last pair
      with a given key, so the lookup scans from the end; with distinct keys every
      listed key finds its own pair. */
  function DictGet(choices: seq<(string, string)>, key: string, default: string): (r: string)
    ensures !IsChoice(choices, key) ==> r == default
    ensures DistinctKeys(choices) ==>
              forall i :: 0 <= i < |choices| && choices[i].0 == key ==> r == choices[i].1
  {
    if choices == [] then default
    else if choices[|choices| - 1].0 == key then choices[|choices| - 1].1
    else
      var front := choices[..|choices| - 1];
      assert forall i :: 0 <= i < |front| ==> front[i] == choices[i];
      assert IsChoice(choices, key) ==> IsChoice(front, key);
      DictGet(front, key, default)
  }

  /** PatientTask.TASK_TYPE_CHOICES (models.py:153-164). */
  const TASK_TYPE_CHOICES: seq<(string, string)> := [
    ("adaptive_sports", "Adaptive Sports"),
    ("creative_arts", "Creative Arts"),
    ("music_therapy", "Music Therapy"),
    ("speech_therapy", "Speech Therapy"),
    ("exercise", "Exercise"),
    ("yoga", "Yoga"),
    ("sensory_play", "Sensory Play"),
    ("social_skills", "Social Skills Training"),
    ("language_learning", "Language Learning"),
    ("gardening", "Gardening")
  ]

  /** ExerciseVideo.EXERCISE_TYPE_CHOICES (models.py:241-254): the task types and two more. */
  const EXERCISE_TYPE_CHOICES: seq<(string, string)> :=
    TASK_TYPE_CHOICES + [("physiotherapy", "Physiotherapy"), ("occupational_therapy", "Occupational Therapy")]

  const DIFFICULTY_CHOICES: seq<(string, string)> :=
    [("beginner", "Beginner"), ("intermediate", "Intermediate"), ("advanced", "Advanced")]

  const UNKNOWN_TASK: string := "Unknown Task"

  /** The task name start_task derives from a task type. */
  function TaskTypeLabel(taskType: string): (name: string)
    ensures !IsChoice(TASK_TYPE_CHOICES, taskType) ==> name == UNKNOWN_TASK
    ensures forall i :: 0 <= i < |TASK_TYPE_CHOICES| && TASK_TYPE_CHOICES[i].0 == taskType ==>
              name == TASK_TYPE_CHOICES[i].1
  {
    assert DistinctKeys(TASK_TYPE_CHOICES);
    DictGet(TASK_TYPE_CHOICES, taskType, UNKNOWN_TASK)
  }

  // ---------------------------------------------------------------- statuses

  datatype AppointmentStatus = Pending | Confirmed | Completed | Cancelled

  /** VisitRecord.current_status: the four listed choices, plus the 'pending' value
      log_visit_by_id writes although the choices list omits it. */
  datatype VisitStatus = Stable | Improving | Critical | Recovered | AwaitingUpdate

  /** The stored string of each visit status. */
  function VisitStatusToken(s: VisitStatus): string
  {
    match s
    case Stable => "stable"
    case Improving => "improving"
    case Critical => "critical"
    case Recovered => "recovered"
    case AwaitingUpdate => "pending"
  }

  /** The statuses VisitRecord's choices list offers to a form. */
  predicate IsListedVisitStatus(s: VisitStatus) { s != AwaitingUpdate }

  datatype TaskStatus = NotStarted | InProgress | Done

  datatype AlertStatus = Active | Acknowledged | Resolved

  // ---------------------------------------------------------------- dates

  /** A calendar date (a DateField value). */
  datatype Date = Date(year: nat, month: nat, day: nat)

  /** `(a.month, a.day) < (b.month, b.day)` in Python's tuple order. */
  predicate MonthDayBefore(a: Date, b: Date)
  {
    a.month < b.month || (a.month == b.month && a.day < b.day)
  }

  /** a <= b as dates. */
  predicate DateLe(a: Date, b: Date)
  {
    a.year < b.year || (a.year == b.year && !MonthDayBefore(b, a))
  }

  /** The shared age formula of User.get_age and calculate_age. */
  function AgeOn(dob: Date, today: Date): int
  {
    today.year - dob.year - (if MonthDayBefore(today, dob) then 1 else 0)
  }

  /** The k-th birthday after `dob` falls on or before `today`. */
  predicate BirthdayReached(dob: Date, today: Date, k: int)
  {
    dob.year + k < today.year || (dob.year + k == today.year && !MonthDayBefore(today, dob))
  }

  /** The age is the number of birthdays reached: the k-th is reached, the (k+1)-th is not. */
  lemma AgeCountsBirthdays(dob: Date, today: Date, k: int)
    ensures AgeOn(dob, today) == k <==> BirthdayReached(dob, today, k) && !BirthdayReached(dob, today, k + 1)
  {
  }

  lemma AgeNonNegative(dob: Date, today: Date)
    requires DateLe(dob, today)
    ensures AgeOn(dob, today) >= 0
  {
  }

  /** str(date): zero-padded ISO 'YYYY-MM-DD'. */
  function DateIso(d: Date): string
  {
    ZeroPadded(d.year, 4) + "-" + ZeroPadded(d.month, 2) + "-" + ZeroPadded(d.day, 2)
  }

  /** The positions of the fields in "YYYY-MM-DD". */
  lemma IsoLayout(y: string, m: string, d: string)
    requires |y| == 4 && |m| == 2 && |d| == 2
    ensures var s := y + "-" + m + "-" + d;
      |s| == 10 && s[..4] == y && s[4] == '-' && s[5..7] == m && s[7] == '-' && s[8..] == d
  {
    var s := y + "-" + m + "-" + d;
    assert s[..4] == y;
    assert s[5..7] == m;
    assert s[8..] == d;
  }

  /** Up to year 9999 the ISO text has ten characters, and its fields read back as the date. */
  lemma DateIsoFields(d: Date)
    requires d.year <= 9999 && d.month <= 99 && d.day <= 99
    ensures var s := DateIso(d);
      |s| == 10 && s[4] == '-' && s[7] == '-' &&
      AllDigits(s[..4]) && AllDigits(s[5..7]) && AllDigits(s[8..]) &&
      DecimalValue(s[..4]) == d.year && DecimalValue(s[5..7]) == d.month && DecimalValue(s[8..]) == d.day
  {
    DecimalLengthBound(d.year, 4);
    DecimalLengthBound(d.month, 2);
    DecimalLengthBound(d.day, 2);
    IsoLayout(ZeroPadded(d.year, 4), ZeroPadded(d.month, 2), ZeroPadded(d.day, 2));
    ZeroPaddedValue(d.year, 4);
    ZeroPaddedValue(d.month, 2);
    ZeroPaddedValue(d.day, 2);
  }

  function Pow10(k: nat): nat
  {
    if k == 0 then 1 else 10 * Pow10(k - 1)
  }

  lemma {:induction false} DecimalLengthBound(n: nat, k: nat)
    requires 1 <= k && n < Pow10(k)
    ensures |Decimal(n)| <= k
    decreases k
  {
    if n >= 10 {
      assert k >= 2;
      DecimalLengthBound(n / 10, k - 1);
    }
  }

  // ---------------------------------------------------------------- records

  datatype Hospital = Hospital(id: nat, name: string, locationId: nat)

  datatype Appointment = Appointment(
    id: nat, patient: nat, doctor: nat, hospital: nat, date: Date, time: nat,
    status: AppointmentStatus, reason: Option<string>, createdAt: int)

  const DEFAULT_APPOINTMENT_STATUS: AppointmentStatus := Pending

  datatype VisitRecord = VisitRecord(
    id: nat, patient: nat, doctor: nat, visitDate: Date, hospitalName: string, doctorName: string,
    currentStatus: VisitStatus, improvementScore: nat, doctorNotes: Option<string>, summary: Option<string>)

  /** PatientVisit.doctor's default primary key (models.py:102). */
  const DEFAULT_VISIT_DOCTOR: nat := 12

  datatype PatientVisit = PatientVisit(
    id: nat, patient: nat, doctor: nat, visitDate: Date, hospitalName: string, doctorName: string,
    medicineDetails: string, therapistNotes: string)

  datatype PatientTask = PatientTask(
    id: nat, patient: nat, taskName: string, taskType: string, startedAt: Option<int>,
    durationMinutes: Option<nat>, completedAt: Option<int>, status: TaskStatus, feedback: string)

  const DEFAULT_TASK_TYPE: string := "exercise"
  const DEFAULT_TASK_STATUS: TaskStatus := NotStarted

  datatype Message = Message(id: nat, sender: nat, receiver: nat, content: string, timestamp: int, isDeleted: bool)

  datatype SOSAlert = SOSAlert(
    id: nat, patient: nat, message: Option<string>, status: AlertStatus, createdAt: int,
    acknowledgedAt: Option<int>, resolvedAt: Option<int>,
    acknowledgedByDoctor: bool, acknowledgedByTherapist: bool)

  datatype ExerciseVideo = ExerciseVideo(
    id: nat, therapist: nat, title: string, description: Option<string>, exerciseType: string,
    durationMinutes: Option<nat>, difficultyLevel: string, isActive: bool,
    createdAt: int, updatedAt: int, viewsCount: nat)

  const DEFAULT_DIFFICULTY: string := "beginner"

  /** A task as PatientTask's field defaults make it. */
  function DefaultTask(id: nat, patient: nat): (t: PatientTask)
    ensures t.status == NotStarted && t.taskType == DEFAULT_TASK_TYPE && t.taskName == "" && t.feedback == ""
    ensures t.startedAt.None? && t.durationMinutes.None? && t.completedAt.None?
    ensures t.id == id && t.patient == patient
  {
    PatientTask(id, patient, "", DEFAULT_TASK_TYPE, None, None, None, DEFAULT_TASK_STATUS, "")
  }

  /** An alert as SOSAlert's field defaults make it. */
  function DefaultAlert(id: nat, patient: nat, createdAt: int): (a: SOSAlert)
    ensures a.status == Active && !a.acknowledgedByDoctor && !a.acknowledgedByTherapist
    ensures a.message.None? && a.acknowledgedAt.None? && a.resolvedAt.None?
    ensures a.id == id && a.patient == patient && a.createdAt == createdAt
  {
    SOSAlert(id, patient, None, Active, createdAt, None, None, false, false)
  }

  /** A video as ExerciseVideo's field defaults make it, created (and last updated) at `now`. */
  function DefaultVideo(id: nat, therapist: nat, now: int): (v: ExerciseVideo)
    ensures v.isActive && v.difficultyLevel == DEFAULT_DIFFICULTY && v.viewsCount == 0
    ensures v.exerciseType == DEFAULT_TASK_TYPE && v.title == "" && v.description.None?
    ensures v.durationMinutes.None? && v.createdAt == now && v.updatedAt == now
    ensures v.id == id && v.therapist == therapist
  {
    ExerciseVideo(id, therapist, "", None, DEFAULT_TASK_TYPE, None, DEFAULT_DIFFICULTY, true, now, now, 0)
  }

  // ---------------------------------------------------------------- derived fields

  /** Python's `not v` on a nullable string column: None and "" are falsy. */
  predicate Falsy(v: Option<string>)
  {
    v.None? || v.value == ""
  }

  /** The role part of a generated unique id: the role's first three characters upper-cased, or "USR". */
  function UniqueIdPrefix(role: string): (p: string)
    ensures role == "" ==> p == "USR"
    ensures role != "" ==> |p| == Min(3, |role|) && forall i :: 0 <= i < |p| ==> p[i] == UpperChar(role[i])
    ensures |p| <= 3
  {
    if role == "" then "USR" else AsciiUpper(role[..Min(3, |role|)])
  }

  lemma RolePrefixes()
    ensures UniqueIdPrefix(PATIENT) == "PAT"
    ensures UniqueIdPrefix(DOCTOR) == "DOC"
    ensures UniqueIdPrefix(THERAPIST) == "THE"
  {
    assert AsciiUpper("pat") == "PAT";
    assert AsciiUpper("doc") == "DOC";
    assert AsciiUpper("the") == "THE";
  }

  /** The unique id User.save generates from the role and a draw from randint(1000, 9999). */
  function GenerateUniqueId(role: string, draw: int): (id: string)
    requires 1000 <= draw <= 9999
    ensures |id| == |UniqueIdPrefix(role)| + 5 && id != ""
  {
    FourDigits(draw);
    UniqueIdPrefix(role) + "_" + Decimal(draw)
  }

  /** Reads a generated id back as its prefix and its four-digit draw. */
  function SplitUniqueId(s: string): Option<(string, nat)>
  {
    if |s| >= 5 && s[|s| - 5] == '_' && AllDigits(s[|s| - 4..]) then
      Some((s[..|s| - 5], DecimalValue(s[|s| - 4..])))
    else
      None
  }

  lemma UniqueIdSplits(role: string, draw: int)
    requires 1000 <= draw <= 9999
    ensures SplitUniqueId(GenerateUniqueId(role, draw)) == Some((UniqueIdPrefix(role), draw))
  {
    var p := UniqueIdPrefix(role);
    var d := Decimal(draw);
    FourDigits(draw);
    DecimalRoundTrip(draw);
    var s := GenerateUniqueId(role, draw);
    assert s == p + "_" + d;
    assert s[|s| - 4..] == d;
    assert s[..|s| - 5] == p;
  }

  /** Two generated ids coincide exactly when the role prefixes and the draws do;
      nothing else separates users, so same-prefix users collide on equal draws. */
  lemma UniqueIdCollision(r1: string, n1: int, r2: string, n2: int)
    requires 1000 <= n1 <= 9999 && 1000 <= n2 <= 9999
    ensures GenerateUniqueId(r1, n1) == GenerateUniqueId(r2, n2) <==>
            UniqueIdPrefix(r1) == UniqueIdPrefix(r2) && n1 == n2
  {
    UniqueIdSplits(r1, n1);
    UniqueIdSplits(r2, n2);
  }

  /** The unique id a User row holds after save(). */
  function SavedUniqueId(current: Option<string>, role: string, draw: int): (r: Option<string>)
    requires 1000 <= draw <= 9999
    ensures !Falsy(r)
    ensures !Falsy(current) ==> r == current
    ensures Falsy(current) ==> SplitUniqueId(r.value) == Some((UniqueIdPrefix(role), draw))
  {
    if Falsy(current) then
      UniqueIdSplits(role, draw);
      Some(GenerateUniqueId(role, draw))
    else current
  }

  /** Saving again never changes a saved id, whatever the role or the new draw. */
  lemma SaveIdempotent(current: Option<string>, role: string, role2: string, d1: int, d2: int)
    requires 1000 <= d1 <= 9999 && 1000 <= d2 <= 9999
    ensures SavedUniqueId(SavedUniqueId(current, role, d1), role2, d2) == SavedUniqueId(current, role, d1)
  {
  }

  /** The summary text VisitRecord.save writes: "<visit_date>: <current_status> (<score>%)". */
  function SummaryText(v: VisitRecord): string
  {
    DateIso(v.visitDate) + ": " + VisitStatusToken(v.currentStatus) + " (" + Decimal(v.improvementScore) + "%)"
  }

  /** The record VisitRecord.save persists. */
  function SavedVisitRecord(v: VisitRecord): (r: VisitRecord)
    ensures !Falsy(r.summary)
    ensures !Falsy(v.summary) ==> r == v
    ensures Falsy(v.summary) ==> r == v.(summary := Some(SummaryText(v)))
  {
    if Falsy(v.summary) then v.(summary := Some(SummaryText(v))) else v
  }

  /** A second save finds a summary and leaves the record unchanged. */
  lemma SavedVisitRecordIdempotent(v: VisitRecord)
    ensures SavedVisitRecord(SavedVisitRecord(v)) == SavedVisitRecord(v)
  {
  }

  /** The row after increment_views: one more view, and only views_count persisted
      (update_fields leaves updated_at and every other column as stored). */
  function ViewedVideo(v: ExerciseVideo): (r: ExerciseVideo)
    ensures r.viewsCount == v.viewsCount + 1
    ensures r.(viewsCount := v.viewsCount) == v
  {
    v.(viewsCount := v.viewsCount + 1)
  }

  // ---------------------------------------------------------------- the user

  /** The columns of a User row this model reads or writes. */
  class User {
    var username: string
    var email: string
    var role: string
    var phone: string
    var firstName: string
    var lastName: string
    var uniqueId: Option<string>
    var dateOfBirth: Option<Date>
    var location: string

    /** An unsaved user with the given username and every other column blank. */
    constructor (username: string)
      ensures this.username == username
      ensures email == "" && role == "" && phone == "" && firstName == "" && lastName == "" && location == ""
      ensures uniqueId.None? && dateOfBirth.None?
    {
      this.username := username;
      email, role, phone, firstName, lastName, location := "", "", "", "", "", "";
      uniqueId, dateOfBirth := None, None;
    }

    /** User.save: generate a unique id when none is stored; `draw` is randint(1000, 9999). */
    method Save(draw: int)
      requires 1000 <= draw <= 9999
      modifies this`uniqueId
      ensures uniqueId == SavedUniqueId(old(uniqueId), role, draw)
      ensures old(!Falsy(uniqueId)) ==> uniqueId == old(uniqueId)
      ensures old(Falsy(uniqueId)) ==> uniqueId == Some(GenerateUniqueId(role, draw))
    {
      if Falsy(uniqueId) {
        var prefix := if role != "" then AsciiUpper(role[..Min(3, |role|)]) else "USR";
        FourDigits(draw);
        uniqueId := Some(prefix + "_" + Decimal(draw));
      }
    }

    /** User.get_age on the given today's date. */
    function GetAge(today: Date): (age: Option<int>)
      reads this
      ensures age.None? <==> dateOfBirth.None?
      ensures age.Some? ==> BirthdayReached(dateOfBirth.value, today, age.value) &&
                            !BirthdayReached(dateOfBirth.value, today, age.value + 1)
      ensures age.Some? && DateLe(dateOfBirth.value, today) ==> age.value >= 0
    {
      if dateOfBirth.Some? then
        var dob := dateOfBirth.value;
        AgeCountsBirthdays(dob, today, AgeOn(dob, today));
        Some(today.year - dob.year - (if MonthDayBefore(today, dob) then 1 else 0))
      else None
    }
  }
}
