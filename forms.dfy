/** The validation rules and saves of core/forms.py: the registration form's password
    rule and save, the appointment form's hospital candidates, the fields each
    model form accepts, and the partial-update forms that write only their own fields. */
module Forms {
  import opened Base
  import opened Text
  import opened Sequences
  import opened Models

  // ---------------------------------------------------------------- registration

  /** The cleaned data of UnifiedRegisterForm; `role` is absent when its field failed. */
  datatype RegistrationData = RegistrationData(
    username: string, email: string, phone: string, role: Option<string>, password1: string)

  const PASSWORD_PREFIX_ERROR: string :=
    "Invalid Password. Doctor/Therapist passwords must start with 'admin'."

  /** Doctors and therapists must choose passwords that begin with "admin". */
  predicate NeedsAdminPrefix(role: Option<string>)
  {
    role.Some? && (role.value == DOCTOR || role.value == THERAPIST)
  }

  /** UnifiedRegisterForm.clean_password1. */
  function CleanPassword1(d: RegistrationData): (r: Result<string, string>)
    ensures r.Err? <==> NeedsAdminPrefix(d.role) && !StartsWith(d.password1, "admin")
    ensures r.Ok? ==> r.value == d.password1
    ensures r.Err? ==> r.error == PASSWORD_PREFIX_ERROR
    ensures d.role == Some(PATIENT) || d.role.None? ==> r.Ok?
  {
    if d.role.Some? && d.role.value in [DOCTOR, THERAPIST] && !StartsWith(d.password1, "admin") then
      Err(PASSWORD_PREFIX_ERROR)
    else
      Ok(d.password1)
  }

  /** The checks of this form the model covers: the role is a listed choice and the
      password passes clean_password1. */
  predicate RegistrationValid(d: RegistrationData)
  {
    d.role.Some? && IsChoice(ROLE_CHOICES, d.role.value) && CleanPassword1(d).Ok?
  }

  /** UnifiedRegisterForm.save(commit=True): the new user takes username, email and
      phone from the form, first_name = username, last_name = phone, and User.save
      gives it a unique id from the draw. */
  method SaveRegistration(d: RegistrationData, draw: int) returns (user: User)
    requires d.role.Some?
    requires 1000 <= draw <= 9999
    ensures fresh(user)
    ensures user.username == d.username && user.email == d.email && user.phone == d.phone
    ensures user.role == d.role.value
    ensures user.firstName == d.username && user.lastName == d.phone
    ensures user.uniqueId == Some(GenerateUniqueId(d.role.value, draw))
    ensures user.dateOfBirth.None? && user.location == ""
  {
    user := new User(d.username);
    user.email := d.email;
    user.phone := d.phone;
    user.role := d.role.value;
    user.firstName := d.username;
    user.lastName := d.phone;
    user.Save(draw);
  }

  /** unified_register on POST: a valid form creates and saves the user; otherwise
      the clean_password1 error, if any, is reported. */
  method Register(d: RegistrationData, draw: int) returns (r: Result<User, Option<string>>)
    requires 1000 <= draw <= 9999
    ensures r.Ok? <==> RegistrationValid(d)
    ensures r.Ok? ==> fresh(r.value) && r.value.role == d.role.value &&
                      r.value.firstName == d.username && r.value.lastName == d.phone &&
                      r.value.uniqueId == Some(GenerateUniqueId(d.role.value, draw))
    ensures r.Err? ==> (r.error == Some(PASSWORD_PREFIX_ERROR) <==> CleanPassword1(d).Err?)
  {
    var password := CleanPassword1(d);
    if !RegistrationValid(d) {
      return Err(if password.Err? then Some(password.error) else None);
    }
    var user := SaveRegistration(d, draw);
    return Ok(user);
  }

  // ---------------------------------------------------------------- appointment form

  /** The hospitals at one location. */
  function HospitalsAt(hs: seq<Hospital>, locationId: int): (r: seq<Hospital>)
    ensures forall h :: h in r <==> h in hs && h.locationId == locationId
  {
    Filter(hs, (h: Hospital) => h.locationId == locationId)
  }

  /** The hospital queryset AppointmentForm offers, given the raw `location` value of the
      bound data (None when the key is missing, as on a new unbound form): the hospitals
      whose location id the value parses to, and none when it does not parse. */
  function HospitalCandidates(hs: seq<Hospital>, location: Option<string>): (r: seq<Hospital>)
    ensures forall h :: h in r <==>
              h in hs && location.Some? && ParseInt(location.value) == Some(h.locationId as int)
    ensures location.None? ==> r == []
  {
    match location
    case None => []
    case Some(raw) =>
      match ParseInt(raw)
      case None => []
      case Some(id) => HospitalsAt(hs, id)
  }

  /** The form object after AppointmentForm.__init__. */
  class AppointmentForm {
    var hospitalChoices: seq<Hospital>

    /** Starts from Hospital.objects.none() and, when the data carry a location,
        replaces the queryset by the hospitals at that location. */
    constructor (hs: seq<Hospital>, location: Option<string>)
      ensures hospitalChoices == HospitalCandidates(hs, location)
    {
      hospitalChoices := [];
      if location.Some? {
        var id := ParseInt(location.value);
        if id.Some? {
          hospitalChoices := HospitalsAt(hs, id.value);
        } else {
          hospitalChoices := [];
        }
      }
    }
  }

  /** An appointment request as posted: the raw location, the chosen hospital and doctor ids. */
  datatype AppointmentInput = AppointmentInput(
    location: Option<string>, hospital: nat, doctor: nat, date: Date, time: nat, reason: Option<string>)

  /** A user row as the forms and views see it. */
  datatype Account = Account(id: nat, role: string)

  /** AppointmentForm.is_valid for the fields modelled: the hospital is one of the
      candidates for the posted location, and the doctor is a user with role doctor. */
  predicate AppointmentFormValid(hs: seq<Hospital>, accounts: seq<Account>, f: AppointmentInput)
  {
    (exists h :: h in HospitalCandidates(hs, f.location) && h.id == f.hospital) &&
    Account(f.doctor, DOCTOR) in accounts
  }

  /** A valid appointment names a stored hospital. */
  lemma AppointmentHospitalStored(hs: seq<Hospital>, accounts: seq<Account>, f: AppointmentInput)
    requires AppointmentFormValid(hs, accounts, f)
    ensures exists h :: h in hs && h.id == f.hospital
  {
  }

  // ---------------------------------------------------------------- model forms

  /** PatientTaskForm's fields (forms.py:77). */
  datatype TaskInput = TaskInput(durationMinutes: Option<int>, taskType: string)

  /** task_type must be a listed choice; duration_minutes may be empty, else non-negative. */
  predicate TaskFormValid(f: TaskInput)
  {
    IsChoice(TASK_TYPE_CHOICES, f.taskType) && (f.durationMinutes.Some? ==> f.durationMinutes.value >= 0)
  }

  /** PatientVisitForm's stored fields (forms.py:58; the files are left out). */
  datatype VisitDetailsInput = VisitDetailsInput(
    visitDate: Date, hospitalName: string, doctorName: string, medicineDetails: string)

  /** hospital_name and doctor_name are required; medicine_details may be blank. */
  predicate VisitDetailsValid(f: VisitDetailsInput)
  {
    f.hospitalName != "" && f.doctorName != ""
  }

  /** ExerciseVideoForm's fields (forms.py:265-266; the thumbnail is left out). */
  datatype VideoInput = VideoInput(
    title: string, description: Option<string>, exerciseType: string, hasVideoFile: bool,
    durationMinutes: Option<int>, difficultyLevel: string, isActive: bool)

  predicate VideoFormValid(f: VideoInput)
  {
    f.title != "" && IsChoice(EXERCISE_TYPE_CHOICES, f.exerciseType) && f.hasVideoFile &&
    (f.durationMinutes.Some? ==> f.durationMinutes.value >= 0) &&
    IsChoice(DIFFICULTY_CHOICES, f.difficultyLevel)
  }

  // ---------------------------------------------------------------- partial updates

  /** TherapistFeedbackForm.save: writes `feedback` only. */
  function ApplyFeedback(t: PatientTask, feedback: string): (r: PatientTask)
    ensures r.feedback == feedback
    ensures r.(feedback := t.feedback) == t
  {
    t.(feedback := feedback)
  }

  /** TherapistNotesForm.save: writes `therapist_notes` only; a missing value
      (the field absent from the data) is stored as "". */
  function ApplyTherapistNotes(v: PatientVisit, notes: Option<string>): (r: PatientVisit)
    ensures r.therapistNotes == (if notes.Some? then notes.value else "")
    ensures r.(therapistNotes := v.therapistNotes) == v
  {
    v.(therapistNotes := if notes.Some? then notes.value else "")
  }

  /** VisitUpdateForm's fields (forms.py:142). */
  datatype VisitUpdateInput = VisitUpdateInput(
    currentStatus: VisitStatus, improvementScore: int, doctorNotes: Option<string>)

  /** The status must be one of the listed four (not 'pending'); the score non-negative. */
  predicate VisitUpdateValid(f: VisitUpdateInput)
  {
    IsListedVisitStatus(f.currentStatus) && f.improvementScore >= 0
  }

  /** VisitUpdateForm.save: writes the three listed fields only (the summary stays as saved). */
  function ApplyVisitUpdate(v: VisitRecord, f: VisitUpdateInput): (r: VisitRecord)
    requires VisitUpdateValid(f)
    ensures r.currentStatus == f.currentStatus && r.improvementScore == f.improvementScore
    ensures r.doctorNotes == f.doctorNotes
    ensures r.(currentStatus := v.currentStatus, improvementScore := v.improvementScore,
               doctorNotes := v.doctorNotes) == v
  {
    v.(currentStatus := f.currentStatus, improvementScore := f.improvementScore, doctorNotes := f.doctorNotes)
  }
}
