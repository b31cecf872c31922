/**
  The single-file implementation sol.py: the static helpers `_cut`, `_as_str`, `_as_bool`, `_as_int`
  and `_validate_*`, the records of the hierarchy Person -> Employee -> Nurse/Doctor and
  Person -> Patient -> HospitalPatient/AmbulatoryPatient, their construction and `__str__`.

  As in module Solution, a record is a datatype value that keeps its constructor arguments, and each
  validated attribute is a member function applying its validator to the argument. Unlike solution.py,
  `_as_int` catches every exception, so it is total on all values. Several validators do raise:
  `re.fullmatch(p, value or "")` and `value.lower()`/`value.upper()` fail on a truthy value that is not
  a string. Such arguments are kept out of the validators by the type `TextArg`; a construction that
  receives one ends in that exception, after `Person.__init__` has already taken a number.
 */
module Sol {
  import opened Wrappers
  import opened Python
  import opened Regex
  import opened Ids

  const Genders: seq<string> := ["муж.", "жен."]
  const Educations: seq<string> := ["высшее", "ср.спец", "среднее"]
  const Professions: seq<string> := ["врач", "медицинская сестра"]
  const Categories: seq<string> := ["высшая", "первая", "вторая"]
  const Statuses: seq<string> := ["рабочий", "служащий", "обучающийся"]
  const Rhesuses: seq<string> := ["+", "-"]
  const Groups: seq<string> := ["I", "II", "III"]

  /** The length `_cut` is called with for the full name. */
  const NameLimit: nat := 25

  /** A value the pattern and case-mapping validators accept without raising: a string, or a falsy value. */
  predicate TextLike(v: Value) {
    v.PStr? || !Truthy(v)
  }

  type TextArg = v: Value | TextLike(v) witness PNone

  // ------------------------------------------------------------------ helpers

  /** `Person._cut(value, 25)`: a longer string is cut to 25 characters; anything else is returned as is. */
  function Cut(v: Value): (r: Value)
    ensures r.PStr? <==> v.PStr?
    ensures v.PStr? ==> r.s <= v.s && |r.s| == (if |v.s| <= NameLimit then |v.s| else NameLimit)
    ensures !v.PStr? ==> r == v
  {
    if v.PStr? && |v.s| > NameLimit then PStr(v.s[..NameLimit]) else v
  }

  /** `Person._as_str`: only a non-empty string is kept. */
  function AsStr(v: Value): (r: Option<string>)
    ensures r.Some? <==> v.PStr? && v.s != ""
    ensures r.Some? ==> v == PStr(r.value)
  {
    if v.PStr? && v.s != "" then Some(v.s) else None
  }

  /** `Person._as_bool`: equality with the two exact strings `"True"` and `"False"`. */
  function AsBool(v: Value): (r: Option<bool>)
    ensures r == Some(true) <==> v == PStr("True")
    ensures r == Some(false) <==> v == PStr("False")
    ensures r.None? <==> v != PStr("True") && v != PStr("False")
  {
    if v == PStr("True") then Some(true)
    else if v == PStr("False") then Some(false)
    else None
  }

  /** `Person._as_int`: `int(value)`, with every exception (also the `TypeError` of `int(None)`) turned into None. */
  function AsInt(v: Value): Option<int> {
    match v
    case PStr(s) => ParseInt(s)
    case PNone => None
    case _ => Some(IntOf(v))
  }

  /** `value if value in allowed else None` */
  function ExactMember(v: Value, allowed: seq<string>): (r: Option<string>)
    ensures r.Some? <==> v.PStr? && v.s in allowed
    ensures r.Some? ==> v == PStr(r.value)
  {
    if v.PStr? && v.s in allowed then Some(v.s) else None
  }

  /** `value.lower() if value and value.lower() in allowed else None` */
  function LowerMember(v: TextArg, allowed: seq<string>): (r: Option<string>)
    requires "" !in allowed
    ensures r.Some? <==> v.PStr? && Lower(v.s) in allowed
    ensures r.Some? ==> r.value == Lower(v.s) && r.value in allowed
  {
    if Truthy(v) && Lower(v.s) in allowed then Some(Lower(v.s)) else None
  }

  /** `value.upper() if value and value.upper() in allowed else None` */
  function UpperMember(v: TextArg, allowed: seq<string>): (r: Option<string>)
    requires "" !in allowed
    ensures r.Some? <==> v.PStr? && Upper(v.s) in allowed
    ensures r.Some? ==> r.value == Upper(v.s) && r.value in allowed
  {
    if Truthy(v) && Upper(v.s) in allowed then Some(Upper(v.s)) else None
  }

  /** `re.fullmatch(pattern, value or "")`: the text a pattern validator matches. */
  function OrEmpty(v: TextArg): (r: string)
    ensures v.PStr? ==> r == v.s
    ensures !v.PStr? ==> r == ""
  {
    if Truthy(v) then v.s else ""
  }

  // --------------------------------------------------------------- validators

  function ValidateGender(v: Value): (r: Option<string>)
    ensures r.Some? <==> v.PStr? && v.s in Genders
    ensures r.Some? ==> v == PStr(r.value)
  {
    ExactMember(v, Genders)
  }

  /** `_validate_birthday`: the value is kept exactly when it has the shape `DD.MM.YYYY`. */
  function ValidateBirthday(v: TextArg): (r: Option<string>)
    ensures r.Some? <==> v.PStr? && IsBirthday(v.s)
    ensures r.Some? ==> v == PStr(r.value)
  {
    BirthdayMatch(OrEmpty(v));
    if FullMatch(BirthdayPattern, OrEmpty(v)) then Some(v.s) else None
  }

  /** `_validate_passport`: kept exactly when it has the shape `NNNN NNNNNN DD.MM.YYYY` (plain spaces). */
  function ValidatePassport(v: TextArg): (r: Option<string>)
    ensures r.Some? <==> v.PStr? && IsPassport(v.s, Lit(' '))
    ensures r.Some? ==> v == PStr(r.value)
  {
    PassportMatch(OrEmpty(v), Lit(' '));
    if FullMatch(PassportPattern(Lit(' ')), OrEmpty(v)) then Some(v.s) else None
  }

  /** `_validate_education`: the lower-cased value, when that is one of the education levels. */
  function ValidateEducation(v: TextArg): (r: Option<string>)
    ensures r.Some? <==> v.PStr? && Lower(v.s) in Educations
    ensures r.Some? ==> r.value == Lower(v.s)
  {
    LowerMember(v, Educations)
  }

  /** `_validate_phone`: kept exactly when it has the shape `+7(NNN)NNN-NN-NN`. */
  function ValidatePhone(v: TextArg): (r: Option<string>)
    ensures r.Some? <==> v.PStr? && IsPhone(v.s)
    ensures r.Some? ==> v == PStr(r.value)
  {
    PhoneMatch(OrEmpty(v));
    if FullMatch(PhonePattern, OrEmpty(v)) then Some(v.s) else None
  }

  /** `_validate_year`: a parsed year in [1950, 2030]. */
  function ValidateYear(v: Value): (r: Option<int>)
    ensures r.Some? <==> AsInt(v).Some? && 1950 <= AsInt(v).value <= 2030
    ensures r.Some? ==> r == AsInt(v)
  {
    var x := AsInt(v);
    if x.Some? && x.value != 0 && 1950 <= x.value <= 2030 then x else None
  }

  /** `_validate_profession`: the lower-cased value, when that is a listed profession. */
  function ValidateProfession(v: TextArg): (r: Option<string>)
    ensures r.Some? <==> v.PStr? && Lower(v.s) in Professions
    ensures r.Some? ==> r.value == Lower(v.s)
  {
    LowerMember(v, Professions)
  }

  /** `_validate_experience`: the test is `is not None`, so a parsed 0 is kept: [0, 60]. */
  function ValidateExperience(v: Value): (r: Option<int>)
    ensures r.Some? <==> AsInt(v).Some? && 0 <= AsInt(v).value <= 60
    ensures r.Some? ==> r == AsInt(v)
  {
    var x := AsInt(v);
    if x.Some? && 0 <= x.value <= 60 then x else None
  }

  /** `_validate_category`: the lower-cased value, when that is a listed category. */
  function ValidateCategory(v: TextArg): (r: Option<string>)
    ensures r.Some? <==> v.PStr? && Lower(v.s) in Categories
    ensures r.Some? ==> r.value == Lower(v.s)
  {
    LowerMember(v, Categories)
  }

  function ValidateStatus(v: Value): (r: Option<string>)
    ensures r.Some? <==> v.PStr? && v.s in Statuses
    ensures r.Some? ==> v == PStr(r.value)
  {
    ExactMember(v, Statuses)
  }

  /** `_validate_blood_type`: a parsed value in [1, 4]. */
  function ValidateBloodType(v: Value): (r: Option<int>)
    ensures r.Some? <==> AsInt(v).Some? && 1 <= AsInt(v).value <= 4
    ensures r.Some? ==> r == AsInt(v)
  {
    var x := AsInt(v);
    if x.Some? && x.value != 0 && 1 <= x.value <= 4 then x else None
  }

  function ValidateRhesus(v: Value): (r: Option<string>)
    ensures r.Some? <==> v == PStr("+") || v == PStr("-")
    ensures r.Some? ==> v == PStr(r.value)
  {
    ExactMember(v, Rhesuses)
  }

  /** `_validate_territorial_number`: a parsed value in [1, 20]. */
  function ValidateTerritorialNumber(v: Value): (r: Option<int>)
    ensures r.Some? <==> AsInt(v).Some? && 1 <= AsInt(v).value <= 20
    ensures r.Some? ==> r == AsInt(v)
  {
    var x := AsInt(v);
    if x.Some? && x.value != 0 && 1 <= x.value <= 20 then x else None
  }

  /** `_validate_disability`: the test is `is not None`, so a parsed 0 is kept: [0, 3]. */
  function ValidateDisability(v: Value): (r: Option<int>)
    ensures r.Some? <==> AsInt(v).Some? && 0 <= AsInt(v).value <= 3
    ensures r.Some? ==> r == AsInt(v)
  {
    var x := AsInt(v);
    if x.Some? && 0 <= x.value <= 3 then x else None
  }

  /** `_validate_health_group`: the upper-cased value, when that is I, II or III. */
  function ValidateHealthGroup(v: TextArg): (r: Option<string>)
    ensures r.Some? <==> v.PStr? && Upper(v.s) in Groups
    ensures r.Some? ==> r.value == Upper(v.s)
  {
    UpperMember(v, Groups)
  }

  // ---------------------------------------------------------- helper lemmas

  /** `_as_int` reads back every number it could have been given as text, and rejects the rest quietly. */
  lemma AsIntTotal(n: int, b: bool)
    ensures AsInt(PStr(IntToString(n))) == Some(n)
    ensures AsInt(PInt(n)) == Some(n)
    ensures AsInt(PBool(b)) == Some(if b then 1 else 0)
    ensures AsInt(PNone) == None && AsInt(PStr("")) == None
  {
    ParseIntToString(n);
  }

  /** A non-string full name is stored unchanged; a string is never cut twice. */
  lemma CutKeepsNonStrings(v: Value)
    ensures !v.PStr? ==> Cut(v) == v
    ensures Cut(Cut(v)) == Cut(v)
  {
  }

  /** An empty string is not kept by `_as_str`, unlike a plain string check. */
  lemma AsStrRejectsEmpty()
    ensures AsStr(PStr("")) == None
  {
  }

  /** A None (or any falsy) argument is matched as `""`, which none of the patterns accept. */
  lemma FalsyNeverMatches(v: TextArg)
    requires !Truthy(v)
    ensures ValidateBirthday(v) == None && ValidatePassport(v) == None && ValidatePhone(v) == None
  {
    assert !IsBirthday("") && !IsPassport("", Lit(' ')) && !IsPhone("");
  }

  /** A recorded experience or disability of zero is kept, where the other bounded validators drop it. */
  lemma ZeroKept()
    ensures ValidateExperience(PStr("0")) == Some(0)
    ensures ValidateDisability(PStr("0")) == Some(0)
    ensures ValidateYear(PStr("0")) == None && ValidateBloodType(PStr("0")) == None
    ensures ValidateTerritorialNumber(PStr("0")) == None
  {
    ParseIntDigits("0");
    assert DigitsValue("0") == 0;
  }

  /** Upper-casing an education level, profession or category does not change what is stored. */
  lemma LowerMemberAcceptsUpperCase(s: string, allowed: seq<string>)
    requires "" !in allowed
    ensures LowerMember(PStr(Upper(s)), allowed) == LowerMember(PStr(s), allowed)
  {
    LowerOfUpper(s);
  }

  /** The health group is found whatever the case of its letters. */
  lemma UpperMemberIgnoresCase(s: string, allowed: seq<string>)
    requires "" !in allowed
    ensures UpperMember(PStr(Lower(s)), allowed) == UpperMember(PStr(s), allowed)
  {
    UpperOfLower(s);
  }

  // ----------------------------------------------------------------- records

  /** The arguments of `Person.__init__`, as passed. */
  datatype PersonArgs = PersonArgs(
    fullName: Value, gender: Value, birthday: Value, placeBirth: Value, married: Value,
    passport: Value, residenceAddress: Value, levelEducation: Value, phoneNumber: Value)
  {
    /** None of the validators `Person.__init__` calls raises. */
    predicate Admissible() {
      TextLike(birthday) && TextLike(passport) && TextLike(levelEducation) && TextLike(phoneNumber)
    }
  }

  /** The own arguments of `Employee.__init__`, as passed. */
  datatype EmployeeArgs = EmployeeArgs(
    knowForeign: Value, educationDoc: Value, yearGrad: Value, qual: Value, specialty: Value,
    profession: Value, workEx: Value)
  {
    predicate Admissible() {
      TextLike(profession)
    }
  }

  /** The own arguments of `Patient.__init__`; none of its validators can raise. */
  datatype PatientArgs = PatientArgs(
    medicalPolicy: Value, status: Value, placeWorkStudy: Value, bloodType: Value,
    rhesusAffiliation: Value, allergicReactions: Value)

  type PersonArgsOk = a: PersonArgs | a.Admissible()
    witness PersonArgs(PNone, PNone, PNone, PNone, PNone, PNone, PNone, PNone, PNone)

  type EmployeeArgsOk = e: EmployeeArgs | e.Admissible()
    witness EmployeeArgs(PNone, PNone, PNone, PNone, PNone, PNone, PNone)

  datatype Person = Person(id: int, args: PersonArgsOk) {
    function FullName(): Value { Cut(args.fullName) }
    function Gender(): Option<string> { ValidateGender(args.gender) }
    function Birthday(): Option<string> { ValidateBirthday(args.birthday) }
    function PlaceBirth(): Option<string> { AsStr(args.placeBirth) }
    function Married(): Option<bool> { AsBool(args.married) }
    function Passport(): Option<string> { ValidatePassport(args.passport) }
    function ResidenceAddress(): Option<string> { AsStr(args.residenceAddress) }
    function LevelEducation(): Option<string> { ValidateEducation(args.levelEducation) }
    function PhoneNumber(): Option<string> { ValidatePhone(args.phoneNumber) }
  }

  datatype Employee = Employee(person: Person, args: EmployeeArgsOk) {
    function KnowForeignLanguage(): Option<bool> { AsBool(args.knowForeign) }
    function EducationDocument(): Option<string> { AsStr(args.educationDoc) }
    function YearGraduation(): Option<int> { ValidateYear(args.yearGrad) }
    function Qualification(): Option<string> { AsStr(args.qual) }
    function Specialty(): Option<string> { AsStr(args.specialty) }
    function Profession(): Option<string> { ValidateProfession(args.profession) }
    function WorkExperience(): Option<int> { ValidateExperience(args.workEx) }
  }

  datatype Nurse = Nurse(employee: Employee, sanitaryServiceArg: Value, patientCareArg: Value, medicalProceduresArg: Value) {
    function SanitaryService(): Option<bool> { AsBool(sanitaryServiceArg) }
    function PatientCare(): Option<bool> { AsBool(patientCareArg) }
    function MedicalProcedures(): Option<bool> { AsBool(medicalProceduresArg) }
  }

  datatype Doctor = Doctor(
    employee: Employee, academicDegreeArg: Value, academicRankArg: Value, categoryArg: TextArg, trainingsArg: Value,
    medicalErrorsArg: Value, diagnosisPatientsArg: Value, treatmentPatientsArg: Value, rehabilitationPatientsArg: Value)
  {
    function AcademicDegree(): Option<bool> { AsBool(academicDegreeArg) }
    function AcademicRank(): Option<bool> { AsBool(academicRankArg) }
    function Category(): Option<string> { ValidateCategory(categoryArg) }
    function Trainings(): Option<bool> { AsBool(trainingsArg) }
    function MedicalErrors(): Option<string> { AsStr(medicalErrorsArg) }
    function DiagnosisPatients(): Option<bool> { AsBool(diagnosisPatientsArg) }
    function TreatmentPatients(): Option<bool> { AsBool(treatmentPatientsArg) }
    function RehabilitationPatients(): Option<bool> { AsBool(rehabilitationPatientsArg) }
  }

  datatype Patient = Patient(person: Person, args: PatientArgs) {
    function MedicalPolicy(): Option<string> { AsStr(args.medicalPolicy) }
    function Status(): Option<string> { ValidateStatus(args.status) }
    function PlaceWorkStudy(): Option<string> { AsStr(args.placeWorkStudy) }
    function BloodType(): Option<int> { ValidateBloodType(args.bloodType) }
    function RhesusAffiliation(): Option<string> { ValidateRhesus(args.rhesusAffiliation) }
    function AllergicReactions(): Option<string> { AsStr(args.allergicReactions) }
  }

  datatype HospitalPatient = HospitalPatient(
    patient: Patient, medicalDepartmentArg: Value, roomNumberArg: Value, clinicalDiagnosisArg: Value)
  {
    function MedicalDepartment(): Option<string> { AsStr(medicalDepartmentArg) }
    function RoomNumber(): Option<int> { AsInt(roomNumberArg) }
    function ClinicalDiagnosis(): Option<string> { AsStr(clinicalDiagnosisArg) }
  }

  datatype AmbulatoryPatient = AmbulatoryPatient(
    patient: Patient, territorialNumberArg: Value, disabilityArg: Value, healthGroupArg: TextArg,
    chronicDiagnosisArg: Value)
  {
    function TerritorialNumber(): Option<int> { ValidateTerritorialNumber(territorialNumberArg) }
    function Disability(): Option<int> { ValidateDisability(disabilityArg) }
    function HealthGroup(): Option<string> { ValidateHealthGroup(healthGroupArg) }
    function ChronicDiagnosis(): Option<string> { AsStr(chronicDiagnosisArg) }
  }

  /**
    `Nurse(...)`: `Person.__init__` takes the counter's number and moves the counter on before any
    validator runs, so the counter advances even when a validator raises and no record results.
   */
  method CreateNurse(counter: IdCounter, a: PersonArgs, e: EmployeeArgs, sanitaryService: Value,
                     patientCare: Value, medicalProcedures: Value) returns (r: Option<Nurse>)
    modifies counter
    ensures counter.next == old(counter.next) + 1
    ensures r.Some? <==> a.Admissible() && e.Admissible()
    ensures r.Some? ==> r.value == Nurse(Employee(Person(old(counter.next), a), e), sanitaryService, patientCare, medicalProcedures)
  {
    var id := counter.Take();
    if a.Admissible() && e.Admissible() {
      r := Some(Nurse(Employee(Person(id, a), e), sanitaryService, patientCare, medicalProcedures));
    } else {
      r := None;
    }
  }

  /** `Doctor(...)`, which can also raise in `_validate_category`. */
  method CreateDoctor(counter: IdCounter, a: PersonArgs, e: EmployeeArgs, academicDegree: Value,
                      academicRank: Value, category: Value, trainings: Value, medicalErrors: Value,
                      diagnosisPatients: Value, treatmentPatients: Value, rehabilitationPatients: Value)
    returns (r: Option<Doctor>)
    modifies counter
    ensures counter.next == old(counter.next) + 1
    ensures r.Some? <==> a.Admissible() && e.Admissible() && TextLike(category)
    ensures r.Some? ==> r.value == Doctor(Employee(Person(old(counter.next), a), e), academicDegree, academicRank, category,
                                          trainings, medicalErrors, diagnosisPatients, treatmentPatients, rehabilitationPatients)
  {
    var id := counter.Take();
    if a.Admissible() && e.Admissible() && TextLike(category) {
      r := Some(Doctor(Employee(Person(id, a), e), academicDegree, academicRank, category, trainings, medicalErrors,
                       diagnosisPatients, treatmentPatients, rehabilitationPatients));
    } else {
      r := None;
    }
  }

  /** `HospitalPatient(...)` */
  method CreateHospitalPatient(counter: IdCounter, a: PersonArgs, p: PatientArgs, medicalDepartment: Value,
                               roomNumber: Value, clinicalDiagnosis: Value) returns (r: Option<HospitalPatient>)
    modifies counter
    ensures counter.next == old(counter.next) + 1
    ensures r.Some? <==> a.Admissible()
    ensures r.Some? ==> r.value == HospitalPatient(Patient(Person(old(counter.next), a), p), medicalDepartment, roomNumber,
                                                   clinicalDiagnosis)
  {
    var id := counter.Take();
    if a.Admissible() {
      r := Some(HospitalPatient(Patient(Person(id, a), p), medicalDepartment, roomNumber, clinicalDiagnosis));
    } else {
      r := None;
    }
  }

  /** `AmbulatoryPatient(...)`, which can also raise in `_validate_health_group`. */
  method CreateAmbulatoryPatient(counter: IdCounter, a: PersonArgs, p: PatientArgs, territorialNumber: Value,
                                 disability: Value, healthGroup: Value, chronicDiagnosis: Value)
    returns (r: Option<AmbulatoryPatient>)
    modifies counter
    ensures counter.next == old(counter.next) + 1
    ensures r.Some? <==> a.Admissible() && TextLike(healthGroup)
    ensures r.Some? ==> r.value == AmbulatoryPatient(Patient(Person(old(counter.next), a), p), territorialNumber, disability,
                                                     healthGroup, chronicDiagnosis)
  {
    var id := counter.Take();
    if a.Admissible() && TextLike(healthGroup) {
      r := Some(AmbulatoryPatient(Patient(Person(id, a), p), territorialNumber, disability, healthGroup, chronicDiagnosis));
    } else {
      r := None;
    }
  }

  /** Every stored attribute of a person satisfies its constraint or is absent. */
  lemma PersonFieldsValid(p: Person)
    ensures p.FullName().PStr? ==> |p.FullName().s| <= NameLimit
    ensures p.Gender().Some? ==> p.Gender().value in Genders
    ensures p.Birthday().Some? ==> IsBirthday(p.Birthday().value)
    ensures p.Passport().Some? ==> IsPassport(p.Passport().value, Lit(' '))
    ensures p.LevelEducation().Some? ==> p.LevelEducation().value in Educations
    ensures p.PhoneNumber().Some? ==> IsPhone(p.PhoneNumber().value)
  {
    if p.LevelEducation().Some? {
      assert p.LevelEducation() == LowerMember(p.args.levelEducation, Educations);
    }
  }

  /** Every stored attribute of an employee satisfies its constraint or is absent. */
  lemma EmployeeFieldsValid(e: Employee)
    ensures e.YearGraduation().Some? ==> 1950 <= e.YearGraduation().value <= 2030
    ensures e.Profession().Some? ==> e.Profession().value in Professions
    ensures e.WorkExperience().Some? ==> 0 <= e.WorkExperience().value <= 60
  {
    if e.Profession().Some? {
      assert e.Profession() == LowerMember(e.args.profession, Professions);
    }
  }

  /** Every stored attribute of a patient satisfies its constraint or is absent. */
  lemma PatientFieldsValid(h: HospitalPatient, a: AmbulatoryPatient)
    ensures h.patient.Status().Some? ==> h.patient.Status().value in Statuses
    ensures h.patient.BloodType().Some? ==> 1 <= h.patient.BloodType().value <= 4
    ensures h.patient.RhesusAffiliation().Some? ==> h.patient.RhesusAffiliation().value in Rhesuses
    ensures a.TerritorialNumber().Some? ==> 1 <= a.TerritorialNumber().value <= 20
    ensures a.Disability().Some? ==> 0 <= a.Disability().value <= 3
    ensures a.HealthGroup().Some? ==> a.HealthGroup().value in Groups
  {
    if a.HealthGroup().Some? {
      assert a.HealthGroup() == UpperMember(a.healthGroupArg, Groups);
    }
  }

  // --------------------------------------------------------------- rendering

  function IdLine(id: int): string {
    "Номер: " + IntToString(id)
  }

  /** `f"{caption}{field}" if field else ""` */
  function TextField(caption: string, o: Option<string>): string {
    if o.Some? && o.value != "" then caption + o.value else ""
  }

  /** `f"{caption}{'да' if field else 'нет'}" if field is not None else ""` */
  function YesNoField(caption: string, o: Option<bool>): string {
    if o.Some? then caption + (if o.value then "да" else "нет") else ""
  }

  /** `f"{caption}{field}" if field else ""` for a number. */
  function TruthyIntField(caption: string, o: Option<int>): string {
    if o.Some? && o.value != 0 then caption + IntToString(o.value) else ""
  }

  /** `f"{caption}{field}" if field is not None else ""` for a number. */
  function IntField(caption: string, o: Option<int>): string {
    if o.Some? then caption + IntToString(o.value) else ""
  }

  /** `f"ФИО: {name}" if name else ""`: the stored name is any value, shown through `str()`. */
  function NameField(name: Value): string {
    if Truthy(name) then "ФИО: " + Str(name) else ""
  }

  /** The `fields` list of `Person.__str__`, an empty string standing for each skipped line. */
  function PersonFields(p: Person): seq<string> {
    [ IdLine(p.id),
      NameField(p.FullName()),
      TextField("Пол: ", p.Gender()),
      TextField("Дата рождения: ", p.Birthday()),
      TextField("Место рождения: ", p.PlaceBirth()),
      YesNoField("В браке: ", p.Married()),
      TextField("Паспорт: ", p.Passport()),
      TextField("Адрес регистрации: ", p.ResidenceAddress()),
      TextField("Уровень образования: ", p.LevelEducation()),
      TextField("Телефон: ", p.PhoneNumber()) ]
  }

  /** `"\n".join(filter(None, fields))` */
  function PersonStr(p: Person): string {
    JoinLines(DropEmpty(PersonFields(p)))
  }

  function EmployeeOwnFields(e: Employee): seq<string> {
    [ YesNoField("Знает иностранный язык: ", e.KnowForeignLanguage()),
      TextField("Документ об образовании: ", e.EducationDocument()),
      TruthyIntField("Год окончания: ", e.YearGraduation()),
      TextField("Квалификация: ", e.Qualification()),
      TextField("Специализация: ", e.Specialty()),
      TextField("Профессия: ", e.Profession()),
      IntField("Стаж: ", e.WorkExperience()) ]
  }

  function EmployeeStr(e: Employee): string {
    JoinLines(DropEmpty([PersonStr(e.person)] + EmployeeOwnFields(e)))
  }

  function NurseOwnFields(n: Nurse): seq<string> {
    [ YesNoField("Санитарная обработка помещений: ", n.SanitaryService()),
      YesNoField("Уход за больными: ", n.PatientCare()),
      YesNoField("Выполнение медицинских процедур: ", n.MedicalProcedures()) ]
  }

  /** `Nurse.__str__`, which ends with a line break. */
  function NurseStr(n: Nurse): string {
    JoinLines(DropEmpty([EmployeeStr(n.employee)] + NurseOwnFields(n))) + "\n"
  }

  function DoctorOwnFields(d: Doctor): seq<string> {
    [ YesNoField("Ученая степень: ", d.AcademicDegree()),
      YesNoField("Ученое звание: ", d.AcademicRank()),
      TextField("Категория: ", d.Category()),
      YesNoField("Повышение квалификации: ", d.Trainings()),
      TextField("Медицинские ошибки: ", d.MedicalErrors()),
      YesNoField("Выполнение диагностики заболеваний: ", d.DiagnosisPatients()),
      YesNoField("Лечебная практика: ", d.TreatmentPatients()),
      YesNoField("Реабилитация больных: ", d.RehabilitationPatients()) ]
  }

  /** `Doctor.__str__`, which ends with a line break. */
  function DoctorStr(d: Doctor): string {
    JoinLines(DropEmpty([EmployeeStr(d.employee)] + DoctorOwnFields(d))) + "\n"
  }

  /** The appended blood-group entry: the type, with `(rh)` appended only when a rhesus is stored. */
  function BloodLine(blood: Option<int>, rhesus: Option<string>): seq<string> {
    if blood.Some? && blood.value != 0 then
      var part := "Группа крови: " + IntToString(blood.value);
      if rhesus.Some? && rhesus.value != "" then [part + "(" + rhesus.value + ")"] else [part]
    else []
  }

  /** The list literal of `Patient.__str__` after the Person text, then the two conditional appends. */
  function PatientOwnFields(pt: Patient): seq<string> {
    [ TextField("Медицинский полис: ", pt.MedicalPolicy()),
      TextField("Cтатус: ", pt.Status()),
      TextField("Место работы (учёбы): ", pt.PlaceWorkStudy()) ]
    + BloodLine(pt.BloodType(), pt.RhesusAffiliation())
    + (if pt.AllergicReactions().Some? then ["Аллергические реакции: " + pt.AllergicReactions().value] else [])
  }

  function PatientStr(pt: Patient): string {
    JoinLines(DropEmpty([PersonStr(pt.person)] + PatientOwnFields(pt)))
  }

  function HospitalOwnFields(h: HospitalPatient): seq<string> {
    [ TextField("Отделение: ", h.MedicalDepartment()),
      IntField("Палата: ", h.RoomNumber()),
      TextField("Клинический диагноз: ", h.ClinicalDiagnosis()) ]
  }

  /** `HospitalPatient.__str__`, which ends with a line break. */
  function HospitalStr(h: HospitalPatient): string {
    JoinLines(DropEmpty([PatientStr(h.patient)] + HospitalOwnFields(h))) + "\n"
  }

  function AmbulatoryOwnFields(a: AmbulatoryPatient): seq<string> {
    [ TruthyIntField("Участок: ", a.TerritorialNumber()),
      if a.Disability().Some? && a.Disability().value != 0
      then "Группа инвалидности: " + IntToString(a.Disability().value) + " группа" else "",
      TextField("Группа здоровья: ", a.HealthGroup()),
      if a.ChronicDiagnosis().Some? && a.ChronicDiagnosis().value != "Не выявлено"
      then "Хронический диагноз: " + a.ChronicDiagnosis().value else "" ]
  }

  /** `AmbulatoryPatient.__str__`, which ends with a line break. */
  function AmbulatoryStr(a: AmbulatoryPatient): string {
    JoinLines(DropEmpty([PatientStr(a.patient)] + AmbulatoryOwnFields(a))) + "\n"
  }

  // ------------------------------------------------------- rendering lemmas

  /** The number line is never filtered out: every person text is non-empty and begins with it. */
  lemma PersonStrStartsWithId(p: Person)
    ensures DropEmpty(PersonFields(p)) == [IdLine(p.id)] + DropEmpty(PersonFields(p)[1..])
    ensures IdLine(p.id) <= PersonStr(p) && PersonStr(p) != ""
  {
    var f := PersonFields(p);
    assert f == [f[0]] + f[1..];
    DropEmptyAppend([f[0]], f[1..]);
    JoinStartsWithFirst('\n', DropEmpty(f));
  }

  /** A text that begins with a non-empty parent text survives the filter in first place. */
  lemma KeepsParent(parent: string, own: seq<string>)
    requires parent != ""
    ensures DropEmpty([parent] + own) == [parent] + DropEmpty(own)
  {
    DropEmptyAppend([parent], own);
  }

  /** The employee text is the filtered person lines followed by the filtered employee lines. */
  lemma EmployeeLines(e: Employee)
    ensures EmployeeStr(e) == JoinLines(DropEmpty(PersonFields(e.person)) + DropEmpty(EmployeeOwnFields(e)))
    ensures IdLine(e.person.id) <= EmployeeStr(e) && EmployeeStr(e) != ""
  {
    PersonStrStartsWithId(e.person);
    KeepsParent(PersonStr(e.person), EmployeeOwnFields(e));
    JoinNested(DropEmpty(PersonFields(e.person)), DropEmpty(EmployeeOwnFields(e)));
    var all := DropEmpty(PersonFields(e.person)) + DropEmpty(EmployeeOwnFields(e));
    assert all[0] == IdLine(e.person.id);
    JoinStartsWithFirst('\n', all);
  }

  /** A Nurse is rendered as its Person lines, its Employee lines, its own lines, in that order, then a line break. */
  lemma NurseLines(n: Nurse)
    ensures NurseStr(n) == JoinLines(DropEmpty(PersonFields(n.employee.person)) + DropEmpty(EmployeeOwnFields(n.employee))
                                     + DropEmpty(NurseOwnFields(n))) + "\n"
  {
    var e := n.employee;
    EmployeeLines(e);
    KeepsParent(EmployeeStr(e), NurseOwnFields(n));
    JoinNested(DropEmpty(PersonFields(e.person)) + DropEmpty(EmployeeOwnFields(e)), DropEmpty(NurseOwnFields(n)));
  }

  /** A Doctor is rendered as its Person lines, its Employee lines, its own lines, in that order, then a line break. */
  lemma DoctorLines(d: Doctor)
    ensures DoctorStr(d) == JoinLines(DropEmpty(PersonFields(d.employee.person)) + DropEmpty(EmployeeOwnFields(d.employee))
                                      + DropEmpty(DoctorOwnFields(d))) + "\n"
  {
    var e := d.employee;
    EmployeeLines(e);
    KeepsParent(EmployeeStr(e), DoctorOwnFields(d));
    JoinNested(DropEmpty(PersonFields(e.person)) + DropEmpty(EmployeeOwnFields(e)), DropEmpty(DoctorOwnFields(d)));
  }

  /** The patient text is the filtered person lines followed by the filtered patient lines. */
  lemma PatientLines(pt: Patient)
    ensures PatientStr(pt) == JoinLines(DropEmpty(PersonFields(pt.person)) + DropEmpty(PatientOwnFields(pt)))
    ensures IdLine(pt.person.id) <= PatientStr(pt) && PatientStr(pt) != ""
  {
    PersonStrStartsWithId(pt.person);
    KeepsParent(PersonStr(pt.person), PatientOwnFields(pt));
    JoinNested(DropEmpty(PersonFields(pt.person)), DropEmpty(PatientOwnFields(pt)));
    var all := DropEmpty(PersonFields(pt.person)) + DropEmpty(PatientOwnFields(pt));
    assert all[0] == IdLine(pt.person.id);
    JoinStartsWithFirst('\n', all);
  }

  /** A HospitalPatient is rendered as Person, Patient and its own lines, in that order, then a line break. */
  lemma HospitalLines(h: HospitalPatient)
    ensures HospitalStr(h) == JoinLines(DropEmpty(PersonFields(h.patient.person)) + DropEmpty(PatientOwnFields(h.patient))
                                        + DropEmpty(HospitalOwnFields(h))) + "\n"
  {
    var pt := h.patient;
    PatientLines(pt);
    KeepsParent(PatientStr(pt), HospitalOwnFields(h));
    JoinNested(DropEmpty(PersonFields(pt.person)) + DropEmpty(PatientOwnFields(pt)), DropEmpty(HospitalOwnFields(h)));
  }

  /** An AmbulatoryPatient is rendered as Person, Patient and its own lines, in that order, then a line break. */
  lemma AmbulatoryLines(a: AmbulatoryPatient)
    ensures AmbulatoryStr(a) == JoinLines(DropEmpty(PersonFields(a.patient.person)) + DropEmpty(PatientOwnFields(a.patient))
                                          + DropEmpty(AmbulatoryOwnFields(a))) + "\n"
  {
    var pt := a.patient;
    PatientLines(pt);
    KeepsParent(PatientStr(pt), AmbulatoryOwnFields(a));
    JoinNested(DropEmpty(PersonFields(pt.person)) + DropEmpty(PatientOwnFields(pt)), DropEmpty(AmbulatoryOwnFields(a)));
  }

  /** A text whose first entry is a non-empty parent text begins with whatever the parent begins with. */
  lemma ParentFirst(head: string, parent: string, own: seq<string>)
    requires parent != "" && head <= parent
    ensures head <= JoinLines(DropEmpty([parent] + own))
  {
    KeepsParent(parent, own);
    JoinStartsWithFirst('\n', [parent] + DropEmpty(own));
  }

  /** Every staff rendering begins with the record number line. */
  lemma StaffRenderingStartsWithId(n: Nurse, d: Doctor)
    ensures IdLine(n.employee.person.id) <= NurseStr(n)
    ensures IdLine(d.employee.person.id) <= DoctorStr(d)
  {
    EmployeeLines(n.employee);
    ParentFirst(IdLine(n.employee.person.id), EmployeeStr(n.employee), NurseOwnFields(n));
    EmployeeLines(d.employee);
    ParentFirst(IdLine(d.employee.person.id), EmployeeStr(d.employee), DoctorOwnFields(d));
  }

  /** Every patient rendering begins with the record number line. */
  lemma PatientRenderingStartsWithId(h: HospitalPatient, a: AmbulatoryPatient)
    ensures IdLine(h.patient.person.id) <= HospitalStr(h)
    ensures IdLine(a.patient.person.id) <= AmbulatoryStr(a)
  {
    PatientLines(h.patient);
    ParentFirst(IdLine(h.patient.person.id), PatientStr(h.patient), HospitalOwnFields(h));
    PatientLines(a.patient);
    ParentFirst(IdLine(a.patient.person.id), PatientStr(a.patient), AmbulatoryOwnFields(a));
  }

  /** A disability of 0 is stored but filtered out of the text, while a room number of 0 is shown. */
  lemma ZeroDisabilityHiddenZeroRoomShown(a: AmbulatoryPatient, h: HospitalPatient)
    requires a.disabilityArg == PStr("0") && h.roomNumberArg == PInt(0)
    ensures a.Disability() == Some(0) && AmbulatoryOwnFields(a)[1] == ""
    ensures h.RoomNumber() == Some(0) && HospitalOwnFields(h)[1] == "Палата: 0"
  {
    ZeroKept();
  }

  /** A full name that is not a string is stored and shown through `str()`, checked by no validator. */
  lemma NonStringNameShown(n: int)
    requires n != 0
    ensures NameField(Cut(PInt(n))) == "ФИО: " + IntToString(n)
    ensures NameField(Cut(PBool(true))) == "ФИО: True"
  {
  }

  /** Without a blood type there is no blood entry, whatever rhesus is stored. */
  lemma RhesusNeedsBloodType(rh: Option<string>)
    ensures BloodLine(None, rh) == []
  {
  }

  /** A chronic diagnosis `Не выявлено` is filtered out like a missing one. */
  lemma ChronicNotFoundSuppressed(a: AmbulatoryPatient)
    requires a.chronicDiagnosisArg == PStr("Не выявлено") || !a.chronicDiagnosisArg.PStr?
    ensures AmbulatoryOwnFields(a)[3] == ""
  {
  }
}
