/**
  The single-file implementation solution.py: the validators `check_*`/`set_*`, the records of the
  hierarchy Person -> Employee -> Nurse/Doctor and Person -> Patient -> HospitalPatient/AmbulatoryPatient,
  their construction from raw values, and their text rendering (`__str__`).

  The attributes of a record are only assigned in its constructor, so each record is a datatype value;
  the inheritance chain becomes composition (a Nurse holds its Employee part, which holds its Person
  part). A record keeps the arguments it was constructed with, and each attribute `__init__` stores is
  a member function: the attribute's validator applied to its argument. The validators take any Python
  value. `check_int` passes its argument to `int()` and catches only `ValueError`, so `None` (a
  `TypeError`) is kept out by the type `IntArg` of the arguments that reach it.
 */
module Solution {
  import opened Wrappers
  import opened Python
  import opened Regex
  import opened Ids

  const Genders: seq<string> := ["муж.", "жен."]
  const Educations: seq<string> := ["высшее", "ср.спец", "среднее"]
  const Professions: seq<string> := ["врач", "медицинская сестра"]
  const Categories: seq<string> := ["высшая", "первая", "вторая"]
  const Statuses: seq<string> := ["рабочий", "служащий", "обучающийся"]
  const Rhesuses: seq<string> := ["+", "-"]
  const Groups: seq<string> := ["I", "II", "III"]

  /** A value handed to `check_int`: `int(None)` raises `TypeError`, which `check_int` lets through. */
  type IntArg = v: Value | !v.PNone? witness PInt(0)

  /** Longest full name kept. */
  const NameLimit: nat := 25

  // ------------------------------------------------------------- validators

  /** `Person.check_str` */
  function CheckStr(v: Value): Option<string> {
    if v.PStr? then Some(v.s) else None
  }

  /** `Person.check_bool`: equality with the two exact strings, so `"true"` or a real bool is absent. */
  function CheckBool(v: Value): (r: Option<bool>)
    ensures r == Some(true) <==> v == PStr("True")
    ensures r == Some(false) <==> v == PStr("False")
    ensures r.None? <==> v != PStr("True") && v != PStr("False")
  {
    if v == PStr("True") then Some(true)
    else if v == PStr("False") then Some(false)
    else None
  }

  /** `Person.check_int`: `int(value)`, with a `ValueError` turned into None. */
  function CheckInt(v: IntArg): Option<int>
  {
    if v.PStr? then ParseInt(v.s) else Some(IntOf(v))
  }

  /** `Person.set_name`: a string is cut to its first 25 characters; anything else is absent. */
  function SetName(v: Value): (r: Option<string>)
    ensures r.Some? <==> v.PStr?
    ensures r.Some? ==> r.value <= v.s && |r.value| <= NameLimit
    ensures r.Some? ==> (|v.s| <= NameLimit ==> r.value == v.s) && (|v.s| > NameLimit ==> |r.value| == NameLimit)
  {
    var value := CheckStr(v);
    if value.Some? && value.value != "" && |value.value| > NameLimit then Some(value.value[..NameLimit])
    else value
  }

  /** `if value and value in allowed: return value`, after `check_str`. */
  function Member(v: Value, allowed: seq<string>): (r: Option<string>)
    requires "" !in allowed
    ensures r.Some? <==> v.PStr? && v.s in allowed
    ensures r.Some? ==> v == PStr(r.value)
  {
    var value := CheckStr(v);
    if value.Some? && value.value != "" && value.value in allowed then value else None
  }

  /** `if value and value.lower() in allowed: return value.lower()`, after `check_str`. */
  function LowerMember(v: Value, allowed: seq<string>): (r: Option<string>)
    requires "" !in allowed
    ensures r.Some? <==> v.PStr? && Lower(v.s) in allowed
    ensures r.Some? ==> r.value == Lower(v.s) && r.value in allowed
  {
    var value := CheckStr(v);
    if value.Some? && value.value != "" && Lower(value.value) in allowed then Some(Lower(value.value)) else None
  }

  /** `if value and value.upper() in allowed: return value.upper()`, after `check_str`. */
  function UpperMember(v: Value, allowed: seq<string>): (r: Option<string>)
    requires "" !in allowed
    ensures r.Some? <==> v.PStr? && Upper(v.s) in allowed
    ensures r.Some? ==> r.value == Upper(v.s) && r.value in allowed
  {
    var value := CheckStr(v);
    if value.Some? && value.value != "" && Upper(value.value) in allowed then Some(Upper(value.value)) else None
  }

  /** `value = check_int(value); if value and lo <= value <= hi: return value`. */
  function TruthyInRange(v: IntArg, lo: int, hi: int): (r: Option<int>)
  {
    var value := CheckInt(v);
    if value.Some? && value.value != 0 && lo <= value.value <= hi then value else None
  }

  /** `Person.set_gender`: exact, case-sensitive membership. */
  function SetGender(v: Value): (r: Option<string>)
    ensures r.Some? <==> v.PStr? && v.s in Genders
    ensures r.Some? ==> v == PStr(r.value)
  {
    Member(v, Genders)
  }

  /** `Person.set_birthday`: the value is kept exactly when it has the shape `DD.MM.YYYY`. */
  function SetBirthday(v: Value): (r: Option<string>)
    ensures r.Some? <==> v.PStr? && IsBirthday(v.s)
    ensures r.Some? ==> v == PStr(r.value)
  {
    var value := CheckStr(v);
    if value.None? then None
    else
      BirthdayMatch(value.value);
      if value.value != "" && |value.value| == 10 && FullMatch(BirthdayPattern, value.value) then value else None
  }

  /** `Person.set_passport`: kept exactly when it has the shape `NNNN NNNNNN DD.MM.YYYY` (plain spaces). */
  function SetPassport(v: Value): (r: Option<string>)
    ensures r.Some? <==> v.PStr? && IsPassport(v.s, Lit(' '))
    ensures r.Some? ==> v == PStr(r.value)
  {
    var value := CheckStr(v);
    if value.None? then None
    else
      PassportMatch(value.value, Lit(' '));
      if value.value != "" && |value.value| == 22 && FullMatch(PassportPattern(Lit(' ')), value.value) then value
      else None
  }

  /** `Person.set_education`: the lower-cased value, when that is one of the education levels. */
  function SetEducation(v: Value): (r: Option<string>)
    ensures r.Some? <==> v.PStr? && Lower(v.s) in Educations
    ensures r.Some? ==> r.value == Lower(v.s)
  {
    LowerMember(v, Educations)
  }

  /** `Person.set_phone`: kept exactly when it has the shape `+7(NNN)NNN-NN-NN`. */
  function SetPhone(v: Value): (r: Option<string>)
    ensures r.Some? <==> v.PStr? && IsPhone(v.s)
    ensures r.Some? ==> v == PStr(r.value)
  {
    var value := CheckStr(v);
    if value.None? then None
    else
      PhoneMatch(value.value);
      if value.value != "" && |value.value| == 16 && FullMatch(PhonePattern, value.value) then value else None
  }

  /** `Employee.set_graduation`: a parsed year in [1950, 2030]. */
  function SetGraduation(v: IntArg): (r: Option<int>)
    ensures r.Some? <==> CheckInt(v).Some? && 1950 <= CheckInt(v).value <= 2030
    ensures r.Some? ==> r == CheckInt(v)
  {
    TruthyInRange(v, 1950, 2030)
  }

  /** `Employee.set_profession`: the lower-cased value, when that is a listed profession. */
  function SetProfession(v: Value): (r: Option<string>)
    ensures r.Some? <==> v.PStr? && Lower(v.s) in Professions
    ensures r.Some? ==> r.value == Lower(v.s)
  {
    LowerMember(v, Professions)
  }

  /** `Employee.set_ex`: the truthiness test rejects a parsed 0, so only [1, 60] is accepted. */
  function SetEx(v: IntArg): (r: Option<int>)
    ensures r.Some? <==> CheckInt(v).Some? && 1 <= CheckInt(v).value <= 60
    ensures r.Some? ==> r == CheckInt(v)
  {
    TruthyInRange(v, 0, 60)
  }

  /** `Doctor.set_category`: the lower-cased value, when that is a listed category. */
  function SetCategory(v: Value): (r: Option<string>)
    ensures r.Some? <==> v.PStr? && Lower(v.s) in Categories
    ensures r.Some? ==> r.value == Lower(v.s)
  {
    LowerMember(v, Categories)
  }

  /** `Patient.set_status`: exact membership. */
  function SetStatus(v: Value): (r: Option<string>)
    ensures r.Some? <==> v.PStr? && v.s in Statuses
    ensures r.Some? ==> v == PStr(r.value)
  {
    Member(v, Statuses)
  }

  /** `Patient.set_blood_type`: a parsed value in [1, 4]; every other path falls off the end (None). */
  function SetBloodType(v: IntArg): (r: Option<int>)
    ensures r.Some? <==> CheckInt(v).Some? && 1 <= CheckInt(v).value <= 4
    ensures r.Some? ==> r == CheckInt(v)
  {
    TruthyInRange(v, 1, 4)
  }

  /** `Patient.set_rhesus_affiliation`: exactly `"+"` or `"-"`. */
  function SetRhesus(v: Value): (r: Option<string>)
    ensures r.Some? <==> v == PStr("+") || v == PStr("-")
    ensures r.Some? ==> v == PStr(r.value)
  {
    Member(v, Rhesuses)
  }

  /** `AmbulatoryPatient.set_ternum`: a parsed value in [1, 20]. */
  function SetTernum(v: IntArg): (r: Option<int>)
    ensures r.Some? <==> CheckInt(v).Some? && 1 <= CheckInt(v).value <= 20
    ensures r.Some? ==> r == CheckInt(v)
  {
    TruthyInRange(v, 1, 20)
  }

  /** `AmbulatoryPatient.set_disability`: the truthiness test rejects 0, so only [1, 3] is accepted. */
  function SetDisability(v: IntArg): (r: Option<int>)
    ensures r.Some? <==> CheckInt(v).Some? && 1 <= CheckInt(v).value <= 3
    ensures r.Some? ==> r == CheckInt(v)
  {
    TruthyInRange(v, 0, 3)
  }

  /** `AmbulatoryPatient.set_group`: the upper-cased value, when that is I, II or III. */
  function SetGroup(v: Value): (r: Option<string>)
    ensures r.Some? <==> v.PStr? && Upper(v.s) in Groups
    ensures r.Some? ==> r.value == Upper(v.s)
  {
    UpperMember(v, Groups)
  }

  /** The case-folding validators see their input only through its lower-case form. */
  lemma LowerMemberIgnoresCase(s: string, t: string, allowed: seq<string>)
    requires "" !in allowed
    requires Lower(s) == Lower(t)
    ensures LowerMember(PStr(s), allowed) == LowerMember(PStr(t), allowed)
  {
  }

  /** Upper-casing an education level, profession or category does not change what is stored. */
  lemma LowerMemberAcceptsUpperCase(s: string, allowed: seq<string>)
    requires "" !in allowed
    ensures LowerMember(PStr(Upper(s)), allowed) == LowerMember(PStr(s), allowed)
  {
    LowerOfUpper(s);
  }

  /** The health group is found whatever the case of its letters. */
  lemma UpperMemberIgnoresCase(s: string, allowed: seq<string>)
    requires "" !in allowed
    ensures UpperMember(PStr(Lower(s)), allowed) == UpperMember(PStr(s), allowed)
  {
    UpperOfLower(s);
  }

  /** The length tests in `set_birthday`, `set_passport` and `set_phone` are implied by the patterns. */
  lemma LengthTestsRedundant(s: string)
    ensures FullMatch(BirthdayPattern, s) ==> |s| == 10
    ensures FullMatch(PassportPattern(Lit(' ')), s) ==> |s| == 22
    ensures FullMatch(PhonePattern, s) ==> |s| == 16
  {
    PatternWidths();
    if FullMatch(BirthdayPattern, s) { FullMatchLength(BirthdayPattern, s); }
    if FullMatch(PassportPattern(Lit(' ')), s) { FullMatchLength(PassportPattern(Lit(' ')), s); }
    if FullMatch(PhonePattern, s) { FullMatchLength(PhonePattern, s); }
  }

  /** A name that was already cut is not cut again. */
  lemma SetNameIdempotent(v: Value)
    requires v.PStr?
    ensures SetName(PStr(SetName(v).value)) == SetName(v)
  {
  }

  // ----------------------------------------------------------------- records

  /**
    The keyword arguments of `Person.__init__`. A record keeps the arguments it was built from; the
    attribute `__init__` stores for each is the member function of the same name, the validator of that
    attribute applied to its argument.
   */
  datatype PersonArgs = PersonArgs(
    fullName: Value, gender: Value, birthday: Value, placeBirth: Value, married: Value,
    passport: Value, residenceAddress: Value, levelEducation: Value, phoneNumber: Value)

  /** The own arguments of `Employee.__init__`. */
  datatype EmployeeArgs = EmployeeArgs(
    knowForeign: Value, educationDoc: Value, yearGrad: IntArg, qual: Value, specialty: Value,
    profession: Value, workEx: IntArg)

  /** The own arguments of `Patient.__init__`. */
  datatype PatientArgs = PatientArgs(
    medicalPolicy: Value, status: Value, placeWorkStudy: Value, bloodType: IntArg,
    rhesusAffiliation: Value, allergicReactions: Value)

  datatype Person = Person(id: int, args: PersonArgs) {
    function FullName(): Option<string> { SetName(args.fullName) }
    function Gender(): Option<string> { SetGender(args.gender) }
    function Birthday(): Option<string> { SetBirthday(args.birthday) }
    function PlaceBirth(): Option<string> { CheckStr(args.placeBirth) }
    function Married(): Option<bool> { CheckBool(args.married) }
    function Passport(): Option<string> { SetPassport(args.passport) }
    function ResidenceAddress(): Option<string> { CheckStr(args.residenceAddress) }
    function LevelEducation(): Option<string> { SetEducation(args.levelEducation) }
    function PhoneNumber(): Option<string> { SetPhone(args.phoneNumber) }
  }

  datatype Employee = Employee(person: Person, args: EmployeeArgs) {
    function KnowForeignLanguage(): Option<bool> { CheckBool(args.knowForeign) }
    function EducationDocument(): Option<string> { CheckStr(args.educationDoc) }
    function YearGraduation(): Option<int> { SetGraduation(args.yearGrad) }
    function Qualification(): Option<string> { CheckStr(args.qual) }
    function Specialty(): Option<string> { CheckStr(args.specialty) }
    function Profession(): Option<string> { SetProfession(args.profession) }
    function WorkExperience(): Option<int> { SetEx(args.workEx) }
  }

  datatype Nurse = Nurse(employee: Employee, sanitaryServiceArg: Value, patientCareArg: Value, medicalProceduresArg: Value) {
    function SanitaryService(): Option<bool> { CheckBool(sanitaryServiceArg) }
    function PatientCare(): Option<bool> { CheckBool(patientCareArg) }
    function MedicalProcedures(): Option<bool> { CheckBool(medicalProceduresArg) }
  }

  datatype Doctor = Doctor(
    employee: Employee, academicDegreeArg: Value, academicRankArg: Value, categoryArg: Value, trainingsArg: Value,
    medicalErrorsArg: Value, diagnosisPatientsArg: Value, treatmentPatientsArg: Value, rehabilitationPatientArg: Value)
  {
    function AcademicDegree(): Option<bool> { CheckBool(academicDegreeArg) }
    function AcademicRank(): Option<bool> { CheckBool(academicRankArg) }
    function Category(): Option<string> { SetCategory(categoryArg) }
    function Trainings(): Option<bool> { CheckBool(trainingsArg) }
    function MedicalErrors(): Option<string> { CheckStr(medicalErrorsArg) }
    function DiagnosisPatients(): Option<bool> { CheckBool(diagnosisPatientsArg) }
    function TreatmentPatients(): Option<bool> { CheckBool(treatmentPatientsArg) }
    function RehabilitationPatient(): Option<bool> { CheckBool(rehabilitationPatientArg) }
  }

  datatype Patient = Patient(person: Person, args: PatientArgs) {
    function MedicalPolicy(): Option<string> { CheckStr(args.medicalPolicy) }
    function Status(): Option<string> { SetStatus(args.status) }
    function PlaceWorkStudy(): Option<string> { CheckStr(args.placeWorkStudy) }
    function BloodType(): Option<int> { SetBloodType(args.bloodType) }
    function RhesusAffiliation(): Option<string> { SetRhesus(args.rhesusAffiliation) }
    function AllergicReactions(): Option<string> { CheckStr(args.allergicReactions) }
  }

  datatype HospitalPatient = HospitalPatient(
    patient: Patient, medicalDepartmentArg: Value, roomNumberArg: IntArg, clinicalDiagnosisArg: Value)
  {
    function MedicalDepartment(): Option<string> { CheckStr(medicalDepartmentArg) }
    function RoomNumber(): Option<int> { CheckInt(roomNumberArg) }
    function ClinicalDiagnosis(): Option<string> { CheckStr(clinicalDiagnosisArg) }
  }

  datatype AmbulatoryPatient = AmbulatoryPatient(
    patient: Patient, territorialNumberArg: IntArg, disabilityArg: IntArg, healthGroupArg: Value,
    chronicDiagnosisArg: Value)
  {
    function TerritorialNumber(): Option<int> { SetTernum(territorialNumberArg) }
    function Disability(): Option<int> { SetDisability(disabilityArg) }
    function HealthGroup(): Option<string> { SetGroup(healthGroupArg) }
    function ChronicDiagnosis(): Option<string> { CheckStr(chronicDiagnosisArg) }
  }

  /** `Nurse(...)`: the record gets the counter's number and the counter moves on by one. */
  method CreateNurse(counter: IdCounter, a: PersonArgs, e: EmployeeArgs, sanitaryService: Value,
                     patientCare: Value, medicalProcedures: Value) returns (n: Nurse)
    modifies counter
    ensures n == Nurse(Employee(Person(old(counter.next), a), e), sanitaryService, patientCare, medicalProcedures)
    ensures counter.next == old(counter.next) + 1
  {
    var id := counter.Take();
    n := Nurse(Employee(Person(id, a), e), sanitaryService, patientCare, medicalProcedures);
  }

  /** `Doctor(...)` */
  method CreateDoctor(counter: IdCounter, a: PersonArgs, e: EmployeeArgs, academicDegree: Value,
                      academicRank: Value, category: Value, trainings: Value, medicalErrors: Value,
                      diagnosisPatients: Value, treatmentPatients: Value, rehabilitationPatient: Value)
    returns (d: Doctor)
    modifies counter
    ensures d == Doctor(Employee(Person(old(counter.next), a), e), academicDegree, academicRank, category, trainings,
                        medicalErrors, diagnosisPatients, treatmentPatients, rehabilitationPatient)
    ensures counter.next == old(counter.next) + 1
  {
    var id := counter.Take();
    d := Doctor(Employee(Person(id, a), e), academicDegree, academicRank, category, trainings, medicalErrors,
                diagnosisPatients, treatmentPatients, rehabilitationPatient);
  }

  /** `HospitalPatient(...)` */
  method CreateHospitalPatient(counter: IdCounter, a: PersonArgs, p: PatientArgs, medicalDepartment: Value,
                               roomNumber: IntArg, clinicalDiagnosis: Value) returns (h: HospitalPatient)
    modifies counter
    ensures h == HospitalPatient(Patient(Person(old(counter.next), a), p), medicalDepartment, roomNumber, clinicalDiagnosis)
    ensures counter.next == old(counter.next) + 1
  {
    var id := counter.Take();
    h := HospitalPatient(Patient(Person(id, a), p), medicalDepartment, roomNumber, clinicalDiagnosis);
  }

  /** `AmbulatoryPatient(...)` */
  method CreateAmbulatoryPatient(counter: IdCounter, a: PersonArgs, p: PatientArgs, territorialNumber: IntArg,
                                 disability: IntArg, healthGroup: Value, chronicDiagnosis: Value)
    returns (m: AmbulatoryPatient)
    modifies counter
    ensures m == AmbulatoryPatient(Patient(Person(old(counter.next), a), p), territorialNumber, disability, healthGroup,
                                   chronicDiagnosis)
    ensures counter.next == old(counter.next) + 1
  {
    var id := counter.Take();
    m := AmbulatoryPatient(Patient(Person(id, a), p), territorialNumber, disability, healthGroup, chronicDiagnosis);
  }

  /** Every stored attribute of a person satisfies its constraint or is absent. */
  lemma PersonFieldsValid(p: Person)
    ensures p.FullName().Some? ==> |p.FullName().value| <= NameLimit
    ensures p.Gender().Some? ==> p.Gender().value in Genders
    ensures p.Birthday().Some? ==> IsBirthday(p.Birthday().value)
    ensures p.Passport().Some? ==> IsPassport(p.Passport().value, Lit(' '))
    ensures p.LevelEducation().Some? ==> p.LevelEducation().value in Educations
    ensures p.PhoneNumber().Some? ==> IsPhone(p.PhoneNumber().value)
  {
    if p.LevelEducation().Some? {
      assert p.LevelEducation() == LowerMember(p.args.levelEducation, Educations);
    }
  }

  /** Every stored attribute of an employee satisfies its constraint or is absent. */
  lemma EmployeeFieldsValid(e: Employee)
    ensures e.YearGraduation().Some? ==> 1950 <= e.YearGraduation().value <= 2030
    ensures e.Profession().Some? ==> e.Profession().value in Professions
    ensures e.WorkExperience().Some? ==> 1 <= e.WorkExperience().value <= 60
  {
    if e.Profession().Some? {
      assert e.Profession() == LowerMember(e.args.profession, Professions);
    }
  }

  /** Every stored attribute of a patient satisfies its constraint or is absent. */
  lemma PatientFieldsValid(h: HospitalPatient, a: AmbulatoryPatient)
    ensures h.patient.Status().Some? ==> h.patient.Status().value in Statuses
    ensures h.patient.BloodType().Some? ==> 1 <= h.patient.BloodType().value <= 4
    ensures h.patient.RhesusAffiliation().Some? ==> h.patient.RhesusAffiliation().value in Rhesuses
    ensures a.TerritorialNumber().Some? ==> 1 <= a.TerritorialNumber().value <= 20
    ensures a.Disability().Some? ==> 1 <= a.Disability().value <= 3
    ensures a.HealthGroup().Some? ==> a.HealthGroup().value in Groups
  {
    if a.HealthGroup().Some? {
      assert a.HealthGroup() == UpperMember(a.healthGroupArg, Groups);
    }
  }

  // --------------------------------------------------------------- rendering

  function IdLine(id: int): string {
    "Номер: " + IntToString(id)
  }

  /** `if field: parts.append(caption + field)` */
  function TextLine(caption: string, o: Option<string>): seq<string> {
    if o.Some? && o.value != "" then [caption + o.value] else []
  }

  /** `if field is not None: parts.append(caption + ('да' if field else 'нет'))` */
  function YesNoLine(caption: string, o: Option<bool>): seq<string> {
    if o.Some? then [caption + (if o.value then "да" else "нет")] else []
  }

  /** `if field: parts.append(caption + str(field))` */
  function TruthyIntLine(caption: string, o: Option<int>): seq<string> {
    if o.Some? && o.value != 0 then [caption + IntToString(o.value)] else []
  }

  /** `if field is not None: parts.append(caption + str(field))` */
  function IntLine(caption: string, o: Option<int>): seq<string> {
    if o.Some? then [caption + IntToString(o.value)] else []
  }

  /** The `parts` list of `Person.__str__`. */
  function PersonParts(p: Person): seq<string> {
    [IdLine(p.id)]
    + TextLine("ФИО: ", p.FullName())
    + TextLine("Пол: ", p.Gender())
    + TextLine("Дата рождения: ", p.Birthday())
    + TextLine("Место рождения: ", p.PlaceBirth())
    + YesNoLine("В браке: ", p.Married())
    + TextLine("Паспорт: ", p.Passport())
    + TextLine("Адрес регистрации: ", p.ResidenceAddress())
    + TextLine("Уровень образования: ", p.LevelEducation())
    + TextLine("Телефон: ", p.PhoneNumber())
  }

  function PersonStr(p: Person): string {
    JoinLines(PersonParts(p))
  }

  /** What `Employee.__str__` appends after the Person text. */
  function EmployeeOwnParts(e: Employee): seq<string> {
    YesNoLine("Знает иностранный язык: ", e.KnowForeignLanguage())
    + TextLine("Документ об образовании: ", e.EducationDocument())
    + TruthyIntLine("Год окончания: ", e.YearGraduation())
    + TextLine("Квалификация: ", e.Qualification())
    + TextLine("Специализация: ", e.Specialty())
    + TextLine("Профессия: ", e.Profession())
    + IntLine("Стаж: ", e.WorkExperience())
  }

  function EmployeeStr(e: Employee): string {
    JoinLines([PersonStr(e.person)] + EmployeeOwnParts(e))
  }

  function NurseOwnParts(n: Nurse): seq<string> {
    YesNoLine("Санитарная обработка помещений: ", n.SanitaryService())
    + YesNoLine("Уход за больными: ", n.PatientCare())
    + YesNoLine("Выполнение медицинских процедур: ", n.MedicalProcedures())
  }

  /** `Nurse.__str__`, which ends with a line break. */
  function NurseStr(n: Nurse): string {
    JoinLines([EmployeeStr(n.employee)] + NurseOwnParts(n)) + "\n"
  }

  function DoctorOwnParts(d: Doctor): seq<string> {
    YesNoLine("Ученая степень: ", d.AcademicDegree())
    + YesNoLine("Ученое звание: ", d.AcademicRank())
    + TextLine("Категория: ", d.Category())
    + YesNoLine("Повышение квалификации: ", d.Trainings())
    + TextLine("Медицинские ошибки: ", d.MedicalErrors())
    + YesNoLine("Выполнение диагностики заболеваний: ", d.DiagnosisPatients())
    + YesNoLine("Лечебная практика: ", d.TreatmentPatients())
    + YesNoLine("Реабилитация больных: ", d.RehabilitationPatient())
  }

  /** `Doctor.__str__`, which ends with a line break. */
  function DoctorStr(d: Doctor): string {
    JoinLines([EmployeeStr(d.employee)] + DoctorOwnParts(d)) + "\n"
  }

  /** The blood-group line: the type, with `(rh)` appended only when a rhesus is stored. */
  function BloodLine(blood: Option<int>, rhesus: Option<string>): seq<string> {
    if blood.Some? && blood.value != 0 then
      var part := "Группа крови: " + IntToString(blood.value);
      if rhesus.Some? && rhesus.value != "" then [part + "(" + rhesus.value + ")"] else [part]
    else []
  }

  function PatientOwnParts(pt: Patient): seq<string> {
    TextLine("Медицинский полис: ", pt.MedicalPolicy())
    + TextLine("Cтатус: ", pt.Status())
    + TextLine("Место работы (учёбы): ", pt.PlaceWorkStudy())
    + BloodLine(pt.BloodType(), pt.RhesusAffiliation())
    + TextLine("Аллергические реакции: ", pt.AllergicReactions())
  }

  function PatientStr(pt: Patient): string {
    JoinLines([PersonStr(pt.person)] + PatientOwnParts(pt))
  }

  function HospitalOwnParts(h: HospitalPatient): seq<string> {
    TextLine("Отделение: ", h.MedicalDepartment())
    + IntLine("Палата: ", h.RoomNumber())
    + TextLine("Клинический диагноз: ", h.ClinicalDiagnosis())
  }

  /** `HospitalPatient.__str__`, which ends with a line break. */
  function HospitalStr(h: HospitalPatient): string {
    JoinLines([PatientStr(h.patient)] + HospitalOwnParts(h)) + "\n"
  }

  /** The chronic diagnosis is shown unless it is empty or the text `Не выявлено`. */
  function ChronicLine(chronic: Option<string>): seq<string> {
    if chronic.Some? && chronic.value != "" && chronic.value != "Не выявлено" then
      ["Хронический диагноз: " + chronic.value]
    else []
  }

  function AmbulatoryOwnParts(a: AmbulatoryPatient): seq<string> {
    TruthyIntLine("Участок: ", a.TerritorialNumber())
    + (if a.Disability().Some? && a.Disability().value != 0
       then ["Группа инвалидности: " + IntToString(a.Disability().value) + " группа"] else [])
    + TextLine("Группа здоровья: ", a.HealthGroup())
    + ChronicLine(a.ChronicDiagnosis())
  }

  /** `AmbulatoryPatient.__str__`, which ends with a line break. */
  function AmbulatoryStr(a: AmbulatoryPatient): string {
    JoinLines([PatientStr(a.patient)] + AmbulatoryOwnParts(a)) + "\n"
  }

  // ------------------------------------------------------- rendering lemmas

  /** A Nurse is rendered as the Person lines, then the Employee lines, then its own, then a line break. */
  lemma NurseLines(n: Nurse)
    ensures NurseStr(n) == JoinLines(PersonParts(n.employee.person) + EmployeeOwnParts(n.employee) + NurseOwnParts(n)) + "\n"
  {
    var e := n.employee;
    JoinNested(PersonParts(e.person), EmployeeOwnParts(e));
    JoinNested(PersonParts(e.person) + EmployeeOwnParts(e), NurseOwnParts(n));
  }

  /** A Doctor is rendered as the Person lines, then the Employee lines, then its own, then a line break. */
  lemma DoctorLines(d: Doctor)
    ensures DoctorStr(d) == JoinLines(PersonParts(d.employee.person) + EmployeeOwnParts(d.employee) + DoctorOwnParts(d)) + "\n"
  {
    var e := d.employee;
    JoinNested(PersonParts(e.person), EmployeeOwnParts(e));
    JoinNested(PersonParts(e.person) + EmployeeOwnParts(e), DoctorOwnParts(d));
  }

  /** A HospitalPatient is rendered as the Person lines, the Patient lines, its own, then a line break. */
  lemma HospitalLines(h: HospitalPatient)
    ensures HospitalStr(h) == JoinLines(PersonParts(h.patient.person) + PatientOwnParts(h.patient) + HospitalOwnParts(h)) + "\n"
  {
    var pt := h.patient;
    JoinNested(PersonParts(pt.person), PatientOwnParts(pt));
    JoinNested(PersonParts(pt.person) + PatientOwnParts(pt), HospitalOwnParts(h));
  }

  /** An AmbulatoryPatient is rendered as the Person lines, the Patient lines, its own, then a line break. */
  lemma AmbulatoryLines(a: AmbulatoryPatient)
    ensures AmbulatoryStr(a) == JoinLines(PersonParts(a.patient.person) + PatientOwnParts(a.patient) + AmbulatoryOwnParts(a)) + "\n"
  {
    var pt := a.patient;
    JoinNested(PersonParts(pt.person), PatientOwnParts(pt));
    JoinNested(PersonParts(pt.person) + PatientOwnParts(pt), AmbulatoryOwnParts(a));
  }

  /** Every rendering begins with the record number line. */
  lemma RenderingStartsWithId(n: Nurse, d: Doctor, h: HospitalPatient, a: AmbulatoryPatient)
    ensures IdLine(n.employee.person.id) <= NurseStr(n)
    ensures IdLine(d.employee.person.id) <= DoctorStr(d)
    ensures IdLine(h.patient.person.id) <= HospitalStr(h)
    ensures IdLine(a.patient.person.id) <= AmbulatoryStr(a)
  {
    NurseLines(n);
    JoinStartsWithFirst('\n', PersonParts(n.employee.person) + EmployeeOwnParts(n.employee) + NurseOwnParts(n));
    DoctorLines(d);
    JoinStartsWithFirst('\n', PersonParts(d.employee.person) + EmployeeOwnParts(d.employee) + DoctorOwnParts(d));
    HospitalLines(h);
    JoinStartsWithFirst('\n', PersonParts(h.patient.person) + PatientOwnParts(h.patient) + HospitalOwnParts(h));
    AmbulatoryLines(a);
    JoinStartsWithFirst('\n', PersonParts(a.patient.person) + PatientOwnParts(a.patient) + AmbulatoryOwnParts(a));
  }

  /** Arguments that are all empty strings. */
  const BlankPerson: PersonArgs := PersonArgs(PStr(""), PStr(""), PStr(""), PStr(""), PStr(""), PStr(""), PStr(""), PStr(""), PStr(""))
  const BlankEmployee: EmployeeArgs := EmployeeArgs(PStr(""), PStr(""), PStr(""), PStr(""), PStr(""), PStr(""), PStr(""))
  const BlankPatient: PatientArgs := PatientArgs(PStr(""), PStr(""), PStr(""), PStr(""), PStr(""), PStr(""))

  /** A person built from empty strings renders as its number line only. */
  lemma BlankPersonRendersIdOnly(id: int)
    ensures PersonParts(Person(id, BlankPerson)) == [IdLine(id)]
  {
    assert !IsBirthday("") && !IsPassport("", Lit(' ')) && !IsPhone("");
  }

  /** A nurse built from empty strings renders as its number line and the closing line break. */
  lemma BlankNurseRendersIdOnly(id: int)
    ensures NurseStr(Nurse(Employee(Person(id, BlankPerson), BlankEmployee), PStr(""), PStr(""), PStr(""))) == IdLine(id) + "\n"
  {
    var n := Nurse(Employee(Person(id, BlankPerson), BlankEmployee), PStr(""), PStr(""), PStr(""));
    BlankPersonRendersIdOnly(id);
    assert ParseInt("") == None;
    assert EmployeeOwnParts(n.employee) == [];
    assert NurseOwnParts(n) == [];
    NurseLines(n);
  }

  /** An ambulatory patient built from empty strings renders as its number line and the line break. */
  lemma BlankAmbulatoryRendersIdOnly(id: int)
    ensures AmbulatoryStr(AmbulatoryPatient(Patient(Person(id, BlankPerson), BlankPatient), PStr(""), PStr(""), PStr(""), PStr("")))
            == IdLine(id) + "\n"
  {
    var a := AmbulatoryPatient(Patient(Person(id, BlankPerson), BlankPatient), PStr(""), PStr(""), PStr(""), PStr(""));
    BlankPersonRendersIdOnly(id);
    assert ParseInt("") == None;
    assert PatientOwnParts(a.patient) == [];
    assert AmbulatoryOwnParts(a) == [];
    AmbulatoryLines(a);
  }

  /** Without a blood type there is no blood line, whatever rhesus is stored. */
  lemma RhesusNeedsBloodType(rh: Option<string>)
    ensures BloodLine(None, rh) == []
  {
  }

  /** The blood line shows the rhesus in parentheses, with no space, exactly when one is stored. */
  lemma BloodLineShape(b: int, rh: string)
    requires b != 0 && rh != ""
    ensures BloodLine(Some(b), Some(rh)) == ["Группа крови: " + IntToString(b) + "(" + rh + ")"]
    ensures BloodLine(Some(b), None) == ["Группа крови: " + IntToString(b)]
  {
  }

  /** A chronic diagnosis `Не выявлено` renders as if none were stored. */
  lemma ChronicNotFoundSuppressed()
    ensures ChronicLine(Some("Не выявлено")) == ChronicLine(None) == []
  {
  }
}
