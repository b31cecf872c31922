/**
  hospital_patient.py: `HospitalPatient`, a `Patient` with a department, a room and a diagnosis, all
  stored as given. `__str__` appends their lines to the patient's. Each line is left out when its
  value is falsy, and the diagnosis line also when it reads `Диагноз не выявлен`.
 */
module SplitHospitalPatient {
  import opened Python
  import opened Ids
  import opened SplitPerson
  import opened SplitPatient

  /** The diagnosis text that is never shown. */
  const NoDiagnosis: string := "Диагноз не выявлен"

  /** The diagnosis line: left out for a falsy diagnosis and for `Диагноз не выявлен`. */
  function DiagnosisLine(v: Value): (r: string)
    ensures Terminated(r)
    ensures r == "" <==> !Truthy(v) || v == PStr(NoDiagnosis)
    ensures r != "" ==> r == "Диагноз: " + Str(v) + "\n"
  {
    if Truthy(v) && v != PStr(NoDiagnosis) then "Диагноз: " + Str(v) + "\n" else ""
  }

  class HospitalPatient {
    /** The `Patient` part. */
    const patient: Patient
    const medicalDepartment: Value
    const roomNumber: Value
    const clinicalDiagnosis: Value

    /** The state `__init__` leaves for number `n` and these arguments. */
    predicate Initialized(n: int, fullName: Value, gender: Value, birthday: Value, placeBirth: Value, married: Value,
                          passport: Value, residenceAddress: Value, levelEducation: Value, phoneNumber: Value,
                          medicalPolicy: Value, status: Value, placeWorkStudy: Value, bloodType: Value,
                          rhesusAffiliation: Value, allergicReactions: Value,
                          medicalDepartment: Value, roomNumber: Value, clinicalDiagnosis: Value)
      reads this, patient, patient.person
    {
      && patient.Initialized(n, fullName, gender, birthday, placeBirth, married, passport, residenceAddress,
                             levelEducation, phoneNumber, medicalPolicy, status, placeWorkStudy, bloodType,
                             rhesusAffiliation, allergicReactions)
      && this.medicalDepartment == medicalDepartment
      && this.roomNumber == roomNumber
      && this.clinicalDiagnosis == clinicalDiagnosis
    }

    /** `HospitalPatient.__init__`: the first fifteen arguments go to `Patient.__init__` unchanged and in order. */
    constructor (counter: IdCounter, fullName: Value, gender: Value, birthday: Value, placeBirth: Value, married: Value,
                 passport: Value, residenceAddress: Value, levelEducation: Value, phoneNumber: Value,
                 medicalPolicy: Value, status: Value, placeWorkStudy: Value, bloodType: Value,
                 rhesusAffiliation: Value, allergicReactions: Value,
                 medicalDepartment: Value, roomNumber: Value, clinicalDiagnosis: Value)
      requires Constructible(birthday, passport)
      modifies counter
      ensures counter.next == old(counter.next) + 1
      ensures Initialized(old(counter.next),
        fullName, gender, birthday, placeBirth, married, passport, residenceAddress, levelEducation, phoneNumber,
        medicalPolicy, status, placeWorkStudy, bloodType, rhesusAffiliation, allergicReactions,
        medicalDepartment, roomNumber, clinicalDiagnosis)
    {
      this.medicalDepartment := medicalDepartment;
      this.roomNumber := roomNumber;
      this.clinicalDiagnosis := clinicalDiagnosis;
      patient := new Patient(counter, fullName, gender, birthday, placeBirth, married, passport, residenceAddress,
                             levelEducation, phoneNumber, medicalPolicy, status, placeWorkStudy, bloodType,
                             rhesusAffiliation, allergicReactions);
      new;
      assert patient.Initialized(old(counter.next), fullName, gender, birthday, placeBirth, married, passport,
                                 residenceAddress, levelEducation, phoneNumber, medicalPolicy, status, placeWorkStudy,
                                 bloodType, rhesusAffiliation, allergicReactions);
    }

    /** The three lines `__str__` adds after the patient's, in order, each absent or newline-terminated. */
    function OwnLines(): (r: seq<string>)
      reads this
      ensures |r| == 3 && forall k :: 0 <= k < |r| ==> Terminated(r[k])
      ensures r[0] == FieldLine("Медицинский отдел: ", medicalDepartment)
      ensures r[1] == FieldLine("Номер палаты: ", roomNumber)
      ensures r[2] == DiagnosisLine(clinicalDiagnosis)
    {
      [ FieldLine("Медицинский отдел: ", medicalDepartment),
        FieldLine("Номер палаты: ", roomNumber),
        DiagnosisLine(clinicalDiagnosis) ]
    }

    /** `HospitalPatient.__str__` */
    function Render(): string
      reads this, patient, patient.person
    {
      Concat([patient.Render()] + OwnLines())
    }
  }

  /** The skip rules: the department and room lines are absent exactly when their values are falsy (an empty department,
      a room number of 0), and the diagnosis line exactly when the diagnosis is falsy or the placeholder; a shown
      diagnosis is printed as it was stored. */
  lemma HospitalSkipRules(h: HospitalPatient)
    ensures h.OwnLines()[0] == "" <==> !Truthy(h.medicalDepartment)
    ensures h.OwnLines()[1] == "" <==> !Truthy(h.roomNumber)
    ensures h.OwnLines()[2] == "" <==> !Truthy(h.clinicalDiagnosis) || h.clinicalDiagnosis == PStr(NoDiagnosis)
    ensures h.OwnLines()[2] != "" ==> h.OwnLines()[2] == "Диагноз: " + Str(h.clinicalDiagnosis) + "\n"
  {
  }

  /** A hospital patient's rendering begins with the patient's, so with the number line, and ends with a newline. */
  lemma HospitalPatientRendering(h: HospitalPatient)
    ensures h.patient.Render() <= h.Render()
    ensures IdLine(h.patient.person.id) <= h.Render()
    ensures EndsLine(h.Render())
  {
    PatientRendering(h.patient);
    ExtendsRendering(IdLine(h.patient.person.id), h.patient.Render(), h.OwnLines());
  }
}
