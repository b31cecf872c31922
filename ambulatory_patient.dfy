/**
  ambulatory_patient.py: `AmbulatoryPatient`, a `Patient` with a territorial number, a disability
  group, a health group and a chronic diagnosis.

  The territorial number is kept when `isinstance(value, int)` holds and it lies from 1 to 20, so the
  bool True is kept too. The disability and health-group setters demand an `int` and then look the
  value up in a list of strings; no value passes both tests, so they always store None. `__str__`
  appends four lines to the patient's; the chronic-diagnosis line is left out for `Не выявлено`.
 */
module SplitAmbulatoryPatient {
  import opened Python
  import opened Ids
  import opened SplitPerson
  import opened SplitPatient

  const AvailableDisability: seq<string> := ["0", "1", "2", "3"]
  const AvailableHealthGroup: seq<string> := ["I", "II", "III"]

  /** The chronic-diagnosis text that is never shown. */
  const NotFound: string := "Не выявлено"

  /** What the `disability` setter can store: None, or an `int` that is in `AVAILABLE_DISABILITY`. */
  type Disability = v: Value | v.PNone? || (IsInt(v) && InStrings(v, AvailableDisability)) witness PNone

  /** What the `health_group` setter can store: None, or an `int` that is in `AVAILABLE_HEALTH_GROUP`. */
  type HealthGroup = v: Value | v.PNone? || (IsInt(v) && InStrings(v, AvailableHealthGroup)) witness PNone

  /** The `territorial_number` setter: an `int` (True included) from 1 to 20 is kept, anything else gives None. */
  function StoredTerritorial(v: Value): (r: Value)
    ensures r != PNone <==> IsInt(v) && 1 <= IntOf(v) <= 20
    ensures r != PNone ==> r == v
    ensures v == PBool(true) ==> r == v
    ensures v.PStr? ==> r == PNone
  {
    if IsInt(v) && 1 <= IntOf(v) <= 20 then v else PNone
  }

  /** The `disability` setter: `value if isinstance(value, int) and value in AVAILABLE_DISABILITY else None`. */
  function StoredDisability(v: Value): (r: Value)
    ensures r == PNone
  {
    if IsInt(v) && InStrings(v, AvailableDisability) then v else PNone
  }

  /** The `health_group` setter: `value if isinstance(value, int) and value in AVAILABLE_HEALTH_GROUP else None`. */
  function StoredHealthGroup(v: Value): (r: Value)
    ensures r == PNone
  {
    if IsInt(v) && InStrings(v, AvailableHealthGroup) then v else PNone
  }

  /** `f'Группа инвалидности: {d}\n' if d and d != '0' else ''` */
  function DisabilityLine(v: Value): (r: string)
    ensures Terminated(r)
    ensures r == "" <==> !Truthy(v) || v == PStr("0")
  {
    if Truthy(v) && v != PStr("0") then "Группа инвалидности: " + Str(v) + "\n" else ""
  }

  /** The chronic-diagnosis line: left out for a falsy diagnosis and for `Не выявлено`. */
  function ChronicLine(v: Value): (r: string)
    ensures Terminated(r)
    ensures r == "" <==> !Truthy(v) || v == PStr(NotFound)
  {
    if Truthy(v) && v != PStr(NotFound) then "Хронический диагноз: " + Str(v) + "\n" else ""
  }

  class AmbulatoryPatient {
    /** The `Patient` part. */
    const patient: Patient
    var territorialNumber: Value
    var disability: Disability
    var healthGroup: HealthGroup
    const chronicDiagnosis: StrOrNone

    /** The state `__init__` leaves for number `n` and these arguments. */
    predicate Initialized(n: int, fullName: Value, gender: Value, birthday: Value, placeBirth: Value, married: Value,
                          passport: Value, residenceAddress: Value, levelEducation: Value, phoneNumber: Value,
                          medicalPolicy: Value, status: Value, placeWorkStudy: Value, bloodType: Value,
                          rhesusAffiliation: Value, allergicReactions: Value,
                          territorialNumber: Value, disability: Value, healthGroup: Value, chronicDiagnosis: Value)
      reads this, patient, patient.person
    {
      && patient.Initialized(n, fullName, gender, birthday, placeBirth, married, passport, residenceAddress,
                             levelEducation, phoneNumber, medicalPolicy, status, placeWorkStudy, bloodType,
                             rhesusAffiliation, allergicReactions)
      && this.territorialNumber == StoredTerritorial(territorialNumber)
      && this.disability == StoredDisability(disability)
      && this.healthGroup == StoredHealthGroup(healthGroup)
      && this.chronicDiagnosis == KeepStr(chronicDiagnosis)
    }

    /** `AmbulatoryPatient.__init__`: the first fifteen arguments go to `Patient.__init__` unchanged and in order. */
    constructor (counter: IdCounter, fullName: Value, gender: Value, birthday: Value, placeBirth: Value, married: Value,
                 passport: Value, residenceAddress: Value, levelEducation: Value, phoneNumber: Value,
                 medicalPolicy: Value, status: Value, placeWorkStudy: Value, bloodType: Value,
                 rhesusAffiliation: Value, allergicReactions: Value,
                 territorialNumber: Value, disability: Value, healthGroup: Value, chronicDiagnosis: Value)
      requires Constructible(birthday, passport)
      modifies counter
      ensures counter.next == old(counter.next) + 1
      ensures Initialized(old(counter.next),
        fullName, gender, birthday, placeBirth, married, passport, residenceAddress, levelEducation, phoneNumber,
        medicalPolicy, status, placeWorkStudy, bloodType, rhesusAffiliation, allergicReactions,
        territorialNumber, disability, healthGroup, chronicDiagnosis)
    {
      this.territorialNumber := StoredTerritorial(territorialNumber);
      this.disability := StoredDisability(disability);
      this.healthGroup := StoredHealthGroup(healthGroup);
      this.chronicDiagnosis := KeepStr(chronicDiagnosis);
      patient := new Patient(counter, fullName, gender, birthday, placeBirth, married, passport, residenceAddress,
                             levelEducation, phoneNumber, medicalPolicy, status, placeWorkStudy, bloodType,
                             rhesusAffiliation, allergicReactions);
      new;
      assert patient.Initialized(old(counter.next), fullName, gender, birthday, placeBirth, married, passport,
                                 residenceAddress, levelEducation, phoneNumber, medicalPolicy, status, placeWorkStudy,
                                 bloodType, rhesusAffiliation, allergicReactions);
    }

    method SetTerritorialNumber(value: Value)
      modifies this`territorialNumber
      ensures territorialNumber == StoredTerritorial(value)
    {
      territorialNumber := StoredTerritorial(value);
    }

    method SetDisability(value: Value)
      modifies this`disability
      ensures disability == StoredDisability(value)
    {
      disability := StoredDisability(value);
    }

    method SetHealthGroup(value: Value)
      modifies this`healthGroup
      ensures healthGroup == StoredHealthGroup(value)
    {
      healthGroup := StoredHealthGroup(value);
    }

    /** The four lines `__str__` adds after the patient's, in order, each absent or newline-terminated. */
    function OwnLines(): (r: seq<string>)
      reads this
      ensures |r| == 4 && forall k :: 0 <= k < |r| ==> Terminated(r[k])
      ensures r[0] == FieldLine("Территориальный номер: ", territorialNumber)
      ensures r[1] == DisabilityLine(disability)
      ensures r[2] == FieldLine("Группа здоровья: ", healthGroup)
      ensures r[3] == ChronicLine(chronicDiagnosis)
    {
      [ FieldLine("Территориальный номер: ", territorialNumber),
        DisabilityLine(disability),
        FieldLine("Группа здоровья: ", healthGroup),
        ChronicLine(chronicDiagnosis) ]
    }

    /** `AmbulatoryPatient.__str__` */
    function Render(): string
      reads this, patient, patient.person
    {
      Concat([patient.Render()] + OwnLines())
    }
  }

  /** Neither the disability line nor the health-group line is ever rendered, whichever setter calls came before. */
  lemma GroupLinesNeverShown(a: AmbulatoryPatient)
    ensures a.OwnLines()[1] == "" && a.OwnLines()[2] == ""
  {
    assert a.disability == PNone && a.healthGroup == PNone;
  }

  /** True is a valid territorial number and is shown as `True`, False is not kept, no text is kept whatever its
      digits, and an `int` is kept exactly when it is between 1 and 20. */
  lemma TerritorialKinds(s: string, n: int)
    ensures FieldLine("Территориальный номер: ", StoredTerritorial(PBool(true))) == "Территориальный номер: True\n"
    ensures StoredTerritorial(PBool(false)) == PNone
    ensures StoredTerritorial(PStr(s)) == PNone
    ensures StoredTerritorial(PInt(n)) != PNone <==> 1 <= n <= 20
  {
  }

  /** The chronic diagnosis `Не выявлено` is kept but not shown. */
  lemma ChronicNotFoundHidden(a: AmbulatoryPatient)
    requires a.chronicDiagnosis == PStr(NotFound)
    ensures a.OwnLines()[3] == ""
  {
  }

  /** An ambulatory patient's rendering begins with the patient's, so with the number line, and ends with a newline. */
  lemma AmbulatoryPatientRendering(a: AmbulatoryPatient)
    ensures a.patient.Render() <= a.Render()
    ensures IdLine(a.patient.person.id) <= a.Render()
    ensures EndsLine(a.Render())
  {
    PatientRendering(a.patient);
    ExtendsRendering(IdLine(a.patient.person.id), a.patient.Render(), a.OwnLines());
  }
}
