/**
  patient.py: `Patient`, a `Person` with medical-record attributes.

  The medical policy, the place of work or study and the allergic reactions are stored as given.
  The status, blood type and rhesus setters use `value in LIST`, which never raises and holds only
  for a string of the list. So a blood type stays one of the strings `'1'`..`'4'`. `__str__` appends,
  in this order: policy, status, place, blood group, allergies.
 */
module SplitPatient {
  import opened Python
  import opened Ids
  import opened SplitPerson

  const AvailableStatus: seq<string> := ["рабочий", "служащий", "обучающийся"]
  const AvailableBloodTypes: seq<string> := ["1", "2", "3", "4"]
  const AvailableRhesus: seq<string> := ["-", "+"]

  /** The `status` setter: `value if value in AVAILABLE_STATUS else None`. */
  function StoredStatus(v: Value): (r: StrOrNone)
    ensures r != PNone <==> InStrings(v, AvailableStatus)
    ensures r != PNone ==> r == v
  {
    if InStrings(v, AvailableStatus) then v else PNone
  }

  /** The `blood_type` setter: only the strings `'1'`..`'4'` are kept, so an int or a bool gives None. */
  function StoredBloodType(v: Value): (r: StrOrNone)
    ensures r != PNone <==> InStrings(v, AvailableBloodTypes)
    ensures r != PNone ==> r == v
    ensures IsInt(v) ==> r == PNone
  {
    if InStrings(v, AvailableBloodTypes) then v else PNone
  }

  /** The `rhesus_affiliation` setter: only `'-'` and `'+'` are kept. */
  function StoredRhesus(v: Value): (r: StrOrNone)
    ensures r != PNone <==> InStrings(v, AvailableRhesus)
    ensures r != PNone ==> r == v
  {
    if InStrings(v, AvailableRhesus) then v else PNone
  }

  /** The blood-group line: `b (r)` when both are present, `b` alone without a rhesus, nothing without a blood type. */
  function BloodLine(blood: Value, rhesus: Value): (r: string)
    ensures Terminated(r)
    ensures r == "" <==> !Truthy(blood)
  {
    if Truthy(blood) && Truthy(rhesus) then "Группа крови: " + Str(blood) + " (" + Str(rhesus) + ")\n"
    else if Truthy(blood) then "Группа крови: " + Str(blood) + "\n"
    else ""
  }

  class Patient {
    /** The `Person` part. */
    const person: Person
    const medicalPolicy: Value
    var status: StrOrNone
    const placeWorkStudy: Value
    var bloodType: StrOrNone
    var rhesusAffiliation: StrOrNone
    const allergicReactions: Value

    /** The state `__init__` leaves for number `n` and these arguments. */
    predicate Initialized(n: int, fullName: Value, gender: Value, birthday: Value, placeBirth: Value, married: Value,
                          passport: Value, residenceAddress: Value, levelEducation: Value, phoneNumber: Value,
                          medicalPolicy: Value, status: Value, placeWorkStudy: Value, bloodType: Value,
                          rhesusAffiliation: Value, allergicReactions: Value)
      reads this, person
    {
      && person.Initialized(n, fullName, gender, birthday, placeBirth, married, passport, residenceAddress,
                            levelEducation, phoneNumber)
      && this.medicalPolicy == medicalPolicy
      && this.status == StoredStatus(status)
      && this.placeWorkStudy == placeWorkStudy
      && this.bloodType == StoredBloodType(bloodType)
      && this.rhesusAffiliation == StoredRhesus(rhesusAffiliation)
      && this.allergicReactions == allergicReactions
    }

    /** `Patient.__init__`: the first nine arguments go to `Person.__init__` unchanged and in order. */
    constructor (counter: IdCounter, fullName: Value, gender: Value, birthday: Value, placeBirth: Value, married: Value,
                 passport: Value, residenceAddress: Value, levelEducation: Value, phoneNumber: Value,
                 medicalPolicy: Value, status: Value, placeWorkStudy: Value, bloodType: Value,
                 rhesusAffiliation: Value, allergicReactions: Value)
      requires Constructible(birthday, passport)
      modifies counter
      ensures counter.next == old(counter.next) + 1
      ensures Initialized(old(counter.next),
        fullName, gender, birthday, placeBirth, married, passport, residenceAddress, levelEducation, phoneNumber,
        medicalPolicy, status, placeWorkStudy, bloodType, rhesusAffiliation, allergicReactions)
    {
      person := new Person(counter, fullName, gender, birthday, placeBirth, married, passport, residenceAddress,
                           levelEducation, phoneNumber);
      this.medicalPolicy := medicalPolicy;
      this.status := StoredStatus(status);
      this.placeWorkStudy := placeWorkStudy;
      this.bloodType := StoredBloodType(bloodType);
      this.rhesusAffiliation := StoredRhesus(rhesusAffiliation);
      this.allergicReactions := allergicReactions;
    }

    method SetStatus(value: Value)
      modifies this`status
      ensures status == StoredStatus(value)
    {
      status := StoredStatus(value);
    }

    method SetBloodType(value: Value)
      modifies this`bloodType
      ensures bloodType == StoredBloodType(value)
    {
      bloodType := StoredBloodType(value);
    }

    method SetRhesusAffiliation(value: Value)
      modifies this`rhesusAffiliation
      ensures rhesusAffiliation == StoredRhesus(value)
    {
      rhesusAffiliation := StoredRhesus(value);
    }

    /** The five lines `__str__` adds after the person's, in order, each absent or newline-terminated. */
    function OwnLines(): (r: seq<string>)
      reads this
      ensures |r| == 5 && forall k :: 0 <= k < |r| ==> Terminated(r[k])
      ensures r[0] == FieldLine("Медицинский полис: ", medicalPolicy)
      ensures r[1] == FieldLine("Статус: ", status)
      ensures r[2] == FieldLine("Место работы: ", placeWorkStudy)
      ensures r[3] == BloodLine(bloodType, rhesusAffiliation)
      ensures r[4] == FieldLine("Аллергические реакции: ", allergicReactions)
    {
      [ FieldLine("Медицинский полис: ", medicalPolicy),
        FieldLine("Статус: ", status),
        FieldLine("Место работы: ", placeWorkStudy),
        BloodLine(bloodType, rhesusAffiliation),
        FieldLine("Аллергические реакции: ", allergicReactions) ]
    }

    /** `Patient.__str__` */
    function Render(): string
      reads this, person
    {
      Concat([person.Render()] + OwnLines())
    }
  }

  /** The three shapes of the blood-group line for what the setters store. */
  lemma BloodLineShapes(b: Value, rh: Value)
    ensures var blood, rhesus := StoredBloodType(b), StoredRhesus(rh);
      && (blood != PNone && rhesus != PNone ==> BloodLine(blood, rhesus) == "Группа крови: " + b.s + " (" + rh.s + ")\n")
      && (blood != PNone && rhesus == PNone ==> BloodLine(blood, rhesus) == "Группа крови: " + b.s + "\n")
      && (blood == PNone ==> BloodLine(blood, rhesus) == "")
  {
  }

  /** A patient's rendering begins with the person's and ends with a newline. */
  lemma PatientRendering(p: Patient)
    ensures p.person.Render() <= p.Render()
    ensures IdLine(p.person.id) <= p.Render()
    ensures EndsLine(p.Render())
  {
    PersonRendering(p.person);
    ExtendsRendering(IdLine(p.person.id), p.person.Render(), p.OwnLines());
  }
}
