/**
  nurse.py: `Nurse`, an `Employee` with three duties, each kept only when it is a bool.
  `__str__` appends three lines to the employee's, always emitted, with `да`, `нет` or an empty value.
 */
module SplitNurse {
  import opened Python
  import opened Ids
  import opened SplitPerson
  import opened SplitEmployee

  class Nurse {
    /** The `Employee` part. */
    const employee: Employee
    const sanitaryService: BoolOrNone
    const patientCare: BoolOrNone
    const medicalProcedures: BoolOrNone

    /** The state `__init__` leaves for number `n` and these arguments. */
    predicate Initialized(n: int, fullName: Value, gender: Value, birthday: Value, placeBirth: Value, married: Value,
                          passport: Value, residenceAddress: Value, levelEducation: Value, phoneNumber: Value,
                          knowForeignLanguage: Value, educationDocument: Value, yearGraduation: Value,
                          qualification: Value, specialty: Value, profession: Value, workExperience: Value,
                          sanitaryService: Value, patientCare: Value, medicalProcedures: Value)
      reads this, employee, employee.person
    {
      && employee.Initialized(n, fullName, gender, birthday, placeBirth, married, passport, residenceAddress,
                              levelEducation, phoneNumber, knowForeignLanguage, educationDocument, yearGraduation,
                              qualification, specialty, profession, workExperience)
      && this.sanitaryService == KeepBool(sanitaryService)
      && this.patientCare == KeepBool(patientCare)
      && this.medicalProcedures == KeepBool(medicalProcedures)
    }

    /** `Nurse.__init__`: the first sixteen arguments go to `Employee.__init__` unchanged and in order. */
    constructor (counter: IdCounter, fullName: Value, gender: Value, birthday: Value, placeBirth: Value, married: Value,
                 passport: Value, residenceAddress: Value, levelEducation: Value, phoneNumber: Value,
                 knowForeignLanguage: Value, educationDocument: Value, yearGraduation: Value, qualification: Value,
                 specialty: Value, profession: Value, workExperience: Value,
                 sanitaryService: Value, patientCare: Value, medicalProcedures: Value)
      requires Constructible(birthday, passport)
      modifies counter
      ensures counter.next == old(counter.next) + 1
      ensures Initialized(old(counter.next),
        fullName, gender, birthday, placeBirth, married, passport, residenceAddress, levelEducation, phoneNumber,
        knowForeignLanguage, educationDocument, yearGraduation, qualification, specialty, profession, workExperience,
        sanitaryService, patientCare, medicalProcedures)
    {
      this.sanitaryService := KeepBool(sanitaryService);
      this.patientCare := KeepBool(patientCare);
      this.medicalProcedures := KeepBool(medicalProcedures);
      employee := new Employee(counter, fullName, gender, birthday, placeBirth, married, passport, residenceAddress,
                               levelEducation, phoneNumber, knowForeignLanguage, educationDocument, yearGraduation,
                               qualification, specialty, profession, workExperience);
      new;
      assert employee.Initialized(old(counter.next), fullName, gender, birthday, placeBirth, married, passport,
                                  residenceAddress, levelEducation, phoneNumber, knowForeignLanguage, educationDocument,
                                  yearGraduation, qualification, specialty, profession, workExperience);
    }

    /** The three lines `__str__` adds after the employee's, in order. */
    function OwnLines(): (r: seq<string>)
      reads this
      ensures |r| == 3 && forall k :: 0 <= k < |r| ==> Terminated(r[k]) && r[k] != ""
      ensures r[0] == YesNoLine("Санитарная служба: ", sanitaryService)
      ensures r[1] == YesNoLine("Уход за пациентами: ", patientCare)
      ensures r[2] == YesNoLine("Медицинские процедуры: ", medicalProcedures)
    {
      [ YesNoLine("Санитарная служба: ", sanitaryService),
        YesNoLine("Уход за пациентами: ", patientCare),
        YesNoLine("Медицинские процедуры: ", medicalProcedures) ]
    }

    /** `Nurse.__str__` */
    function Render(): string
      reads this, employee, employee.person
    {
      Concat([employee.Render()] + OwnLines())
    }
  }

  /** The duty words: `да` for True, `нет` for False, nothing for a value that was not a bool. */
  lemma NurseDutyWords(n: Nurse)
    ensures n.OwnLines()[0] == "Санитарная служба: " + YesNo(n.sanitaryService) + "\n"
    ensures n.sanitaryService == PNone ==> n.OwnLines()[0] == "Санитарная служба: \n"
    ensures n.patientCare == PBool(false) ==> n.OwnLines()[1] == "Уход за пациентами: нет\n"
    ensures n.medicalProcedures == PBool(true) ==> n.OwnLines()[2] == "Медицинские процедуры: да\n"
  {
  }

  /** A nurse's rendering begins with the employee's, so with the number line, and ends with a newline. */
  lemma NurseRendering(n: Nurse)
    ensures n.employee.Render() <= n.Render()
    ensures IdLine(n.employee.person.id) <= n.Render()
    ensures EndsLine(n.Render())
  {
    EmployeeRendering(n.employee);
    ExtendsRendering(IdLine(n.employee.person.id), n.employee.Render(), n.OwnLines());
  }
}

