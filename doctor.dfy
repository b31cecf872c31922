/**
  doctor.py: `Doctor`, an `Employee` with academic and practice attributes.

  Seven attributes, `medical_errors` among them, are kept only when they are bools. The category is
  kept on exact membership. `__str__` appends eight lines to the employee's. Six of them are always
  emitted, with `да`, `нет` or an empty value. The category and errors lines appear only when truthy.
 */
module SplitDoctor {
  import opened Python
  import opened Ids
  import opened SplitPerson
  import opened SplitEmployee

  const AvailableCategories: seq<string> := ["высшая", "первая", "вторая"]

  /** The `category` setter: exact, case-sensitive membership in `AVAILABLE_CATEGORIES`. */
  function StoredCategory(v: Value): (r: StrOrNone)
    ensures r != PNone <==> InStrings(v, AvailableCategories)
    ensures r != PNone ==> r == v
  {
    if InStrings(v, AvailableCategories) then v else PNone
  }

  class Doctor {
    /** The `Employee` part. */
    const employee: Employee
    const academicDegree: BoolOrNone
    const academicRank: BoolOrNone
    var category: StrOrNone
    const trainings: BoolOrNone
    const medicalErrors: BoolOrNone
    const diagnosisPatients: BoolOrNone
    const treatmentPatients: BoolOrNone
    const rehabilitationPatients: BoolOrNone

    /** The state `__init__` leaves for number `n` and these arguments. */
    predicate Initialized(n: int, fullName: Value, gender: Value, birthday: Value, placeBirth: Value, married: Value,
                          passport: Value, residenceAddress: Value, levelEducation: Value, phoneNumber: Value,
                          knowForeignLanguage: Value, educationDocument: Value, yearGraduation: Value,
                          qualification: Value, specialty: Value, profession: Value, workExperience: Value,
                          academicDegree: Value, academicRank: Value, category: Value, trainings: Value,
                          medicalErrors: Value, diagnosisPatients: Value, treatmentPatients: Value,
                          rehabilitationPatients: Value)
      reads this, employee, employee.person
    {
      && employee.Initialized(n, fullName, gender, birthday, placeBirth, married, passport, residenceAddress,
                              levelEducation, phoneNumber, knowForeignLanguage, educationDocument, yearGraduation,
                              qualification, specialty, profession, workExperience)
      && this.academicDegree == KeepBool(academicDegree)
      && this.academicRank == KeepBool(academicRank)
      && this.category == StoredCategory(category)
      && this.trainings == KeepBool(trainings)
      && this.medicalErrors == KeepBool(medicalErrors)
      && this.diagnosisPatients == KeepBool(diagnosisPatients)
      && this.treatmentPatients == KeepBool(treatmentPatients)
      && this.rehabilitationPatients == KeepBool(rehabilitationPatients)
    }

    /** `Doctor.__init__`: the first sixteen arguments go to `Employee.__init__` unchanged and in order. */
    constructor (counter: IdCounter, fullName: Value, gender: Value, birthday: Value, placeBirth: Value, married: Value,
                 passport: Value, residenceAddress: Value, levelEducation: Value, phoneNumber: Value,
                 knowForeignLanguage: Value, educationDocument: Value, yearGraduation: Value, qualification: Value,
                 specialty: Value, profession: Value, workExperience: Value,
                 academicDegree: Value, academicRank: Value, category: Value, trainings: Value,
                 medicalErrors: Value, diagnosisPatients: Value, treatmentPatients: Value,
                 rehabilitationPatients: Value)
      requires Constructible(birthday, passport)
      modifies counter
      ensures counter.next == old(counter.next) + 1
      ensures Initialized(old(counter.next),
        fullName, gender, birthday, placeBirth, married, passport, residenceAddress, levelEducation, phoneNumber,
        knowForeignLanguage, educationDocument, yearGraduation, qualification, specialty, profession, workExperience,
        academicDegree, academicRank, category, trainings, medicalErrors, diagnosisPatients, treatmentPatients,
        rehabilitationPatients)
    {
      this.academicDegree := KeepBool(academicDegree);
      this.academicRank := KeepBool(academicRank);
      this.category := StoredCategory(category);
      this.trainings := KeepBool(trainings);
      this.medicalErrors := KeepBool(medicalErrors);
      this.diagnosisPatients := KeepBool(diagnosisPatients);
      this.treatmentPatients := KeepBool(treatmentPatients);
      this.rehabilitationPatients := KeepBool(rehabilitationPatients);
      employee := new Employee(counter, fullName, gender, birthday, placeBirth, married, passport, residenceAddress,
                               levelEducation, phoneNumber, knowForeignLanguage, educationDocument, yearGraduation,
                               qualification, specialty, profession, workExperience);
      new;
      assert employee.Initialized(old(counter.next), fullName, gender, birthday, placeBirth, married, passport,
                                  residenceAddress, levelEducation, phoneNumber, knowForeignLanguage, educationDocument,
                                  yearGraduation, qualification, specialty, profession, workExperience);
    }

    method SetCategory(value: Value)
      modifies this`category
      ensures category == StoredCategory(value)
    {
      category := StoredCategory(value);
    }

    /** The eight lines `__str__` adds after the employee's, in order, each absent or newline-terminated. */
    function OwnLines(): (r: seq<string>)
      reads this
      ensures |r| == 8 && forall k :: 0 <= k < |r| ==> Terminated(r[k])
      ensures r[0] == YesNoLine("Ученая степень: ", academicDegree) && r[0] != ""
      ensures r[1] == YesNoLine("Ученое звание: ", academicRank) && r[1] != ""
      ensures r[2] == FieldLine("Категория: ", category)
      ensures r[3] == YesNoLine("Обучение: ", trainings) && r[3] != ""
      ensures r[4] == FieldLine("Медицинские ошибки: ", medicalErrors)
      ensures r[5] == YesNoLine("Диагнозы пациентов: ", diagnosisPatients) && r[5] != ""
      ensures r[6] == YesNoLine("Лечение пациентов: ", treatmentPatients) && r[6] != ""
      ensures r[7] == YesNoLine("Пациенты на реабилитации: ", rehabilitationPatients) && r[7] != ""
    {
      [ YesNoLine("Ученая степень: ", academicDegree),
        YesNoLine("Ученое звание: ", academicRank),
        FieldLine("Категория: ", category),
        YesNoLine("Обучение: ", trainings),
        FieldLine("Медицинские ошибки: ", medicalErrors),
        YesNoLine("Диагнозы пациентов: ", diagnosisPatients),
        YesNoLine("Лечение пациентов: ", treatmentPatients),
        YesNoLine("Пациенты на реабилитации: ", rehabilitationPatients) ]
    }

    /** `Doctor.__str__` */
    function Render(): string
      reads this, employee, employee.person
    {
      Concat([employee.Render()] + OwnLines())
    }
  }

  /** Only a bool reaches `medical_errors`, so its line is absent or reads `True`; a text such as `"нет"` gives no line. */
  lemma ErrorsLine(v: Value)
    ensures var line := FieldLine("Медицинские ошибки: ", KeepBool(v));
      line == "" || line == "Медицинские ошибки: True\n"
    ensures v.PStr? ==> FieldLine("Медицинские ошибки: ", KeepBool(v)) == ""
  {
  }

  /** A doctor's rendering begins with the employee's, so with the number line, and ends with a newline. */
  lemma DoctorRendering(d: Doctor)
    ensures d.employee.Render() <= d.Render()
    ensures IdLine(d.employee.person.id) <= d.Render()
    ensures EndsLine(d.Render())
  {
    EmployeeRendering(d.employee);
    ExtendsRendering(IdLine(d.employee.person.id), d.employee.Render(), d.OwnLines());
  }
}

