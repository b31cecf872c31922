/**
  employee.py: `Employee`, a `Person` with education and work attributes.

  The graduation year and the work experience are kept when `isinstance(value, int)` holds and the
  value lies in range. A bool passes that test, because `bool` is a subclass of `int`, while the strings
  the loader produces never do. The profession is kept on exact membership. `__str__` appends its
  lines to the person's. The foreign-language line compares a bool or None with the strings
  `"True"` and `"False"`, so its value is always empty.
 */
module SplitEmployee {
  import opened Python
  import opened Ids
  import opened SplitPerson

  const AvailableProfessions: seq<string> := ["врач", "медсестра", "медицинская сестра"]

  /** The `year_graduation` setter: an `int` (or `bool`) from 1950 to 2030 is kept, any other value gives None. */
  function StoredYear(v: Value): (r: Value)
    ensures r != PNone <==> IsInt(v) && 1950 <= IntOf(v) <= 2030
    ensures r != PNone ==> r == v && r.PInt?
    ensures v.PStr? ==> r == PNone
  {
    if IsInt(v) && 1950 <= IntOf(v) <= 2030 then v else PNone
  }

  /** The `work_experience` setter: an `int` from 0 to 60 is kept; True and False are kept as they are. */
  function StoredExperience(v: Value): (r: Value)
    ensures r != PNone <==> IsInt(v) && 0 <= IntOf(v) <= 60
    ensures r != PNone ==> r == v
    ensures v.PBool? ==> r == v
    ensures v.PStr? ==> r == PNone
  {
    if IsInt(v) && 0 <= IntOf(v) <= 60 then v else PNone
  }

  /** The `profession` setter: exact, case-sensitive membership in `AVAILABLE_PROFESSIONS`. */
  function StoredProfession(v: Value): (r: StrOrNone)
    ensures r != PNone <==> InStrings(v, AvailableProfessions)
    ensures r != PNone ==> r == v
  {
    if InStrings(v, AvailableProfessions) then v else PNone
  }

  /** `"да" if x == "True" else "нет" if x == "False" else ""`, the word of the foreign-language line. */
  function LanguageWord(v: Value): string {
    if v == PStr("True") then "да" else if v == PStr("False") then "нет" else ""
  }

  class Employee {
    /** The `Person` part. */
    const person: Person
    const knowForeignLanguage: BoolOrNone
    const educationDocument: StrOrNone
    var yearGraduation: Value
    const qualification: StrOrNone
    const specialty: StrOrNone
    var profession: StrOrNone
    var workExperience: Value

    /** The state `__init__` leaves for number `n` and these arguments. */
    predicate Initialized(n: int, fullName: Value, gender: Value, birthday: Value, placeBirth: Value, married: Value,
                          passport: Value, residenceAddress: Value, levelEducation: Value, phoneNumber: Value,
                          knowForeignLanguage: Value, educationDocument: Value, yearGraduation: Value,
                          qualification: Value, specialty: Value, profession: Value, workExperience: Value)
      reads this, person
    {
      && person.Initialized(n, fullName, gender, birthday, placeBirth, married, passport, residenceAddress,
                            levelEducation, phoneNumber)
      && this.knowForeignLanguage == KeepBool(knowForeignLanguage)
      && this.educationDocument == KeepStr(educationDocument)
      && this.yearGraduation == StoredYear(yearGraduation)
      && this.qualification == KeepStr(qualification)
      && this.specialty == KeepStr(specialty)
      && this.profession == StoredProfession(profession)
      && this.workExperience == StoredExperience(workExperience)
    }

    /** `Employee.__init__`: the first nine arguments go to `Person.__init__` unchanged and in order. */
    constructor (counter: IdCounter, fullName: Value, gender: Value, birthday: Value, placeBirth: Value, married: Value,
                 passport: Value, residenceAddress: Value, levelEducation: Value, phoneNumber: Value,
                 knowForeignLanguage: Value, educationDocument: Value, yearGraduation: Value, qualification: Value,
                 specialty: Value, profession: Value, workExperience: Value)
      requires Constructible(birthday, passport)
      modifies counter
      ensures counter.next == old(counter.next) + 1
      ensures Initialized(old(counter.next),
        fullName, gender, birthday, placeBirth, married, passport, residenceAddress, levelEducation, phoneNumber,
        knowForeignLanguage, educationDocument, yearGraduation, qualification, specialty, profession, workExperience)
    {
      person := new Person(counter, fullName, gender, birthday, placeBirth, married, passport, residenceAddress,
                           levelEducation, phoneNumber);
      this.knowForeignLanguage := KeepBool(knowForeignLanguage);
      this.educationDocument := KeepStr(educationDocument);
      this.yearGraduation := StoredYear(yearGraduation);
      this.qualification := KeepStr(qualification);
      this.specialty := KeepStr(specialty);
      this.profession := StoredProfession(profession);
      this.workExperience := StoredExperience(workExperience);
    }

    method SetYearGraduation(value: Value)
      modifies this`yearGraduation
      ensures yearGraduation == StoredYear(value)
    {
      yearGraduation := StoredYear(value);
    }

    method SetProfession(value: Value)
      modifies this`profession
      ensures profession == StoredProfession(value)
    {
      profession := StoredProfession(value);
    }

    method SetWorkExperience(value: Value)
      modifies this`workExperience
      ensures workExperience == StoredExperience(value)
    {
      workExperience := StoredExperience(value);
    }

    /** The seven lines `__str__` adds after the person's, in order, each absent or newline-terminated. */
    function OwnLines(): (r: seq<string>)
      reads this
      ensures |r| == 7 && forall k :: 0 <= k < |r| ==> Terminated(r[k])
      ensures r[0] == "Знание иностранного языка: " + LanguageWord(knowForeignLanguage) + "\n"
      ensures r[1] == FieldLine("Документ об образовании: ", educationDocument)
      ensures r[2] == FieldLine("Год окончания: ", yearGraduation)
      ensures r[3] == FieldLine("Квалификация: ", qualification)
      ensures r[4] == FieldLine("Специальность: ", specialty)
      ensures r[5] == FieldLine("Профессия: ", profession)
      ensures r[6] == FieldLine("Опыт работы: ", workExperience)
    {
      [ "Знание иностранного языка: " + LanguageWord(knowForeignLanguage) + "\n",
        FieldLine("Документ об образовании: ", educationDocument),
        FieldLine("Год окончания: ", yearGraduation),
        FieldLine("Квалификация: ", qualification),
        FieldLine("Специальность: ", specialty),
        FieldLine("Профессия: ", profession),
        FieldLine("Опыт работы: ", workExperience) ]
    }

    /** `Employee.__str__` */
    function Render(): string
      reads this, person
    {
      Concat([person.Render()] + OwnLines())
    }
  }

  /** Whatever the constructor was given, the foreign-language line is emitted and its value is empty. */
  lemma LanguageLineBlank(e: Employee)
    ensures e.OwnLines()[0] == "Знание иностранного языка: \n"
  {
    assert LanguageWord(e.knowForeignLanguage) == "";
  }

  /** The experience line: absent for 0 and for False, `True` for True, the number otherwise. */
  lemma ExperienceLine(v: Value)
    ensures v == PInt(0) || v == PBool(false) ==> FieldLine("Опыт работы: ", StoredExperience(v)) == ""
    ensures v == PBool(true) ==> FieldLine("Опыт работы: ", StoredExperience(v)) == "Опыт работы: True\n"
    ensures v.PInt? && 1 <= v.i <= 60 ==>
      FieldLine("Опыт работы: ", StoredExperience(v)) == "Опыт работы: " + IntToString(v.i) + "\n"
    ensures v.PStr? ==> FieldLine("Опыт работы: ", StoredExperience(v)) == ""
  {
  }

  /** A year given as text or as a bool is never stored, whatever its digits; an `int` is stored exactly when it is
      between 1950 and 2030. */
  lemma YearOnlyInt(s: string, b: bool, n: int)
    ensures StoredYear(PStr(s)) == PNone && StoredYear(PBool(b)) == PNone
    ensures StoredYear(PInt(n)) != PNone <==> 1950 <= n <= 2030
  {
  }

  /** An employee's rendering begins with the person's and ends with a newline. */
  lemma EmployeeRendering(e: Employee)
    ensures e.person.Render() <= e.Render()
    ensures IdLine(e.person.id) <= e.Render()
    ensures EndsLine(e.Render())
  {
    PersonRendering(e.person);
    ExtendsRendering(IdLine(e.person.id), e.person.Render(), e.OwnLines());
  }
}
