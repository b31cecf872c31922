/**
  person.py: the base class `Person` of the split modules.

  Its validated attributes are properties whose setters store either the value or None. The
  constructor takes the next number from the class counter, adds one to it, and then runs every
  setter once. `__str__` joins one newline-terminated line per attribute; the line of a falsy
  attribute is left out, except the marriage line, which is always there.

  Python classes become Dafny classes. A subclass holds its parent part in a `const` field that its
  constructor allocates, and every attribute keeps a Python `Value`, so `isinstance` tests and
  comparisons between strings and bools behave as in the source. The birthday and passport setters
  hand their argument straight to `re.fullmatch`, which raises `TypeError` for anything but a string.
  Those two setters therefore require a string, and `Constructible` names the arguments the
  constructor gets through.
 */
module SplitPerson {
  import opened Python
  import opened Regex
  import opened Ids

  const ValidGenders: seq<string> := ["муж.", "жен."]
  const ValidEducation: seq<string> := ["высшее", "ср.спец", "среднее"]

  /** The slice length of the `full_name` setter. */
  const NameLimit: nat := 25

  /** What `x if isinstance(x, str) else None` and the string setters can hold. */
  type StrOrNone = v: Value | v.PStr? || v.PNone? witness PNone

  /** What `x if isinstance(x, bool) else None` can hold. */
  type BoolOrNone = v: Value | v.PBool? || v.PNone? witness PNone

  /** `x if isinstance(x, str) else None` */
  function KeepStr(v: Value): (r: StrOrNone)
    ensures v.PStr? ==> r == v
    ensures !v.PStr? ==> r == PNone
  {
    if v.PStr? then v else PNone
  }

  /** `x if isinstance(x, bool) else None` */
  function KeepBool(v: Value): (r: BoolOrNone)
    ensures v.PBool? ==> r == v
    ensures !v.PBool? ==> r == PNone
  {
    if v.PBool? then v else PNone
  }

  /** `value in allowed` for a list of strings: Python's `==` never equates a string with a bool or an int. */
  predicate InStrings(v: Value, allowed: seq<string>) {
    v.PStr? && v.s in allowed
  }

  // ------------------------------------------------------------------ setters

  /** The `full_name` setter: a string becomes `value[:25]`, anything else None. */
  function StoredName(v: Value): (r: StrOrNone)
    ensures v.PStr? ==> r.PStr? && r.s <= v.s && |r.s| == (if |v.s| < NameLimit then |v.s| else NameLimit)
    ensures !v.PStr? ==> r == PNone
  {
    if v.PStr? then PStr(if |v.s| <= NameLimit then v.s else v.s[..NameLimit]) else PNone
  }

  /** Assigning a person's stored name to it again changes nothing. */
  lemma StoredNameIdempotent(v: Value)
    ensures StoredName(StoredName(v)) == StoredName(v)
  {
  }

  /** The `gender` setter: exact, case-sensitive membership in `VALID_GENDERS`. */
  function StoredGender(v: Value): (r: StrOrNone)
    ensures r != PNone <==> v.PStr? && v.s in ValidGenders
    ensures r != PNone ==> r == v
  {
    if v.PStr? && v.s in ValidGenders then v else PNone
  }

  /** The `level_education` setter: exact, case-sensitive membership in `VALID_EDUCATION`. */
  function StoredEducation(v: Value): (r: StrOrNone)
    ensures r != PNone <==> v.PStr? && v.s in ValidEducation
    ensures r != PNone ==> r == v
  {
    if v.PStr? && v.s in ValidEducation then v else PNone
  }

  /** The `birthday` setter: kept exactly when the string has the shape `DD.MM.YYYY`. */
  function StoredBirthday(v: Value): (r: StrOrNone)
    requires v.PStr?
    ensures r != PNone <==> IsBirthday(v.s)
    ensures r != PNone ==> r == v
  {
    BirthdayMatch(v.s);
    if FullMatch(BirthdayPattern, v.s) then v else PNone
  }

  /** The `passport` setter: four digits, one whitespace character, six digits, one whitespace character, a date. */
  function StoredPassport(v: Value): (r: StrOrNone)
    requires v.PStr?
    ensures r != PNone <==> IsPassport(v.s, Space)
    ensures r != PNone ==> r == v
  {
    PassportMatch(v.s, Space);
    if FullMatch(PassportPattern(Space), v.s) then v else PNone
  }

  /** The `phone_number` setter: a string of the shape `+7(NNN)NNN-NN-NN`; any other value gives None. */
  function StoredPhone(v: Value): (r: StrOrNone)
    ensures r != PNone <==> v.PStr? && IsPhone(v.s)
    ensures r != PNone ==> r == v
  {
    if v.PStr? then
      PhoneMatch(v.s);
      if FullMatch(PhonePattern, v.s) then v else PNone
    else PNone
  }

  /** The arguments `Person.__init__` gets through: `re.fullmatch` raises on a birthday or passport that is not a string. */
  predicate Constructible(birthday: Value, passport: Value) {
    birthday.PStr? && passport.PStr?
  }

  // ---------------------------------------------------------------- rendering

  /** A rendered line is absent or ends with a newline. */
  predicate Terminated(line: string) {
    line == "" || line[|line| - 1] == '\n'
  }

  /** `f'{caption}{value}\n' if value else ''` */
  function FieldLine(caption: string, v: Value): (r: string)
    ensures r == "" <==> !Truthy(v)
    ensures Truthy(v) ==> r == caption + Str(v) + "\n"
    ensures Terminated(r)
  {
    if Truthy(v) then caption + Str(v) + "\n" else ""
  }

  /** `"да" if x == True else "нет" if x == False else ""` */
  function YesNo(v: Value): string {
    if v == PBool(true) then "да" else if v == PBool(false) then "нет" else ""
  }

  /** A line that is always emitted, with the yes/no word of `v`. */
  function YesNoLine(caption: string, v: Value): (r: string)
    ensures Terminated(r) && r != ""
  {
    caption + YesNo(v) + "\n"
  }

  /** `f'В браке: {"да" if married else "нет"}\n'`, the line `Person.__str__` always emits. */
  function MarriedLine(v: Value): (r: string)
    ensures Terminated(r) && r != ""
  {
    "В браке: " + (if Truthy(v) then "да" else "нет") + "\n"
  }

  /** The first line of every rendering. */
  function IdLine(id: int): (r: string)
    ensures Terminated(r) && r != ""
  {
    "Номер: " + IntToString(id) + "\n"
  }

  /** A non-empty text whose last character is a newline. */
  predicate EndsLine(s: string) {
    |s| > 0 && s[|s| - 1] == '\n'
  }

  /** A join of terminated lines is itself terminated. */
  lemma {:induction false} ConcatOfTerminated(parts: seq<string>)
    requires forall k :: 0 <= k < |parts| ==> Terminated(parts[k])
    ensures Terminated(Concat(parts))
    decreases |parts|
  {
    if parts != [] {
      var rest := Concat(parts[1..]);
      ConcatOfTerminated(parts[1..]);
      if rest != "" {
        assert (parts[0] + rest)[|parts[0] + rest| - 1] == rest[|rest| - 1];
      } else {
        assert parts[0] + rest == parts[0];
      }
    }
  }

  /** A join of terminated lines that starts with a present line begins with it and ends with a newline. */
  lemma ConcatTerminated(parts: seq<string>)
    requires |parts| >= 1 && parts[0] != ""
    requires forall k :: 0 <= k < |parts| ==> Terminated(parts[k])
    ensures parts[0] <= Concat(parts)
    ensures EndsLine(Concat(parts))
  {
    ConcatOfTerminated(parts);
    assert Concat(parts) == parts[0] + Concat(parts[1..]);
  }

  /** Putting a terminated text in front of terminated lines keeps every line terminated. */
  lemma ConsTerminated(parent: string, own: seq<string>)
    requires Terminated(parent)
    requires forall k :: 0 <= k < |own| ==> Terminated(own[k])
    ensures forall k :: 0 <= k < |[parent] + own| ==> Terminated(([parent] + own)[k])
  {
    var parts := [parent] + own;
    forall k | 0 <= k < |parts| ensures Terminated(parts[k]) {
      if k > 0 {
        assert parts[k] == own[k - 1];
      }
    }
  }

  /** `"".join([parent] + own)`: a subclass rendering keeps the parent's text, and so its first line, up front. */
  lemma ExtendsRendering(head: string, parent: string, own: seq<string>)
    requires head <= parent && EndsLine(parent)
    requires forall k :: 0 <= k < |own| ==> Terminated(own[k])
    ensures parent <= Concat([parent] + own) && head <= Concat([parent] + own)
    ensures EndsLine(Concat([parent] + own))
  {
    ConsTerminated(parent, own);
    ConcatTerminated([parent] + own);
  }

  // ------------------------------------------------------------------- class

  class Person {
    /** `self.__id` */
    const id: int
    var fullName: StrOrNone
    var gender: StrOrNone
    var birthday: StrOrNone
    const placeBirth: StrOrNone
    const married: BoolOrNone
    var passport: StrOrNone
    const residenceAddress: StrOrNone
    var levelEducation: StrOrNone
    var phoneNumber: StrOrNone

    /** The state `__init__` leaves for number `n` and these arguments. */
    predicate Initialized(n: int, fullName: Value, gender: Value, birthday: Value, placeBirth: Value, married: Value,
                          passport: Value, residenceAddress: Value, levelEducation: Value, phoneNumber: Value)
      reads this
    {
      && Constructible(birthday, passport)
      && id == n
      && this.fullName == StoredName(fullName)
      && this.gender == StoredGender(gender)
      && this.birthday == StoredBirthday(birthday)
      && this.placeBirth == KeepStr(placeBirth)
      && this.married == KeepBool(married)
      && this.passport == StoredPassport(passport)
      && this.residenceAddress == KeepStr(residenceAddress)
      && this.levelEducation == StoredEducation(levelEducation)
      && this.phoneNumber == StoredPhone(phoneNumber)
    }

    /** `Person.__init__`: the number is read from the counter, the counter is incremented, then every setter runs. */
    constructor (counter: IdCounter, fullName: Value, gender: Value, birthday: Value, placeBirth: Value, married: Value,
                 passport: Value, residenceAddress: Value, levelEducation: Value, phoneNumber: Value)
      requires Constructible(birthday, passport)
      modifies counter
      ensures counter.next == old(counter.next) + 1
      ensures Initialized(old(counter.next),
        fullName, gender, birthday, placeBirth, married, passport, residenceAddress, levelEducation, phoneNumber)
    {
      var n := counter.Take();
      id := n;
      // `self.full_name = full_name` and the like go through the setters below.
      this.fullName := StoredName(fullName);
      this.gender := StoredGender(gender);
      this.birthday := StoredBirthday(birthday);
      this.placeBirth := KeepStr(placeBirth);
      this.married := KeepBool(married);
      this.passport := StoredPassport(passport);
      this.residenceAddress := KeepStr(residenceAddress);
      this.levelEducation := StoredEducation(levelEducation);
      this.phoneNumber := StoredPhone(phoneNumber);
    }

    method SetFullName(value: Value)
      modifies this`fullName
      ensures fullName == StoredName(value)
    {
      fullName := StoredName(value);
    }

    method SetGender(value: Value)
      modifies this`gender
      ensures gender == StoredGender(value)
    {
      gender := StoredGender(value);
    }

    /** A value that is not a string makes this setter raise `TypeError`. */
    method SetBirthday(value: Value)
      requires value.PStr?
      modifies this`birthday
      ensures birthday == StoredBirthday(value)
    {
      birthday := StoredBirthday(value);
    }

    /** A value that is not a string makes this setter raise `TypeError`. */
    method SetPassport(value: Value)
      requires value.PStr?
      modifies this`passport
      ensures passport == StoredPassport(value)
    {
      passport := StoredPassport(value);
    }

    method SetLevelEducation(value: Value)
      modifies this`levelEducation
      ensures levelEducation == StoredEducation(value)
    {
      levelEducation := StoredEducation(value);
    }

    method SetPhoneNumber(value: Value)
      modifies this`phoneNumber
      ensures phoneNumber == StoredPhone(value)
    {
      phoneNumber := StoredPhone(value);
    }

    /** The ten lines `__str__` joins, in order: each is absent or newline-terminated, and the first is the number line. */
    function Lines(): (r: seq<string>)
      reads this
      ensures |r| == 10 && r[0] == IdLine(id) && r[5] == MarriedLine(married)
      ensures r[1] == FieldLine("ФИО: ", fullName) && r[2] == FieldLine("Пол: ", gender)
      ensures r[3] == FieldLine("Дата рождения: ", birthday) && r[4] == FieldLine("Место рождения: ", placeBirth)
      ensures r[6] == FieldLine("Паспорт: ", passport) && r[7] == FieldLine("Адрес регистрации: ", residenceAddress)
      ensures r[8] == FieldLine("Уровень образования: ", levelEducation) && r[9] == FieldLine("Телефон: ", phoneNumber)
      ensures forall k :: 0 <= k < |r| ==> Terminated(r[k])
    {
      [ IdLine(id),
        FieldLine("ФИО: ", fullName),
        FieldLine("Пол: ", gender),
        FieldLine("Дата рождения: ", birthday),
        FieldLine("Место рождения: ", placeBirth),
        MarriedLine(married),
        FieldLine("Паспорт: ", passport),
        FieldLine("Адрес регистрации: ", residenceAddress),
        FieldLine("Уровень образования: ", levelEducation),
        FieldLine("Телефон: ", phoneNumber) ]
    }

    /** `Person.__str__` */
    function Render(): string
      reads this
    {
      Concat(Lines())
    }
  }

  // ------------------------------------------------------------------ lemmas

  /** The marriage line is always there, and shows `нет` when `married` is False or None. */
  lemma MarriedLineAlways(p: Person)
    ensures p.Lines()[5] != ""
    ensures p.married != PBool(true) ==> p.Lines()[5] == "В браке: нет\n"
  {
  }

  /** `Person.__str__` begins with the number line and ends with a newline. */
  lemma PersonRendering(p: Person)
    ensures IdLine(p.id) <= p.Render()
    ensures EndsLine(p.Render())
  {
    ConcatTerminated(p.Lines());
  }

  /** Membership is case-sensitive: a word that starts with a capital letter is neither a gender nor an education
      level, so the upper-cased spelling of every listed value is rejected. */
  lemma GenderCaseSensitive(s: string)
    ensures |s| > 0 && IsUpperLetter(s[0]) ==> StoredGender(PStr(s)) == PNone && StoredEducation(PStr(s)) == PNone
    ensures s in ValidGenders ==> StoredGender(PStr(s)) == PStr(s) && StoredGender(PStr(Upper(s))) == PNone
    ensures s in ValidEducation ==> StoredEducation(PStr(s)) == PStr(s) && StoredEducation(PStr(Upper(s))) == PNone
  {
    if s in ValidGenders || s in ValidEducation {
      assert IsLowerLetter(s[0]);
      assert IsUpperLetter(Upper(s)[0]);
    }
  }

  /** In a stored passport either separator may be replaced by any whitespace character and the passport is still
      stored; replacing either by anything else makes it rejected. */
  lemma PassportSeparators(s: string, c: char, d: char)
    requires StoredPassport(PStr(s)) != PNone
    ensures IsSpace(c) && IsSpace(d) ==> StoredPassport(PStr(s[4 := c][11 := d])) != PNone
    ensures !IsSpace(c) ==> StoredPassport(PStr(s[4 := c])) == PNone
    ensures !IsSpace(d) ==> StoredPassport(PStr(s[11 := d])) == PNone
  {
    assert IsPassport(s, Space);
    var t := s[4 := c][11 := d];
    if IsSpace(c) && IsSpace(d) {
      assert forall i :: 0 <= i < |s| && i != 4 && i != 11 ==> t[i] == s[i];
      assert IsPassport(t, Space);
    }
    assert s[4 := c][4] == c && s[11 := d][11] == d;
  }
}
