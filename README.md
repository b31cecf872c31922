# Medical records: three Python implementations in Dafny

The repository holds three independent implementations of the same small medical-records system.
Each has a `Person` hierarchy (`Employee` -> `Nurse`/`Doctor`, `Patient` -> `HospitalPatient`/`AmbulatoryPatient`)
with validating attribute setters, a global record counter, a text rendering per record, and a
`Loader` that reads `;`-separated lines into records. The three disagree on zero handling, case
folding, boolean tokens and error behaviour, so each one is modelled on its own:

- `solution.dfy` and `solution_loader.dfy` model solution.py (modules `Solution`, `SolutionLoader`).
- `sol.dfy` and `sol_loader.dfy` model sol.py (modules `Sol`, `SolLoader`).
- `person.dfy`, `employee.dfy`, `patient.dfy`, `doctor.dfy`, `nurse.dfy`, `hospital_patient.dfy`,
  `ambulatory_patient.dfy` and `split_loader.dfy` model the split modules person.py ... loader.py
  (modules `SplitPerson`, `SplitEmployee`, `SplitPatient`, `SplitDoctor`, `SplitNurse`,
  `SplitHospitalPatient`, `SplitAmbulatoryPatient`, `SplitLoader`).

The shared modules are:

- `wrappers.dfy`: `Option`.
- `python.dfy`: the Python value space `PStr | PBool | PInt | PNone`, with `bool(v)` and `isinstance(v, int)`.
  For `isinstance`, a bool counts as an int. It also has the string built-ins the code uses:
  `lower`, `upper`, `split`, `strip`, `join`, `filter(None, ...)`, `str(n)` and `int(s)`.
- `regex.dfy`: the three `re.fullmatch` patterns, as a tiny regular-expression matcher. Each pattern
  is proved equivalent to an explicit character-position predicate.
- `ids.dfy`: the class-level record counter, as an `IdCounter` object.

How each variant is modelled:

- **solution.py and sol.py.** A record's attributes are only assigned in its constructor, so the
  records are datatypes. Inheritance is composition: a `Nurse` holds its `Employee` part, which holds
  its `Person` part. An attribute is a member function that applies the setter to the constructor
  argument.
- **The split modules.** The property setters mutate private fields, so these records are classes
  with `modifies`-framed setters. Their constructors state the whole state they leave, through a
  predicate `Initialized`.
- **The loaders.** They are classes whose list fields the `load_*` methods extend (solution.py,
  sol.py) or replace (loader.py).

## Model

| member | source | states |
|---|---|---|
| Python.IntOf | ambulatory_patient.py:54 | `int(True)` is 1 and `int(False)` is 0, so a bool passes `isinstance(value, int)` range checks as 1 or 0 |
| Python.Lower | solution.py:149-150 | `str.lower` keeps the length and maps each character on its own, ASCII and Cyrillic capitals to lower case |
| Python.Upper | solution.py:442-443 | `str.upper` keeps the length and maps each character on its own |
| Python.LowerIdempotent | sol.py:162 | lowering twice is lowering once |
| Python.LowerOfUpper | solution.py:149-150 | `s.upper().lower() == s.lower()` |
| Python.UpperOfLower | solution.py:442-443 | `s.lower().upper() == s.upper()` |
| Python.Split | loader.py:52 | `split(';')` yields at least one piece, and no piece contains the separator |
| Python.JoinSplit | loader.py:52 | joining the pieces of a split with the same separator gives back the original string |
| Python.SplitCount | solution.py:18-19 | a split has exactly one more piece than the string has separators |
| Python.SplitAppendSeparator | loader.py:53-54 | a trailing separator adds exactly one empty last piece |
| Python.JoinNested | sol.py:234-245 | joining a parent's joined text with more lines equals joining all the lines at once |
| Python.JoinStartsWithFirst | solution.py:181 | a `"\n".join` begins with its first part |
| Python.JoinSingle | solution.py:181 | joining a single part gives that part |
| Python.ConcatAppend | person.py:143 | `"".join` of two concatenated lists is the concatenation of their joins |
| Python.DropEmpty | sol.py:190 | `filter(None, parts)` keeps exactly the non-empty parts and nothing else |
| Python.DropEmptyAppend | sol.py:190 | filtering distributes over concatenation, so the kept parts stay in order |
| Python.TrimStartSlice | loader.py:52 | `lstrip` removes a leading whitespace run, and the rest does not start with whitespace |
| Python.TrimEndSlice | loader.py:52 | `rstrip` removes a trailing whitespace run, and the rest does not end with whitespace |
| Python.StripEnds | sol.py:13 | neither end of a stripped line is whitespace |
| Python.StripIsSlice | sol.py:13 | `strip` removes only whitespace, and the result is a contiguous slice of the line |
| Python.StripNoSpace | loader.py:52 | a line with no whitespace at either end strips to itself |
| Python.StripIdempotent | loader.py:52 | stripping twice is stripping once |
| Python.DigitChar | solution.py:100 | every digit value has a decimal digit character |
| Python.DigitValue | solution.py:100 | every decimal digit character has a value below 10, and converting that value back gives the character |
| Python.NatToString | solution.py:160-181 | `str(n)` of a natural number is a non-empty run of digits with no leading zero |
| Python.IntToString | solution.py:160-181 | `str(n)` is never empty |
| Python.DigitsOfNat | sol.py:138 | reading the digits of `str(n)` back gives `n` |
| Python.ParseUnsigned | solution.py:100 | a string is an unsigned decimal exactly when it is a non-empty run of digits |
| Python.ParseIntDigits | solution.py:100 | `int()` of a run of digits is the number those digits denote |
| Python.ParseIntNegative | sol.py:138 | `int()` of a minus sign followed by digits is the negated number |
| Python.ParseIntToString | sol.py:138 | `int(str(n)) == n` for every integer |
| Python.ParseNat | solution.py:100 | `int(str(n)) == n` for a natural number |
| Python.ParseNegatedNat | solution.py:100 | `int("-" + str(n)) == -n` |
| Python.ParseIntRejectsLetters | solution.py:98-102 | after stripping, a string holding a non-digit anywhere other than a leading sign does not parse |
| Regex.MatchFromLength | solution.py:138 | a match from position k consumes exactly the pattern's width and reaches the end |
| Regex.FullMatchLength | solution.py:138 | a full match is exactly as long as the pattern's width |
| Regex.MatchLit | solution.py:155 | a literal character matches exactly that character, and the rest of the pattern must match after it |
| Regex.MatchDigits | solution.py:155 | `\d{n}` matches exactly n digits, and the rest of the pattern must match after them |
| Regex.DateMatch | person.py:74 | the date pattern matches from position k exactly when `DD.MM.YYYY` sits there and ends the string |
| Regex.BirthdayMatch | person.py:74 | `re.fullmatch(r'\d{2}\.\d{2}\.\d{4}', s)` succeeds iff s is two digits, dot, two digits, dot, four digits |
| Regex.PassportMatch | person.py:91 | the passport pattern, with a space or with `\s` as separator, succeeds iff s has the 4-6-date shape with that separator |
| Regex.PhoneMatch | person.py:126 | the phone pattern succeeds iff s is `+7(ddd)ddd-dd-dd` |
| Regex.BirthdayWidth | solution.py:137-138 | every birthday match is 10 characters long |
| Regex.PassportWidth | solution.py:143-144 | every passport match is 22 characters long |
| Regex.PhoneWidth | solution.py:154-155 | every phone match is 16 characters long |
| Regex.PatternWidths | solution.py:135-157 | the three widths together: the patterns alone fix the lengths that solution.py also tests |
| Ids.IdCounter.constructor | solution.py:81 | the counter starts at 1 |
| Ids.IdCounter.Take | solution.py:86-96 | the record gets the current counter value, and the counter then grows by exactly one |
| Solution.CheckBool | solution.py:108-114 | exactly `"True"` gives true and exactly `"False"` gives false; every other value, including real bools and `"true"`, is absent |
| Solution.SetName | solution.py:125-129 | a string is kept as its prefix of length `min(len, 25)`; a non-string is absent |
| Solution.SetNameIdempotent | solution.py:125-129 | a name that was already cut is not cut again |
| Solution.Member | solution.py:130-134 | exact membership: the value is kept unchanged iff it is a string in the list |
| Solution.LowerMember | solution.py:147-151 | the value is kept, lower-cased, iff its lower-cased form is in the list |
| Solution.UpperMember | solution.py:440-444 | the value is kept, upper-cased, iff its upper-cased form is in the list |
| Solution.SetGender | solution.py:130-134 | kept unchanged iff it is exactly `муж.` or `жен.` (case-sensitive) |
| Solution.SetBirthday | solution.py:135-140 | kept unchanged iff it is a string of the shape `DD.MM.YYYY`, otherwise absent |
| Solution.SetPassport | solution.py:141-146 | kept unchanged iff it is a string `NNNN NNNNNN DD.MM.YYYY` with plain spaces |
| Solution.SetEducation | solution.py:147-151 | stored lower-cased iff the lower-cased value is an education level |
| Solution.SetPhone | solution.py:152-157 | kept unchanged iff it is a string `+7(NNN)NNN-NN-NN` |
| Solution.SetGraduation | solution.py:211-215 | kept iff `int()` succeeds and the number is in [1950, 2030] |
| Solution.SetProfession | solution.py:216-220 | stored lower-cased iff the lower-cased value is a listed profession |
| Solution.SetEx | solution.py:221-225 | kept iff the parsed number is in [1, 60]; the truthiness test rejects 0 |
| Solution.SetCategory | solution.py:296-300 | stored lower-cased iff the lower-cased value is a listed category |
| Solution.SetStatus | solution.py:352-356 | kept unchanged iff it is exactly one of the statuses |
| Solution.SetBloodType | solution.py:357-360 | kept iff the parsed number is in [1, 4]; every other path returns None |
| Solution.SetRhesus | solution.py:361-365 | kept iff the value is exactly `"+"` or `"-"` |
| Solution.SetTernum | solution.py:430-434 | kept iff the parsed number is in [1, 20] |
| Solution.SetDisability | solution.py:435-439 | kept iff the parsed number is in [1, 3]; a parsed 0 is rejected |
| Solution.SetGroup | solution.py:440-444 | stored upper-cased iff the upper-cased value is I, II or III |
| Solution.LowerMemberIgnoresCase | solution.py:147-151 | two inputs with the same lower-case form are stored identically |
| Solution.LowerMemberAcceptsUpperCase | solution.py:216-220 | upper-casing an education, profession or category changes nothing that is stored |
| Solution.UpperMemberIgnoresCase | solution.py:440-444 | the health group is found whatever the case of its letters |
| Solution.LengthTestsRedundant | solution.py:135-157 | the `len(...) == 10/22/16` tests are implied by the patterns |
| Solution.CreateNurse | solution.py:252-256 | the nurse is built with the current counter value as its id, and the counter grows by one |
| Solution.CreateDoctor | solution.py:283-293 | the doctor is built with the current counter value as its id, and the counter grows by one |
| Solution.CreateHospitalPatient | solution.py:391-395 | the patient is built with the current counter value as its id, and the counter grows by one |
| Solution.CreateAmbulatoryPatient | solution.py:418-423 | the patient is built with the current counter value as its id, and the counter grows by one |
| Solution.PersonFieldsValid | solution.py:84-96 | every stored person attribute is absent or satisfies its constraint (length, list, shape) |
| Solution.EmployeeFieldsValid | solution.py:196-204 | the stored year is in [1950, 2030], the profession is listed, and the experience is in [1, 60] |
| Solution.PatientFieldsValid | solution.py:337-345 | stored status, blood type [1, 4], rhesus, territorial number [1, 20], disability [1, 3] and group are valid |
| Solution.NurseLines | solution.py:259-267 | nurse text = Person lines, then Employee lines, then nurse lines, joined by newlines, plus a final newline |
| Solution.DoctorLines | solution.py:303-321 | doctor text = Person lines, then Employee lines, then doctor lines, plus a final newline |
| Solution.HospitalLines | solution.py:398-406 | hospital text = Person lines, then Patient lines, then its own lines, plus a final newline |
| Solution.AmbulatoryLines | solution.py:447-457 | ambulatory text = Person lines, then Patient lines, then its own lines, plus a final newline |
| Solution.RenderingStartsWithId | solution.py:160-162 | every rendering of the four concrete records begins with `Номер: <id>` |
| Solution.BlankPersonRendersIdOnly | solution.py:160-181 | a person built from empty strings renders only its number line, so falsy fields give no line |
| Solution.BlankNurseRendersIdOnly | solution.py:259-267 | a nurse built from empty strings renders as the number line and a newline |
| Solution.BlankAmbulatoryRendersIdOnly | solution.py:447-457 | an ambulatory patient built from empty strings renders as the number line and a newline |
| Solution.RhesusNeedsBloodType | solution.py:376-380 | without a blood type there is no blood-group line, whatever rhesus is stored |
| Solution.BloodLineShape | solution.py:376-380 | the blood line is `Группа крови: b(rh)` with a rhesus and `Группа крови: b` without |
| Solution.ChronicNotFoundSuppressed | solution.py:455 | a chronic diagnosis `Не выявлено` gives no line, as a missing one does |
| SolutionLoader.Accepted | solution.py:17-20 | the accepted rows are at most as many as the lines, and each has exactly the arity |
| SolutionLoader.AcceptedAppend | solution.py:17-26 | accepting the rows of two files in turn is accepting the rows of their concatenation |
| SolutionLoader.AcceptedMembers | solution.py:17-20 | a row is accepted iff it has the arity and is the split of some line |
| SolutionLoader.LoadedNursesNext | solution.py:39-50 | one more line appends a nurse iff its split has 20 fields, numbered after those before it |
| SolutionLoader.LoadedNursesAccepted | solution.py:39-50 | the k-th loaded nurse is built from the k-th accepted row and gets number `id + k` |
| SolutionLoader.LoadedDoctorsNext | solution.py:51-62 | one more line appends a doctor iff its split has 25 fields |
| SolutionLoader.LoadedDoctorsAccepted | solution.py:51-62 | the k-th loaded doctor is built from the k-th accepted row and gets number `id + k` |
| SolutionLoader.LoadedHospitalPatientsNext | solution.py:15-26 | one more line appends a hospital patient iff its split has 19 fields |
| SolutionLoader.LoadedHospitalPatientsAccepted | solution.py:15-26 | the k-th loaded hospital patient is built from the k-th accepted row and gets number `id + k` |
| SolutionLoader.LoadedAmbulatoryPatientsNext | solution.py:27-38 | one more line appends an ambulatory patient iff its split has 20 fields |
| SolutionLoader.LoadedAmbulatoryPatientsAccepted | solution.py:27-38 | the k-th loaded ambulatory patient is built from the k-th accepted row and gets number `id + k` |
| SolutionLoader.NurseFromRow | solution.py:45-50 | the nurse is built positionally from the row's fields with the next number, and the counter grows by one |
| SolutionLoader.DoctorFromRow | solution.py:57-62 | the doctor is built positionally from the row's fields with the next number |
| SolutionLoader.HospitalPatientFromRow | solution.py:21-26 | the hospital patient is built positionally from the row's fields with the next number |
| SolutionLoader.AmbulatoryPatientFromRow | solution.py:33-38 | the ambulatory patient is built positionally from the row's fields with the next number |
| SolutionLoader.LastFieldUnused | solution.py:45-50 | the last field of a nurse or ambulatory row does not affect the record |
| SolutionLoader.LastFieldUnusedDoctor | solution.py:57-62 | the last field of a doctor row does not affect the record |
| SolutionLoader.LastFieldUnusedHospital | solution.py:21-26 | the last field of a hospital row does not affect the record |
| SolutionLoader.Loader.constructor | solution.py:10-14 | all four lists start empty |
| SolutionLoader.Loader.LoadNurses | solution.py:39-50 | the nurses of the accepted lines are appended in file order, the counter advances by their number, and the other lists are unchanged |
| SolutionLoader.Loader.LoadDoctors | solution.py:51-62 | the doctors of the accepted lines are appended in file order, and the other lists are unchanged |
| SolutionLoader.Loader.LoadHospitalPatients | solution.py:15-26 | the hospital patients of the accepted lines are appended in file order, and the other lists are unchanged |
| SolutionLoader.Loader.LoadAmbulatoryPatients | solution.py:27-38 | the ambulatory patients of the accepted lines are appended in file order, and the other lists are unchanged |
| Sol.Cut | sol.py:119-121 | a string longer than 25 characters becomes its first 25 characters; any other value, string or not, is returned unchanged |
| Sol.CutKeepsNonStrings | sol.py:119-121 | a non-string is kept as is, and cutting twice is cutting once |
| Sol.AsStr | sol.py:123-125 | kept iff the value is a non-empty string |
| Sol.AsStrRejectsEmpty | sol.py:123-125 | the empty string is not kept |
| Sol.AsBool | sol.py:127-133 | exactly `"True"` gives true, exactly `"False"` gives false, and anything else is absent |
| Sol.AsIntTotal | sol.py:135-140 | `_as_int` reads back `str(n)`, ints and bools, and gives None for None and `""` instead of raising |
| Sol.ExactMember | sol.py:142-145 | exact membership: the value is kept unchanged iff it is a string in the list |
| Sol.LowerMember | sol.py:159-162 | kept lower-cased iff the lower-cased value is in the list |
| Sol.UpperMember | sol.py:412-415 | kept upper-cased iff the upper-cased value is in the list |
| Sol.OrEmpty | sol.py:149 | `value or ""` is the string itself, or `""` for a falsy value |
| Sol.ValidateGender | sol.py:142-145 | kept unchanged iff it is exactly one of the genders |
| Sol.ValidateBirthday | sol.py:147-151 | kept iff it is a string with the shape `DD.MM.YYYY` |
| Sol.ValidatePassport | sol.py:153-157 | kept iff it is a string `NNNN NNNNNN DD.MM.YYYY` with plain spaces |
| Sol.ValidateEducation | sol.py:159-162 | stored lower-cased iff the lower-cased value is an education level |
| Sol.ValidatePhone | sol.py:164-168 | kept iff it is a string `+7(NNN)NNN-NN-NN` |
| Sol.FalsyNeverMatches | sol.py:147-168 | a falsy value is matched as `""`, which no pattern accepts |
| Sol.ValidateYear | sol.py:204-207 | kept iff the parsed number is in [1950, 2030] |
| Sol.ValidateProfession | sol.py:209-212 | stored lower-cased iff the lower-cased value is a listed profession |
| Sol.ValidateExperience | sol.py:214-217 | kept iff the parsed number is in [0, 60]; `is not None` keeps 0 |
| Sol.ValidateCategory | sol.py:285-288 | stored lower-cased iff the lower-cased value is a listed category |
| Sol.ValidateStatus | sol.py:323-326 | kept unchanged iff it is exactly one of the statuses |
| Sol.ValidateBloodType | sol.py:328-331 | kept iff the parsed number is in [1, 4] |
| Sol.ValidateRhesus | sol.py:333-336 | kept iff the value is exactly `"+"` or `"-"` |
| Sol.ValidateTerritorialNumber | sol.py:402-405 | kept iff the parsed number is in [1, 20] |
| Sol.ValidateDisability | sol.py:407-410 | kept iff the parsed number is in [0, 3]; 0 is kept |
| Sol.ValidateHealthGroup | sol.py:412-415 | stored upper-cased iff the upper-cased value is I, II or III |
| Sol.ZeroKept | sol.py:204-217 | `"0"` is kept as experience and as disability, but rejected as year, blood type and territorial number |
| Sol.LowerMemberAcceptsUpperCase | sol.py:159-162 | upper-casing an education, profession or category changes nothing that is stored |
| Sol.UpperMemberIgnoresCase | sol.py:412-415 | the health group is found whatever the case of its letters |
| Sol.CreateNurse | sol.py:247-255 | the counter grows by one; a nurse is built with the old counter value as its id iff no validator raises |
| Sol.CreateDoctor | sol.py:269-283 | the counter grows by one, and the doctor is built iff no validator raises, the category one included |
| Sol.CreateHospitalPatient | sol.py:369-377 | the counter grows by one, and the hospital patient is built iff no person validator raises |
| Sol.CreateAmbulatoryPatient | sol.py:391-400 | the counter grows by one, and the ambulatory patient is built iff no validator raises, the health-group one included |
| Sol.PersonFieldsValid | sol.py:105-117 | every stored person attribute is absent or satisfies its constraint; a string name has at most 25 characters |
| Sol.EmployeeFieldsValid | sol.py:192-202 | the stored year is in [1950, 2030], the profession is listed, and the experience is in [0, 60] |
| Sol.PatientFieldsValid | sol.py:311-321 | status, blood type [1, 4], rhesus, territorial number [1, 20], disability [0, 3] and group are valid when stored |
| Sol.PersonStrStartsWithId | sol.py:177-190 | the number line survives the filter in first place, so a person text is never empty |
| Sol.KeepsParent | sol.py:234-245 | a non-empty parent text stays first after `filter(None, ...)` |
| Sol.EmployeeLines | sol.py:234-245 | employee text = the filtered person lines, then the filtered employee lines |
| Sol.NurseLines | sol.py:260-267 | nurse text = filtered person, employee and nurse lines, then a newline |
| Sol.DoctorLines | sol.py:297-309 | doctor text = filtered person, employee and doctor lines, then a newline |
| Sol.PatientLines | sol.py:353-367 | patient text = the filtered person lines, then the filtered patient lines |
| Sol.HospitalLines | sol.py:382-389 | hospital text = filtered person, patient and hospital lines, then a newline |
| Sol.AmbulatoryLines | sol.py:432-440 | ambulatory text = filtered person, patient and ambulatory lines, then a newline |
| Sol.ParentFirst | sol.py:236 | whatever a non-empty parent text begins with, the child text begins with too |
| Sol.StaffRenderingStartsWithId | sol.py:260-309 | nurse and doctor texts begin with `Номер: <id>` |
| Sol.PatientRenderingStartsWithId | sol.py:382-440 | hospital and ambulatory texts begin with `Номер: <id>` |
| Sol.ZeroDisabilityHiddenZeroRoomShown | sol.py:386-436 | a disability of 0 is stored and not shown; a room number of 0 is shown |
| Sol.NonStringNameShown | sol.py:119-121 | a non-string full name passes `_cut` and is shown through `str()` |
| Sol.RhesusNeedsBloodType | sol.py:360-364 | without a blood type there is no blood entry |
| Sol.ChronicNotFoundSuppressed | sol.py:438 | a chronic diagnosis `Не выявлено`, or one that is not a string, gives no line |
| SolLoader.Accepted | sol.py:13-14 | the accepted rows are at most as many as the lines, and each has exactly the arity |
| SolLoader.AcceptedAppend | sol.py:10-27 | accepting two files in turn is accepting their concatenation |
| SolLoader.AcceptedMembers | sol.py:13-14 | a row is accepted iff it has the arity and is the split of some stripped line |
| SolLoader.LoadedNursesNext | sol.py:49-71 | one more line appends a nurse iff its stripped split has 20 fields |
| SolLoader.LoadedNursesAccepted | sol.py:49-71 | the k-th loaded nurse is built from the k-th accepted row and gets number `id + k` |
| SolLoader.LoadedDoctorsNext | sol.py:73-100 | one more line appends a doctor iff its stripped split has 25 fields |
| SolLoader.LoadedDoctorsAccepted | sol.py:73-100 | the k-th loaded doctor is built from the k-th accepted row and gets number `id + k` |
| SolLoader.LoadedHospitalPatientsNext | sol.py:10-27 | one more line appends a hospital patient iff its stripped split has 19 fields |
| SolLoader.LoadedHospitalPatientsAccepted | sol.py:10-27 | the k-th loaded hospital patient is built from the k-th accepted row and gets number `id + k` |
| SolLoader.LoadedAmbulatoryPatientsNext | sol.py:29-47 | one more line appends an ambulatory patient iff its stripped split has 20 fields |
| SolLoader.LoadedAmbulatoryPatientsAccepted | sol.py:29-47 | the k-th loaded ambulatory patient is built from the k-th accepted row and gets number `id + k` |
| SolLoader.NurseFromRow | sol.py:55-71 | the nurse is built positionally from the row with the next number, and the counter grows by one |
| SolLoader.DoctorFromRow | sol.py:79-100 | the doctor is built positionally from the row with the next number |
| SolLoader.HospitalPatientFromRow | sol.py:16-26 | the hospital patient is built positionally from the row with the next number |
| SolLoader.AmbulatoryPatientFromRow | sol.py:35-47 | the ambulatory patient is built positionally from the row with the next number |
| SolLoader.LastFieldUnused | sol.py:55-71 | the last field of a nurse or ambulatory row does not reach the record |
| SolLoader.LastFieldUnusedDoctor | sol.py:79-100 | the last field of a doctor row does not reach the record |
| SolLoader.LastFieldUnusedHospital | sol.py:16-26 | the last field of a hospital row does not reach the record |
| SolLoader.Loader.constructor | sol.py:4-8 | all four lists start empty |
| SolLoader.Loader.LoadNurses | sol.py:49-71 | the nurses of the accepted lines are appended in file order, and the other lists are unchanged |
| SolLoader.Loader.LoadDoctors | sol.py:73-100 | the doctors of the accepted lines are appended in file order, and the other lists are unchanged |
| SolLoader.Loader.LoadHospitalPatients | sol.py:10-27 | the hospital patients of the accepted lines are appended in file order, and the other lists are unchanged |
| SolLoader.Loader.LoadAmbulatoryPatients | sol.py:29-47 | the ambulatory patients of the accepted lines are appended in file order, and the other lists are unchanged |
| SplitPerson.KeepStr | person.py:21 | a string is kept as is; any other value becomes None |
| SplitPerson.KeepBool | person.py:22 | a bool is kept as is; any other value becomes None |
| SplitPerson.StoredName | person.py:35-43 | a string is stored as its prefix of length `min(len, 25)`; a non-string becomes None |
| SplitPerson.StoredNameIdempotent | person.py:35-43 | assigning the stored name again changes nothing |
| SplitPerson.StoredGender | person.py:52-60 | stored unchanged iff it is a string in `VALID_GENDERS` (exact match) |
| SplitPerson.StoredEducation | person.py:103-111 | stored unchanged iff it is a string in `VALID_EDUCATION` (exact match) |
| SplitPerson.StoredBirthday | person.py:69-77 | a string is stored iff it has the shape `DD.MM.YYYY` |
| SplitPerson.StoredPassport | person.py:86-94 | a string is stored iff it is 4 digits, a whitespace character, 6 digits, a whitespace character, then a date |
| SplitPerson.StoredPhone | person.py:120-129 | stored iff it is a string `+7(NNN)NNN-NN-NN`; any other value becomes None |
| SplitPerson.FieldLine | person.py:132-142 | a line is emitted iff the value is truthy, and it is the caption, `str(value)` and a newline |
| SplitPerson.YesNoLine | doctor.py:51-52 | a yes/no line is always emitted and newline-terminated |
| SplitPerson.MarriedLine | person.py:137 | the marriage line is always emitted and newline-terminated |
| SplitPerson.IdLine | person.py:133 | the number line is non-empty and newline-terminated |
| SplitPerson.ConcatOfTerminated | person.py:143 | joining newline-terminated lines gives a newline-terminated text |
| SplitPerson.ConcatTerminated | person.py:143-146 | a join whose first line is present begins with that line and ends with a newline |
| SplitPerson.ConsTerminated | employee.py:89-90 | a terminated parent text followed by terminated lines is a list of terminated lines |
| SplitPerson.ExtendsRendering | employee.py:79-90 | a subclass text `"".join([parent] + own)` begins with the parent text, and so with its first line, and ends with a newline |
| SplitPerson.Person.constructor | person.py:14-26 | the person gets the counter's number; the counter grows by one; every attribute holds its setter's result |
| SplitPerson.Person.SetFullName | person.py:35-43 | the stored name is the cut string or None; only that field changes |
| SplitPerson.Person.SetGender | person.py:52-60 | only the gender changes, to the exact-membership result |
| SplitPerson.Person.SetBirthday | person.py:69-77 | only the birthday changes, to the pattern result |
| SplitPerson.Person.SetPassport | person.py:86-94 | only the passport changes, to the pattern result |
| SplitPerson.Person.SetLevelEducation | person.py:103-111 | only the education changes, to the exact-membership result |
| SplitPerson.Person.SetPhoneNumber | person.py:120-129 | only the phone changes, to the pattern result |
| SplitPerson.Person.Lines | person.py:131-146 | ten lines, each absent or newline-terminated, position by position: number, name, gender, birthday, birthplace, marriage (always present), passport, address, education, phone |
| SplitPerson.MarriedLineAlways | person.py:137 | the marriage line is always present and reads `нет` when `married` is False or None |
| SplitPerson.PersonRendering | person.py:131-146 | the person text begins with the number line and ends with a newline |
| SplitPerson.GenderCaseSensitive | person.py:52-60 | membership is case-sensitive: no word starting with a capital letter is a gender or an education level, so every listed value is accepted and its upper-cased spelling rejected |
| SplitPerson.PassportSeparators | person.py:91 | in a stored passport each separator may be any whitespace character (`\s`), and any other character there makes it rejected |
| SplitEmployee.StoredYear | employee.py:48-56 | kept iff it is an int (or bool) in [1950, 2030]; a string, whatever its digits, is never kept |
| SplitEmployee.StoredExperience | employee.py:68-76 | kept iff it is an int in [0, 60]; True and False are kept as they are; strings never are |
| SplitEmployee.StoredProfession | employee.py:58-66 | kept unchanged iff it is exactly a listed profession |
| SplitEmployee.Employee.constructor | employee.py:10-25 | the person part is built from the first nine arguments; the type-checked and validated attributes are stored; the counter grows by one |
| SplitEmployee.Employee.SetYearGraduation | employee.py:48-56 | only the year changes, to the range-checked value |
| SplitEmployee.Employee.SetProfession | employee.py:58-66 | only the profession changes |
| SplitEmployee.Employee.SetWorkExperience | employee.py:68-76 | only the experience changes |
| SplitEmployee.Employee.OwnLines | employee.py:80-88 | seven newline-terminated or absent lines, position by position: foreign language (always present), education document, graduation year, qualification, specialty, profession, experience |
| SplitEmployee.LanguageLineBlank | employee.py:80-81 | the foreign-language line is always `Знание иностранного языка: ` with an empty value |
| SplitEmployee.ExperienceLine | employee.py:87 | no line for 0, False or a string; `True` for True; the number for 1..60 |
| SplitEmployee.YearOnlyInt | employee.py:48-56 | a year given as text or a bool is never stored; an int is stored exactly when it is in 1950..2030 |
| SplitEmployee.EmployeeRendering | employee.py:78-90 | employee text begins with the person text, so with the number line, and ends with a newline |
| SplitPatient.StoredStatus | patient.py:49-54 | kept unchanged iff it is exactly a listed status |
| SplitPatient.StoredBloodType | patient.py:56-61 | kept iff it is one of the strings `'1'`..`'4'`; an int or bool becomes None |
| SplitPatient.StoredRhesus | patient.py:63-68 | kept iff it is `'-'` or `'+'` |
| SplitPatient.BloodLine | patient.py:72-74 | the blood line is absent exactly when the blood type is falsy |
| SplitPatient.Patient.constructor | patient.py:12-26 | the person part is built from the first nine arguments; policy, place and allergies are stored as given; the counter grows by one |
| SplitPatient.Patient.SetStatus | patient.py:49-54 | only the status changes |
| SplitPatient.Patient.SetBloodType | patient.py:56-61 | only the blood type changes |
| SplitPatient.Patient.SetRhesusAffiliation | patient.py:63-68 | only the rhesus changes |
| SplitPatient.Patient.OwnLines | patient.py:71-80 | five newline-terminated or absent lines, position by position: policy, status, place of work or study, blood (type with rhesus), allergies |
| SplitPatient.BloodLineShapes | patient.py:72-74 | `Группа крови: b (r)` with both, `Группа крови: b` without a rhesus, nothing without a blood type |
| SplitPatient.PatientRendering | patient.py:70-80 | patient text begins with the person text and ends with a newline |
| SplitDoctor.StoredCategory | doctor.py:38-46 | kept unchanged iff it is exactly a listed category |
| SplitDoctor.Doctor.constructor | doctor.py:10-29 | the employee part gets the first sixteen arguments; the eight own attributes are stored; the counter grows by one |
| SplitDoctor.Doctor.SetCategory | doctor.py:38-46 | only the category changes |
| SplitDoctor.Doctor.OwnLines | doctor.py:51-58 | eight newline-terminated lines, position by position: degree, rank, category, trainings, errors, diagnoses, treatment, rehabilitation; the six yes/no lines are always present, category and errors only when truthy |
| SplitDoctor.ErrorsLine | doctor.py:26 | only a bool reaches `medical_errors`: its line is absent or reads `True`, and any text gives no line |
| SplitDoctor.DoctorRendering | doctor.py:48-60 | doctor text begins with the employee text, so with the number line, and ends with a newline |
| SplitNurse.Nurse.constructor | nurse.py:7-18 | the employee part gets the first sixteen arguments; the three duties are kept if bools; the counter grows by one |
| SplitNurse.Nurse.OwnLines | nurse.py:22-29 | three lines, always present and newline-terminated, in the order sanitary service, patient care, procedures |
| SplitNurse.NurseDutyWords | nurse.py:22-27 | each duty reads `да` for True, `нет` for False and nothing for None |
| SplitNurse.NurseRendering | nurse.py:20-29 | nurse text begins with the employee text and ends with a newline |
| SplitHospitalPatient.DiagnosisLine | hospital_patient.py:28-29 | the diagnosis line is absent iff the diagnosis is falsy or `Диагноз не выявлен`, and otherwise is `Диагноз: <value>` |
| SplitHospitalPatient.HospitalPatient.constructor | hospital_patient.py:8-22 | the patient part gets the first fifteen arguments; department, room and diagnosis are stored as given; the counter grows by one |
| SplitHospitalPatient.HospitalPatient.OwnLines | hospital_patient.py:26-31 | three newline-terminated or absent lines, position by position: department, room, diagnosis |
| SplitHospitalPatient.HospitalSkipRules | hospital_patient.py:26-29 | the department and room lines are absent exactly when the value is falsy; the diagnosis line exactly when it is falsy or the placeholder; a shown diagnosis is printed as stored |
| SplitHospitalPatient.HospitalPatientRendering | hospital_patient.py:24-31 | hospital text begins with the patient text and ends with a newline |
| SplitAmbulatoryPatient.StoredTerritorial | ambulatory_patient.py:49-57 | kept iff it is an int in [1, 20]; True is kept and strings never are |
| SplitAmbulatoryPatient.StoredDisability | ambulatory_patient.py:59-67 | the setter always stores None: an int is never in the list of strings `'0'`..`'3'` |
| SplitAmbulatoryPatient.StoredHealthGroup | ambulatory_patient.py:69-77 | the setter always stores None: an int is never `I`, `II` or `III` |
| SplitAmbulatoryPatient.DisabilityLine | ambulatory_patient.py:83 | the disability line is absent iff the value is falsy or `'0'` |
| SplitAmbulatoryPatient.ChronicLine | ambulatory_patient.py:85 | the chronic line is absent iff the diagnosis is falsy or `Не выявлено` |
| SplitAmbulatoryPatient.AmbulatoryPatient.constructor | ambulatory_patient.py:11-26 | the patient part gets the first fifteen arguments; the setters run; the chronic diagnosis is kept if a string; the counter grows by one |
| SplitAmbulatoryPatient.AmbulatoryPatient.SetTerritorialNumber | ambulatory_patient.py:49-57 | only the territorial number changes |
| SplitAmbulatoryPatient.AmbulatoryPatient.SetDisability | ambulatory_patient.py:59-67 | only the disability changes |
| SplitAmbulatoryPatient.AmbulatoryPatient.SetHealthGroup | ambulatory_patient.py:69-77 | only the health group changes |
| SplitAmbulatoryPatient.AmbulatoryPatient.OwnLines | ambulatory_patient.py:81-87 | four newline-terminated or absent lines, position by position: territorial number, disability, health group, chronic diagnosis |
| SplitAmbulatoryPatient.GroupLinesNeverShown | ambulatory_patient.py:83-84 | the disability and health-group lines are never rendered, whatever the setter calls |
| SplitAmbulatoryPatient.TerritorialKinds | ambulatory_patient.py:54 | True is a territorial number and is shown as `True`; False and every text are not kept; an int is kept exactly when it is in 1..20 |
| SplitAmbulatoryPatient.ChronicNotFoundHidden | ambulatory_patient.py:85 | the chronic diagnosis `Не выявлено` is kept but not shown |
| SplitAmbulatoryPatient.AmbulatoryPatientRendering | ambulatory_patient.py:79-87 | ambulatory text begins with the patient text and ends with a newline |
| SplitLoader.Token | loader.py:56-57 | a field becomes True iff it lower-cases to `true` or `да`, False iff it lower-cases to `false` or `нет`, and otherwise stays the same string |
| SplitLoader.Args | loader.py:52-57 | token conversion keeps the number of fields |
| SplitLoader.ArgLists | loader.py:51-57 | there is one argument list per line |
| SplitLoader.Keep | loader.py:59-63 | only lists with exactly the arity pass, and they are at most as many as the lines |
| SplitLoader.KeepNext | loader.py:59-66 | one more line adds its arguments iff they have the arity |
| SplitLoader.KeepPrefix | loader.py:51-66 | the rows accepted from a prefix of the file are a prefix of those accepted from all of it |
| SplitLoader.KeepMembers | loader.py:59-63 | an argument list passes iff it is one of the lists and has the arity |
| SplitLoader.AcceptedMembers | loader.py:51-63 | a row is accepted iff it has the arity and is the argument list of some line |
| SplitLoader.RaiseAt | loader.py:65 | the first accepted row whose birthday or passport is a bool is where construction raises |
| SplitLoader.TokenIgnoresCase | loader.py:56-57 | upper- or lower-casing a field never changes which bool it gives; a field giving no bool stays text as written |
| SplitLoader.RaisesOnBoolWord | loader.py:56-65 | a line whose birthday field is `да` makes construction raise |
| SplitLoader.LoadedNumbers | loader.py:56-57 | a loaded year is never stored; a loaded experience is kept only for a boolean word; a loaded territorial number is kept only as True |
| SplitLoader.TrailingSeparatorDropped | loader.py:53-54 | a line ending in `;` gives the fields before it, with the empty last field dropped |
| SplitLoader.DoubleSeparatorKeepsOne | loader.py:53-54 | a line ending in `;;` loses only one empty field |
| SplitLoader.StripFramed | loader.py:52 | stripping a line framed by non-space characters leaves it unchanged |
| SplitLoader.DoctorsBuiltSnoc | loader.py:65-66 | appending a doctor built from the next row extends the built list |
| SplitLoader.NursesBuiltSnoc | loader.py:65-66 | appending a nurse built from the next row extends the built list |
| SplitLoader.HospitalPatientsBuiltSnoc | loader.py:65-66 | appending a hospital patient built from the next row extends the built list |
| SplitLoader.AmbulatoryPatientsBuiltSnoc | loader.py:65-66 | appending an ambulatory patient built from the next row extends the built list |
| SplitLoader.MakeDoctor | loader.py:65 | `cls(*args)`: a new doctor is initialised from the 24 fields positionally with the next number |
| SplitLoader.MakeNurse | loader.py:65 | a new nurse is initialised from the 19 fields positionally with the next number |
| SplitLoader.MakeHospitalPatient | loader.py:65 | a new hospital patient is initialised from the 18 fields positionally with the next number |
| SplitLoader.MakeAmbulatoryPatient | loader.py:65 | a new ambulatory patient is initialised from the 19 fields positionally with the next number |
| SplitLoader.DoctorLine | loader.py:51-66 | one loop step: skip a row of the wrong arity, raise on a bool birthday or passport, otherwise append the new doctor |
| SplitLoader.BuildDoctors | loader.py:43-68 | without a raise, one doctor per accepted line is built in file order, numbered on; with one, the counter has moved past the raising row |
| SplitLoader.NurseLine | loader.py:51-66 | one loop step for nurses |
| SplitLoader.BuildNurses | loader.py:43-68 | the nurses of the accepted lines in order, or the raise at the first bad row |
| SplitLoader.HospitalPatientLine | loader.py:51-66 | one loop step for hospital patients |
| SplitLoader.BuildHospitalPatients | loader.py:43-68 | the hospital patients of the accepted lines in order, or the raise at the first bad row |
| SplitLoader.AmbulatoryPatientLine | loader.py:51-66 | one loop step for ambulatory patients |
| SplitLoader.BuildAmbulatoryPatients | loader.py:43-68 | the ambulatory patients of the accepted lines in order, or the raise at the first bad row |
| SplitLoader.Loader.constructor | loader.py:13-17 | all four lists start empty |
| SplitLoader.Loader.LoadDoctors | loader.py:19-23 | the doctor list is replaced by the loaded doctors, or by [] for a missing file; it is unchanged on a raise |
| SplitLoader.Loader.LoadNurses | loader.py:25-29 | the nurse list is replaced by the loaded nurses, or by [] for a missing file |
| SplitLoader.Loader.LoadHospitalPatients | loader.py:31-35 | the hospital list is replaced by the loaded patients, or by [] for a missing file |
| SplitLoader.Loader.LoadAmbulatoryPatients | loader.py:37-41 | the ambulatory list is replaced by the loaded patients, or by [] for a missing file |

## Left out

- File and console I/O. A file is the sequence of its lines. The split loader's missing file (`FileNotFoundError`) is `None`. Every `print` diagnostic is left out.
- `inspect.signature` in loader.py: each kind's arity is a constant, its constructor's parameter count (24, 19, 18, 19).
- `__repr__`, the read-only property getters and name mangling: they carry no behaviour.
- Python's full `int()` grammar. `ParseInt` accepts surrounding whitespace, one optional sign and ASCII decimal digits. It does not accept underscores or non-ASCII digits.
- Unicode case mapping and character classes. `lower`/`upper` map only ASCII and basic Cyrillic letters (with `Ё`/`ё`). `\d` is an ASCII digit. `\s` and `strip` use the characters `str.isspace` accepts.
- Inheritance is composition. A subclass holds its parent part as a field, and `super().__init__` / `super().__str__()` become calls on that part.
- Solution.SetBloodType, Solution.SetGraduation, Solution.SetEx, Solution.SetTernum, Solution.SetDisability: their argument type excludes None, because `int(None)` in `check_int` raises `TypeError`, which it does not catch.
- Sol.LowerMember, Sol.UpperMember, Sol.OrEmpty and the pattern and case-folding validators of sol.py take only a string or a falsy value. A truthy non-string makes `.lower()` or `re.fullmatch` raise. That case is modelled one level up: `CreateNurse`, `CreateDoctor`, `CreateHospitalPatient` and `CreateAmbulatoryPatient` return None for it, after the counter has already moved.
- SplitPerson.Person.SetBirthday, SplitPerson.Person.SetPassport, SplitPerson.StoredBirthday, SplitPerson.StoredPassport: they require a string, because `re.fullmatch` raises `TypeError` on anything else.
- SplitPerson.Person.constructor, SplitEmployee.Employee.constructor, SplitPatient.Patient.constructor, SplitDoctor.Doctor.constructor, SplitNurse.Nurse.constructor, SplitHospitalPatient.HospitalPatient.constructor, SplitAmbulatoryPatient.AmbulatoryPatient.constructor: they require a string birthday and passport, for the same reason. The split loader checks this before each construction.
- The split loader models the `TypeError` that a bool birthday or passport propagates out of `load_*` as the `raised` result. In that case the list keeps its old value and the counter has moved past the raising row. The exception object itself is not modelled.
- `__str__` in solution.py builds its `parts` list by repeated `append`. The model writes it as a function that returns the same list, because nothing else observes the intermediate list.
- The class-level counters are one `IdCounter` object passed to each constructor, rather than global state.
