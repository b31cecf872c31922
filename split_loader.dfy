/**
  loader.py: `Loader`, which fills four lists from text files, one object per line.

  `Loader.loader(file, cls)` reads the file line by line. Each line is stripped and split on `;`. An
  empty last field (the one after a trailing `;`) is dropped. The tokens `true`/`да` and `false`/`нет`
  become the bools True and False, whatever their case; every other field stays a string. A line whose
  field count differs from the number of parameters of `cls.__init__` is reported and skipped. Any
  other line becomes `cls(*args)`, appended in file order. Each `load_*` method replaces its list
  with the result; a missing file yields the empty list.

  The file is given as its sequence of lines, or `None` when it does not exist, and the expected
  counts are constants: `inspect` is not modelled. A bool reaching the birthday or passport setter
  makes `re.fullmatch` raise `TypeError`, after `Person.__init__` has taken that object's number.
  The exception leaves `loader` and `load_*` and leaves the list unchanged; the methods report it
  as `raised`.
 */
module SplitLoader {
  import opened Wrappers
  import opened Python
  import opened Ids
  import opened SplitPerson
  import opened SplitEmployee
  import opened SplitDoctor
  import opened SplitNurse
  import opened SplitHospitalPatient
  import opened SplitAmbulatoryPatient

  /** `len(inspect.signature(cls.__init__).parameters) - 1` for the four classes. */
  const DoctorArity: nat := 24
  const NurseArity: nat := 19
  const HospitalArity: nat := 18
  const AmbulatoryArity: nat := 19

  // ------------------------------------------------------------ one line

  /** `raw.strip().split(';')`, then `args = args[:-1]` when the last field is empty. */
  function Fields(raw: string): (r: seq<string>)
  {
    var parts := Split(Strip(raw), ';');
    if parts[|parts| - 1] == "" then parts[..|parts| - 1] else parts
  }

  /** The conversion of one field: `true`/`да` give True and `false`/`нет` give False, in any case; any other text stays. */
  function Token(arg: string): (r: Value)
    ensures r == PBool(true) <==> Lower(arg) == "true" || Lower(arg) == "да"
    ensures r == PBool(false) <==> Lower(arg) == "false" || Lower(arg) == "нет"
    ensures !r.PBool? ==> r == PStr(arg)
  {
    var l := Lower(arg);
    if l == "true" || l == "да" then PBool(true)
    else if l == "false" || l == "нет" then PBool(false)
    else PStr(arg)
  }

  /** The positional arguments one line yields: its fields, converted. */
  function Args(raw: string): (r: seq<Value>)
    ensures |r| == |Fields(raw)|
  {
    var f := Fields(raw);
    seq(|f|, k requires 0 <= k < |f| => Token(f[k]))
  }

  /** The argument lists of all the lines, in file order. */
  function ArgLists(lines: seq<string>): (r: seq<seq<Value>>)
    ensures |r| == |lines|
  {
    seq(|lines|, k requires 0 <= k < |lines| => Args(lines[k]))
  }

  /** The argument lists that have `arity` entries, in their order. */
  function Keep(lists: seq<seq<Value>>, arity: nat): (r: seq<seq<Value>>)
    ensures |r| <= |lists|
    ensures forall k :: 0 <= k < |r| ==> |r[k]| == arity
    decreases |lists|
  {
    if lists == [] then []
    else
      var last := lists[|lists| - 1];
      Keep(lists[..|lists| - 1], arity) + (if |last| == arity then [last] else [])
  }

  /** The argument lists of the lines that have `arity` fields, in file order: the rows `loader` builds from. */
  function Accepted(lines: seq<string>, arity: nat): seq<seq<Value>> {
    Keep(ArgLists(lines), arity)
  }

  /** A row whose construction raises: its birthday or its passport reached `Person.__init__` as a bool. */
  predicate Raises(row: seq<Value>) {
    |row| > 5 && !Constructible(row[2], row[5])
  }

  predicate NoneRaises(rows: seq<seq<Value>>) {
    forall k :: 0 <= k < |rows| ==> !Raises(rows[k])
  }

  /** Row `j` is the first that raises. */
  predicate FirstRaise(rows: seq<seq<Value>>, j: int) {
    0 <= j < |rows| && Raises(rows[j]) && NoneRaises(rows[..j])
  }

  // ------------------------------------------------------------------ lemmas

  /** Adding list `i` to those seen so far adds it exactly when its length is `arity`. */
  lemma KeepNext(lists: seq<seq<Value>>, i: nat, arity: nat)
    requires i < |lists|
    ensures Keep(lists[..i + 1], arity) == Keep(lists[..i], arity) + (if |lists[i]| == arity then [lists[i]] else [])
  {
    assert lists[..i + 1][..i] == lists[..i];
    assert lists[..i + 1][i] == lists[i];
  }

  /** What the first `i` lists keep is the beginning of what all of them keep. */
  lemma {:induction false} KeepPrefix(lists: seq<seq<Value>>, i: nat, arity: nat)
    requires i <= |lists|
    ensures Keep(lists[..i], arity) <= Keep(lists, arity)
    decreases |lists| - i
  {
    if i == |lists| {
      assert lists[..i] == lists;
    } else {
      KeepPrefix(lists, i + 1, arity);
      KeepNext(lists, i, arity);
    }
  }

  /** A list is kept exactly when it is one of the lists and has `arity` entries. */
  lemma {:induction false} KeepMembers(lists: seq<seq<Value>>, arity: nat, row: seq<Value>)
    ensures row in Keep(lists, arity) <==> row in lists && |row| == arity
    decreases |lists|
  {
    if lists != [] {
      var init := lists[..|lists| - 1];
      KeepMembers(init, arity, row);
      assert lists == init + [lists[|lists| - 1]];
    }
  }

  /** A row is accepted exactly when some line yields it with `arity` fields. */
  lemma AcceptedMembers(lines: seq<string>, arity: nat, row: seq<Value>)
    ensures row in Accepted(lines, arity) <==>
      |row| == arity && exists k :: 0 <= k < |lines| && Args(lines[k]) == row
  {
    var lists := ArgLists(lines);
    KeepMembers(lists, arity, row);
    if row in lists {
      var k :| 0 <= k < |lists| && lists[k] == row;
      assert Args(lines[k]) == row;
    }
    if exists k :: 0 <= k < |lines| && Args(lines[k]) == row {
      var k :| 0 <= k < |lines| && Args(lines[k]) == row;
      assert lists[k] == row;
    }
  }

  /** A list that raises, after kept lists none of which did, is the first raising row of all. */
  lemma RaiseAt(lists: seq<seq<Value>>, i: nat, arity: nat, rows: seq<seq<Value>>)
    requires i < |lists| && rows == Keep(lists[..i], arity) && NoneRaises(rows)
    requires |lists[i]| == arity && Raises(lists[i])
    ensures FirstRaise(Keep(lists, arity), |rows|)
  {
    KeepNext(lists, i, arity);
    KeepPrefix(lists, i + 1, arity);
    var all := Keep(lists, arity);
    assert all[|rows|] == lists[i];
    assert all[..|rows|] == rows;
  }

  /** Token conversion ignores case, in Latin and in Cyrillic: upper- or lower-casing a field never changes which bool it
      gives, and a field that gives no bool stays text in whatever case it is written. */
  lemma TokenIgnoresCase(s: string)
    ensures Token(Upper(s)).PBool? <==> Token(s).PBool?
    ensures Token(Lower(s)).PBool? <==> Token(s).PBool?
    ensures Token(s).PBool? ==> Token(Upper(s)) == Token(s) && Token(Lower(s)) == Token(s)
    ensures !Token(s).PBool? ==> Token(Upper(s)) == PStr(Upper(s)) && Token(Lower(s)) == PStr(Lower(s))
  {
    LowerOfUpper(s);
    LowerIdempotent(s);
  }

  /** A row raises exactly when its third or sixth field was one of the bool words. */
  lemma RaisesOnBoolWord(line: string)
    requires |Args(line)| > 5
    ensures Raises(Args(line)) <==> Args(line)[2].PBool? || Args(line)[5].PBool?
    ensures var f := Fields(line); Lower(f[2]) == "да" ==> Raises(Args(line))
  {
  }

  /** What the numeric setters keep of a field read from a file: never a year, and at most a bool for the others. */
  lemma LoadedNumbers(arg: string)
    ensures StoredYear(Token(arg)) == PNone
    ensures StoredExperience(Token(arg)) != PNone ==> Token(arg).PBool?
    ensures StoredTerritorial(Token(arg)) != PNone ==> Token(arg) == PBool(true)
  {
  }

  /** A line ending in `;` has the fields of the text before it: the trailing separator adds no field. */
  lemma TrailingSeparatorDropped(t: string)
    requires t == [] || !IsSpace(t[0])
    ensures Fields(t + ";") == Split(t, ';')
  {
    StripFramed(t + ";");
    SplitAppendSeparator(t, ';');
    var s := Split(t, ';');
    assert (s + [""])[..|s|] == s;
  }

  /** Only one empty field is dropped: a line ending in `;;` keeps an empty last field. */
  lemma DoubleSeparatorKeepsOne(t: string)
    requires t == [] || !IsSpace(t[0])
    ensures Fields(t + ";;") == Split(t, ';') + [""]
  {
    var u := t + ";";
    assert t + ";;" == u + [';'];
    StripFramed(u + [';']);
    SplitAppendSeparator(u, ';');
    SplitAppendSeparator(t, ';');
    var s := Split(t, ';') + [""];
    assert (s + [""])[..|s|] == s;
  }

  /** A text that starts with no whitespace and ends with `;` is its own strip. */
  lemma StripFramed(u: string)
    requires |u| > 0 && !IsSpace(u[0]) && u[|u| - 1] == ';'
    ensures Strip(u) == u
  {
  }

  /** `d` is what `Doctor(*row)` builds with number `n`. */
  predicate DoctorBuilt(d: Doctor, n: int, row: seq<Value>)
    reads d, d.employee, d.employee.person
  {
    |row| == DoctorArity && d.Initialized(n, row[0], row[1], row[2], row[3], row[4], row[5], row[6], row[7],
                                      row[8], row[9], row[10], row[11], row[12], row[13], row[14], row[15],
                                      row[16], row[17], row[18], row[19], row[20], row[21], row[22], row[23])
  }

  /** `objects[k]` is what `Doctor(*rows[k])` builds with number `id0 + k`, for every `k`. */
  predicate DoctorsBuilt(objects: seq<Doctor>, id0: int, rows: seq<seq<Value>>)
    reads set d | d in objects, set d | d in objects :: d.employee, set d | d in objects :: d.employee.person
  {
    |objects| == |rows| && forall k :: 0 <= k < |rows| ==> DoctorBuilt(objects[k], id0 + k, rows[k])
  }

  lemma DoctorsBuiltSnoc(objects: seq<Doctor>, d: Doctor, id0: int, rows: seq<seq<Value>>, row: seq<Value>)
    requires DoctorsBuilt(objects, id0, rows) && DoctorBuilt(d, id0 + |rows|, row)
    ensures DoctorsBuilt(objects + [d], id0, rows + [row])
  {
    forall k | 0 <= k < |rows| + 1
      ensures DoctorBuilt((objects + [d])[k], id0 + k, (rows + [row])[k])
    {
      if k < |rows| {
        assert (objects + [d])[k] == objects[k] && (rows + [row])[k] == rows[k];
      }
    }
  }

  /** `d` is what `Nurse(*row)` builds with number `n`. */
  predicate NurseBuilt(d: Nurse, n: int, row: seq<Value>)
    reads d, d.employee, d.employee.person
  {
    |row| == NurseArity && d.Initialized(n, row[0], row[1], row[2], row[3], row[4], row[5], row[6], row[7],
                                      row[8], row[9], row[10], row[11], row[12], row[13], row[14], row[15],
                                      row[16], row[17], row[18])
  }

  /** `objects[k]` is what `Nurse(*rows[k])` builds with number `id0 + k`, for every `k`. */
  predicate NursesBuilt(objects: seq<Nurse>, id0: int, rows: seq<seq<Value>>)
    reads set d | d in objects, set d | d in objects :: d.employee, set d | d in objects :: d.employee.person
  {
    |objects| == |rows| && forall k :: 0 <= k < |rows| ==> NurseBuilt(objects[k], id0 + k, rows[k])
  }

  lemma NursesBuiltSnoc(objects: seq<Nurse>, d: Nurse, id0: int, rows: seq<seq<Value>>, row: seq<Value>)
    requires NursesBuilt(objects, id0, rows) && NurseBuilt(d, id0 + |rows|, row)
    ensures NursesBuilt(objects + [d], id0, rows + [row])
  {
    forall k | 0 <= k < |rows| + 1
      ensures NurseBuilt((objects + [d])[k], id0 + k, (rows + [row])[k])
    {
      if k < |rows| {
        assert (objects + [d])[k] == objects[k] && (rows + [row])[k] == rows[k];
      }
    }
  }

  /** `d` is what `HospitalPatient(*row)` builds with number `n`. */
  predicate HospitalPatientBuilt(d: HospitalPatient, n: int, row: seq<Value>)
    reads d, d.patient, d.patient.person
  {
    |row| == HospitalArity && d.Initialized(n, row[0], row[1], row[2], row[3], row[4], row[5], row[6], row[7],
                                      row[8], row[9], row[10], row[11], row[12], row[13], row[14], row[15],
                                      row[16], row[17])
  }

  /** `objects[k]` is what `HospitalPatient(*rows[k])` builds with number `id0 + k`, for every `k`. */
  predicate HospitalPatientsBuilt(objects: seq<HospitalPatient>, id0: int, rows: seq<seq<Value>>)
    reads set d | d in objects, set d | d in objects :: d.patient, set d | d in objects :: d.patient.person
  {
    |objects| == |rows| && forall k :: 0 <= k < |rows| ==> HospitalPatientBuilt(objects[k], id0 + k, rows[k])
  }

  lemma HospitalPatientsBuiltSnoc(objects: seq<HospitalPatient>, d: HospitalPatient, id0: int, rows: seq<seq<Value>>, row: seq<Value>)
    requires HospitalPatientsBuilt(objects, id0, rows) && HospitalPatientBuilt(d, id0 + |rows|, row)
    ensures HospitalPatientsBuilt(objects + [d], id0, rows + [row])
  {
    forall k | 0 <= k < |rows| + 1
      ensures HospitalPatientBuilt((objects + [d])[k], id0 + k, (rows + [row])[k])
    {
      if k < |rows| {
        assert (objects + [d])[k] == objects[k] && (rows + [row])[k] == rows[k];
      }
    }
  }

  /** `d` is what `AmbulatoryPatient(*row)` builds with number `n`. */
  predicate AmbulatoryPatientBuilt(d: AmbulatoryPatient, n: int, row: seq<Value>)
    reads d, d.patient, d.patient.person
  {
    |row| == AmbulatoryArity && d.Initialized(n, row[0], row[1], row[2], row[3], row[4], row[5], row[6], row[7],
                                      row[8], row[9], row[10], row[11], row[12], row[13], row[14], row[15],
                                      row[16], row[17], row[18])
  }

  /** `objects[k]` is what `AmbulatoryPatient(*rows[k])` builds with number `id0 + k`, for every `k`. */
  predicate AmbulatoryPatientsBuilt(objects: seq<AmbulatoryPatient>, id0: int, rows: seq<seq<Value>>)
    reads set d | d in objects, set d | d in objects :: d.patient, set d | d in objects :: d.patient.person
  {
    |objects| == |rows| && forall k :: 0 <= k < |rows| ==> AmbulatoryPatientBuilt(objects[k], id0 + k, rows[k])
  }

  lemma AmbulatoryPatientsBuiltSnoc(objects: seq<AmbulatoryPatient>, d: AmbulatoryPatient, id0: int, rows: seq<seq<Value>>, row: seq<Value>)
    requires AmbulatoryPatientsBuilt(objects, id0, rows) && AmbulatoryPatientBuilt(d, id0 + |rows|, row)
    ensures AmbulatoryPatientsBuilt(objects + [d], id0, rows + [row])
  {
    forall k | 0 <= k < |rows| + 1
      ensures AmbulatoryPatientBuilt((objects + [d])[k], id0 + k, (rows + [row])[k])
    {
      if k < |rows| {
        assert (objects + [d])[k] == objects[k] && (rows + [row])[k] == rows[k];
      }
    }
  }

  /** `cls(*args)` for `Doctor`. */
  method MakeDoctor(counter: IdCounter, args: seq<Value>) returns (d: Doctor)
    requires |args| == DoctorArity && Constructible(args[2], args[5])
    modifies counter
    ensures counter.next == old(counter.next) + 1
    ensures DoctorBuilt(d, old(counter.next), args)
  {
    d := new Doctor(counter, args[0], args[1], args[2], args[3], args[4], args[5], args[6], args[7],
                    args[8], args[9], args[10], args[11], args[12], args[13], args[14], args[15],
                    args[16], args[17], args[18], args[19], args[20], args[21], args[22], args[23]);
  }

  /** `cls(*args)` for `Nurse`. */
  method MakeNurse(counter: IdCounter, args: seq<Value>) returns (d: Nurse)
    requires |args| == NurseArity && Constructible(args[2], args[5])
    modifies counter
    ensures counter.next == old(counter.next) + 1
    ensures NurseBuilt(d, old(counter.next), args)
  {
    d := new Nurse(counter, args[0], args[1], args[2], args[3], args[4], args[5], args[6], args[7],
                    args[8], args[9], args[10], args[11], args[12], args[13], args[14], args[15],
                    args[16], args[17], args[18]);
  }

  /** `cls(*args)` for `HospitalPatient`. */
  method MakeHospitalPatient(counter: IdCounter, args: seq<Value>) returns (d: HospitalPatient)
    requires |args| == HospitalArity && Constructible(args[2], args[5])
    modifies counter
    ensures counter.next == old(counter.next) + 1
    ensures HospitalPatientBuilt(d, old(counter.next), args)
  {
    d := new HospitalPatient(counter, args[0], args[1], args[2], args[3], args[4], args[5], args[6], args[7],
                    args[8], args[9], args[10], args[11], args[12], args[13], args[14], args[15],
                    args[16], args[17]);
  }

  /** `cls(*args)` for `AmbulatoryPatient`. */
  method MakeAmbulatoryPatient(counter: IdCounter, args: seq<Value>) returns (d: AmbulatoryPatient)
    requires |args| == AmbulatoryArity && Constructible(args[2], args[5])
    modifies counter
    ensures counter.next == old(counter.next) + 1
    ensures AmbulatoryPatientBuilt(d, old(counter.next), args)
  {
    d := new AmbulatoryPatient(counter, args[0], args[1], args[2], args[3], args[4], args[5], args[6], args[7],
                    args[8], args[9], args[10], args[11], args[12], args[13], args[14], args[15],
                    args[16], args[17], args[18]);
  }

  /** The arguments of one line in `Loader.loader(file, Doctor)`: skipped when its field count is wrong, else built and appended, or raising. */
  method DoctorLine(counter: IdCounter, args: seq<Value>, ghost lists: seq<seq<Value>>, i: nat, ghost id0: int,
                     objects: seq<Doctor>, ghost rows: seq<seq<Value>>)
    returns (objects': seq<Doctor>, ghost rows': seq<seq<Value>>, raised: bool)
    requires i < |lists| && lists[i] == args
    requires rows == Keep(lists[..i], DoctorArity) && NoneRaises(rows)
    requires counter.next == id0 + |rows| && DoctorsBuilt(objects, id0, rows)
    modifies counter
    ensures !raised ==> rows' == Keep(lists[..i + 1], DoctorArity) && NoneRaises(rows')
    ensures !raised ==> counter.next == id0 + |rows'| && DoctorsBuilt(objects', id0, rows')
    ensures raised ==> FirstRaise(Keep(lists, DoctorArity), |rows|) && counter.next == id0 + |rows| + 1
  {
    KeepNext(lists, i, DoctorArity);
    objects', rows', raised := objects, rows, false;
    if |args| == DoctorArity {
      if !Constructible(args[2], args[5]) {
        // the number `Person.__init__` takes before the setter raises
        var unused := counter.Take();
        RaiseAt(lists, i, DoctorArity, rows);
        raised := true;
        return;
      }
      var d := MakeDoctor(counter, args);
      DoctorsBuiltSnoc(objects, d, id0, rows, args);
      objects', rows' := objects + [d], rows + [args];
    }
  }

  /** `Loader.loader(file, Doctor)`: the accepted lines become objects with consecutive numbers, until a row raises. */
  method BuildDoctors(counter: IdCounter, lines: seq<string>) returns (objects: seq<Doctor>, raised: bool)
    modifies counter
    ensures raised <==> !NoneRaises(Accepted(lines, DoctorArity))
    ensures var rows := Accepted(lines, DoctorArity); !raised ==>
      counter.next == old(counter.next) + |rows| && DoctorsBuilt(objects, old(counter.next), rows)
    ensures raised ==> exists j :: FirstRaise(Accepted(lines, DoctorArity), j) && counter.next == old(counter.next) + j + 1
  {
    ghost var id0 := counter.next;
    ghost var lists := ArgLists(lines);
    ghost var rows: seq<seq<Value>> := [];
    objects := [];
    raised := false;
    var i := 0;
    while i < |lines|
      invariant 0 <= i <= |lines|
      invariant rows == Keep(lists[..i], DoctorArity) && NoneRaises(rows)
      invariant counter.next == id0 + |rows|
      invariant DoctorsBuilt(objects, id0, rows)
    {
      var args := Args(lines[i]);
      objects, rows, raised := DoctorLine(counter, args, lists, i, id0, objects, rows);
      if raised {
        return;
      }
      i := i + 1;
    }
    assert lists[..i] == lists;
  }

  /** The arguments of one line in `Loader.loader(file, Nurse)`: skipped when its field count is wrong, else built and appended, or raising. */
  method NurseLine(counter: IdCounter, args: seq<Value>, ghost lists: seq<seq<Value>>, i: nat, ghost id0: int,
                     objects: seq<Nurse>, ghost rows: seq<seq<Value>>)
    returns (objects': seq<Nurse>, ghost rows': seq<seq<Value>>, raised: bool)
    requires i < |lists| && lists[i] == args
    requires rows == Keep(lists[..i], NurseArity) && NoneRaises(rows)
    requires counter.next == id0 + |rows| && NursesBuilt(objects, id0, rows)
    modifies counter
    ensures !raised ==> rows' == Keep(lists[..i + 1], NurseArity) && NoneRaises(rows')
    ensures !raised ==> counter.next == id0 + |rows'| && NursesBuilt(objects', id0, rows')
    ensures raised ==> FirstRaise(Keep(lists, NurseArity), |rows|) && counter.next == id0 + |rows| + 1
  {
    KeepNext(lists, i, NurseArity);
    objects', rows', raised := objects, rows, false;
    if |args| == NurseArity {
      if !Constructible(args[2], args[5]) {
        // the number `Person.__init__` takes before the setter raises
        var unused := counter.Take();
        RaiseAt(lists, i, NurseArity, rows);
        raised := true;
        return;
      }
      var d := MakeNurse(counter, args);
      NursesBuiltSnoc(objects, d, id0, rows, args);
      objects', rows' := objects + [d], rows + [args];
    }
  }

  /** `Loader.loader(file, Nurse)`: the accepted lines become objects with consecutive numbers, until a row raises. */
  method BuildNurses(counter: IdCounter, lines: seq<string>) returns (objects: seq<Nurse>, raised: bool)
    modifies counter
    ensures raised <==> !NoneRaises(Accepted(lines, NurseArity))
    ensures var rows := Accepted(lines, NurseArity); !raised ==>
      counter.next == old(counter.next) + |rows| && NursesBuilt(objects, old(counter.next), rows)
    ensures raised ==> exists j :: FirstRaise(Accepted(lines, NurseArity), j) && counter.next == old(counter.next) + j + 1
  {
    ghost var id0 := counter.next;
    ghost var lists := ArgLists(lines);
    ghost var rows: seq<seq<Value>> := [];
    objects := [];
    raised := false;
    var i := 0;
    while i < |lines|
      invariant 0 <= i <= |lines|
      invariant rows == Keep(lists[..i], NurseArity) && NoneRaises(rows)
      invariant counter.next == id0 + |rows|
      invariant NursesBuilt(objects, id0, rows)
    {
      var args := Args(lines[i]);
      objects, rows, raised := NurseLine(counter, args, lists, i, id0, objects, rows);
      if raised {
        return;
      }
      i := i + 1;
    }
    assert lists[..i] == lists;
  }

  /** The arguments of one line in `Loader.loader(file, HospitalPatient)`: skipped when its field count is wrong, else built and appended, or raising. */
  method HospitalPatientLine(counter: IdCounter, args: seq<Value>, ghost lists: seq<seq<Value>>, i: nat, ghost id0: int,
                     objects: seq<HospitalPatient>, ghost rows: seq<seq<Value>>)
    returns (objects': seq<HospitalPatient>, ghost rows': seq<seq<Value>>, raised: bool)
    requires i < |lists| && lists[i] == args
    requires rows == Keep(lists[..i], HospitalArity) && NoneRaises(rows)
    requires counter.next == id0 + |rows| && HospitalPatientsBuilt(objects, id0, rows)
    modifies counter
    ensures !raised ==> rows' == Keep(lists[..i + 1], HospitalArity) && NoneRaises(rows')
    ensures !raised ==> counter.next == id0 + |rows'| && HospitalPatientsBuilt(objects', id0, rows')
    ensures raised ==> FirstRaise(Keep(lists, HospitalArity), |rows|) && counter.next == id0 + |rows| + 1
  {
    KeepNext(lists, i, HospitalArity);
    objects', rows', raised := objects, rows, false;
    if |args| == HospitalArity {
      if !Constructible(args[2], args[5]) {
        // the number `Person.__init__` takes before the setter raises
        var unused := counter.Take();
        RaiseAt(lists, i, HospitalArity, rows);
        raised := true;
        return;
      }
      var d := MakeHospitalPatient(counter, args);
      HospitalPatientsBuiltSnoc(objects, d, id0, rows, args);
      objects', rows' := objects + [d], rows + [args];
    }
  }

  /** `Loader.loader(file, HospitalPatient)`: the accepted lines become objects with consecutive numbers, until a row raises. */
  method BuildHospitalPatients(counter: IdCounter, lines: seq<string>) returns (objects: seq<HospitalPatient>, raised: bool)
    modifies counter
    ensures raised <==> !NoneRaises(Accepted(lines, HospitalArity))
    ensures var rows := Accepted(lines, HospitalArity); !raised ==>
      counter.next == old(counter.next) + |rows| && HospitalPatientsBuilt(objects, old(counter.next), rows)
    ensures raised ==> exists j :: FirstRaise(Accepted(lines, HospitalArity), j) && counter.next == old(counter.next) + j + 1
  {
    ghost var id0 := counter.next;
    ghost var lists := ArgLists(lines);
    ghost var rows: seq<seq<Value>> := [];
    objects := [];
    raised := false;
    var i := 0;
    while i < |lines|
      invariant 0 <= i <= |lines|
      invariant rows == Keep(lists[..i], HospitalArity) && NoneRaises(rows)
      invariant counter.next == id0 + |rows|
      invariant HospitalPatientsBuilt(objects, id0, rows)
    {
      var args := Args(lines[i]);
      objects, rows, raised := HospitalPatientLine(counter, args, lists, i, id0, objects, rows);
      if raised {
        return;
      }
      i := i + 1;
    }
    assert lists[..i] == lists;
  }

  /** The arguments of one line in `Loader.loader(file, AmbulatoryPatient)`: skipped when its field count is wrong, else built and appended, or raising. */
  method AmbulatoryPatientLine(counter: IdCounter, args: seq<Value>, ghost lists: seq<seq<Value>>, i: nat, ghost id0: int,
                     objects: seq<AmbulatoryPatient>, ghost rows: seq<seq<Value>>)
    returns (objects': seq<AmbulatoryPatient>, ghost rows': seq<seq<Value>>, raised: bool)
    requires i < |lists| && lists[i] == args
    requires rows == Keep(lists[..i], AmbulatoryArity) && NoneRaises(rows)
    requires counter.next == id0 + |rows| && AmbulatoryPatientsBuilt(objects, id0, rows)
    modifies counter
    ensures !raised ==> rows' == Keep(lists[..i + 1], AmbulatoryArity) && NoneRaises(rows')
    ensures !raised ==> counter.next == id0 + |rows'| && AmbulatoryPatientsBuilt(objects', id0, rows')
    ensures raised ==> FirstRaise(Keep(lists, AmbulatoryArity), |rows|) && counter.next == id0 + |rows| + 1
  {
    KeepNext(lists, i, AmbulatoryArity);
    objects', rows', raised := objects, rows, false;
    if |args| == AmbulatoryArity {
      if !Constructible(args[2], args[5]) {
        // the number `Person.__init__` takes before the setter raises
        var unused := counter.Take();
        RaiseAt(lists, i, AmbulatoryArity, rows);
        raised := true;
        return;
      }
      var d := MakeAmbulatoryPatient(counter, args);
      AmbulatoryPatientsBuiltSnoc(objects, d, id0, rows, args);
      objects', rows' := objects + [d], rows + [args];
    }
  }

  /** `Loader.loader(file, AmbulatoryPatient)`: the accepted lines become objects with consecutive numbers, until a row raises. */
  method BuildAmbulatoryPatients(counter: IdCounter, lines: seq<string>) returns (objects: seq<AmbulatoryPatient>, raised: bool)
    modifies counter
    ensures raised <==> !NoneRaises(Accepted(lines, AmbulatoryArity))
    ensures var rows := Accepted(lines, AmbulatoryArity); !raised ==>
      counter.next == old(counter.next) + |rows| && AmbulatoryPatientsBuilt(objects, old(counter.next), rows)
    ensures raised ==> exists j :: FirstRaise(Accepted(lines, AmbulatoryArity), j) && counter.next == old(counter.next) + j + 1
  {
    ghost var id0 := counter.next;
    ghost var lists := ArgLists(lines);
    ghost var rows: seq<seq<Value>> := [];
    objects := [];
    raised := false;
    var i := 0;
    while i < |lines|
      invariant 0 <= i <= |lines|
      invariant rows == Keep(lists[..i], AmbulatoryArity) && NoneRaises(rows)
      invariant counter.next == id0 + |rows|
      invariant AmbulatoryPatientsBuilt(objects, id0, rows)
    {
      var args := Args(lines[i]);
      objects, rows, raised := AmbulatoryPatientLine(counter, args, lists, i, id0, objects, rows);
      if raised {
        return;
      }
      i := i + 1;
    }
    assert lists[..i] == lists;
  }

  class Loader {
    var doctors: seq<Doctor>
    var nurses: seq<Nurse>
    var hospitalPatients: seq<HospitalPatient>
    var ambulatoryPatients: seq<AmbulatoryPatient>

    constructor ()
      ensures doctors == [] && nurses == [] && hospitalPatients == [] && ambulatoryPatients == []
    {
      doctors := [];
      nurses := [];
      hospitalPatients := [];
      ambulatoryPatients := [];
    }

    /**
      `load_doctors`: the list is replaced by what `loader` returns. A missing file (`None`) gives the empty
      list, as the `FileNotFoundError` handler does; when building a row raises, the list keeps its old contents.
     */
    method LoadDoctors(counter: IdCounter, file: Option<seq<string>>) returns (raised: bool)
      modifies this`doctors, counter
      ensures file.None? ==> !raised && doctors == [] && counter.next == old(counter.next)
      ensures file.Some? ==> (raised <==> !NoneRaises(Accepted(file.value, DoctorArity)))
      ensures file.Some? && !raised ==> var rows := Accepted(file.value, DoctorArity);
        counter.next == old(counter.next) + |rows| && DoctorsBuilt(doctors, old(counter.next), rows)
      ensures raised ==> doctors == old(doctors)
      ensures raised ==> exists j :: FirstRaise(Accepted(file.value, DoctorArity), j) && counter.next == old(counter.next) + j + 1
    {
      if file.None? {
        doctors := [];
        return false;
      }
      var objects;
      objects, raised := BuildDoctors(counter, file.value);
      if !raised {
        doctors := objects;
      }
    }

    /**
      `load_nurses`: the list is replaced by what `loader` returns. A missing file (`None`) gives the empty
      list, as the `FileNotFoundError` handler does; when building a row raises, the list keeps its old contents.
     */
    method LoadNurses(counter: IdCounter, file: Option<seq<string>>) returns (raised: bool)
      modifies this`nurses, counter
      ensures file.None? ==> !raised && nurses == [] && counter.next == old(counter.next)
      ensures file.Some? ==> (raised <==> !NoneRaises(Accepted(file.value, NurseArity)))
      ensures file.Some? && !raised ==> var rows := Accepted(file.value, NurseArity);
        counter.next == old(counter.next) + |rows| && NursesBuilt(nurses, old(counter.next), rows)
      ensures raised ==> nurses == old(nurses)
      ensures raised ==> exists j :: FirstRaise(Accepted(file.value, NurseArity), j) && counter.next == old(counter.next) + j + 1
    {
      if file.None? {
        nurses := [];
        return false;
      }
      var objects;
      objects, raised := BuildNurses(counter, file.value);
      if !raised {
        nurses := objects;
      }
    }

    /**
      `load_hospital_patients`: the list is replaced by what `loader` returns. A missing file (`None`) gives the empty
      list, as the `FileNotFoundError` handler does; when building a row raises, the list keeps its old contents.
     */
    method LoadHospitalPatients(counter: IdCounter, file: Option<seq<string>>) returns (raised: bool)
      modifies this`hospitalPatients, counter
      ensures file.None? ==> !raised && hospitalPatients == [] && counter.next == old(counter.next)
      ensures file.Some? ==> (raised <==> !NoneRaises(Accepted(file.value, HospitalArity)))
      ensures file.Some? && !raised ==> var rows := Accepted(file.value, HospitalArity);
        counter.next == old(counter.next) + |rows| && HospitalPatientsBuilt(hospitalPatients, old(counter.next), rows)
      ensures raised ==> hospitalPatients == old(hospitalPatients)
      ensures raised ==> exists j :: FirstRaise(Accepted(file.value, HospitalArity), j) && counter.next == old(counter.next) + j + 1
    {
      if file.None? {
        hospitalPatients := [];
        return false;
      }
      var objects;
      objects, raised := BuildHospitalPatients(counter, file.value);
      if !raised {
        hospitalPatients := objects;
      }
    }

    /**
      `load_ambulatory_patients`: the list is replaced by what `loader` returns. A missing file (`None`) gives the empty
      list, as the `FileNotFoundError` handler does; when building a row raises, the list keeps its old contents.
     */
    method LoadAmbulatoryPatients(counter: IdCounter, file: Option<seq<string>>) returns (raised: bool)
      modifies this`ambulatoryPatients, counter
      ensures file.None? ==> !raised && ambulatoryPatients == [] && counter.next == old(counter.next)
      ensures file.Some? ==> (raised <==> !NoneRaises(Accepted(file.value, AmbulatoryArity)))
      ensures file.Some? && !raised ==> var rows := Accepted(file.value, AmbulatoryArity);
        counter.next == old(counter.next) + |rows| && AmbulatoryPatientsBuilt(ambulatoryPatients, old(counter.next), rows)
      ensures raised ==> ambulatoryPatients == old(ambulatoryPatients)
      ensures raised ==> exists j :: FirstRaise(Accepted(file.value, AmbulatoryArity), j) && counter.next == old(counter.next) + j + 1
    {
      if file.None? {
        ambulatoryPatients := [];
        return false;
      }
      var objects;
      objects, raised := BuildAmbulatoryPatients(counter, file.value);
      if !raised {
        ambulatoryPatients := objects;
      }
    }
  }
}
