/**
  The `Loader` of sol.py: four lists that the `load_*` methods extend, one record per line of a file
  whose line, stripped of surrounding whitespace, splits on `;` into exactly the arity of that kind.
  The file is given as the sequence of its lines. Because every field is a string, no validator
  raises and every accepted line yields its record.
 */
module SolLoader {
  import opened Python
  import opened Ids
  import opened Sol

  const HospitalArity: nat := 19
  const AmbulatoryArity: nat := 20
  const NurseArity: nat := 20
  const DoctorArity: nat := 25

  /** The fields of every line whose split has exactly `arity` fields, in file order. */
  function Accepted(lines: seq<string>, arity: nat): (rows: seq<seq<string>>)
    ensures |rows| <= |lines|
    ensures forall k :: 0 <= k < |rows| ==> |rows[k]| == arity
    decreases |lines|
  {
    if lines == [] then []
    else
      var prev := Accepted(lines[..|lines| - 1], arity);
      var data := Split(Strip(lines[|lines| - 1]), ';');
      if |data| == arity then prev + [data] else prev
  }

  /** Loading two files one after the other accepts the rows of the first, then those of the second. */
  lemma {:induction false} AcceptedAppend(a: seq<string>, b: seq<string>, arity: nat)
    ensures Accepted(a + b, arity) == Accepted(a, arity) + Accepted(b, arity)
    decreases |b|
  {
    if b == [] {
      assert a + b == a;
    } else {
      var init := b[..|b| - 1];
      AcceptedAppend(a, init, arity);
      assert (a + b)[..|a + b| - 1] == a + init;
      assert (a + b)[|a + b| - 1] == b[|b| - 1];
    }
  }

  /** A row is accepted exactly when some line splits into it and it has the arity. */
  lemma {:induction false} AcceptedMembers(lines: seq<string>, arity: nat, r: seq<string>)
    ensures r in Accepted(lines, arity) <==> |r| == arity && exists k :: 0 <= k < |lines| && Split(Strip(lines[k]), ';') == r
    decreases |lines|
  {
    if lines != [] {
      var init := lines[..|lines| - 1];
      AcceptedMembers(init, arity, r);
      if |r| == arity && (exists k :: 0 <= k < |lines| && Split(Strip(lines[k]), ';') == r) {
        var k :| 0 <= k < |lines| && Split(Strip(lines[k]), ';') == r;
        if k < |lines| - 1 {
          assert init[k] == lines[k];
        }
      }
      if exists k :: 0 <= k < |init| && Split(Strip(init[k]), ';') == r {
        var k :| 0 <= k < |init| && Split(Strip(init[k]), ';') == r;
        assert lines[k] == init[k];
      }
    }
  }

  function PersonArgsOf(d: seq<string>): PersonArgs
    requires |d| >= 9
  {
    PersonArgs(PStr(d[0]), PStr(d[1]), PStr(d[2]), PStr(d[3]), PStr(d[4]), PStr(d[5]), PStr(d[6]),
               PStr(d[7]), PStr(d[8]))
  }

  function EmployeeArgsOf(d: seq<string>): EmployeeArgs
    requires |d| >= 16
  {
    EmployeeArgs(PStr(d[9]), PStr(d[10]), PStr(d[11]), PStr(d[12]), PStr(d[13]), PStr(d[14]), PStr(d[15]))
  }

  function PatientArgsOf(d: seq<string>): PatientArgs
    requires |d| >= 15
  {
    PatientArgs(PStr(d[9]), PStr(d[10]), PStr(d[11]), PStr(d[12]), PStr(d[13]), PStr(d[14]))
  }

  function NurseRow(id: int, d: seq<string>): Nurse
    requires |d| == NurseArity
  {
    Nurse(Employee(Person(id, PersonArgsOf(d)), EmployeeArgsOf(d)), PStr(d[16]), PStr(d[17]), PStr(d[18]))
  }

  function DoctorRow(id: int, d: seq<string>): Doctor
    requires |d| == DoctorArity
  {
    Doctor(Employee(Person(id, PersonArgsOf(d)), EmployeeArgsOf(d)), PStr(d[16]), PStr(d[17]), PStr(d[18]),
           PStr(d[19]), PStr(d[20]), PStr(d[21]), PStr(d[22]), PStr(d[23]))
  }

  function HospitalRow(id: int, d: seq<string>): HospitalPatient
    requires |d| == HospitalArity
  {
    HospitalPatient(Patient(Person(id, PersonArgsOf(d)), PatientArgsOf(d)), PStr(d[15]), PStr(d[16]), PStr(d[17]))
  }

  function AmbulatoryRow(id: int, d: seq<string>): AmbulatoryPatient
    requires |d| == AmbulatoryArity
  {
    AmbulatoryPatient(Patient(Person(id, PersonArgsOf(d)), PatientArgsOf(d)), PStr(d[15]), PStr(d[16]), PStr(d[17]),
                      PStr(d[18]))
  }

  /** The nurses a `load_nurses` call appends for `lines`, numbered on from `id`. */
  function LoadedNurses(id: int, lines: seq<string>): seq<Nurse>
    decreases |lines|
  {
    if lines == [] then []
    else
      var prev := LoadedNurses(id, lines[..|lines| - 1]);
      var data := Split(Strip(lines[|lines| - 1]), ';');
      if |data| == NurseArity then prev + [NurseRow(id + |prev|, data)] else prev
  }

  lemma LoadedNursesNext(id: int, lines: seq<string>, i: nat)
    requires i < |lines|
    ensures var prev := LoadedNurses(id, lines[..i]);
      var data := Split(Strip(lines[i]), ';');
      LoadedNurses(id, lines[..i + 1]) == prev + (if |data| == NurseArity then [NurseRow(id + |prev|, data)] else [])
  {
    assert lines[..i + 1][..i] == lines[..i];
    assert lines[..i + 1][i] == lines[i];
  }

  /** The k-th loaded record is built from the k-th accepted row and carries number `id + k`. */
  lemma {:induction false} LoadedNursesAccepted(id: int, lines: seq<string>)
    ensures |LoadedNurses(id, lines)| == |Accepted(lines, NurseArity)|
    ensures forall k :: 0 <= k < |LoadedNurses(id, lines)| ==>
      LoadedNurses(id, lines)[k] == NurseRow(id + k, Accepted(lines, NurseArity)[k]) && LoadedNurses(id, lines)[k].employee.person.id == id + k
    decreases |lines|
  {
    if lines != [] {
      LoadedNursesAccepted(id, lines[..|lines| - 1]);
    }
  }

  /** The doctors a `load_doctors` call appends for `lines`, numbered on from `id`. */
  function LoadedDoctors(id: int, lines: seq<string>): seq<Doctor>
    decreases |lines|
  {
    if lines == [] then []
    else
      var prev := LoadedDoctors(id, lines[..|lines| - 1]);
      var data := Split(Strip(lines[|lines| - 1]), ';');
      if |data| == DoctorArity then prev + [DoctorRow(id + |prev|, data)] else prev
  }

  lemma LoadedDoctorsNext(id: int, lines: seq<string>, i: nat)
    requires i < |lines|
    ensures var prev := LoadedDoctors(id, lines[..i]);
      var data := Split(Strip(lines[i]), ';');
      LoadedDoctors(id, lines[..i + 1]) == prev + (if |data| == DoctorArity then [DoctorRow(id + |prev|, data)] else [])
  {
    assert lines[..i + 1][..i] == lines[..i];
    assert lines[..i + 1][i] == lines[i];
  }

  /** The k-th loaded record is built from the k-th accepted row and carries number `id + k`. */
  lemma {:induction false} LoadedDoctorsAccepted(id: int, lines: seq<string>)
    ensures |LoadedDoctors(id, lines)| == |Accepted(lines, DoctorArity)|
    ensures forall k :: 0 <= k < |LoadedDoctors(id, lines)| ==>
      LoadedDoctors(id, lines)[k] == DoctorRow(id + k, Accepted(lines, DoctorArity)[k]) && LoadedDoctors(id, lines)[k].employee.person.id == id + k
    decreases |lines|
  {
    if lines != [] {
      LoadedDoctorsAccepted(id, lines[..|lines| - 1]);
    }
  }

  /** The hospital patients a `load_hospital_patients` call appends for `lines`, numbered on from `id`. */
  function LoadedHospitalPatients(id: int, lines: seq<string>): seq<HospitalPatient>
    decreases |lines|
  {
    if lines == [] then []
    else
      var prev := LoadedHospitalPatients(id, lines[..|lines| - 1]);
      var data := Split(Strip(lines[|lines| - 1]), ';');
      if |data| == HospitalArity then prev + [HospitalRow(id + |prev|, data)] else prev
  }

  lemma LoadedHospitalPatientsNext(id: int, lines: seq<string>, i: nat)
    requires i < |lines|
    ensures var prev := LoadedHospitalPatients(id, lines[..i]);
      var data := Split(Strip(lines[i]), ';');
      LoadedHospitalPatients(id, lines[..i + 1]) == prev + (if |data| == HospitalArity then [HospitalRow(id + |prev|, data)] else [])
  {
    assert lines[..i + 1][..i] == lines[..i];
    assert lines[..i + 1][i] == lines[i];
  }

  /** The k-th loaded record is built from the k-th accepted row and carries number `id + k`. */
  lemma {:induction false} LoadedHospitalPatientsAccepted(id: int, lines: seq<string>)
    ensures |LoadedHospitalPatients(id, lines)| == |Accepted(lines, HospitalArity)|
    ensures forall k :: 0 <= k < |LoadedHospitalPatients(id, lines)| ==>
      LoadedHospitalPatients(id, lines)[k] == HospitalRow(id + k, Accepted(lines, HospitalArity)[k]) && LoadedHospitalPatients(id, lines)[k].patient.person.id == id + k
    decreases |lines|
  {
    if lines != [] {
      LoadedHospitalPatientsAccepted(id, lines[..|lines| - 1]);
    }
  }

  /** The ambulatory patients a `load_ambulatory_patients` call appends for `lines`, numbered on from `id`. */
  function LoadedAmbulatoryPatients(id: int, lines: seq<string>): seq<AmbulatoryPatient>
    decreases |lines|
  {
    if lines == [] then []
    else
      var prev := LoadedAmbulatoryPatients(id, lines[..|lines| - 1]);
      var data := Split(Strip(lines[|lines| - 1]), ';');
      if |data| == AmbulatoryArity then prev + [AmbulatoryRow(id + |prev|, data)] else prev
  }

  lemma LoadedAmbulatoryPatientsNext(id: int, lines: seq<string>, i: nat)
    requires i < |lines|
    ensures var prev := LoadedAmbulatoryPatients(id, lines[..i]);
      var data := Split(Strip(lines[i]), ';');
      LoadedAmbulatoryPatients(id, lines[..i + 1]) == prev + (if |data| == AmbulatoryArity then [AmbulatoryRow(id + |prev|, data)] else [])
  {
    assert lines[..i + 1][..i] == lines[..i];
    assert lines[..i + 1][i] == lines[i];
  }

  /** The k-th loaded record is built from the k-th accepted row and carries number `id + k`. */
  lemma {:induction false} LoadedAmbulatoryPatientsAccepted(id: int, lines: seq<string>)
    ensures |LoadedAmbulatoryPatients(id, lines)| == |Accepted(lines, AmbulatoryArity)|
    ensures forall k :: 0 <= k < |LoadedAmbulatoryPatients(id, lines)| ==>
      LoadedAmbulatoryPatients(id, lines)[k] == AmbulatoryRow(id + k, Accepted(lines, AmbulatoryArity)[k]) && LoadedAmbulatoryPatients(id, lines)[k].patient.person.id == id + k
    decreases |lines|
  {
    if lines != [] {
      LoadedAmbulatoryPatientsAccepted(id, lines[..|lines| - 1]);
    }
  }

  /** The construction call of `load_nurses` for one accepted row. */
  method NurseFromRow(counter: IdCounter, data: seq<string>) returns (n: Nurse)
    requires |data| == NurseArity
    modifies counter
    ensures n == NurseRow(old(counter.next), data)
    ensures counter.next == old(counter.next) + 1
  {
    var r := CreateNurse(counter, PersonArgsOf(data), EmployeeArgsOf(data), PStr(data[16]), PStr(data[17]), PStr(data[18]));
    n := r.value;
  }

  /** The construction call of `load_doctors` for one accepted row. */
  method DoctorFromRow(counter: IdCounter, data: seq<string>) returns (d: Doctor)
    requires |data| == DoctorArity
    modifies counter
    ensures d == DoctorRow(old(counter.next), data)
    ensures counter.next == old(counter.next) + 1
  {
    var r := CreateDoctor(counter, PersonArgsOf(data), EmployeeArgsOf(data), PStr(data[16]), PStr(data[17]), PStr(data[18]),
                            PStr(data[19]), PStr(data[20]), PStr(data[21]), PStr(data[22]), PStr(data[23]));
    d := r.value;
  }

  /** The construction call of `load_hospital_patients` for one accepted row. */
  method HospitalPatientFromRow(counter: IdCounter, data: seq<string>) returns (h: HospitalPatient)
    requires |data| == HospitalArity
    modifies counter
    ensures h == HospitalRow(old(counter.next), data)
    ensures counter.next == old(counter.next) + 1
  {
    var r := CreateHospitalPatient(counter, PersonArgsOf(data), PatientArgsOf(data), PStr(data[15]), PStr(data[16]),
                                     PStr(data[17]));
    h := r.value;
  }

  /** The construction call of `load_ambulatory_patients` for one accepted row. */
  method AmbulatoryPatientFromRow(counter: IdCounter, data: seq<string>) returns (m: AmbulatoryPatient)
    requires |data| == AmbulatoryArity
    modifies counter
    ensures m == AmbulatoryRow(old(counter.next), data)
    ensures counter.next == old(counter.next) + 1
  {
    var r := CreateAmbulatoryPatient(counter, PersonArgsOf(data), PatientArgsOf(data), PStr(data[15]), PStr(data[16]),
                                       PStr(data[17]), PStr(data[18]));
    m := r.value;
  }

  /** The last field of a row does not reach the record. */
  lemma LastFieldUnused(id: int, d: seq<string>, x: string)
    requires |d| == NurseArity
    ensures NurseRow(id, d[NurseArity - 1 := x]) == NurseRow(id, d)
    ensures AmbulatoryRow(id, d[AmbulatoryArity - 1 := x]) == AmbulatoryRow(id, d)
  {
  }

  lemma LastFieldUnusedDoctor(id: int, d: seq<string>, x: string)
    requires |d| == DoctorArity
    ensures DoctorRow(id, d[DoctorArity - 1 := x]) == DoctorRow(id, d)
  {
  }

  lemma LastFieldUnusedHospital(id: int, d: seq<string>, x: string)
    requires |d| == HospitalArity
    ensures HospitalRow(id, d[HospitalArity - 1 := x]) == HospitalRow(id, d)
  {
  }

  class Loader {
    var hospitalPatients: seq<HospitalPatient>
    var ambulatoryPatients: seq<AmbulatoryPatient>
    var nurses: seq<Nurse>
    var doctors: seq<Doctor>

    constructor ()
      ensures hospitalPatients == [] && ambulatoryPatients == [] && nurses == [] && doctors == []
    {
      hospitalPatients := [];
      ambulatoryPatients := [];
      nurses := [];
      doctors := [];
    }

    /** `load_nurses`: the records of the accepted lines are appended in file order, numbered on from the counter. */
    method LoadNurses(counter: IdCounter, lines: seq<string>)
      modifies this, counter
      ensures nurses == old(nurses) + LoadedNurses(old(counter.next), lines)
      ensures counter.next == old(counter.next) + |LoadedNurses(old(counter.next), lines)|
      ensures doctors == old(doctors) && hospitalPatients == old(hospitalPatients) && ambulatoryPatients == old(ambulatoryPatients)
    {
      ghost var id0 := counter.next;
      var loaded := nurses;
      var i := 0;
      while i < |lines|
        modifies counter
        invariant 0 <= i <= |lines|
        invariant counter.next == id0 + |LoadedNurses(id0, lines[..i])|
        invariant loaded == old(nurses) + LoadedNurses(id0, lines[..i])
      {
        var data := Split(Strip(lines[i]), ';');
        LoadedNursesNext(id0, lines, i);
        if |data| == NurseArity {
          var n := NurseFromRow(counter, data);
          loaded := loaded + [n];
        }
        i := i + 1;
      }
      assert lines[..i] == lines;
      nurses := loaded;
    }

    /** `load_doctors`: the records of the accepted lines are appended in file order, numbered on from the counter. */
    method LoadDoctors(counter: IdCounter, lines: seq<string>)
      modifies this, counter
      ensures doctors == old(doctors) + LoadedDoctors(old(counter.next), lines)
      ensures counter.next == old(counter.next) + |LoadedDoctors(old(counter.next), lines)|
      ensures nurses == old(nurses) && hospitalPatients == old(hospitalPatients) && ambulatoryPatients == old(ambulatoryPatients)
    {
      ghost var id0 := counter.next;
      var loaded := doctors;
      var i := 0;
      while i < |lines|
        modifies counter
        invariant 0 <= i <= |lines|
        invariant counter.next == id0 + |LoadedDoctors(id0, lines[..i])|
        invariant loaded == old(doctors) + LoadedDoctors(id0, lines[..i])
      {
        var data := Split(Strip(lines[i]), ';');
        LoadedDoctorsNext(id0, lines, i);
        if |data| == DoctorArity {
          var d := DoctorFromRow(counter, data);
          loaded := loaded + [d];
        }
        i := i + 1;
      }
      assert lines[..i] == lines;
      doctors := loaded;
    }

    /** `load_hospital_patients`: the records of the accepted lines are appended in file order, numbered on from the counter. */
    method LoadHospitalPatients(counter: IdCounter, lines: seq<string>)
      modifies this, counter
      ensures hospitalPatients == old(hospitalPatients) + LoadedHospitalPatients(old(counter.next), lines)
      ensures counter.next == old(counter.next) + |LoadedHospitalPatients(old(counter.next), lines)|
      ensures nurses == old(nurses) && doctors == old(doctors) && ambulatoryPatients == old(ambulatoryPatients)
    {
      ghost var id0 := counter.next;
      var loaded := hospitalPatients;
      var i := 0;
      while i < |lines|
        modifies counter
        invariant 0 <= i <= |lines|
        invariant counter.next == id0 + |LoadedHospitalPatients(id0, lines[..i])|
        invariant loaded == old(hospitalPatients) + LoadedHospitalPatients(id0, lines[..i])
      {
        var data := Split(Strip(lines[i]), ';');
        LoadedHospitalPatientsNext(id0, lines, i);
        if |data| == HospitalArity {
          var h := HospitalPatientFromRow(counter, data);
          loaded := loaded + [h];
        }
        i := i + 1;
      }
      assert lines[..i] == lines;
      hospitalPatients := loaded;
    }

    /** `load_ambulatory_patients`: the records of the accepted lines are appended in file order, numbered on from the counter. */
    method LoadAmbulatoryPatients(counter: IdCounter, lines: seq<string>)
      modifies this, counter
      ensures ambulatoryPatients == old(ambulatoryPatients) + LoadedAmbulatoryPatients(old(counter.next), lines)
      ensures counter.next == old(counter.next) + |LoadedAmbulatoryPatients(old(counter.next), lines)|
      ensures nurses == old(nurses) && doctors == old(doctors) && hospitalPatients == old(hospitalPatients)
    {
      ghost var id0 := counter.next;
      var loaded := ambulatoryPatients;
      var i := 0;
      while i < |lines|
        modifies counter
        invariant 0 <= i <= |lines|
        invariant counter.next == id0 + |LoadedAmbulatoryPatients(id0, lines[..i])|
        invariant loaded == old(ambulatoryPatients) + LoadedAmbulatoryPatients(id0, lines[..i])
      {
        var data := Split(Strip(lines[i]), ';');
        LoadedAmbulatoryPatientsNext(id0, lines, i);
        if |data| == AmbulatoryArity {
          var m := AmbulatoryPatientFromRow(counter, data);
          loaded := loaded + [m];
        }
        i := i + 1;
      }
      assert lines[..i] == lines;
      ambulatoryPatients := loaded;
    }
  }
}
