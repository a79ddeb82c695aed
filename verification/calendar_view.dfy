/** The admin calendar: which appointments fall on a day, the three upcoming
    appointments, the month first shown, and stepping between months.
    Instants are millisecond timestamps; which day and which month an instant
    belongs to (date-fns in the browser's time zone) is passed in as `dayOf`
    and `monthOf`, months being counted consecutively. */
module CalendarView {
  import opened Sequences

  /** A patient as the calendar receives it; `at` is `appointment_date`. */
  datatype Appointment = Appointment(id: string, name: string, at: int)

  predicate SortedByDate(s: seq<Appointment>)
  {
    forall i, j :: 0 <= i < j < |s| ==> s[i].at <= s[j].at
  }

  /** Puts `p` in front of the first appointment that is not earlier than it. */
  function Insert(p: Appointment, s: seq<Appointment>): (r: seq<Appointment>)
    ensures multiset(r) == multiset(s) + multiset{p}
    ensures |r| == |s| + 1
    ensures r[0] == p || (s != [] && r[0] == s[0])
  {
    if s == [] || p.at <= s[0].at then [p] + s
    else
      assert s == [s[0]] + s[1..];
      [s[0]] + Insert(p, s[1..])
  }

  lemma {:induction false} InsertSorted(p: Appointment, s: seq<Appointment>)
    requires SortedByDate(s)
    ensures SortedByDate(Insert(p, s))
  {
    if s != [] && p.at > s[0].at {
      var rest := Insert(p, s[1..]);
      InsertSorted(p, s[1..]);
      var r := Insert(p, s);
      assert r == [s[0]] + rest;
      assert s[0].at <= rest[0].at by {
        if rest[0] != p {
          assert rest[0] == s[1];
        }
      }
      forall i, j | 0 <= i < j < |r|
        ensures r[i].at <= r[j].at
      {
        if i == 0 {
          assert r[j] == rest[j - 1];
          if j > 1 {
            assert rest[0].at <= rest[j - 1].at;
          }
        } else {
          assert r[i] == rest[i - 1] && r[j] == rest[j - 1];
        }
      }
    }
  }

  /** `sort((a, b) => a - b)` on the appointment times, as an insertion sort;
      `SortIsStable` shows it keeps ties in input order, as `sort` does. */
  function SortByDate(s: seq<Appointment>): (r: seq<Appointment>)
    ensures SortedByDate(r)
    ensures multiset(r) == multiset(s)
    ensures |r| == |s|
  {
    if s == [] then []
    else
      assert s == [s[0]] + s[1..];
      InsertSorted(s[0], SortByDate(s[1..]));
      Insert(s[0], SortByDate(s[1..]))
  }

  /** The appointments at time `k`, in the order of `s`. */
  function AtTime(s: seq<Appointment>, k: int): seq<Appointment>
  {
    if s == [] then [] else (if s[0].at == k then [s[0]] else []) + AtTime(s[1..], k)
  }

  /** Insertion goes in front of the appointments at the same time. */
  lemma {:induction false} InsertAtTime(p: Appointment, s: seq<Appointment>, k: int)
    ensures AtTime(Insert(p, s), k) == (if p.at == k then [p] else []) + AtTime(s, k)
  {
    if s == [] || p.at <= s[0].at {
      assert ([p] + s)[1..] == s;
    } else {
      var r := Insert(p, s);
      assert r[0] == s[0] && r[1..] == Insert(p, s[1..]);
      InsertAtTime(p, s[1..], k);
    }
  }

  /** `[...patients].sort(...)` is stable: appointments at the same time keep
      their input order. */
  lemma {:induction false} SortIsStable(s: seq<Appointment>, k: int)
    ensures AtTime(SortByDate(s), k) == AtTime(s, k)
  {
    if s != [] {
      SortIsStable(s[1..], k);
      InsertAtTime(s[0], SortByDate(s[1..]), k);
    }
  }

  // ----- getPatientsForDay

  /** The appointments on `day`, in the order the patients were given. */
  function PatientsForDay(patients: seq<Appointment>, day: int, dayOf: int -> int): (r: seq<Appointment>)
    ensures forall p :: p in r <==> p in patients && dayOf(p.at) == day
    ensures Subsequence(r, patients)
  {
    Filter(patients, (p: Appointment) => dayOf(p.at) == day)
  }

  /** Each appointment shows on exactly one day of the calendar. */
  lemma OneDayEach(patients: seq<Appointment>, p: Appointment, d1: int, d2: int, dayOf: int -> int)
    requires p in PatientsForDay(patients, d1, dayOf) && p in PatientsForDay(patients, d2, dayOf)
    ensures d1 == d2
  {
  }

  // ----- Upcoming appointments

  predicate After(p: Appointment, now: int) { p.at > now }

  /** The appointments strictly after `now`, in input order. */
  function Future(patients: seq<Appointment>, now: int): seq<Appointment>
  {
    Filter(patients, (p: Appointment) => After(p, now))
  }

  /** The list under "Upcoming Appointments": the appointments strictly after
      `now`, earliest first, at most three. */
  function Upcoming(patients: seq<Appointment>, now: int): (r: seq<Appointment>)
    ensures |r| <= 3
    ensures forall p :: p in r ==> p in patients && After(p, now)
    ensures SortedByDate(r)
    ensures multiset(r) <= multiset(Future(patients, now))
  {
    var future := Future(patients, now);
    var sorted := SortByDate(future);
    var n := if |sorted| <= 3 then |sorted| else 3;
    PrefixWithin(sorted, n);
    var r := sorted[..n];
    assert forall p :: p in r ==> p in future by {
      forall p | p in r
        ensures p in future
      {
        assert p in multiset(r);
      }
    }
    r
  }

  /** A prefix keeps the order and holds no appointment more often than the
      whole sequence. */
  lemma PrefixWithin(s: seq<Appointment>, n: nat)
    requires n <= |s|
    ensures multiset(s[..n]) <= multiset(s)
    ensures SortedByDate(s) ==> SortedByDate(s[..n])
  {
    assert s == s[..n] + s[n..];
  }

  /** The list holds as many appointments as it can, and any future appointment
      it leaves out is no earlier than all of those it shows. */
  lemma UpcomingAreTheEarliest(patients: seq<Appointment>, now: int, q: Appointment)
    requires q in patients && After(q, now)
    ensures |Upcoming(patients, now)| == if |Future(patients, now)| <= 3 then |Future(patients, now)| else 3
    ensures q !in Upcoming(patients, now) ==>
      |Upcoming(patients, now)| == 3 && forall p :: p in Upcoming(patients, now) ==> p.at <= q.at
  {
    var sorted := SortByDate(Future(patients, now));
    assert q in Future(patients, now);
    assert q in multiset(sorted);
    if q !in Upcoming(patients, now) {
      var k :| 0 <= k < |sorted| && sorted[k] == q;
      if |sorted| <= 3 {
        assert false;
      }
      if k < 3 {
        assert false;
      }
      forall p | p in Upcoming(patients, now)
        ensures p.at <= q.at
      {
        var i :| 0 <= i < 3 && sorted[..3][i] == p;
      }
    }
  }

  // ----- The month shown

  /** `[...patients].sort(...)[0]`: an earliest appointment, the first of them
      in input order (`EarliestIsFirstOfTies`). */
  function Earliest(patients: seq<Appointment>): (e: Appointment)
    requires patients != []
    ensures e in patients
    ensures forall p :: p in patients ==> e.at <= p.at
  {
    var sorted := SortByDate(patients);
    assert sorted[0] in multiset(sorted);
    assert forall p :: p in patients ==> p in multiset(sorted);
    sorted[0]
  }

  /** Of several earliest appointments, the one listed first is taken. */
  lemma EarliestIsFirstOfTies(patients: seq<Appointment>)
    requires patients != []
    ensures AtTime(patients, Earliest(patients).at) != []
    ensures Earliest(patients) == AtTime(patients, Earliest(patients).at)[0]
  {
    var sorted := SortByDate(patients);
    var e := Earliest(patients);
    SortIsStable(patients, e.at);
    assert sorted[0] == e;
    assert AtTime(sorted, e.at) == [e] + AtTime(sorted[1..], e.at);
  }

  class Calendar {
    /** The month shown, counted consecutively. */
    var currentMonth: int

    /** `useState(new Date())`: the calendar opens on the current month. */
    constructor(nowMonth: int)
      ensures currentMonth == nowMonth
    {
      currentMonth := nowMonth;
    }

    /** The effect run when the patients arrive: jump to the earliest
        appointment's month, but only when that appointment is still ahead. */
    method ShowEarliest(patients: seq<Appointment>, now: int, monthOf: int -> int)
      modifies this
      ensures patients != [] && After(Earliest(patients), now) ==>
        currentMonth == monthOf(Earliest(patients).at)
      ensures patients == [] || !After(Earliest(patients), now) ==> currentMonth == old(currentMonth)
    {
      if |patients| > 0 {
        var earliest := Earliest(patients);
        if After(earliest, now) {
          currentMonth := monthOf(earliest.at);
        }
      }
    }

    method PrevMonth()
      modifies this
      ensures currentMonth == old(currentMonth) - 1
    {
      currentMonth := currentMonth - 1;
    }

    method NextMonth()
      modifies this
      ensures currentMonth == old(currentMonth) + 1
    {
      currentMonth := currentMonth + 1;
    }
  }

  /** The earliest appointment is not ahead exactly when some appointment is
      not ahead: the calendar stays on the current month iff an appointment
      is already past (or now). */
  lemma JumpsOnlyForFutureAppointments(patients: seq<Appointment>, now: int)
    requires patients != []
    ensures !After(Earliest(patients), now) <==> exists p :: p in patients && !After(p, now)
  {
  }
}
