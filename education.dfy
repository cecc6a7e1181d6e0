/** The education system (models/education.py): a fixed course table and an
    enrollment ledger keyed by citizen id. Enrolling debits the course cost;
    every daily pass advances each entry by one day and completes the courses
    whose time is up. */
module Education {
  import opened Numeric
  import opened Citizens

  datatype CourseInfo = CourseInfo(cost: real, skillGain: real)

  /** A ledger entry: which course, how far along (percent) and how many days remain. */
  datatype Enrollment = Enrollment(course: string, progress: real, daysRemaining: int)

  const Courses: map<string, CourseInfo> :=
    map[
      "basic" := CourseInfo(20.0, 1.0),
      "advanced" := CourseInfo(50.0, 2.0),
      "professional" := CourseInfo(100.0, 3.0)
    ]

  /** The course types in table order: the keys the source draws an invested
      course from. The model takes that draw as the parameter `DayDraw.course`,
      which may be any string; an unknown course is refused at enrolment. */
  const CourseTypes: seq<string> := ["basic", "advanced", "professional"]

  const CourseDays: int := 30
  const DailyProgress: real := 3.33
  const CompletionHappiness: real := 10.0

  /** Every listed course type is in the table, and nothing else is. */
  lemma CourseTypesAreTheTable()
    ensures forall t :: t in CourseTypes <==> t in Courses
    ensures forall t :: t in Courses ==> 0.0 < Courses[t].cost <= 100.0 && Courses[t].skillGain > 0.0
  {
  }

  /** An enroll request succeeds exactly for a known course the citizen can pay for. */
  predicate CanEnroll(balance: real, course: string) {
    course in Courses && balance >= Courses[course].cost
  }

  function NewEnrollment(course: string): Enrollment {
    Enrollment(course, 0.0, CourseDays)
  }

  /** One day of study: a day less to go and 3.33 more percent of progress. */
  function Advance(e: Enrollment): Enrollment {
    Enrollment(e.course, e.progress + DailyProgress, e.daysRemaining - 1)
  }

  predicate Due(e: Enrollment) {
    e.daysRemaining <= 0
  }

  /** The pass completes the course of `id`: once advanced the entry is due,
      and some citizen carries that id. */
  predicate Completes(ledger: map<int, Enrollment>, cs: seq<Citizen>, id: int) {
    id in ledger && Due(Advance(ledger[id])) && FirstWithId(cs, id).Some?
  }

  /** Citizen i is the one the pass rewards: the first citizen with a completing id. */
  predicate CompletedAt(ledger: map<int, Enrollment>, cs: seq<Citizen>, i: int) {
    0 <= i < |cs| && Completes(ledger, cs, cs[i].id) && FirstWithId(cs, cs[i].id) == Some(i)
  }

  /** The ledger after one pass: every entry advanced, completed ones gone.
      A due entry whose id matches no citizen stays. */
  function LedgerAfterPass(ledger: map<int, Enrollment>, cs: seq<Citizen>): map<int, Enrollment> {
    map id | id in ledger && !Completes(ledger, cs, id) :: Advance(ledger[id])
  }

  /** The ledger after k passes over the same population. */
  function Passes(ledger: map<int, Enrollment>, cs: seq<Citizen>, k: nat): map<int, Enrollment> {
    if k == 0 then ledger else LedgerAfterPass(Passes(ledger, cs, k - 1), cs)
  }

  /** An entry k days after enrolling. */
  function AdvanceDays(e: Enrollment, k: nat): Enrollment {
    if k == 0 then e else Advance(AdvanceDays(e, k - 1))
  }

  /** After k days a fresh entry has k * 3.33 percent and 30 - k days left; it is
      due from day 30 on, and at completion shows 99.9 percent, not 100. */
  lemma {:induction false} FreshEnrollmentTimeline(course: string, k: nat)
    ensures AdvanceDays(NewEnrollment(course), k)
         == Enrollment(course, DailyProgress * k as real, CourseDays - k)
    ensures Due(AdvanceDays(NewEnrollment(course), k)) <==> k >= CourseDays
    ensures k == CourseDays ==> AdvanceDays(NewEnrollment(course), k).progress == 99.9
  {
    if k > 0 {
      FreshEnrollmentTimeline(course, k - 1);
    }
  }

  /** With its citizen present, a fresh entry survives the first 29 passes,
      advanced one day per pass, and is removed by the 30th. */
  lemma {:induction false} EnrollmentLifetime(ledger: map<int, Enrollment>, cs: seq<Citizen>,
                                              id: int, course: string, k: nat)
    requires id in ledger && ledger[id] == NewEnrollment(course)
    requires FirstWithId(cs, id).Some?
    ensures id in Passes(ledger, cs, k) <==> k < CourseDays
    ensures id in Passes(ledger, cs, k) ==>
      Passes(ledger, cs, k)[id] == AdvanceDays(NewEnrollment(course), k)
  {
    if k > 0 {
      EnrollmentLifetime(ledger, cs, id, course, k - 1);
      var before := Passes(ledger, cs, k - 1);
      if id in before {
        FreshEnrollmentTimeline(course, k);
        assert Advance(before[id]) == AdvanceDays(NewEnrollment(course), k);
      }
    }
  }

  /** The skill gain of an entry's course (every ledger entry names a table course). */
  function SkillGain(e: Enrollment): (r: real)
    ensures r >= 0.0
  {
    CourseTypesAreTheTable();
    if e.course in Courses then Courses[e.course].skillGain else 0.0
  }

  /** What one pass has done so far to citizen i, whose level and happiness were
      edu0 and happy0: rewarded once its id has been visited and completed,
      untouched otherwise. */
  ghost predicate StudyOutcome(ledger: map<int, Enrollment>, cs: seq<Citizen>, visited: set<int>,
                               i: int, edu0: real, happy0: real)
    requires 0 <= i < |cs|
    reads cs[i]
  {
    if CompletedAt(ledger, cs, i) && cs[i].id in visited then
      && cs[i].educationLevel == Min(MaxEducation, edu0 + SkillGain(ledger[cs[i].id]))
      && cs[i].happiness == Min(MaxHappiness, happy0 + CompletionHappiness)
    else
      cs[i].educationLevel == edu0 && cs[i].happiness == happy0
  }

  /** A ledger holding exactly the advanced entries not in `done`, where `done`
      holds exactly the completing ids, is the ledger after the pass. */
  lemma PassResult(ledger: map<int, Enrollment>, cs: seq<Citizen>, m: map<int, Enrollment>, done: seq<int>)
    requires forall id :: id in m <==> id in ledger && id !in done
    requires forall id :: id in done <==> id in ledger && Completes(ledger, cs, id)
    requires forall id :: id in m ==> m[id] == Advance(ledger[id])
    ensures m == LedgerAfterPass(ledger, cs)
  {
    var after := LedgerAfterPass(ledger, cs);
    forall id
      ensures id in m <==> id in after
    {
      if id in ledger {
        assert id in done <==> Completes(ledger, cs, id);
      }
    }
    assert m.Keys == after.Keys;
  }

  class EducationSystem {
    var enrolled: map<int, Enrollment>

    /** Every entry names a course of the table. */
    ghost predicate Valid()
      reads this
    {
      forall id :: id in enrolled ==> enrolled[id].course in Courses
    }

    constructor ()
      ensures Valid() && enrolled == map[]
    {
      enrolled := map[];
    }

    /** Unknown course or too little money: false and nothing changes. Otherwise
        the cost is debited and the citizen's entry is (re)written fresh,
        silently replacing any course in progress. */
    method EnrollStudent(c: Citizen, course: string) returns (ok: bool)
      requires Valid()
      modifies this, c
      ensures Valid()
      ensures ok == CanEnroll(old(c.balance), course)
      ensures ok ==> c.balance == old(c.balance) - Courses[course].cost && c.balance >= 0.0
      ensures ok ==> enrolled == old(enrolled)[c.id := NewEnrollment(course)]
      ensures !ok ==> c.balance == old(c.balance) && enrolled == old(enrolled)
      ensures c.happiness == old(c.happiness) && c.educationLevel == old(c.educationLevel)
      ensures c.health == old(c.health)
    {
      ok := false;
      if course in Courses {
        var cost := Courses[course].cost;
        if c.balance >= cost {
          c.balance := c.balance - cost;
          enrolled := enrolled[c.id := NewEnrollment(course)];
          ok := true;
        }
      }
    }

    /** One ledger entry's day (the body of the pass): the entry is advanced; if it
        is now due and some citizen carries the id, the first such citizen gains
        the course's skill (capped at 10) and 10 happiness (capped at 100). */
    method StudyDay(cs: seq<Citizen>, id: int) returns (done: bool)
      requires Valid() && id in enrolled && Distinct(cs)
      modifies this, cs
      ensures Valid()
      ensures enrolled == old(enrolled)[id := Advance(old(enrolled)[id])]
      ensures done <==> Due(Advance(old(enrolled)[id])) && FirstWithId(cs, id).Some?
      ensures forall i :: 0 <= i < |cs| ==>
        cs[i].balance == old(cs[i].balance) && cs[i].health == old(cs[i].health)
      ensures forall i :: 0 <= i < |cs| && done && FirstWithId(cs, id) == Some(i) ==>
        && cs[i].educationLevel
           == Min(MaxEducation, old(cs[i].educationLevel) + SkillGain(old(enrolled)[id]))
        && cs[i].happiness == Min(MaxHappiness, old(cs[i].happiness) + CompletionHappiness)
      ensures forall i :: 0 <= i < |cs| && !(done && FirstWithId(cs, id) == Some(i)) ==>
        cs[i].educationLevel == old(cs[i].educationLevel) && cs[i].happiness == old(cs[i].happiness)
    {
      var entry := Advance(enrolled[id]);
      enrolled := enrolled[id := entry];
      done := false;
      if entry.daysRemaining <= 0 {
        var found := FirstWithId(cs, id);
        if found.Some? {
          var c := cs[found.value];
          c.educationLevel := Min(MaxEducation, c.educationLevel + SkillGain(entry));
          c.happiness := Min(MaxHappiness, c.happiness + CompletionHappiness);
          done := true;
        }
      }
    }

    /** The second loop of the pass: delete every listed id from the ledger. */
    method RemoveCompleted(ids: seq<int>)
      requires Valid() && Distinct(ids) && forall id :: id in ids ==> id in enrolled
      modifies this
      ensures Valid()
      ensures forall id :: id in enrolled <==> id in old(enrolled) && id !in ids
      ensures forall id :: id in enrolled ==> enrolled[id] == old(enrolled)[id]
      ensures |enrolled| == |old(enrolled)| - |ids|
    {
      for k := 0 to |ids|
        invariant Valid()
        invariant forall id :: id in enrolled <==> id in old(enrolled) && id !in ids[..k]
        invariant forall id :: id in enrolled ==> enrolled[id] == old(enrolled)[id]
        invariant |enrolled| == |old(enrolled)| - k
      {
        assert ids[k] !in ids[..k];
        assert ids[..k + 1] == ids[..k] + [ids[k]];
        ghost var before := enrolled;
        enrolled := map id | id in enrolled && id != ids[k] :: enrolled[id];
        assert enrolled.Keys == before.Keys - {ids[k]};
      }
      assert ids[..|ids|] == ids;
    }

    /** The first loop of the pass: every entry is advanced once, in no particular
        order, and the ids whose course completed are listed. Each id reaches a
        different citizen, so the order does not matter. */
    method StudyAll(cs: seq<Citizen>) returns (completedCourses: seq<int>)
      requires Valid() && Distinct(cs)
      modifies this, cs
      ensures Valid()
      ensures enrolled.Keys == old(enrolled).Keys
      ensures forall id :: id in enrolled ==> enrolled[id] == Advance(old(enrolled)[id])
      ensures Distinct(completedCourses)
      ensures forall id :: id in completedCourses <==> id in old(enrolled) && Completes(old(enrolled), cs, id)
      ensures forall i :: 0 <= i < |cs| ==>
        cs[i].balance == old(cs[i].balance) && cs[i].health == old(cs[i].health)
      ensures forall i :: 0 <= i < |cs| ==>
        StudyOutcome(old(enrolled), cs, old(enrolled).Keys, i, old(cs[i].educationLevel), old(cs[i].happiness))
    {
      ghost var ledger := enrolled;
      completedCourses := [];
      var pending := enrolled.Keys;
      while pending != {}
        invariant Valid()
        invariant pending <= ledger.Keys && enrolled.Keys == ledger.Keys
        invariant forall id :: id in pending ==> enrolled[id] == ledger[id]
        invariant forall id :: id in ledger && id !in pending ==> enrolled[id] == Advance(ledger[id])
        invariant Distinct(completedCourses)
        invariant forall id :: id in completedCourses <==>
          id in ledger && id !in pending && Completes(ledger, cs, id)
        invariant forall i :: 0 <= i < |cs| ==>
          cs[i].balance == old(cs[i].balance) && cs[i].health == old(cs[i].health)
        invariant forall i :: 0 <= i < |cs| ==>
          StudyOutcome(ledger, cs, ledger.Keys - pending, i, old(cs[i].educationLevel), old(cs[i].happiness))
        decreases pending
      {
        var id := Pick(pending);
        ghost var visited := ledger.Keys - pending;
        var done := StudyDay(cs, id);
        assert done <==> Completes(ledger, cs, id);
        forall i | 0 <= i < |cs|
          ensures StudyOutcome(ledger, cs, visited + {id}, i, old(cs[i].educationLevel), old(cs[i].happiness))
        {
          if cs[i].id == id {
            assert CompletedAt(ledger, cs, i) <==> done && FirstWithId(cs, id) == Some(i);
          }
        }
        assert ledger.Keys - (pending - {id}) == visited + {id};
        if done {
          assert id !in completedCourses;
          completedCourses := completedCourses + [id];
        }
        pending := pending - {id};
      }
    }

    /** One day of study for the whole ledger. Returns how many courses completed,
        which is how much the ledger shrank. Completing raises the citizen's
        level by the course's skill gain, capped at 10, and happiness by 10,
        capped at 100. */
    method ProcessEducation(cs: seq<Citizen>) returns (completed: nat)
      requires Valid() && Distinct(cs)
      modifies this, cs
      ensures Valid()
      ensures enrolled == LedgerAfterPass(old(enrolled), cs)
      ensures completed == |old(enrolled)| - |enrolled|
      ensures forall i :: 0 <= i < |cs| ==>
        cs[i].balance == old(cs[i].balance) && cs[i].health == old(cs[i].health)
      ensures forall i :: CompletedAt(old(enrolled), cs, i) ==>
        && cs[i].educationLevel
           == Min(MaxEducation, old(cs[i].educationLevel) + SkillGain(old(enrolled)[cs[i].id]))
        && cs[i].happiness == Min(MaxHappiness, old(cs[i].happiness) + CompletionHappiness)
      ensures forall i :: 0 <= i < |cs| && !CompletedAt(old(enrolled), cs, i) ==>
        cs[i].educationLevel == old(cs[i].educationLevel) && cs[i].happiness == old(cs[i].happiness)
    {
      ghost var ledger := enrolled;
      var completedCourses := StudyAll(cs);
      RemoveCompleted(completedCourses);
      PassResult(ledger, cs, enrolled, completedCourses);
      completed := |completedCourses|;
    }
  }
}
