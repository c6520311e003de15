/**
 * The student directory's search: the list of students narrowed to those whose
 * name, e-mail or course contains the search term, compared in lower case.
 */
module Students {
  import opened Text

  datatype Student = Student(id: nat, name: string, email: string, course: string, year: string, status: string)

  /** The filter's predicate: the lower-cased term occurs in the lower-cased name, e-mail or course. */
  predicate Matches(s: Student, term: string) {
    var t := Lower(term);
    Contains(Lower(s.name), t) || Contains(Lower(s.email), t) || Contains(Lower(s.course), t)
  }

  /** `students.filter(...)`: the matching students, in their original order. */
  function Filter(students: seq<Student>, term: string): (r: seq<Student>)
    ensures |r| <= |students|
    decreases |students|
  {
    if |students| == 0 then []
    else if Matches(students[0], term) then [students[0]] + Filter(students[1..], term)
    else Filter(students[1..], term)
  }

  /** `a` is `b` with some elements left out, the rest in the same order. */
  predicate Subsequence(a: seq<Student>, b: seq<Student>)
    decreases |b|
  {
    if |a| == 0 then true
    else if |b| == 0 then false
    else (a[0] == b[0] && Subsequence(a[1..], b[1..])) || Subsequence(a, b[1..])
  }

  /** The filtered list keeps the students it keeps in their original order. */
  lemma {:induction false} FilterSubsequence(students: seq<Student>, term: string)
    ensures Subsequence(Filter(students, term), students)
    decreases |students|
  {
    if |students| > 0 {
      FilterSubsequence(students[1..], term);
      var r := Filter(students, term);
      if Matches(students[0], term) {
        assert r[0] == students[0] && r[1..] == Filter(students[1..], term);
      }
    }
  }

  /** Every student kept matches the term (soundness). */
  lemma {:induction false} FilterSound(students: seq<Student>, term: string)
    ensures forall i :: 0 <= i < |Filter(students, term)| ==>
              Filter(students, term)[i] in students && Matches(Filter(students, term)[i], term)
    decreases |students|
  {
    if |students| > 0 {
      FilterSound(students[1..], term);
      var r, rest := Filter(students, term), Filter(students[1..], term);
      assert forall j :: 0 <= j < |students[1..]| ==> students[1..][j] in students;
      if Matches(students[0], term) {
        assert forall i :: 1 <= i < |r| ==> r[i] == rest[i - 1];
      }
    }
  }

  /** Every student that matches the term is kept (completeness). */
  lemma {:induction false} FilterComplete(students: seq<Student>, term: string)
    ensures forall i :: 0 <= i < |students| && Matches(students[i], term) ==> students[i] in Filter(students, term)
    decreases |students|
  {
    if |students| > 0 {
      FilterComplete(students[1..], term);
      assert forall i :: 1 <= i < |students| ==> students[i] == students[1..][i - 1];
    }
  }

  /** Nothing is kept twice or dropped in error: the kept students are counted exactly. */
  lemma {:induction false} FilterCount(students: seq<Student>, term: string, s: Student)
    ensures multiset(Filter(students, term))[s] == (if Matches(s, term) then multiset(students)[s] else 0)
    decreases |students|
  {
    if |students| > 0 {
      FilterCount(students[1..], term, s);
      assert students == [students[0]] + students[1..];
    }
  }

  /** The filter on a list of two parts is the filter on each part, in order. */
  lemma {:induction false} FilterAppend(a: seq<Student>, b: seq<Student>, term: string)
    ensures Filter(a + b, term) == Filter(a, term) + Filter(b, term)
    decreases |a|
  {
    if |a| > 0 {
      FilterAppend(a[1..], b, term);
      assert (a + b)[0] == a[0] && (a + b)[1..] == a[1..] + b;
      var x, y := Filter(a[1..], term), Filter(b, term);
      assert [a[0]] + (x + y) == [a[0]] + x + y;
    } else {
      assert a + b == b;
    }
  }

  /** Terms that differ only in letter case select the same students. */
  lemma CaseInsensitive(students: seq<Student>, term: string, other: string)
    requires Lower(term) == Lower(other)
    ensures Filter(students, term) == Filter(students, other)
  {
    FilterSame(students, term, other);
  }

  /** A term selects what its lower-cased form selects. */
  lemma LowerTermSame(students: seq<Student>, term: string)
    ensures Filter(students, Lower(term)) == Filter(students, term)
  {
    LowerIdempotent(term);
    FilterSame(students, Lower(term), term);
  }

  lemma {:induction false} FilterSame(students: seq<Student>, term: string, other: string)
    requires Lower(term) == Lower(other)
    ensures Filter(students, term) == Filter(students, other)
    decreases |students|
  {
    if |students| > 0 {
      FilterSame(students[1..], term, other);
    }
  }

  /** Every string contains the empty string. */
  lemma ContainsEmpty(s: string)
    ensures Contains(s, "")
  {
  }

  /** An empty search keeps every student. */
  lemma {:induction false} EmptyTermKeepsAll(students: seq<Student>)
    ensures Filter(students, "") == students
    decreases |students|
  {
    if |students| > 0 {
      EmptyTermKeepsAll(students[1..]);
      assert Lower("") == "";
      ContainsEmpty(Lower(students[0].name));
      assert students == [students[0]] + students[1..];
    }
  }
}
