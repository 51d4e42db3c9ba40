/**
  The classroom and its iterator of IteratorPattern.java.

  A `Classroom` is a fixed-size array of `Student` slots with a fill pointer
  `position`; `addStudent` fills the next slot in place. A `ClassroomIterator`
  shares that array and walks it with a cursor `count`. Its `hasNext` only
  checks that the cursor is at most the array length before reading the slot
  under it, so on a full classroom the last call reads one slot past the end;
  that read is modelled as a `Failure(IndexOutOfBounds)` result (Java's
  ArrayIndexOutOfBoundsException).
*/
module IteratorPattern {
  import opened Wrappers

  /** The exception an array read past its end raises. */
  datatype IteratorError = IndexOutOfBounds

  /** A student's name and number as `addStudent` received them. */
  datatype Entry = Entry(name: string, number: string)

  /** `Student`: two fields that start out null and are set through setters. */
  class Student {
    var name: Option<string>
    var number: Option<string>

    constructor ()
      ensures name == None && number == None
    {
      name := None;
      number := None;
    }

    /** `getName`: the name field, null until `setName`. */
    function GetName(): (r: Option<string>)
      reads this
      ensures r == name
    {
      name
    }

    /** `getNumber`: the number field, null until `setNumber`. */
    function GetNumber(): (r: Option<string>)
      reads this
      ensures r == number
    {
      number
    }

    /** `setNumber`: the number getter then answers the value set; the name is kept. */
    method SetNumber(number: string)
      modifies this`number
      ensures GetNumber() == Some(number)
    {
      this.number := Some(number);
    }

    /** `setName`: the name getter then answers the value set; the number is kept. */
    method SetName(name: string)
      modifies this`name
      ensures GetName() == Some(name)
    {
      this.name := Some(name);
    }
  }

  /** The line the client prints for one student: name, a space, number. */
  function Line(e: Entry): string
  {
    e.name + " " + e.number
  }

  /** The lines the client prints for a roster, in roster order. */
  function Lines(roster: seq<Entry>): (lines: seq<string>)
    ensures |lines| == |roster|
    ensures forall i :: 0 <= i < |roster| ==> lines[i] == Line(roster[i])
  {
    seq(|roster|, i requires 0 <= i < |roster| => Line(roster[i]))
  }

  /** `Classroom`: a fixed-capacity array of students filled from the front. */
  class Classroom {
    var students: array<Student?>
    var position: nat
    /** The students added so far, in insertion order. */
    ghost var Roster: seq<Entry>
    ghost var Repr: set<object>

    /**
      The slots before `position` hold distinct students carrying the roster,
      the slots from `position` on are null.
    */
    ghost predicate Valid()
      reads this, Repr
    {
      && this in Repr && students in Repr
      && position <= students.Length && |Roster| == position
      && (forall i :: 0 <= i < position ==>
            students[i] != null && students[i] in Repr &&
            students[i].name == Some(Roster[i].name) && students[i].number == Some(Roster[i].number))
      && (forall i :: position <= i < students.Length ==> students[i] == null)
      && (forall i, j :: 0 <= i < j < position ==> students[i] != students[j])
    }

    /** `Classroom(number)`: `number` empty slots. */
    constructor (number: nat)
      ensures Valid() && fresh(Repr)
      ensures students.Length == number && position == 0 && Roster == []
      ensures forall i :: 0 <= i < number ==> students[i] == null
    {
      students := new Student?[number](_ => null);
      position := 0;
      Roster := [];
      Repr := {this, students};
    }

    /**
      `addStudent`: fills slot `position` and advances it by one; on a full
      classroom nothing changes and "Max number reached" is reported.
    */
    method AddStudent(name: string, number: string) returns (report: Option<string>)
      requires Valid()
      modifies this, students
      ensures Valid() && fresh(Repr - old(Repr))
      ensures students == old(students)
      ensures report == if old(position) < students.Length then None else Some("Max number reached")
      ensures old(position) < students.Length ==>
        position == old(position) + 1 && Roster == old(Roster) + [Entry(name, number)]
      ensures old(position) == students.Length ==> position == old(position) && Roster == old(Roster)
      ensures forall i :: 0 <= i < students.Length && i != old(position) ==> students[i] == old(students[i])
    {
      if students.Length != position {
        if students[position] == null {
          var newcomer := new Student();
          students[position] := newcomer;
          Repr := Repr + {newcomer};
        }
        students[position].SetName(name);
        students[position].SetNumber(number);
        Roster := Roster + [Entry(name, number)];
        position := position + 1;
        report := None;
      } else {
        report := Some("Max number reached");
      }
    }

    /** `createIterator`: a new iterator over the same array, at the first slot. */
    method CreateIterator() returns (it: ClassroomIterator)
      ensures fresh(it) && it.students == students && it.count == 0
    {
      it := new ClassroomIterator(students);
    }
  }

  /** `hasNext` as written: the bound check admits the cursor at the array length, where the slot read fails. */
  function HasNextAsWritten(slots: seq<Student?>, count: nat): (r: Result<bool, IteratorError>)
    ensures r.Failure? <==> count == |slots|
    ensures r == Success(true) <==> count < |slots| && slots[count] != null
  {
    if count <= |slots| then
      if count == |slots| then Failure(IndexOutOfBounds) else Success(slots[count] != null)
    else Success(false)
  }

  /** `hasNext` with the bound the code evidently intends: the cursor strictly inside the array. */
  function HasNextIntended(slots: seq<Student?>, count: nat): (r: bool)
    ensures r <==> count < |slots| && slots[count] != null
    ensures count != |slots| ==> Success(r) == HasNextAsWritten(slots, count)
  {
    count < |slots| && slots[count] != null
  }

  /** `ClassroomIterator`: a cursor over a classroom's shared student array. */
  class ClassroomIterator {
    var students: array<Student?>
    var count: nat

    constructor (s: array<Student?>)
      ensures students == s && count == 0
    {
      students := s;
      count := 0;
    }

    /** `hasNext`, including the out-of-bounds read at `count == students.length`. */
    method HasNext() returns (r: Result<bool, IteratorError>)
      ensures r == HasNextAsWritten(students[..], count)
    {
      if count <= students.Length {
        if count == students.Length {
          r := Failure(IndexOutOfBounds);
        } else {
          r := Success(students[count] != null);
        }
      } else {
        r := Success(false);
      }
    }

    /** The corrected `hasNext`. */
    method HasNextFixed() returns (r: bool)
      ensures r == HasNextIntended(students[..], count)
    {
      r := count < students.Length && students[count] != null;
    }

    /** `next`: the slot under the cursor, then the cursor moves on by one. */
    method Next() returns (r: Result<Student?, IteratorError>)
      modifies this`count
      ensures old(count) < students.Length ==> r == Success(students[old(count)]) && count == old(count) + 1
      ensures old(count) >= students.Length ==> r == Failure(IndexOutOfBounds) && count == old(count)
    {
      if count < students.Length {
        r := Success(students[count]);
        count := count + 1;
      } else {
        r := Failure(IndexOutOfBounds);
      }
    }
  }

  /**
    The client loop of `IteratorPattern.main` with `hasNext` as written: it
    prints the whole roster in insertion order; on a full classroom the
    `hasNext` after the last student then fails with the out-of-bounds read.
  */
  method ListStudents(classroom: Classroom) returns (lines: seq<string>, r: Result<(), IteratorError>)
    requires classroom.Valid()
    ensures lines == Lines(classroom.Roster)
    ensures r == if classroom.position == classroom.students.Length then Failure(IndexOutOfBounds) else Success(())
  {
    var it := classroom.CreateIterator();
    var seen: seq<Entry> := [];
    while true
      invariant fresh(it) && it.students == classroom.students
      invariant it.count <= classroom.position
      invariant seen == classroom.Roster[..it.count]
      decreases classroom.position - it.count
    {
      var more := it.HasNext();
      if more.Failure? {
        assert seen == classroom.Roster[..classroom.position] == classroom.Roster;
        return Lines(seen), Failure(more.error);
      }
      if !more.value {
        assert seen == classroom.Roster[..classroom.position] == classroom.Roster;
        return Lines(seen), Success(());
      }
      var st := it.Next();
      var student := st.value;
      seen := seen + [Entry(student.GetName().value, student.GetNumber().value)];
    }
  }

  /** The client loop with the corrected `hasNext`: every classroom prints its whole roster. */
  method ListStudentsFixed(classroom: Classroom) returns (lines: seq<string>)
    requires classroom.Valid()
    ensures lines == Lines(classroom.Roster)
  {
    var it := classroom.CreateIterator();
    var seen: seq<Entry> := [];
    var more := it.HasNextFixed();
    while more
      invariant fresh(it) && it.students == classroom.students
      invariant it.count <= classroom.position
      invariant seen == classroom.Roster[..it.count]
      invariant more <==> it.count < classroom.position
      decreases classroom.position - it.count
    {
      var st := it.Next();
      var student := st.value;
      seen := seen + [Entry(student.GetName().value, student.GetNumber().value)];
      more := it.HasNextFixed();
    }
    lines := Lines(seen);
  }

  /** `IteratorPattern.main`: three students in a room for four, printed in order. */
  method Demo() returns (lines: seq<string>, r: Result<(), IteratorError>)
    ensures lines == ["Theodore 0234", "Janet 3423", "Michael 2743"]
    ensures r == Success(())
  {
    var classroom := new Classroom(4);
    var _ := classroom.AddStudent("Theodore", "0234");
    var _ := classroom.AddStudent("Janet", "3423");
    var _ := classroom.AddStudent("Michael", "2743");
    assert classroom.Roster == [Entry("Theodore", "0234"), Entry("Janet", "3423"), Entry("Michael", "2743")];
    assert Line(Entry("Theodore", "0234")) == "Theodore 0234";
    assert Line(Entry("Janet", "3423")) == "Janet 3423";
    assert Line(Entry("Michael", "2743")) == "Michael 2743";
    assert Lines(classroom.Roster) == ["Theodore 0234", "Janet 3423", "Michael 2743"];
    lines, r := ListStudents(classroom);
  }

  /** The same client on a full classroom (one seat, one student) prints the student, then reads past the array. */
  method FullClassroomDemo() returns (lines: seq<string>, r: Result<(), IteratorError>)
    ensures lines == ["Theodore 0234"]
    ensures r == Failure(IndexOutOfBounds)
  {
    var classroom := new Classroom(1);
    var _ := classroom.AddStudent("Theodore", "0234");
    assert classroom.Roster == [Entry("Theodore", "0234")];
    assert Line(Entry("Theodore", "0234")) == "Theodore 0234";
    assert Lines(classroom.Roster) == ["Theodore 0234"];
    lines, r := ListStudents(classroom);
  }
}
