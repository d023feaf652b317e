/** Agreement numbers PREFIX-YEAR-SEQ: allocating the next one of a local year
    by scanning that year's numbers, with retries on a uniqueness collision. */
module AgreementNumbers {
  import opened Wrappers
  import opened Keys
  import opened Text
  import opened Money

  /** An agreement row: the local year of generated_at and its number, if any. */
  datatype Row = Row(year: nat, number: Option<string>)

  type Book = map<int, Row>

  function FormatNumber(prefix: string, year: nat, sequence: nat): string {
    prefix + "-" + Digits(year) + "-" + Pad(sequence, 3)
  }

  /** int(number.rsplit("-", 1)[1]); None stands for the ignored exceptions. */
  function SequenceOf(number: string): Option<int> {
    var i := AfterLast(number, '-');
    if i == 0 then None else ParseInt(number[i..])
  }

  function RowSequence(row: Row): Option<int> {
    if row.number.None? then None else SequenceOf(row.number.value)
  }

  /** What a number looks like: the prefix, the year, and the sequence in three digits, or
      as many as it needs from 1000 on. */
  lemma NumberShape(prefix: string, year: nat, sequence: nat)
    ensures var text, n := FormatNumber(prefix, year, sequence), |prefix| + |Digits(year)| + 2;
            && |text| >= n + 3 && text[..|prefix|] == prefix && text[|prefix|] == text[n - 1] == '-'
            && text[|prefix| + 1..n - 1] == Digits(year)
            && AllDigits(text[n..]) && Value(text[n..]) == sequence && (sequence < 1000 <==> |text| == n + 3)
  {
    hide Digits, Pad, Value;
    ThreeDigits(sequence);
    var text, y := FormatNumber(prefix, year, sequence), Digits(year);
    var n := |prefix| + |y| + 2;
    assert text == prefix + ("-" + y + "-" + Pad(sequence, 3));
    assert text == (prefix + "-" + y + "-") + Pad(sequence, 3);
    assert text[..n] == prefix + "-" + y + "-";
    assert text[n..] == Pad(sequence, 3);
    assert text[|prefix| + 1..n - 1] == y;
  }

  lemma ThreeDigits(n: nat)
    ensures Value(Pad(n, 3)) == n && (n < 1000 <==> |Pad(n, 3)| == 3)
  {
    hide Value;
    ValuePad(n, 3);
    assert Pow10(3) == 1000;
    if n < 1000 {
      PadLength(n, 3);
    } else {
      DigitsAtLeast(n);
    }
  }

  lemma DigitsAtLeast(n: nat)
    requires n >= 1000
    ensures |Digits(n)| > 3
  {
    assert |Digits(n)| == |Digits(n / 10)| + 1;
    assert |Digits(n / 10)| == |Digits(n / 10 / 10)| + 1;
    assert |Digits(n / 10 / 10)| == |Digits(n / 10 / 10 / 10)| + 1;
  }

  ghost predicate Taken(book: Book, number: string) {
    exists id :: id in book && book[id].number == Some(number)
  }

  /** One more than the largest sequence among the year's readable numbers. */
  ghost predicate IsNext(book: Book, year: nat, next: nat) {
    && next >= 1
    && (forall id :: id in book && book[id].year == year && RowSequence(book[id]).Some? ==>
          RowSequence(book[id]).value < next)
    && (next == 1 || exists id :: id in book && book[id].year == year && RowSequence(book[id]) == Some(next - 1))
  }

  lemma ParseNumber(prefix: string, year: nat, sequence: nat)
    ensures SequenceOf(FormatNumber(prefix, year, sequence)) == Some(sequence)
  {
    var head, tail := prefix + "-" + Digits(year) + "-", Pad(sequence, 3);
    AfterLastDigits(head, tail);
    assert (head + tail)[|head|..] == tail;
    ParsePad(sequence, 3);
  }

  lemma {:induction false} AfterLastDigits(head: string, tail: string)
    requires head != [] && head[|head| - 1] == '-' && AllDigits(tail)
    ensures AfterLast(head + tail, '-') == |head|
  {
    if tail == [] {
      assert head + tail == head;
    } else {
      AfterLastDigits(head, tail[..|tail| - 1]);
      assert (head + tail)[..|head + tail| - 1] == head + tail[..|tail| - 1];
    }
  }

  /** With one prefix, equal numbers have the same year and the same sequence. */
  lemma FormatNumberInjective(prefix: string, y1: nat, s1: nat, y2: nat, s2: nat)
    requires FormatNumber(prefix, y1, s1) == FormatNumber(prefix, y2, s2)
    ensures y1 == y2 && s1 == s2
  {
    hide Digits, Pad, SequenceOf;
    var a, b := Digits(y1) + "-" + Pad(s1, 3), Digits(y2) + "-" + Pad(s2, 3);
    var k := |prefix| + 1;
    assert FormatNumber(prefix, y1, s1) == prefix + "-" + a;
    assert FormatNumber(prefix, y2, s2) == prefix + "-" + b;
    assert (prefix + "-" + a)[k..] == a && (prefix + "-" + b)[k..] == b;
    FindAfterDigits(Digits(y1), Pad(s1, 3));
    FindAfterDigits(Digits(y2), Pad(s2, 3));
    assert a[..|Digits(y1)|] == Digits(y1) && b[..|Digits(y2)|] == Digits(y2);
    ValueDigits(y1);
    ValueDigits(y2);
    ParseNumber(prefix, y1, s1);
    ParseNumber(prefix, y2, s2);
  }

  lemma FindAfterDigits(digits: string, rest: string)
    requires AllDigits(digits)
    ensures Find(digits + "-" + rest, '-') == |digits|
  {
    var text := digits + "-" + rest;
    assert forall j :: 0 <= j < |digits| ==> text[j] == digits[j] && IsDigit(digits[j]);
    assert text[|digits|] == '-';
  }

  // ---- what allocation keeps ----

  /** Every number was allocated: it carries its row's own year and a sequence of
      at least 1, and no two rows share one. */
  ghost predicate Allocated(book: Book, prefix: string) {
    && (forall id :: id in book && book[id].number.Some? ==>
          && RowSequence(book[id]).Some? && RowSequence(book[id]).value >= 1
          && book[id].number.value == FormatNumber(prefix, book[id].year, RowSequence(book[id]).value))
    && (forall a, b :: a in book && b in book && a != b && book[a].number.Some? ==> book[a].number != book[b].number)
  }

  /** In an allocated book the first attempt never collides: not with another year,
      not with a legacy width, not past 999. */
  lemma FirstAttemptIsFree(book: Book, prefix: string, year: nat, next: nat)
    requires Allocated(book, prefix) && IsNext(book, year, next)
    ensures !Taken(book, FormatNumber(prefix, year, next))
    ensures SequenceOf(FormatNumber(prefix, year, next)) == Some(next)
  {
    hide FormatNumber, SequenceOf;
    ParseNumber(prefix, year, next);
    forall id | id in book && book[id].number == Some(FormatNumber(prefix, year, next)) ensures false {
      FormatNumberInjective(prefix, book[id].year, RowSequence(book[id]).value, year, next);
    }
  }

  lemma AllocationKeepsAllocated(book: Book, prefix: string, id: int, year: nat, next: nat)
    requires Allocated(book, prefix) && IsNext(book, year, next)
    requires id in book ==> book[id].number.None?
    ensures Allocated(book[id := Row(year, Some(FormatNumber(prefix, year, next)))], prefix)
  {
    hide FormatNumber, SequenceOf;
    FirstAttemptIsFree(book, prefix, year, next);
  }

  lemma IsNextUnique(book: Book, year: nat, a: nat, b: nat)
    requires IsNext(book, year, a) && IsNext(book, year, b)
    ensures a == b
  {
    hide RowSequence;
  }

  lemma {:induction false} IsNextExists(book: Book, year: nat) returns (next: nat)
    ensures IsNext(book, year, next)
    decreases |book|
  {
    hide RowSequence;
    if |book| == 0 {
      next := 1;
    } else {
      assert |book.Keys| == |book|;
      NonEmpty(book.Keys);
      var id :| id in book.Keys;
      var rest := book - {id};
      var below := IsNextExists(rest, year);
      assert forall x :: x in rest ==> x in book && book[x] == rest[x];
      var here := RowSequence(book[id]);
      next := if book[id].year == year && here.Some? && here.value >= below then here.value + 1 else below;
    }
  }

  ghost function NextOf(book: Book, year: nat): (next: nat)
    ensures IsNext(book, year, next)
  {
    assert exists n: nat :: IsNext(book, year, n) by {
      var n := IsNextExists(book, year);
    }
    var next: nat :| IsNext(book, year, next);
    next
  }

  // ---- whole runs ----

  datatype Step = Create(id: int, year: nat) | Delete(id: int)

  /** Inserting a row and numbering it is one transaction; a collision on every
      attempt rolls the row back. */
  ghost function Apply(book: Book, prefix: string, step: Step): Book {
    match step
    case Create(id, year) =>
      var text := FormatNumber(prefix, year, NextOf(book, year));
      if id in book || Taken(book, text) then book else book[id := Row(year, Some(text))]
    case Delete(id) => book - {id}
  }

  ghost function Run(prefix: string, steps: seq<Step>): Book {
    if steps == [] then map[] else Apply(Run(prefix, steps[..|steps| - 1]), prefix, steps[|steps| - 1])
  }

  /** Over every run numbers stay distinct, carry their row's year and read back. */
  lemma {:induction false} EveryRunIsAllocated(prefix: string, steps: seq<Step>)
    ensures Allocated(Run(prefix, steps), prefix)
  {
    hide FormatNumber, SequenceOf;
    if steps != [] {
      var book, step := Run(prefix, steps[..|steps| - 1]), steps[|steps| - 1];
      EveryRunIsAllocated(prefix, steps[..|steps| - 1]);
      match step
      case Create(id, year) =>
        if id !in book {
          AllocationKeepsAllocated(book, prefix, id, year, NextOf(book, year));
        }
      case Delete(id) =>
    }
  }

  ghost predicate Used(book: Book, year: nat, sequence: int) {
    exists id :: id in book && book[id].year == year && RowSequence(book[id]) == Some(sequence)
  }

  /** Without deletions the sequences of each year are exactly 1, 2, ..., k. */
  lemma {:induction false} RunsWithoutDeletesHaveNoGaps(prefix: string, steps: seq<Step>, year: nat, sequence: int)
    requires forall i :: 0 <= i < |steps| ==> steps[i].Create?
    ensures var book := Run(prefix, steps);
            Used(book, year, sequence) <==> 1 <= sequence < NextOf(book, year)
  {
    hide FormatNumber, SequenceOf, RowSequence;
    EveryRunIsAllocated(prefix, steps);
    if steps != [] {
      var init, step := steps[..|steps| - 1], steps[|steps| - 1];
      var before, book := Run(prefix, init), Run(prefix, steps);
      EveryRunIsAllocated(prefix, init);
      RunsWithoutDeletesHaveNoGaps(prefix, init, year, sequence);
      if book != before {
        NumberedRow(before, prefix, step.id, step.year, NextOf(before, step.year));
        if step.year == year {
          assert IsNext(book, year, NextOf(before, year) + 1);
          IsNextUnique(book, year, NextOf(book, year), NextOf(before, year) + 1);
        } else {
          assert IsNext(book, year, NextOf(before, year));
          IsNextUnique(book, year, NextOf(book, year), NextOf(before, year));
          if Used(before, year, sequence) { assert Used(book, year, sequence); }
        }
      }
    }
  }

  lemma NumberedRow(before: Book, prefix: string, id: int, year: nat, next: nat)
    requires Allocated(before, prefix) && IsNext(before, year, next) && id !in before
    ensures var row := Row(year, Some(FormatNumber(prefix, year, next)));
            && RowSequence(row) == Some(next)
            && (forall x :: x in before ==> x in before[id := row] && before[id := row][x] == before[x])
            && (forall y, n :: Used(before, y, n) ==> Used(before[id := row], y, n))
            && (forall y, n :: Used(before[id := row], y, n) ==> Used(before, y, n) || (y == year && n == next))
  {
    ParseNumber(prefix, year, next);
    hide FormatNumber, SequenceOf;
    var row := Row(year, Some(FormatNumber(prefix, year, next)));
    var book := before[id := row];
    assert RowSequence(row) == Some(next);
    forall y, n | Used(before, y, n) ensures Used(book, y, n) {
      var x :| x in before && before[x].year == y && RowSequence(before[x]) == Some(n);
      assert book[x] == before[x];
    }
  }

  // ---- the allocation, with the table updated in place ----

  const MAX_ATTEMPTS := 5

  /** One more than the largest sequence read, ignoring unreadable numbers. */
  method MaxSequencePlusOne(numbers: seq<string>) returns (next: int)
    ensures next >= 1
    ensures forall n :: n in numbers && SequenceOf(n).Some? ==> SequenceOf(n).value < next
    ensures next == 1 || exists n :: n in numbers && SequenceOf(n) == Some(next - 1)
  {
    hide SequenceOf;
    var largest := 0;
    for i := 0 to |numbers|
      invariant largest >= 0
      invariant forall j :: 0 <= j < i && SequenceOf(numbers[j]).Some? ==> SequenceOf(numbers[j]).value <= largest
      invariant largest == 0 || exists j :: 0 <= j < i && SequenceOf(numbers[j]) == Some(largest)
    {
      var sequence := SequenceOf(numbers[i]);
      if sequence.None? {
        continue;
      }
      largest := Max(largest, sequence.value);
    }
    return largest + 1;
  }

  class NumberTable {
    var book: Book

    constructor ()
      ensures book == map[]
    {
      book := map[];
    }

    /** The rows of one local year that carry a number, in some order. */
    method YearNumbers(year: nat) returns (numbers: seq<string>)
      ensures forall n :: n in numbers <==> exists id :: id in book && book[id].year == year && book[id].number == Some(n)
    {
      var rest := book.Keys;
      numbers := [];
      while rest != {}
        invariant rest <= book.Keys
        invariant forall n :: n in numbers ==> exists id :: id in book && book[id].year == year && book[id].number == Some(n)
        invariant forall id :: id in book && id !in rest && book[id].year == year && book[id].number.Some? ==>
                    book[id].number.value in numbers
      {
        NonEmpty(rest);
        var id :| id in rest;
        if book[id].year == year && book[id].number.Some? {
          numbers := numbers + [book[id].number.value];
        }
        rest := rest - {id};
      }
    }

    method NextAgreementSequence(year: nat) returns (next: nat)
      ensures IsNext(book, year, next)
    {
      hide SequenceOf;
      var numbers := YearNumbers(year);
      var above := MaxSequencePlusOne(numbers);
      next := above;
      forall id | id in book && book[id].year == year && RowSequence(book[id]).Some?
        ensures RowSequence(book[id]).value < next
      {
        assert book[id].number.value in numbers;
      }
      if next != 1 {
        var n :| n in numbers && SequenceOf(n) == Some(next - 1);
        var id :| id in book && book[id].year == year && book[id].number == Some(n);
        assert RowSequence(book[id]) == Some(next - 1);
      }
    }

    /** The write the uniqueness constraint guards. */
    method SaveNumber(id: int, number: string) returns (saved: bool)
      requires id in book
      modifies this
      ensures saved <==> !exists x :: x in old(book) && x != id && old(book)[x].number == Some(number)
      ensures book == if saved then old(book)[id := Row(old(book)[id].year, Some(number))] else old(book)
    {
      if exists x :: x in book && x != id && book[x].number == Some(number) {
        return false;
      }
      book := book[id := Row(book[id].year, Some(number))];
      return true;
    }

    /** Keeps an existing number. Otherwise the next number of the row's local year
        is written, or, when it is taken, every attempt finds it taken. */
    method AssignAgreementNumber(id: int, prefix: string) returns (r: Result<string>)
      requires id in book
      modifies this
      ensures old(book)[id].number.Some? ==> r == Ok(old(book)[id].number.value) && book == old(book)
      ensures old(book)[id].number.None? ==>
                var year := old(book)[id].year;
                var text := FormatNumber(prefix, year, NextOf(old(book), year));
                && r == (if Taken(old(book), text) then Err(Duplicate) else Ok(text))
                && book == (if Taken(old(book), text) then old(book) else old(book)[id := Row(year, Some(text))])
      ensures Allocated(old(book), prefix) ==> r.Ok? && Allocated(book, prefix)
    {
      hide FormatNumber, SequenceOf, RowSequence, IsNext, Allocated;
      if book[id].number.Some? {
        return Ok(book[id].number.value);
      }
      var year := book[id].year;
      ghost var text := FormatNumber(prefix, year, NextOf(book, year));
      if Allocated(book, prefix) {
        FirstAttemptIsFree(book, prefix, year, NextOf(book, year));
        AllocationKeepsAllocated(book, prefix, id, year, NextOf(book, year));
      }
      for attempt := 0 to MAX_ATTEMPTS
        invariant book == old(book)
        invariant attempt > 0 ==> Taken(book, text)
      {
        var sequence := NextAgreementSequence(year);
        IsNextUnique(book, year, sequence, NextOf(book, year));
        var number := FormatNumber(prefix, year, sequence);
        var saved := SaveNumber(id, number);
        if saved {
          return Ok(number);
        }
      }
      return Err(Duplicate);
    }
  }
}
