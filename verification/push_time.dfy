/**
 * Delivery-time constraints of a push (gw/wap_push_ppg.c, 1532-1556 and
 * 2035-2113). A PAP timestamp has the form YYYY-MM-DDThh:mm:ssZ (PAP section
 * 9.2); its six numeric fields start at positions 0, 5, 8, 11, 14 and 17 and
 * are compared one by one, most significant first, against the current UTC
 * time broken down into a `struct tm`.
 */
module PushTime {
  import opened Wrappers
  import opened Octstr

  /** The fields of a broken-down `struct tm` the gateway reads. */
  datatype Tm = Tm(year: int, mon: int, mday: int, hour: int, min: int, sec: int)
    // year counts from 1900, mon from 0, as in struct tm

  /** initialize_time_item_array: the six PAP fields of `now`, most significant first. */
  function TimeItems(now: Tm): (items: seq<int>)
    ensures |items| == 6
    ensures items[0] - 1900 == now.year && items[1] - 1 == now.mon
    ensures items[2..] == [now.mday, now.hour, now.min, now.sec]
  {
    [now.year + 1900, now.mon + 1, now.mday, now.hour, now.min, now.sec]
  }

  /**
   * date_item_compare: 1 if the number at `pos` is greater than `item`, -1 if
   * smaller, and 0 if it is equal or cannot be parsed.
   */
  function DateItemCompare(s: string, item: int, pos: nat): (r: int)
    ensures r == 1 <==> ParseLong(s, pos).Some? && ParseLong(s, pos).value > item
    ensures r == -1 <==> ParseLong(s, pos).Some? && ParseLong(s, pos).value < item
    ensures r == 0 || r == 1 || r == -1
  {
    match ParseLong(s, pos)
    case None => 0
    case Some(d) => if d < item then -1 else if d > item then 1 else 0
  }

  /** The position of field `f` (0 = year, ..., 5 = seconds) in a PAP timestamp. */
  function FieldPos(f: nat): nat {
    if f == 0 then 0 else 3 * f + 2
  }

  /** The time_data index the loops use at position j: (j-5)/3 + 1. */
  function FieldAt(j: nat): nat
    requires j >= 5
  {
    (j - 5) / 3 + 1
  }

  /** Field `f` of `s` compared with field `f` of `now`. */
  function Cmp(s: string, now: Tm, f: nat): int
    requires f < 6
  {
    DateItemCompare(s, TimeItems(now)[f], FieldPos(f))
  }

  /** A field the tests look at: the year always, the others when they start inside `s`. */
  predicate Examined(s: string, f: nat) {
    f == 0 || (1 <= f < 6 && FieldPos(f) < |s|)
  }

  /**
   * The loop of both tests, at position j: a comparison equal to `target`
   * clears the test, one equal to -target fails it, 0 moves on three
   * positions. Bounded to the six fields time_data holds; the as-written
   * loop is ScanAsWritten below.
   */
  function Scan(s: string, items: seq<int>, j: nat, target: int): bool
    requires |items| == 6 && j >= 5
    decreases |s| - j
  {
    if j >= |s| || FieldAt(j) >= 6 then false
    else
      var c := DateItemCompare(s, items[FieldAt(j)], j);
      if c == target then true
      else if c == -target then false
      else Scan(s, items, j + 3, target)
  }

  /**
   * The common shape of deliver_before_test_cleared (target 1: the stamp
   * must be later than now) and deliver_after_test_cleared (target -1: the
   * stamp must be earlier than now). A missing stamp clears the test.
   */
  function TestCleared(stamp: Option<string>, now: Tm, target: int): bool {
    match stamp
    case None => true
    case Some(s) =>
      var items := TimeItems(now);
      var c := DateItemCompare(s, items[0], 0);
      if c == target then true
      else if c == -target then false
      else Scan(s, items, 5, target)
  }

  /** deliver_before_test_cleared. */
  function DeliverBeforeTestCleared(before: Option<string>, now: Tm): bool {
    TestCleared(before, now, 1)
  }

  /** deliver_after_test_cleared. */
  function DeliverAfterTestCleared(after: Option<string>, now: Tm): bool {
    TestCleared(after, now, -1)
  }

  /** FieldAt undoes FieldPos on the fields the loop visits. */
  lemma FieldAtPos(f: nat)
    requires f >= 1
    ensures FieldPos(f) >= 5 && FieldAt(FieldPos(f)) == f && FieldPos(f + 1) == FieldPos(f) + 3
  {
    assert FieldPos(f) - 5 == 3 * (f - 1);
  }

  /** The six field comparisons of `s` against `now`, most significant first. */
  function Cmps(s: string, now: Tm): (cs: seq<int>)
    ensures |cs| == 6 && forall f :: 0 <= f < 6 ==> cs[f] == Cmp(s, now, f)
  {
    seq(6, f requires 0 <= f < 6 => Cmp(s, now, f))
  }

  /** Which of the six fields the tests look at. */
  function Exams(s: string): (ex: seq<bool>)
    ensures |ex| == 6 && forall f :: 0 <= f < 6 ==> (ex[f] <==> Examined(s, f))
  {
    seq(6, f requires 0 <= f => Examined(s, f))
  }

  /**
   * Field k decides a lexicographic comparison started at field f as
   * `target`: it is examined, compares as `target`, and every field from f
   * up to k compares equal.
   */
  predicate LexClears(cs: seq<int>, ex: seq<bool>, f: nat, k: nat, target: int) {
    f <= k < |cs| && k < |ex| && ex[k] && cs[k] == target &&
    forall i :: f <= i < k ==> cs[i] == 0
  }

  /** A field that compares equal passes the decision on to the next field. */
  lemma LexShift(cs: seq<int>, ex: seq<bool>, f: nat, g: nat, target: int)
    requires f < |cs| && cs[f] == 0 && target != 0 && g == f + 1
    ensures (exists k :: LexClears(cs, ex, f, k, target)) <==> (exists k :: LexClears(cs, ex, g, k, target))
  {
    if exists k :: LexClears(cs, ex, f, k, target) {
      var k :| LexClears(cs, ex, f, k, target);
      assert LexClears(cs, ex, g, k, target);
    }
    if exists k :: LexClears(cs, ex, g, k, target) {
      var k :| LexClears(cs, ex, g, k, target);
      assert LexClears(cs, ex, f, k, target);
    }
  }

  /** A field that compares the wrong way decides the comparison against `target`. */
  lemma LexBlocked(cs: seq<int>, ex: seq<bool>, f: nat, target: int)
    requires f < |cs| && cs[f] == -target && target != 0
    ensures !exists k :: LexClears(cs, ex, f, k, target)
  {
    forall k: nat ensures !LexClears(cs, ex, f, k, target) {
      if k > f {
        assert cs[f] != 0;
      }
    }
  }

  /** Past the stamp's end or the sixth field the loop stops uncleared, and no later field is examined. */
  lemma ScanStops(s: string, now: Tm, f: nat, target: int)
    requires 1 <= f <= 6 && (FieldPos(f) >= |s| || f == 6)
    ensures !Scan(s, TimeItems(now), FieldPos(f), target)
    ensures !exists k :: LexClears(Cmps(s, now), Exams(s), f, k, target)
  {
    FieldAtPos(f);
    var ex := Exams(s);
    forall k: nat | f <= k < 6 ensures !ex[k] {
      assert FieldPos(k) >= FieldPos(f);
    }
  }

  /** One round of the loop at field f: decided by field f unless it compares equal. */
  lemma ScanStep(s: string, now: Tm, f: nat, target: int)
    requires 1 <= f < 6 && FieldPos(f) < |s|
    ensures Exams(s)[f]
    ensures Scan(s, TimeItems(now), FieldPos(f), target) ==
            if Cmps(s, now)[f] == target then true
            else if Cmps(s, now)[f] == -target then false
            else Scan(s, TimeItems(now), FieldPos(f + 1), target)
  {
    FieldAtPos(f);
  }

  /**
   * The loop from field f on clears exactly when some examined field k >= f
   * compares as `target` and every field between f and k compares equal.
   */
  lemma {:induction false} ScanSpec(s: string, now: Tm, f: nat, target: int)
    requires 1 <= f <= 6 && (target == 1 || target == -1)
    ensures Scan(s, TimeItems(now), FieldPos(f), target) <==> exists k :: LexClears(Cmps(s, now), Exams(s), f, k, target)
    decreases 6 - f
  {
    var cs, ex := Cmps(s, now), Exams(s);
    if FieldPos(f) >= |s| || f == 6 {
      ScanStops(s, now, f, target);
    } else {
      ScanStep(s, now, f, target);
      if cs[f] == target {
        assert LexClears(cs, ex, f, f, target);
      } else if cs[f] == -target {
        LexBlocked(cs, ex, f, target);
      } else {
        ScanSpec(s, now, f + 1, target);
        LexShift(cs, ex, f, f + 1, target);
      }
    }
  }

  /**
   * A present stamp clears the test exactly when the first examined field
   * that differs from now compares as `target`: a lexicographic comparison
   * of the fields the stamp has.
   */
  lemma TestClearedSpec(s: string, now: Tm, target: int)
    requires target == 1 || target == -1
    ensures TestCleared(Some(s), now, target) <==> exists k :: LexClears(Cmps(s, now), Exams(s), 0, k, target)
  {
    var cs, ex := Cmps(s, now), Exams(s);
    assert cs[0] == DateItemCompare(s, TimeItems(now)[0], 0);
    ScanSpec(s, now, 1, target);
    if cs[0] == target {
      assert ex[0];
      assert LexClears(cs, ex, 0, 0, target);
    } else if cs[0] == -target {
      LexBlocked(cs, ex, 0, target);
    } else {
      LexShift(cs, ex, 0, 1, target);
    }
  }

  /** deliver-before is cleared iff the stamp is later than now in the first differing field. */
  lemma DeliverBeforeSpec(s: string, now: Tm)
    ensures DeliverBeforeTestCleared(Some(s), now) <==> exists k :: LexClears(Cmps(s, now), Exams(s), 0, k, 1)
  {
    TestClearedSpec(s, now, 1);
  }

  /** deliver-after is cleared iff the stamp is earlier than now in the first differing field. */
  lemma DeliverAfterSpec(s: string, now: Tm)
    ensures DeliverAfterTestCleared(Some(s), now) <==> exists k :: LexClears(Cmps(s, now), Exams(s), 0, k, -1)
  {
    TestClearedSpec(s, now, -1);
  }

  /** A stamp equal to now in every examined field clears neither test. */
  lemma EqualStampNotCleared(s: string, now: Tm)
    requires forall k :: 0 <= k < 6 && Examined(s, k) ==> Cmp(s, now, k) == 0
    ensures !DeliverBeforeTestCleared(Some(s), now)
    ensures !DeliverAfterTestCleared(Some(s), now)
  {
    DeliverBeforeSpec(s, now);
    DeliverAfterSpec(s, now);
  }

  /** No stamp is both later and earlier than now. */
  lemma NotBothCleared(s: string, now: Tm)
    ensures !(DeliverBeforeTestCleared(Some(s), now) && DeliverAfterTestCleared(Some(s), now))
  {
    DeliverBeforeSpec(s, now);
    DeliverAfterSpec(s, now);
  }

  /** The outcome of delivery_time_constraints. */
  datatype TimeConstraint = TimeExpired | TimeTooEarly | NoConstraints

  /**
   * delivery_time_constraints: the deliver-before test is made first, so a
   * push whose window has closed is expired even if it is also too early.
   */
  function DeliveryTimeConstraints(before: Option<string>, after: Option<string>, now: Tm): (r: TimeConstraint)
    ensures r == TimeExpired <==> !DeliverBeforeTestCleared(before, now)
    ensures r == TimeTooEarly <==> DeliverBeforeTestCleared(before, now) && !DeliverAfterTestCleared(after, now)
    ensures r == NoConstraints <==> DeliverBeforeTestCleared(before, now) && DeliverAfterTestCleared(after, now)
  {
    if !DeliverBeforeTestCleared(before, now) then TimeExpired
    else if !DeliverAfterTestCleared(after, now) then TimeTooEarly
    else NoConstraints
  }

  /** A push without either constraint is never held back. */
  lemma UnconstrainedPushPasses(now: Tm)
    ensures DeliveryTimeConstraints(None, None, now) == NoConstraints
  {
  }

  /** The same stamp used for both bounds never lets a push through. */
  lemma SameStampBlocks(s: string, now: Tm)
    ensures DeliveryTimeConstraints(Some(s), Some(s), now) != NoConstraints
  {
    NotBothCleared(s, now);
  }

  // ---- The loop as written ----------------------------------------------

  /**
   * The loop of both tests exactly as written: it runs while j is inside the
   * stamp, without bounding the index into time_data. None stands for the
   * read of time_data[6] (or beyond) that happens when the first six fields
   * all compare equal and the stamp has a character at position 20.
   */
  function ScanAsWritten(s: string, items: seq<int>, j: nat, target: int): Option<bool>
    requires |items| == 6 && j >= 5
    decreases |s| - j
  {
    if j >= |s| then Some(false)
    else if FieldAt(j) >= 6 then None
    else
      var c := DateItemCompare(s, items[FieldAt(j)], j);
      if c == target then Some(true)
      else if c == -target then Some(false)
      else ScanAsWritten(s, items, j + 3, target)
  }

  function TestClearedAsWritten(stamp: Option<string>, now: Tm, target: int): Option<bool> {
    match stamp
    case None => Some(true)
    case Some(s) =>
      var items := TimeItems(now);
      var c := DateItemCompare(s, items[0], 0);
      if c == target then Some(true)
      else if c == -target then Some(false)
      else ScanAsWritten(s, items, 5, target)
  }

  /** Wherever the loop as written stays inside time_data, it agrees with the bounded loop. */
  lemma {:induction false} ScanAsWrittenAgrees(s: string, items: seq<int>, f: nat, target: int)
    requires |items| == 6 && f >= 1
    ensures FieldPos(f) >= 5
    ensures ScanAsWritten(s, items, FieldPos(f), target).Some? ==>
            ScanAsWritten(s, items, FieldPos(f), target).value == Scan(s, items, FieldPos(f), target)
    ensures |s| <= 20 ==> ScanAsWritten(s, items, FieldPos(f), target).Some?
    decreases |s| - FieldPos(f)
  {
    FieldAtPos(f);
    if FieldPos(f) < |s| && f < 6 {
      ScanAsWrittenStep(s, items, f, target);
      ScanAsWrittenAgrees(s, items, f + 1, target);
    }
  }

  /** One round of both loops at a field inside time_data: both decide alike or both go on. */
  lemma ScanAsWrittenStep(s: string, items: seq<int>, f: nat, target: int)
    requires |items| == 6 && 1 <= f < 6 && FieldPos(f) < |s|
    ensures FieldPos(f) >= 5 && FieldPos(f + 1) == FieldPos(f) + 3
    ensures ScanAsWritten(s, items, FieldPos(f), target) == Some(Scan(s, items, FieldPos(f), target)) ||
            (ScanAsWritten(s, items, FieldPos(f), target) == ScanAsWritten(s, items, FieldPos(f + 1), target) &&
             Scan(s, items, FieldPos(f), target) == Scan(s, items, FieldPos(f + 1), target))
  {
    FieldAtPos(f);
  }

  /** A stamp of the standard length (at most 20 characters) never reaches past time_data. */
  lemma TestAsWrittenAgrees(stamp: Option<string>, now: Tm, target: int)
    ensures TestClearedAsWritten(stamp, now, target).Some? ==>
            TestClearedAsWritten(stamp, now, target).value == TestCleared(stamp, now, target)
    ensures (stamp.None? || |stamp.value| <= 20) ==> TestClearedAsWritten(stamp, now, target).Some?
  {
    if stamp.Some? {
      ScanAsWrittenAgrees(stamp.value, TimeItems(now), 1, target);
    }
  }

  /** Past six equal fields, a stamp longer than 20 characters takes the loop as written to time_data[6]. */
  lemma {:induction false} ScanAsWrittenOverruns(s: string, items: seq<int>, f: nat, target: int)
    requires 1 <= f <= 6 && |items| == 6 && |s| > 20
    requires forall k :: f <= k < 6 ==> DateItemCompare(s, items[k], FieldPos(k)) == 0
    requires target == 1 || target == -1
    ensures ScanAsWritten(s, items, FieldPos(f), target).None?
    decreases 6 - f
  {
    FieldAtPos(f);
    if f < 6 {
      ScanAsWrittenOverruns(s, items, f + 1, target);
    }
  }

  // ---- Concrete instances ------------------------------------------------

  /** The example timestamp of PAP section 9.2 style used below. */
  const SAMPLE_STAMP: string := "2024-01-01T00:00:00Z"

  /** A two-digit field followed by a separator parses as its value. */
  lemma TwoDigits(s: string, pos: nat)
    requires pos + 2 <= |s| && IsDigit(s[pos]) && IsDigit(s[pos + 1])
    requires pos + 2 == |s| || !IsDigit(s[pos + 2])
    ensures ParseLong(s, pos) == Some(10 * DigitOf(s[pos]) + DigitOf(s[pos + 1]))
  {
    assert SkipSpaces(s, pos) == pos;
    DigitRunEndAt(s, pos, pos + 2);
    var d := s[pos..pos + 2];
    assert d[..1][..0] == [];
    assert DigitsValue(d[..1]) == DigitOf(s[pos]);
  }

  lemma SampleYear(s: string)
    requires |s| >= 20 && s[..20] == SAMPLE_STAMP
    ensures ParseLong(s, 0) == Some(2024)
  {
    assert NatToDecimal(2024) == "2024" by {
      assert NatToDecimal(2) == "2";
      assert NatToDecimal(20) == "20";
      assert NatToDecimal(202) == "202";
    }
    assert s == NatToDecimal(2024) + s[4..];
    ParseFormatted(2024, s[4..]);
  }

  /** One two-digit field of the sample stamp. */
  lemma SampleField(s: string, pos: nat)
    requires |s| >= 20 && s[..20] == SAMPLE_STAMP
    requires pos == 5 || pos == 8 || pos == 11 || pos == 14 || pos == 17
    ensures ParseLong(s, pos) == Some(if pos <= 8 then 1 else 0)
  {
    assert s[pos] == SAMPLE_STAMP[pos] && s[pos + 1] == SAMPLE_STAMP[pos + 1];
    assert s[pos + 2] == SAMPLE_STAMP[pos + 2];
    TwoDigits(s, pos);
  }

  /** The sample stamp's fields, each compared with midnight of 2024-01-01. */
  lemma SampleFields(s: string)
    requires |s| >= 20 && s[..20] == SAMPLE_STAMP
    ensures forall k :: 0 <= k < 6 ==> DateItemCompare(s, TimeItems(Tm(124, 0, 1, 0, 0, 0))[k], FieldPos(k)) == 0
  {
    var items := TimeItems(Tm(124, 0, 1, 0, 0, 0));
    assert items == [2024, 1, 1, 0, 0, 0];
    forall k | 0 <= k < 6 ensures DateItemCompare(s, items[k], FieldPos(k)) == 0 {
      if k == 0 {
        SampleYear(s);
      } else {
        SampleField(s, FieldPos(k));
      }
    }
  }

  /**
   * The sample stamp with one extra character, at the very second it names,
   * takes the loop as written to time_data[6].
   */
  lemma OverlongStampReadsPastItems()
    ensures TestClearedAsWritten(Some(SAMPLE_STAMP + "+"), Tm(124, 0, 1, 0, 0, 0), 1).None?
  {
    var s := SAMPLE_STAMP + "+";
    assert s[..20] == SAMPLE_STAMP;
    SampleFields(s);
    ScanAsWrittenOverruns(s, TimeItems(Tm(124, 0, 1, 0, 0, 0)), 1, 1);
  }

  /** A deadline equal to now has passed: timestamps equalling now are not accepted. */
  lemma DeadlineReachedIsExpired()
    ensures DeliveryTimeConstraints(Some(SAMPLE_STAMP), None, Tm(124, 0, 1, 0, 0, 0)) == TimeExpired
  {
    assert SAMPLE_STAMP[..20] == SAMPLE_STAMP;
    SampleFields(SAMPLE_STAMP);
    EqualStampNotCleared(SAMPLE_STAMP, Tm(124, 0, 1, 0, 0, 0));
  }

  /** One second before that deadline the push is still deliverable. */
  lemma BeforeDeadlineIsCleared()
    ensures DeliveryTimeConstraints(Some(SAMPLE_STAMP), None, Tm(123, 11, 31, 23, 59, 59)) == NoConstraints
  {
    assert SAMPLE_STAMP[..20] == SAMPLE_STAMP;
    SampleYear(SAMPLE_STAMP);
  }
}
