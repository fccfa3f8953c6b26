/** The lottery number picker: parameter validation, one ticket (unique
    numbers by a partial Fisher-Yates shuffle, or independent draws), and a
    run of tickets with progress reports and cancellation.

    The source computes the range size and the upper bound of `Random.Next`
    in wrapping 32-bit `int` arithmetic. `ValidateAsWritten` and
    `RandomUpperBoundAsWritten` state that arithmetic as written; the
    operations use the exact rules it evidently intends. `Random.Next` is
    the parameter `draw` (the raw value of each call, mapped into the
    requested range), and whether the cancellation token is set at the check
    before ticket `i` is the parameter `cancelled(i)`. */
module NumberPicker {
  import opened Wrappers
  import opened Text

  /** An `ArgumentException` with its message and the parameter name it was
      given, if any, or the cancellation. */
  datatype PickError = InvalidArgument(message: string, paramName: Option<string>) | Cancelled

  const NUMBERS_PER_TICKET_MESSAGE: string := "Numbers per ticket must be greater than 0"
  const MIN_MAX_MESSAGE: string := "Minimum value cannot be greater than maximum value"
  const TICKET_COUNT_MESSAGE: string := "Ticket count must be greater than 0"

  function RangeMessage(n: int, min: int, max: int): string {
    "Cannot generate " + IntToString(n) + " unique numbers from range " + IntToString(min) + "-" + IntToString(max)
  }

  /** `ValidateParameters` with the range size computed exactly: the
      message of the first rule broken, or None. */
  function Validate(n: int, min: int, max: int, unique: bool): (r: Option<string>)
    ensures r.None? <==> n > 0 && min <= max && (!unique || n <= max - min + 1)
    ensures n <= 0 ==> r == Some(NUMBERS_PER_TICKET_MESSAGE)
    ensures n > 0 && min > max ==> r == Some(MIN_MAX_MESSAGE)
    ensures n > 0 && min <= max && unique && n > max - min + 1 ==> r == Some(RangeMessage(n, min, max))
  {
    if n <= 0 then Some(NUMBERS_PER_TICKET_MESSAGE)
    else if min > max then Some(MIN_MAX_MESSAGE)
    else if unique && n > max - min + 1 then Some(RangeMessage(n, min, max))
    else None
  }

  /** The parameter each rule of `ValidateParameters` names: the count and
      the minimum rules name theirs, the range rule none. */
  function ValidateParam(n: int, min: int, max: int): Option<string> {
    if n <= 0 then Some("numbersPerTicket")
    else if min > max then Some("minInclusive")
    else None
  }

  /** `ValidateParameters` as written: `maxInclusive - minInclusive + 1`
      wraps around for ranges of 2^31 values or more. */
  function ValidateAsWritten(n: Int32, min: Int32, max: Int32, unique: bool): Option<string> {
    if n <= 0 then Some(NUMBERS_PER_TICKET_MESSAGE)
    else if min > max then Some(MIN_MAX_MESSAGE)
    else if unique && n > Wrap32(Wrap32(max - min) + 1) then Some(RangeMessage(n, min, max))
    else None
  }

  /** The two agree whenever the range size fits in an `int`. */
  lemma ValidateAsWrittenAgrees(n: Int32, min: Int32, max: Int32, unique: bool)
    requires max - min + 1 <= INT32_MAX
    ensures ValidateAsWritten(n, min, max, unique) == Validate(n, min, max, unique)
  {
    if min <= max {
      assert Wrap32(max - min) == max - min;
    }
  }

  /** Wherever the rule as written accepts, the exact rule accepts too: the
      wrapped range size is never larger than the true one when it matters. */
  lemma ValidateAsWrittenStricter(n: Int32, min: Int32, max: Int32, unique: bool)
    ensures ValidateAsWritten(n, min, max, unique).None? ==> Validate(n, min, max, unique).None?
  {
    if n > 0 && min <= max && unique {
      if max - min <= INT32_MAX {
        assert Wrap32(max - min) == max - min;
      } else {
        var x := max - min;
        assert IsInt32(min) && IsInt32(max);
        assert 0 <= x < 0x1_0000_0000;
        assert x % 0x1_0000_0000 == x;
        assert Wrap32(x) == x - 0x1_0000_0000;
      }
    }
  }

  /** Six unique numbers from 0..int.MaxValue are rejected as written. */
  lemma ValidateAsWrittenRejectsWideRange()
    ensures ValidateAsWritten(6, 0, INT32_MAX, true).Some?
    ensures Validate(6, 0, INT32_MAX, true).None?
  {
    assert Wrap32(INT32_MAX - 0) == INT32_MAX;
    assert Wrap32(INT32_MAX + 1) == INT32_MIN;
  }

  /** `Random.Next(lo, hi)`: `lo` when the range is empty, otherwise a value
      in [lo, hi) chosen by the raw draw `d`. */
  function RandomNext(lo: int, hi: int, d: nat): (r: int)
    requires lo <= hi
    ensures lo == hi ==> r == lo
    ensures lo < hi ==> lo <= r < hi
  {
    if lo == hi then lo else lo + d % (hi - lo)
  }

  /** The exclusive bound `max + 1` that `GenerateRandomNumbers` passes, as written. */
  function RandomUpperBoundAsWritten(max: Int32): Int32 {
    Wrap32(max + 1)
  }

  /** With `max == int.MaxValue` the bound wraps below `min`, and
      `Random.Next` rejects it (it throws when its bounds are reversed). */
  lemma RandomUpperBoundWraps(min: Int32)
    requires min > INT32_MIN
    ensures RandomUpperBoundAsWritten(INT32_MAX) < min
  {
    assert RandomUpperBoundAsWritten(INT32_MAX) == INT32_MIN;
  }

  // ------------------------------------------------------------ sorting

  predicate Sorted(s: seq<int>) {
    forall i, j :: 0 <= i < j < |s| ==> s[i] <= s[j]
  }

  predicate StrictlyIncreasing(s: seq<int>) {
    forall i, j :: 0 <= i < j < |s| ==> s[i] < s[j]
  }

  predicate Distinct(s: seq<int>) {
    forall i, j :: 0 <= i < j < |s| ==> s[i] != s[j]
  }

  /** Every value of `r` is a value of `t` or `x`, so a lower bound of both bounds `r`. */
  lemma LowerBound(b: int, x: int, t: seq<int>, r: seq<int>)
    requires multiset(r) == multiset(t) + multiset{x}
    requires b <= x && forall k :: 0 <= k < |t| ==> b <= t[k]
    ensures forall k :: 0 <= k < |r| ==> b <= r[k]
  {
    forall k | 0 <= k < |r|
      ensures b <= r[k]
    {
      assert r[k] in multiset(r);
      if r[k] != x {
        assert r[k] in multiset(t);
      }
    }
  }

  /** Puts `x` in front of a sorted sequence of values no smaller than `x`. */
  lemma ConsSorted(x: int, s: seq<int>)
    requires Sorted(s) && forall k :: 0 <= k < |s| ==> x <= s[k]
    ensures Sorted([x] + s)
  {
  }

  function InsertInt(x: int, s: seq<int>): (r: seq<int>)
    requires Sorted(s)
    ensures Sorted(r) && multiset(r) == multiset(s) + multiset{x}
  {
    if s == [] then [x]
    else if x <= s[0] then
      ConsSorted(x, s);
      [x] + s
    else
      var rest := InsertInt(x, s[1..]);
      assert s == [s[0]] + s[1..];
      LowerBound(s[0], x, s[1..], rest);
      ConsSorted(s[0], rest);
      [s[0]] + rest
  }

  /** `Array.Sort` on the contents: the same values in ascending order. */
  function SortInts(s: seq<int>): (r: seq<int>)
    ensures Sorted(r) && multiset(r) == multiset(s) && |r| == |s|
  {
    if s == [] then []
    else
      assert s == [s[0]] + s[1..];
      InsertInt(s[0], SortInts(s[1..]))
  }

  /** Sorted and free of repeats is strictly increasing. */
  lemma SortedDistinctIsStrict(s: seq<int>)
    requires Sorted(s) && Distinct(s)
    ensures StrictlyIncreasing(s)
  {
  }

  /** A value that occurs at two positions is counted twice. */
  lemma RepeatCountsTwice(r: seq<int>, i: nat, j: nat)
    requires i < j < |r| && r[i] == r[j]
    ensures multiset(r)[r[i]] >= 2
  {
    assert r == r[..j] + [r[j]] + r[j + 1..];
    assert r[i] in r[..j];
    assert multiset(r) == multiset(r[..j]) + multiset{r[j]} + multiset(r[j + 1..]);
  }

  lemma {:induction false} DistinctCountsOnce(s: seq<int>, x: int)
    requires Distinct(s)
    ensures multiset(s)[x] <= 1
  {
    if s != [] {
      var t := s[..|s| - 1];
      assert s == t + [s[|s| - 1]];
      assert Distinct(t);
      DistinctCountsOnce(t, x);
      if x == s[|s| - 1] {
        assert x !in t;
      }
    }
  }

  /** A rearrangement of distinct values is again distinct. */
  lemma PermutationKeepsDistinct(s: seq<int>, t: seq<int>)
    requires multiset(s) == multiset(t) && Distinct(t)
    ensures Distinct(s)
  {
    forall i, j | 0 <= i < j < |s|
      ensures s[i] != s[j]
    {
      if s[i] == s[j] {
        RepeatCountsTwice(s, i, j);
        DistinctCountsOnce(t, s[i]);
      }
    }
  }

  /** Sorting keeps values apart: distinct values sort into a strictly increasing sequence. */
  lemma SortKeepsDistinct(s: seq<int>)
    requires Distinct(s)
    ensures StrictlyIncreasing(SortInts(s))
  {
    PermutationKeepsDistinct(SortInts(s), s);
    SortedDistinctIsStrict(SortInts(s));
  }

  /** `Array.Sort(a)`: the array ends up holding its values in ascending order. */
  method ArraySort(a: array<int>)
    modifies a
    ensures a[..] == SortInts(old(a[..]))
  {
    var sorted := SortInts(a[..]);
    var i := 0;
    while i < a.Length
      invariant 0 <= i <= a.Length
      invariant forall k :: 0 <= k < i ==> a[k] == sorted[k]
    {
      a[i] := sorted[i];
      i := i + 1;
    }
  }

  // ------------------------------------------------------------ tickets

  function RangeSeq(min: int, count: nat): (r: seq<int>)
    ensures |r| == count && forall k :: 0 <= k < count ==> r[k] == min + k
  {
    seq(count, k => min + k)
  }

  lemma SwapMultiset(s: seq<int>, i: nat, j: nat)
    requires i < |s| && j < |s|
    ensures multiset(s[i := s[j]][j := s[i]]) == multiset(s)
  {
    if i != j {
      var t := s[i := s[j]];
      assert multiset(t) == multiset(s) - multiset{s[i]} + multiset{s[j]};
    }
  }

  /** Swaps positions i and j. */
  function Swap(s: seq<int>, i: nat, j: nat): (r: seq<int>)
    requires i < |s| && j < |s|
    ensures |r| == |s| && multiset(r) == multiset(s)
  {
    SwapMultiset(s, i, j);
    s[i := s[j]][j := s[i]]
  }

  /** Steps i..count-1 of the partial Fisher-Yates shuffle: step i swaps
      position i with a position drawn from i..|s|-1. The result is a
      rearrangement of `s`. */
  function Shuffled(s: seq<int>, i: nat, count: nat, draw: nat -> nat): (r: seq<int>)
    requires i <= count <= |s|
    ensures |r| == |s| && multiset(r) == multiset(s)
    decreases count - i
  {
    if i == count then s
    else Shuffled(Swap(s, i, RandomNext(i, |s|, draw(i))), i + 1, count, draw)
  }

  /** Any rearrangement of min..max holds distinct values of that range. */
  lemma RangePermutation(s: seq<int>, min: int, n: nat)
    requires multiset(s) == multiset(RangeSeq(min, n))
    ensures Distinct(s)
    ensures forall k :: 0 <= k < |s| ==> min <= s[k] < min + n
  {
    var t := RangeSeq(min, n);
    PermutationKeepsDistinct(s, t);
    forall k | 0 <= k < |s|
      ensures min <= s[k] < min + n
    {
      assert s[k] in multiset(t);
      var m :| 0 <= m < n && t[m] == s[k];
    }
  }

  /** Fills the array with min, min+1, ... */
  method FillRange(numbers: array<int>, min: int)
    modifies numbers
    ensures numbers[..] == RangeSeq(min, numbers.Length)
  {
    var i := 0;
    while i < numbers.Length
      invariant 0 <= i <= numbers.Length
      invariant forall k :: 0 <= k < i ==> numbers[k] == min + k
    {
      numbers[i] := min + i;
      i := i + 1;
    }
  }

  /** The shuffle loop, in place. */
  method ShufflePrefix(numbers: array<int>, count: nat, draw: nat -> nat)
    requires count <= numbers.Length
    modifies numbers
    ensures numbers[..] == Shuffled(old(numbers[..]), 0, count, draw)
  {
    var i := 0;
    while i < count
      invariant 0 <= i <= count
      invariant Shuffled(numbers[..], i, count, draw) == Shuffled(old(numbers[..]), 0, count, draw)
    {
      var j := RandomNext(i, numbers.Length, draw(i));
      assert Swap(numbers[..], i, j) == numbers[..][i := numbers[j]][j := numbers[i]];
      numbers[i], numbers[j] := numbers[j], numbers[i];
      i := i + 1;
    }
  }

  /** `Array.Copy(numbers, result, count)` into a new array. */
  method CopyPrefix(numbers: array<int>, count: nat) returns (result: array<int>)
    requires count <= numbers.Length
    ensures fresh(result) && result[..] == numbers[..count]
  {
    result := new int[count];
    var i := 0;
    while i < count
      invariant 0 <= i <= count
      invariant forall k :: 0 <= k < i ==> result[k] == numbers[k]
    {
      result[i] := numbers[i];
      i := i + 1;
    }
  }

  /** The partial Fisher-Yates shuffle: positions 0..count-1 end up holding
      `count` distinct values of min..max, which are returned sorted. */
  method GenerateUniqueNumbers(count: nat, min: int, max: int, draw: nat -> nat) returns (result: array<int>)
    requires 0 < count <= max - min + 1
    ensures fresh(result)
    ensures result[..] == SortInts(Shuffled(RangeSeq(min, max - min + 1), 0, count, draw)[..count])
  {
    var range := max - min + 1;
    var numbers := new int[range];
    FillRange(numbers, min);
    ghost var initial := numbers[..];
    assert initial == RangeSeq(min, max - min + 1);
    ShufflePrefix(numbers, count, draw);
    ghost var shuffled := numbers[..];
    assert shuffled == Shuffled(initial, 0, count, draw);
    result := CopyPrefix(numbers, count);
    ghost var chosen := result[..];
    assert chosen == shuffled[..count];
    ArraySort(result);
    assert result[..] == SortInts(chosen);
  }

  /** What `GenerateUniqueNumbers` returns is a valid unique ticket. */
  lemma UniqueNumbersAreValid(count: nat, min: int, max: int, draw: nat -> nat)
    requires 0 < count <= max - min + 1
    ensures var r := SortInts(Shuffled(RangeSeq(min, max - min + 1), 0, count, draw)[..count]);
      |r| == count && StrictlyIncreasing(r) && forall k :: 0 <= k < count ==> min <= r[k] <= max
  {
    var s := Shuffled(RangeSeq(min, max - min + 1), 0, count, draw);
    RangePermutation(s, min, max - min + 1);
    var chosen := s[..count];
    PrefixKeeps(s, count, min, max);
    SortKeepsDistinct(chosen);
    SortKeepsRange(chosen, min, max);
  }

  /** A prefix of distinct values of min..max is again one. */
  lemma PrefixKeeps(s: seq<int>, count: nat, min: int, max: int)
    requires count <= |s| && Distinct(s) && forall k :: 0 <= k < |s| ==> min <= s[k] <= max
    ensures Distinct(s[..count]) && forall k :: 0 <= k < count ==> min <= s[..count][k] <= max
  {
  }

  /** Sorting keeps every value within the bounds. */
  lemma SortKeepsRange(s: seq<int>, min: int, max: int)
    requires forall k :: 0 <= k < |s| ==> min <= s[k] <= max
    ensures forall k :: 0 <= k < |s| ==> min <= SortInts(s)[k] <= max
  {
    var r := SortInts(s);
    forall k | 0 <= k < |r|
      ensures min <= r[k] <= max
    {
      assert r[k] in multiset(s);
    }
  }

  /** The values `count` calls of `Random.Next(min, max + 1)` return. */
  function Draws(count: nat, min: int, max: int, draw: nat -> nat): (r: seq<int>)
    requires min <= max
    ensures |r| == count && forall k :: 0 <= k < count ==> min <= r[k] <= max
  {
    var r := seq(count, (i: nat) requires i < count => RandomNext(min, max + 1, draw(i)));
    assert forall k :: 0 <= k < count ==> r[k] == RandomNext(min, max + 1, draw(k));
    r
  }

  /** `count` independent draws from min..max, sorted. */
  method GenerateRandomNumbers(count: nat, min: int, max: int, draw: nat -> nat) returns (numbers: array<int>)
    requires min <= max
    ensures fresh(numbers)
    ensures numbers[..] == SortInts(Draws(count, min, max, draw))
    ensures Sorted(numbers[..]) && forall k :: 0 <= k < count ==> min <= numbers[k] <= max
  {
    numbers := new int[count];
    ghost var drawn := Draws(count, min, max, draw);
    var i := 0;
    while i < count
      invariant 0 <= i <= count
      invariant forall k :: 0 <= k < i ==> numbers[k] == drawn[k]
    {
      numbers[i] := RandomNext(min, max + 1, draw(i));
      i := i + 1;
    }
    assert numbers[..] == drawn;
    ArraySort(numbers);
    SortKeepsRange(drawn, min, max);
  }

  /** What a ticket of the given parameters is. */
  predicate ValidTicket(t: seq<int>, n: int, min: int, max: int, unique: bool) {
    |t| == n && Sorted(t) && (forall k :: 0 <= k < |t| ==> min <= t[k] <= max)
    && (unique ==> StrictlyIncreasing(t))
  }

  lemma StrictlyIncreasingIsSorted(s: seq<int>)
    requires StrictlyIncreasing(s)
    ensures Sorted(s)
  {
  }

  method GenerateTicket(n: int, min: int, max: int, unique: bool, draw: nat -> nat)
    returns (r: Result<array<int>, PickError>)
    ensures r.Failure? <==> Validate(n, min, max, unique).Some?
    ensures r.Failure? ==> r.error == InvalidArgument(Validate(n, min, max, unique).value, ValidateParam(n, min, max))
    ensures r.Success? ==> fresh(r.value) && ValidTicket(r.value[..], n, min, max, unique)
  {
    var error := Validate(n, min, max, unique);
    if error.Some? {
      return Failure(InvalidArgument(error.value, ValidateParam(n, min, max)));
    }
    var numbers: array<int>;
    if unique {
      numbers := GenerateUniqueNumbers(n, min, max, draw);
      UniqueNumbersAreValid(n, min, max, draw);
      StrictlyIncreasingIsSorted(numbers[..]);
    } else {
      numbers := GenerateRandomNumbers(n, min, max, draw);
    }
    return Success(numbers);
  }

  /** The progress values reported after `k` tickets: 1, 2, ..., k. */
  function Progress(k: nat): (r: seq<int>)
    ensures |r| == k && forall i :: 0 <= i < k ==> r[i] == i + 1
  {
    seq(k, i => i + 1)
  }

  predicate NoneCancelledBefore(cancelled: nat -> bool, k: nat) {
    forall i :: 0 <= i < k ==> !cancelled(i)
  }

  /** `GenerateTicketsAsync` run sequentially: ticket `i` uses the draws
      `draws(i)`. Returns the tickets (or the error) and the progress
      values reported. */
  method GenerateTickets(ticketCount: int, n: int, min: int, max: int, unique: bool,
                         draws: nat -> nat -> nat, cancelled: nat -> bool)
    returns (r: Result<seq<seq<int>>, PickError>, progress: seq<int>)
    ensures progress == Progress(|progress|)
    ensures Validate(n, min, max, unique).Some? ==>
      r == Failure(InvalidArgument(Validate(n, min, max, unique).value, ValidateParam(n, min, max))) && progress == []
    ensures Validate(n, min, max, unique).None? && ticketCount <= 0 ==>
      r == Failure(InvalidArgument(TICKET_COUNT_MESSAGE, Some("ticketCount"))) && progress == []
    // with valid parameters the run ends at the first cancelled check, or with every ticket
    ensures Validate(n, min, max, unique).None? && ticketCount > 0 ==>
      (r.Success? <==> NoneCancelledBefore(cancelled, ticketCount))
      && (r.Failure? ==> r.error == Cancelled && |progress| < ticketCount
                         && NoneCancelledBefore(cancelled, |progress|) && cancelled(|progress|))
      && (r.Success? ==> |r.value| == ticketCount && |progress| == ticketCount
                         && forall k :: 0 <= k < |r.value| ==> ValidTicket(r.value[k], n, min, max, unique))
  {
    var error := Validate(n, min, max, unique);
    if error.Some? {
      return Failure(InvalidArgument(error.value, ValidateParam(n, min, max))), [];
    }
    if ticketCount <= 0 {
      return Failure(InvalidArgument(TICKET_COUNT_MESSAGE, Some("ticketCount"))), [];
    }
    var tickets: seq<seq<int>> := [];
    progress := [];
    var i := 0;
    while i < ticketCount
      invariant 0 <= i <= ticketCount
      invariant |tickets| == i && progress == Progress(i)
      invariant NoneCancelledBefore(cancelled, i)
      invariant forall k :: 0 <= k < i ==> ValidTicket(tickets[k], n, min, max, unique)
    {
      if cancelled(i) {
        return Failure(Cancelled), progress;
      }
      var ticket := GenerateTicket(n, min, max, unique, draws(i));
      tickets := tickets + [ticket.value[..]];
      progress := progress + [i + 1];
      i := i + 1;
    }
    r := Success(tickets);
  }
}
