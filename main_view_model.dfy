/** The lottery window's view-model: the ticket parameters with their
    clamping and coupled setters, the `CanGenerate` rule, one generation run
    (busy state, progress messages, the ticket lines it shows) and the
    `PropertyChanged` notifications it raises.

    The number picker is the model of the service; its random draws and the
    cancellation token are the parameters `draws` and `cancelled`. Progress
    reports are posted to the UI thread, which handles them in order when it
    is free. A service that never awaited its delay completes synchronously,
    so the run's `finally` block comes before every report; one that awaited
    completes in a later dispatcher operation, and the view-model's
    continuation is queued behind every report. */
module ViewModel {
  import opened Wrappers
  import opened Text
  import NumberPicker

  /** The properties that raise `PropertyChanged`, by name. */
  datatype Property = TicketCount | NumbersPerTicket | MinInclusive | MaxInclusive
                    | Unique | IsBusy | BusyMessage | CanGenerate

  const WORKING: string := "Working..."
  const ONE_TICKET: string := "Generating ticket..."

  /** `Math.Max(1, value)`. */
  function AtLeastOne(value: Int32): (r: Int32)
    ensures r >= 1 && r >= value
    ensures value >= 1 ==> r == value
  {
    if value < 1 then 1 else value
  }

  /** The ticket parameters the window edits. */
  datatype Inputs = Inputs(ticketCount: Int32, numbersPerTicket: Int32,
                           minInclusive: Int32, maxInclusive: Int32, unique: bool)

  const DEFAULT_INPUTS: Inputs := Inputs(1, 6, 1, 49, true)

  /** What the view-model keeps true of its parameters. */
  predicate Consistent(f: Inputs) {
    f.ticketCount >= 1 && f.numbersPerTicket >= 1 && f.minInclusive <= f.maxInclusive
  }

  /** The new parameters after one setter, and the names of the
      `PropertyChanged` events it raised, in order. */
  datatype Effect = Effect(inputs: Inputs, raised: seq<Property>)

  /** The `TicketCount` setter. */
  function WithTicketCount(f: Inputs, value: Int32): (r: Effect)
    ensures r.inputs.ticketCount >= 1 && (value >= 1 ==> r.inputs.ticketCount == value)
    ensures r.inputs.(ticketCount := f.ticketCount) == f
    ensures r.raised == [] <==> r.inputs == f
    ensures r.raised != [] ==> r.raised == [Property.TicketCount, Property.CanGenerate]
  {
    var v := AtLeastOne(value);
    if v == f.ticketCount then Effect(f, [])
    else Effect(f.(ticketCount := v), [Property.TicketCount, Property.CanGenerate])
  }

  /** The `NumbersPerTicket` setter. */
  function WithNumbersPerTicket(f: Inputs, value: Int32): (r: Effect)
    ensures r.inputs.numbersPerTicket >= 1 && (value >= 1 ==> r.inputs.numbersPerTicket == value)
    ensures r.inputs.(numbersPerTicket := f.numbersPerTicket) == f
    ensures r.raised == [] <==> r.inputs == f
    ensures r.raised != [] ==> r.raised == [Property.NumbersPerTicket, Property.CanGenerate]
  {
    var v := AtLeastOne(value);
    if v == f.numbersPerTicket then Effect(f, [])
    else Effect(f.(numbersPerTicket := v), [Property.NumbersPerTicket, Property.CanGenerate])
  }

  /** The `MinInclusive` setter. A new minimum above the maximum runs the
      `MaxInclusive` setter with it, which changes the maximum, raises its own
      two events and, the two now being equal, cascades no further. */
  function WithMin(f: Inputs, value: Int32): (r: Effect)
    ensures r.inputs.minInclusive == value
    ensures value != f.minInclusive ==> r.inputs.minInclusive <= r.inputs.maxInclusive
    // the maximum moves only up to meet the new minimum
    ensures r.inputs.maxInclusive == f.maxInclusive || f.maxInclusive < r.inputs.maxInclusive == value
    ensures r.inputs.(minInclusive := f.minInclusive, maxInclusive := f.maxInclusive) == f
    ensures r.raised == [] <==> value == f.minInclusive
    ensures r.raised != [] ==> r.raised[0] == Property.MinInclusive && r.raised[|r.raised| - 1] == Property.CanGenerate
    ensures (Property.MaxInclusive in r.raised) <==> r.inputs.maxInclusive != f.maxInclusive
  {
    if value == f.minInclusive then Effect(f, [])
    else if value > f.maxInclusive then
      Effect(f.(minInclusive := value, maxInclusive := value),
             [Property.MinInclusive, Property.MaxInclusive, Property.CanGenerate, Property.CanGenerate])
    else Effect(f.(minInclusive := value), [Property.MinInclusive, Property.CanGenerate])
  }

  /** The `MaxInclusive` setter, the mirror image of `WithMin`. */
  function WithMax(f: Inputs, value: Int32): (r: Effect)
    ensures r.inputs.maxInclusive == value
    ensures value != f.maxInclusive ==> r.inputs.minInclusive <= r.inputs.maxInclusive
    // the minimum moves only down to meet the new maximum
    ensures r.inputs.minInclusive == f.minInclusive || value == r.inputs.minInclusive < f.minInclusive
    ensures r.inputs.(minInclusive := f.minInclusive, maxInclusive := f.maxInclusive) == f
    ensures r.raised == [] <==> value == f.maxInclusive
    ensures r.raised != [] ==> r.raised[0] == Property.MaxInclusive && r.raised[|r.raised| - 1] == Property.CanGenerate
    ensures (Property.MinInclusive in r.raised) <==> r.inputs.minInclusive != f.minInclusive
  {
    if value == f.maxInclusive then Effect(f, [])
    else if value < f.minInclusive then
      Effect(f.(minInclusive := value, maxInclusive := value),
             [Property.MaxInclusive, Property.MinInclusive, Property.CanGenerate, Property.CanGenerate])
    else Effect(f.(maxInclusive := value), [Property.MaxInclusive, Property.CanGenerate])
  }

  /** The `Unique` setter. */
  function WithUnique(f: Inputs, value: bool): (r: Effect)
    ensures r.inputs == f.(unique := value)
    ensures r.raised == [] <==> value == f.unique
    ensures r.raised != [] ==> r.raised == [Property.Unique, Property.CanGenerate]
  {
    if value == f.unique then Effect(f, []) else Effect(f.(unique := value), [Property.Unique, Property.CanGenerate])
  }

  /** One assignment the window can make to a parameter. */
  datatype Edit =
    | SetTicketCount(count: Int32)
    | SetNumbersPerTicket(numbers: Int32)
    | SetMin(min: Int32)
    | SetMax(max: Int32)
    | SetUnique(unique: bool)

  function Apply(f: Inputs, e: Edit): Effect {
    match e
    case SetTicketCount(v) => WithTicketCount(f, v)
    case SetNumbersPerTicket(v) => WithNumbersPerTicket(f, v)
    case SetMin(v) => WithMin(f, v)
    case SetMax(v) => WithMax(f, v)
    case SetUnique(v) => WithUnique(f, v)
  }

  /** The parameters after a series of assignments. */
  function ApplyAll(f: Inputs, edits: seq<Edit>): Inputs
    decreases |edits|
  {
    if edits == [] then f else ApplyAll(Apply(f, edits[0]).inputs, edits[1..])
  }

  /** Every setter keeps the parameters consistent. */
  lemma EditKeepsConsistent(f: Inputs, e: Edit)
    requires Consistent(f)
    ensures Consistent(Apply(f, e).inputs)
  {
  }

  /** Whatever the window assigns, in whatever order, counts stay positive
      and the minimum never exceeds the maximum. */
  lemma {:induction false} EditsKeepConsistent(f: Inputs, edits: seq<Edit>)
    requires Consistent(f)
    ensures Consistent(ApplyAll(f, edits))
    decreases |edits|
  {
    if edits != [] {
      EditKeepsConsistent(f, edits[0]);
      EditsKeepConsistent(Apply(f, edits[0]).inputs, edits[1..]);
    }
  }

  lemma DefaultsConsistent()
    ensures Consistent(DEFAULT_INPUTS)
  {
  }

  /** `CanGenerate`, with the range size computed in wrapping `int`
      arithmetic as the property does. */
  predicate CanGenerateFor(busy: bool, f: Inputs) {
    if busy then false
    else if f.ticketCount <= 0 || f.numbersPerTicket <= 0 then false
    else if f.minInclusive > f.maxInclusive then false
    else if f.unique && f.numbersPerTicket > Wrap32(Wrap32(f.maxInclusive - f.minInclusive) + 1) then false
    else true
  }

  /** `CanGenerate` is the busy flag and the ticket count together with
      the service's own rejection rule, negated; so whenever it holds, the
      service accepts the parameters. */
  lemma CanGenerateMatchesService(busy: bool, f: Inputs)
    ensures CanGenerateFor(busy, f) <==>
              !busy && f.ticketCount > 0
              && NumberPicker.ValidateAsWritten(f.numbersPerTicket, f.minInclusive, f.maxInclusive, f.unique).None?
    ensures CanGenerateFor(busy, f) ==>
              NumberPicker.Validate(f.numbersPerTicket, f.minInclusive, f.maxInclusive, f.unique).None?
  {
    NumberPicker.ValidateAsWrittenStricter(f.numbersPerTicket, f.minInclusive, f.maxInclusive, f.unique);
  }

  // ------------------------------------------------------------ messages

  /** The busy message shown when a run starts. */
  function StartMessage(ticketCount: int): (r: string)
    ensures r != WORKING
  {
    if ticketCount == 1 then ONE_TICKET
    else
      var r := "Generating " + IntToString(ticketCount) + " tickets...";
      assert r[1] != WORKING[1];
      r
  }

  /** The busy message after `count` of `ticketCount` tickets. */
  function ProgressMessage(count: int, ticketCount: int): (r: string)
    ensures r != WORKING
  {
    var r := "Generated " + IntToString(count) + " of " + IntToString(ticketCount) + " tickets...";
    assert r[1] != WORKING[1];
    r
  }

  /** The busy messages the progress handler shows for the reports
      `from + 1` to `to`: one per report, and none when a single ticket is
      asked for. */
  function ProgressMessages(ticketCount: int, from: nat, to: nat): (r: seq<string>)
    requires from <= to
    ensures |r| == (if ticketCount > 1 then to - from else 0)
  {
    if ticketCount > 1 then seq(to - from, j => ProgressMessage(from + j + 1, ticketCount)) else []
  }

  /** The service awaits a one-millisecond delay before the ticket with
      index `i`: before every tenth ticket, but never before the first. */
  predicate DelaysBefore(i: nat) {
    i > 0 && i % 10 == 0
  }

  /** How many of `reported` progress reports the UI thread handles before
      the run's `finally` block. A service that never awaited completes
      synchronously: the view-model goes on straight into its `finally`
      block and every report is handled after it. A service that awaited
      completes inside a later dispatcher operation, which runs under a
      synchronization context of its own; the view-model's continuation is
      then posted, behind every report already posted. */
  function DeliveredEarly(reported: nat): (r: nat)
    ensures r == 0 || r == reported
  {
    if reported > 10 then reported else 0
  }

  /** Every report precedes the `finally` block exactly when the service
      awaited a delay before it posted the last one (a delay before the
      ticket with index `i` is awaited only when report `i + 1` follows), and
      none does otherwise. */
  lemma DeliveredEarlyIffAwaited(reported: nat)
    ensures (exists i: nat :: DelaysBefore(i) && i < reported) ==> DeliveredEarly(reported) == reported
    ensures !(exists i: nat :: DelaysBefore(i) && i < reported) ==> DeliveredEarly(reported) == 0
  {
    if reported > 10 {
      assert DelaysBefore(10);
    } else {
      forall i: nat | DelaysBefore(i)
        ensures i >= 10
      {
      }
    }
  }

  /** The busy messages a run shows before its `finally` block: the start
      message, then the reports handled while the service awaited. */
  function EarlyMessages(ticketCount: int, reported: nat): (r: seq<string>)
    ensures |r| == 1 + (if ticketCount > 1 then DeliveredEarly(reported) else 0)
    ensures r[0] == StartMessage(ticketCount)
  {
    [StartMessage(ticketCount)] + ProgressMessages(ticketCount, 0, DeliveredEarly(reported))
  }

  /** The busy messages shown after the `finally` block: the reports still queued. */
  function LateMessages(ticketCount: int, reported: nat): (r: seq<string>)
    ensures |r| == (if ticketCount > 1 then reported - DeliveredEarly(reported) else 0)
  {
    ProgressMessages(ticketCount, DeliveredEarly(reported), reported)
  }

  /** The busy messages a run shows, in order: the start message, the early
      reports, "Working..." from the `finally` block and the late reports.
      The message left displayed is the last report's when the reports were
      all handled late, and "Working..." otherwise. */
  function ShownMessages(ticketCount: int, reported: nat): (r: seq<string>)
    ensures |r| == (if ticketCount > 1 then reported + 2 else 2)
    ensures r[0] == StartMessage(ticketCount)
    ensures r[|EarlyMessages(ticketCount, reported)|] == WORKING
    ensures reported <= 10 ==> r[1] == WORKING
    ensures r[|r| - 1] == if ticketCount > 1 && 0 < reported <= 10 then ProgressMessage(reported, ticketCount) else WORKING
  {
    var early := EarlyMessages(ticketCount, reported);
    var late := LateMessages(ticketCount, reported);
    var r := early + [WORKING] + late;
    assert r[|early|] == WORKING;
    assert late != [] ==> r[|r| - 1] == late[|late| - 1];
    r
  }

  /** With more than one ticket, the `j`-th report's message is
      "Generated j of N tickets...": at position `j` when it was handled
      before the `finally` block, and at `j + 1`, after "Working...", when
      it was handled after it. */
  lemma ShownMessageAt(ticketCount: int, reported: nat, j: nat)
    requires ticketCount > 1 && 1 <= j <= reported
    ensures ShownMessages(ticketCount, reported)[if j <= DeliveredEarly(reported) then j else j + 1]
            == ProgressMessage(j, ticketCount)
  {
    var d := DeliveredEarly(reported);
    var shown := ShownMessages(ticketCount, reported);
    if j <= d {
      var p := ProgressMessages(ticketCount, 0, d);
      assert p[j - 1] == ProgressMessage(j, ticketCount);
      assert shown[j] == p[j - 1];
    } else {
      var p := LateMessages(ticketCount, reported);
      assert p[j - d - 1] == ProgressMessage(j, ticketCount);
      assert shown[j + 1] == p[j - d - 1];
    }
  }

  /** The value a property holds after `values` were assigned to it in turn, starting from `from`. */
  function LastValue(from: string, values: seq<string>): string {
    if values == [] then from else values[|values| - 1]
  }

  /** The events raised by assigning each of `values` in turn to a property
      that held `from`: one per assignment that changes the value. */
  function Changes(name: Property, from: string, values: seq<string>): (r: seq<Property>)
    ensures |r| <= |values|
    decreases |values|
  {
    if values == [] then []
    else
      var before := values[..|values| - 1];
      Changes(name, from, before) + (if values[|values| - 1] == LastValue(from, before) then [] else [name])
  }

  /** One more assignment adds an event exactly when it changes the value. */
  lemma ChangesSnoc(name: Property, from: string, values: seq<string>, v: string)
    ensures Changes(name, from, values + [v])
            == Changes(name, from, values) + (if v == LastValue(from, values) then [] else [name])
    ensures LastValue(from, values + [v]) == v
  {
    assert (values + [v])[..|values|] == values;
  }

  /** Assigning `v` to the busy message, as `SetBusyMessage` does, extends
      the journal of the values assigned so far by one. */
  lemma ShowStep(base: seq<Property>, journal: seq<Property>, from: string, values: seq<string>, v: string)
    requires journal == base + Changes(Property.BusyMessage, from, values)
    ensures journal + Changes(Property.BusyMessage, LastValue(from, values), [v])
            == base + Changes(Property.BusyMessage, from, values + [v])
    ensures LastValue(from, values + [v]) == v
  {
    ChangesSnoc(Property.BusyMessage, from, values, v);
  }

  lemma PrefixSnoc<T>(s: seq<T>, j: nat)
    requires j < |s|
    ensures s[..j + 1] == s[..j] + [s[j]]
  {
  }

  const TICKET_PREFIX: string := "Ticket "
  const TICKET_SEPARATOR: string := ": "
  const ERROR_PREFIX: string := "Error: "

  /** `Exception.Message` of an `ArgumentException`: the message, followed
      by " (Parameter '<name>')" when a parameter name was given. */
  function ArgumentMessage(message: string, paramName: Option<string>): string {
    if paramName.None? then message else message + " (Parameter '" + paramName.value + "')"
  }

  /** Each number in `ToString("D<width>")`. */
  function FormatAll(numbers: seq<int>, width: nat): (r: seq<string>)
    ensures |r| == |numbers| && forall k :: 0 <= k < |r| ==> r[k] == FormatD(numbers[k], width)
  {
    if numbers == [] then [] else [FormatD(numbers[0], width)] + FormatAll(numbers[1..], width)
  }

  /** The line shown for ticket `i` (from 0): its number in three digits and
      its numbers in two digits each, separated by single spaces. */
  function TicketLine(i: nat, numbers: seq<int>): string {
    TICKET_PREFIX + FormatD(i + 1, 3) + TICKET_SEPARATOR + JoinWith(FormatAll(numbers, 2), " ")
  }

  /** The lines a run leaves in `Tickets`. */
  function ResultLines(outcome: Result<seq<seq<int>>, NumberPicker.PickError>): (r: seq<string>)
    ensures outcome.Success? ==>
      |r| == |outcome.value| && forall i :: 0 <= i < |r| ==> r[i] == TicketLine(i, outcome.value[i])
    ensures outcome == Failure(NumberPicker.Cancelled) ==> r == []
    // an argument error shows one line: the prefix, the service's message and the parameter name
    ensures outcome.Failure? && outcome.error.InvalidArgument? ==>
      && |r| == 1
      && r[0] == ERROR_PREFIX + ArgumentMessage(outcome.error.message, outcome.error.paramName)
      && r[0][..|ERROR_PREFIX| + |outcome.error.message|] == ERROR_PREFIX + outcome.error.message
      && (outcome.error.paramName.None? ==> r[0] == ERROR_PREFIX + outcome.error.message)
  {
    match outcome
    case Success(tickets) => seq(|tickets|, i requires 0 <= i < |tickets| => TicketLine(i, tickets[i]))
    case Failure(error) => if error.Cancelled? then [] else [ERROR_PREFIX + ArgumentMessage(error.message, error.paramName)]
  }

  // --------------------------------------------------- reading a line back

  function ParseAll(parts: seq<string>): (r: Option<seq<int>>)
    ensures r.Some? ==> |r.value| == |parts|
  {
    if parts == [] then Some([])
    else match (ParseInt32(parts[0]), ParseAll(parts[1..]))
      case (Some(v), Some(vs)) => Some([v] + vs)
      case _ => None
  }

  /** Reads the numbers of a line: none, or space-separated integers. */
  function ParseNumbers(text: string): Option<seq<int>> {
    if text == [] then Some([]) else ParseAll(Split(text, ' '))
  }

  /** Reads what follows the prefix: the ticket number, ':', a space and the numbers. */
  function ParseTicketBody(body: string): Option<(int, seq<int>)> {
    match SplitFirst(body, ':')
    case None => None
    case Some((index, rest)) =>
      if rest == [] || rest[0] != ' ' then None
      else
        match (ParseInt32(index), ParseNumbers(rest[1..]))
        case (Some(n), Some(ns)) => Some((n, ns))
        case _ => None
  }

  /** Reads a ticket line: the ticket number and the numbers on it. */
  function ParseTicketLine(line: string): Option<(int, seq<int>)> {
    if |line| < |TICKET_PREFIX| || line[..|TICKET_PREFIX|] != TICKET_PREFIX then None
    else ParseTicketBody(line[|TICKET_PREFIX|..])
  }

  lemma {:induction false} ParseAllFormatted(numbers: seq<int>, width: nat)
    requires forall k :: 0 <= k < |numbers| ==> IsInt32(numbers[k])
    ensures ParseAll(FormatAll(numbers, width)) == Some(numbers)
  {
    if numbers != [] {
      var parts := FormatAll(numbers, width);
      assert parts[1..] == FormatAll(numbers[1..], width);
      FormatDParses(numbers[0], width);
      ParseAllFormatted(numbers[1..], width);
      ParseAllCons(parts, numbers);
    }
  }

  lemma ParseAllCons(parts: seq<string>, numbers: seq<int>)
    requires parts != [] && numbers != []
    requires ParseInt32(parts[0]) == Some(numbers[0]) && ParseAll(parts[1..]) == Some(numbers[1..])
    ensures ParseAll(parts) == Some(numbers)
  {
    assert numbers == [numbers[0]] + numbers[1..];
  }

  /** The numbers part of a ticket line reads back as the numbers. */
  lemma NumbersTextParses(numbers: seq<int>, width: nat)
    requires forall k :: 0 <= k < |numbers| ==> IsInt32(numbers[k])
    ensures ParseNumbers(JoinWith(FormatAll(numbers, width), " ")) == Some(numbers)
  {
    var parts := FormatAll(numbers, width);
    if numbers != [] {
      JoinWithChar(parts, ' ');
      forall k | 0 <= k < |parts|
        ensures ' ' !in parts[k]
      {
        FormatDParses(numbers[k], width);
      }
      SplitJoin(parts, ' ');
      NonEmptyJoin(parts, ' ');
      ParseAllFormatted(numbers, width);
    }
  }

  lemma NonEmptyJoin(parts: seq<string>, c: char)
    requires |parts| >= 1 && parts[0] != []
    ensures Join(parts, c) != []
  {
  }

  /** A body made of a number, ": " and the numbers text reads back. */
  lemma BodyParses(index: string, text: string)
    requires ':' !in index && ParseInt32(index).Some? && ParseNumbers(text).Some?
    ensures ParseTicketBody(index + ": " + text) == Some((ParseInt32(index).value, ParseNumbers(text).value))
  {
    var rest := " " + text;
    assert index + ": " + text == index + [':'] + rest;
    SplitFirstOf(index, ':', rest);
    assert rest[1..] == text;
  }

  /** The body of a ticket line reads back. */
  lemma TicketBodyParses(n: int, indexWidth: nat, numbers: seq<int>, width: nat)
    requires IsInt32(n)
    requires forall k :: 0 <= k < |numbers| ==> IsInt32(numbers[k])
    ensures ParseTicketBody(FormatD(n, indexWidth) + ": " + JoinWith(FormatAll(numbers, width), " "))
            == Some((n, numbers))
  {
    FormatDParses(n, indexWidth);
    NumbersTextParses(numbers, width);
    BodyParses(FormatD(n, indexWidth), JoinWith(FormatAll(numbers, width), " "));
  }

  /** A line that starts with the prefix is read by reading the rest. */
  lemma PrefixStrips(body: string)
    ensures ParseTicketLine(TICKET_PREFIX + body) == ParseTicketBody(body)
  {
    var line := TICKET_PREFIX + body;
    assert line[..|TICKET_PREFIX|] == TICKET_PREFIX;
    assert line[|TICKET_PREFIX|..] == body;
  }

  /** Every line a run shows reads back as its ticket number and numbers. */
  lemma TicketLineRoundTrip(i: nat, numbers: seq<int>)
    requires i + 1 <= INT32_MAX
    requires forall k :: 0 <= k < |numbers| ==> IsInt32(numbers[k])
    ensures ParseTicketLine(TicketLine(i, numbers)) == Some((i + 1, numbers))
  {
    var body := FormatD(i + 1, 3) + TICKET_SEPARATOR + JoinWith(FormatAll(numbers, 2), " ");
    assert TicketLine(i, numbers) == TICKET_PREFIX + body;
    PrefixStrips(body);
    TicketBodyParses(i + 1, 3, numbers, 2);
  }

  // ---------------------------------------------------------- the object

  class MainViewModel {
    var ticketCount: Int32
    var numbersPerTicket: Int32
    var minInclusive: Int32
    var maxInclusive: Int32
    var unique: bool
    var isBusy: bool
    var busyMessage: string
    /** The `Tickets` collection. */
    var tickets: seq<string>
    /** The names of the `PropertyChanged` events raised so far, oldest first. */
    var raised: seq<Property>

    function Parameters(): Inputs
      reads this
    {
      Inputs(ticketCount, numbersPerTicket, minInclusive, maxInclusive, unique)
    }

    /** Between runs the parameters are consistent and the view-model is idle. */
    predicate Valid()
      reads this
    {
      Consistent(Parameters()) && !isBusy
    }

    constructor ()
      ensures Valid() && Parameters() == DEFAULT_INPUTS && busyMessage == WORKING
      ensures tickets == [] && raised == []
    {
      ticketCount, numbersPerTicket, minInclusive, maxInclusive, unique := 1, 6, 1, 49, true;
      isBusy, busyMessage := false, WORKING;
      tickets, raised := [], [];
    }

    method Assign(f: Inputs)
      modifies this
      ensures Parameters() == f
      ensures isBusy == old(isBusy) && busyMessage == old(busyMessage)
      ensures tickets == old(tickets) && raised == old(raised)
    {
      ticketCount, numbersPerTicket, minInclusive, maxInclusive, unique :=
        f.ticketCount, f.numbersPerTicket, f.minInclusive, f.maxInclusive, f.unique;
    }

    /** Runs one setter: the parameters change as `Apply` says and its
        events are raised. */
    method Edit(e: Edit)
      requires Valid()
      modifies this
      ensures Valid()
      ensures Parameters() == Apply(old(Parameters()), e).inputs
      ensures raised == old(raised) + Apply(old(Parameters()), e).raised
      ensures tickets == old(tickets)
    {
      var effect := Apply(Parameters(), e);
      EditKeepsConsistent(Parameters(), e);
      Assign(effect.inputs);
      raised := raised + effect.raised;
    }

    function CanGenerateNow(): bool
      reads this
    {
      CanGenerateFor(isBusy, Parameters())
    }

    /** `ClearCommand`'s guard. */
    predicate CanClear()
      reads this
    {
      !isBusy && |tickets| > 0
    }

    method ClearTickets()
      modifies this
      ensures tickets == []
      ensures Parameters() == old(Parameters()) && isBusy == old(isBusy)
      ensures busyMessage == old(busyMessage) && raised == old(raised)
    {
      tickets := [];
    }

    method SetBusy(b: bool)
      modifies this
      ensures isBusy == b
      ensures raised == old(raised) + (if b == old(isBusy) then [] else [Property.IsBusy, Property.CanGenerate])
      ensures Parameters() == old(Parameters()) && busyMessage == old(busyMessage) && tickets == old(tickets)
    {
      if b != isBusy {
        isBusy := b;
        raised := raised + [Property.IsBusy, Property.CanGenerate];
      }
    }

    method SetBusyMessage(m: string)
      modifies this
      ensures busyMessage == m
      ensures raised == old(raised) + Changes(Property.BusyMessage, old(busyMessage), [m])
      ensures Parameters() == old(Parameters()) && isBusy == old(isBusy) && tickets == old(tickets)
    {
      if m != busyMessage {
        busyMessage := m;
        raised := raised + [Property.BusyMessage];
      }
    }

    /** Assigns each of `messages` to `BusyMessage` in turn, as the
        progress handler does once per report; the journal grows by the
        changes, continuing from the values `prior` assigned after `from`. */
    method ShowAll(messages: seq<string>, ghost from: string, ghost prior: seq<string>, ghost base: seq<Property>)
      requires busyMessage == LastValue(from, prior)
      requires raised == base + Changes(Property.BusyMessage, from, prior)
      modifies this
      ensures busyMessage == LastValue(from, prior + messages)
      ensures raised == base + Changes(Property.BusyMessage, from, prior + messages)
      ensures Parameters() == old(Parameters()) && isBusy == old(isBusy) && tickets == old(tickets)
    {
      var j := 0;
      ghost var done := prior;
      assert messages[..0] == [];
      while j < |messages|
        invariant 0 <= j <= |messages|
        invariant done == prior + messages[..j]
        invariant Parameters() == old(Parameters()) && isBusy == old(isBusy) && tickets == old(tickets)
        invariant busyMessage == LastValue(from, done)
        invariant raised == base + Changes(Property.BusyMessage, from, done)
      {
        var m := messages[j];
        ShowStep(base, raised, from, done, m);
        SetBusyMessage(m);
        PrefixSnoc(messages, j);
        done := done + [m];
        j := j + 1;
      }
      assert messages[..j] == messages;
    }

    /** The start of a run: busy, `Tickets` cleared and the start message shown. */
    method BeginRun(start: string)
      requires !isBusy
      modifies this
      ensures isBusy && tickets == [] && busyMessage == start
      ensures raised == old(raised) + [Property.IsBusy, Property.CanGenerate]
                        + Changes(Property.BusyMessage, old(busyMessage), [start])
      ensures Parameters() == old(Parameters())
    {
      SetBusy(true);
      tickets := [];
      SetBusyMessage(start);
    }

    /** The end of a run up to its `finally` block: `Tickets` filled, no
        longer busy and the idle message set; reports still queued are
        handled after it. */
    method FinishRun(lines: seq<string>)
      requires isBusy
      modifies this
      ensures !isBusy && tickets == lines && busyMessage == WORKING
      ensures raised == old(raised) + [Property.IsBusy, Property.CanGenerate]
                        + Changes(Property.BusyMessage, old(busyMessage), [WORKING])
      ensures Parameters() == old(Parameters())
    {
      tickets := lines;
      SetBusy(false);
      SetBusyMessage(WORKING);
    }

    /** The service call of a run the `CanGenerate` guard let through:
        it ends at the first cancelled check, or with every ticket. */
    static method CallService(ticketCount: Int32, n: Int32, min: Int32, max: Int32, unique: bool,
                              draws: nat -> nat -> nat, cancelled: nat -> bool)
      returns (r: Result<seq<seq<int>>, NumberPicker.PickError>, progress: seq<int>)
      requires CanGenerateFor(false, Inputs(ticketCount, n, min, max, unique))
      ensures r.Success? <==> NumberPicker.NoneCancelledBefore(cancelled, ticketCount)
      ensures r.Failure? ==> r.error == NumberPicker.Cancelled
      ensures r.Success? ==>
        && |r.value| == ticketCount && |progress| == ticketCount
        && forall k :: 0 <= k < ticketCount ==> NumberPicker.ValidTicket(r.value[k], n, min, max, unique)
    {
      CanGenerateMatchesService(false, Inputs(ticketCount, n, min, max, unique));
      r, progress := NumberPicker.GenerateTickets(ticketCount, n, min, max, unique, draws, cancelled);
    }

    /** `GenerateTicketsAsync`: nothing happens unless `CanGenerate`;
        otherwise the service runs, the busy messages go by, and `Tickets`
        ends up holding one line per ticket (nothing after a cancellation).
        A run that never reached a delay (ten tickets or fewer) handles its
        reports after the `finally` block and leaves the last one displayed;
        a longer run handles them all before it and ends on "Working...". */
    method GenerateTickets(draws: nat -> nat -> nat, cancelled: nat -> bool)
      returns (outcome: Option<Result<seq<seq<int>>, NumberPicker.PickError>>, shown: seq<string>)
      requires Valid()
      modifies this
      ensures Valid() && Parameters() == old(Parameters())
      ensures outcome.None? <==> !old(CanGenerateNow())
      ensures outcome.None? ==>
        tickets == old(tickets) && busyMessage == old(busyMessage) && raised == old(raised) && shown == []
      ensures outcome.Some? ==>
        && tickets == ResultLines(outcome.value)
        && (outcome.value.Success? <==> NumberPicker.NoneCancelledBefore(cancelled, ticketCount))
        && (outcome.value.Failure? ==> outcome.value.error == NumberPicker.Cancelled)
        && (outcome.value.Success? ==>
              && |outcome.value.value| == ticketCount
              && forall k :: 0 <= k < ticketCount ==>
                   NumberPicker.ValidTicket(outcome.value.value[k], numbersPerTicket, minInclusive, maxInclusive, unique))
        && |shown| >= 2 && busyMessage == shown[|shown| - 1]
        && (exists reported: nat ::
              && (outcome.value.Success? ==> reported == ticketCount)
              && shown == ShownMessages(ticketCount, reported)
              && raised == old(raised) + [Property.IsBusy, Property.CanGenerate]
                           + Changes(Property.BusyMessage, old(busyMessage), EarlyMessages(ticketCount, reported))
                           + [Property.IsBusy, Property.CanGenerate]
                           + Changes(Property.BusyMessage, LastValue(old(busyMessage), EarlyMessages(ticketCount, reported)),
                                     [WORKING] + LateMessages(ticketCount, reported)))
      // what the window shows once a successful run is over
      ensures outcome.Some? && outcome.value.Success? ==>
        busyMessage == if 1 < ticketCount <= 10 then ProgressMessage(ticketCount, ticketCount) else WORKING
    {
      if !CanGenerateNow() {
        return None, [];
      }
      ghost var before := busyMessage;
      var start := StartMessage(ticketCount);
      BeginRun(start);
      ghost var base := old(raised) + [Property.IsBusy, Property.CanGenerate];
      var result, progress := CallService(ticketCount, numbersPerTicket, minInclusive, maxInclusive, unique,
                                          draws, cancelled);
      var reported := |progress|;
      var early := ProgressMessages(ticketCount, 0, DeliveredEarly(reported));
      ShowAll(early, before, [start], base);
      assert [start] + early == EarlyMessages(ticketCount, reported);
      ghost var middle := raised;
      ghost var last := busyMessage;
      FinishRun(ResultLines(result));
      ShowAll(LateMessages(ticketCount, reported), last, [WORKING], middle + [Property.IsBusy, Property.CanGenerate]);
      shown := ShownMessages(ticketCount, reported);
      outcome := Some(result);
    }
  }

}
