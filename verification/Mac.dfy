/**
 The MAC allocator (backend/services/mac_allocator.py): a counter kept in memory and in a database row,
 under failing database steps and process restarts.
 */
module Mac {
  import opened Types

  /** The counter contributes 24 bits to an address. */
  const SPACE: nat := 0x1000000

  // ---- Addresses ----

  function HexDigit(n: nat): char
    requires n < 16
  {
    "0123456789abcdef"[n]
  }

  function HexByte(b: nat): string
    requires b < 256
  {
    [HexDigit(b / 16), HexDigit(b % 16)]
  }

  /** `_format_mac`: a fixed locally administered prefix and the low 24 bits of the counter. */
  function Format(n: int): string {
    var low := n % SPACE;
    "02:55:4e:" + HexByte(low / 0x10000) + ":" + HexByte(low / 0x100 % 0x100) + ":" + HexByte(low % 0x100)
  }

  /** The value of a hexadecimal digit. */
  ghost function HexValue(c: char): int {
    if '0' <= c <= '9' then c as int - '0' as int else c as int - 'a' as int + 10
  }

  ghost function ByteValue(s: string): int
    requires |s| == 2
  {
    HexValue(s[0]) * 16 + HexValue(s[1])
  }

  /** Read back, an address is the fixed prefix and the low 24 bits of its counter, most significant byte first. */
  lemma FormatReads(n: int)
    ensures var mac := Format(n);
      && |mac| == 17 && mac[..9] == "02:55:4e:" && mac[11] == ':' && mac[14] == ':'
      && (ByteValue(mac[9..11]) * 0x100 + ByteValue(mac[12..14])) * 0x100 + ByteValue(mac[15..17]) == n % 0x1000000
  {
    FormatBytes(n);
    var low := n % SPACE;
    HexByteReads(low / 0x10000);
    HexByteReads(low / 0x100 % 0x100);
    HexByteReads(low % 0x100);
    FormatPunctuation(n);
    hide Format, HexByte, ByteValue;
    BytesCompose(low);
  }

  lemma FormatPunctuation(n: int)
    ensures var mac := Format(n); |mac| == 17 && mac[..9] == "02:55:4e:" && mac[11] == ':' && mac[14] == ':'
  {
    HexByteLength(n % SPACE / 0x10000);
    HexByteLength(n % SPACE / 0x100 % 0x100);
    HexByteLength(n % SPACE % 0x100);
    hide HexByte;
  }

  lemma BytesCompose(x: nat)
    ensures (x / 0x10000 * 0x100 + x / 0x100 % 0x100) * 0x100 + x % 0x100 == x
  {
    assert x / 0x100 / 0x100 == x / 0x10000;
  }

  lemma HexByteReads(b: nat)
    requires b < 256
    ensures |HexByte(b)| == 2 && ByteValue(HexByte(b)) == b
  {
    HexDigitReads(b / 16);
    HexDigitReads(b % 16);
    hide HexDigit, HexValue;
  }

  lemma HexDigitReads(n: nat)
    requires n < 16
    ensures HexValue(HexDigit(n)) == n
  {
  }

  lemma HexByteInjective(a: nat, b: nat)
    requires a < 256 && b < 256 && HexByte(a) == HexByte(b)
    ensures a == b
  {
    HexDigitInjective(a / 16, b / 16);
    HexDigitInjective(a % 16, b % 16);
    assert HexByte(a)[0] == HexByte(b)[0] && HexByte(a)[1] == HexByte(b)[1];
  }

  lemma HexDigitInjective(a: nat, b: nat)
    requires a < 16 && b < 16
    ensures HexDigit(a) == HexDigit(b) ==> a == b
  {
  }

  /** The counter bytes sit at fixed places of the address. */
  lemma FormatBytes(n: int)
    ensures var low, mac := n % SPACE, Format(n);
      && |mac| == 17 && mac[9..11] == HexByte(low / 0x10000)
      && mac[12..14] == HexByte(low / 0x100 % 0x100) && mac[15..17] == HexByte(low % 0x100)
  {
    hide HexByte;
    HexByteLength(n % SPACE / 0x10000);
    HexByteLength(n % SPACE / 0x100 % 0x100);
    HexByteLength(n % SPACE % 0x100);
  }

  lemma HexByteLength(b: nat)
    requires b < 256
    ensures |HexByte(b)| == 2
  {
  }

  lemma BytesDetermine(x: nat, y: nat)
    requires x / 0x10000 == y / 0x10000 && x / 0x100 % 0x100 == y / 0x100 % 0x100 && x % 0x100 == y % 0x100
    ensures x == y
  {
    assert x / 0x100 / 0x100 == x / 0x10000 && y / 0x100 / 0x100 == y / 0x10000;
  }

  /** Two counters share an address exactly when they agree modulo 2^24. */
  lemma FormatInjective(a: int, b: int)
    ensures Format(a) == Format(b) <==> a % SPACE == b % SPACE
  {
    FormatBytes(a);
    FormatBytes(b);
    if a % SPACE == b % SPACE {
      assert Format(a) == Format(b);
    }
    hide Format, HexByte;
    if Format(a) == Format(b) {
      var x, y := a % SPACE, b % SPACE;
      HexByteInjective(x / 0x10000, y / 0x10000);
      HexByteInjective(x / 0x100 % 0x100, y / 0x100 % 0x100);
      HexByteInjective(x % 0x100, y % 0x100);
      BytesDetermine(x, y);
    }
  }

  /** The addresses of the counters from `a` up to, not including, `b`. */
  function Formats(a: int, b: int): set<string> {
    set n | a <= n < b :: Format(n)
  }

  lemma FormatsSnoc(a: int, n: int)
    requires a <= n
    ensures Formats(a, n + 1) == Formats(a, n) + {Format(n)} && Formats(a, a) == {}
  {
    hide Format;
  }

  lemma NewAddress(a: int, n: int)
    requires a <= n < a + SPACE
    ensures Format(n) !in Formats(a, n)
  {
    hide Format;
    forall j | a <= j < n ensures Format(j) != Format(n) {
      FormatInjective(j, n);
      NearbyDiffer(j, n);
    }
  }

  lemma {:induction false} FormatsSize(a: int, k: nat)
    requires k <= SPACE
    ensures |Formats(a, a + k)| == k
  {
    hide Formats, Format;
    FormatsSnoc(a, a);
    if k > 0 {
      FormatsSize(a, k - 1);
      FormatsSnoc(a, a + k - 1);
      NewAddress(a, a + k - 1);
    }
  }

  lemma NearbyDiffer(n: int, m: int)
    requires n < m < n + SPACE
    ensures n % SPACE != m % SPACE
  {
  }

  lemma SubsetSize(s: set<string>, t: set<string>)
    requires s <= t
    ensures |s| <= |t|
  {
    assert |t - s| + |s| == |t| by {
      assert (t - s) + s == t;
    }
  }

  /** Below 2^24 used addresses, some counter in the next 2^24 gives an unused one. */
  lemma SomeFree(used: set<string>, from: int)
    requires |used| < SPACE
    ensures exists n :: from <= n < from + SPACE && Format(n) !in used
  {
    hide Format;
    if forall n :: from <= n < from + SPACE ==> Format(n) in used {
      FormatsSize(from, SPACE);
      SubsetSize(Formats(from, from + SPACE), used);
    }
  }

  // ---- One call ----

  datatype Process = Process(last: int, used: set<string>, marked: bool)

  /** The committed counter row, if any. */
  type Row = Option<int>

  const NEW_PROCESS := Process(-1, {}, false)

  /** Which database steps of one call fail; `marks` says whether the table flag was set before the failure. */
  datatype Faults = Faults(noSession: bool, loadFails: bool, storeFails: bool, marks: bool)

  const HEALTHY := Faults(false, false, false, false)

  /** `n` is the first counter from `from` on whose address is unused. */
  ghost predicate IsNext(used: set<string>, from: int, n: int) {
    from <= n && Format(n) !in used && forall j :: from <= j < n ==> Format(j) in used
  }

  function Take(p: Process, n: int): Process {
    p.(last := n, used := p.used + {Format(n)})
  }

  /** The purely in-memory path. */
  ghost predicate FallsBack(p: Process, p': Process, mac: string) {
    IsNext(p.used, if p.last < 0 then 0 else p.last + 1, p'.last) && p' == Take(p, p'.last) && mac == Format(p'.last)
  }

  /** The counter the call starts from: the first call of a process loads the row. */
  function Start(p: Process, row: Row): int {
    if p.last >= 0 then p.last else if row.Some? then row.value else -1
  }

  /** The row as the transaction sees it: seeded unless the table flag says that was done already. */
  function RowSeen(p: Process, row: Row): Row {
    if !p.marked && row.None? then Some(-1) else row
  }

  /** The committed row after an update, which changes nothing when there is no row. */
  function Updated(p: Process, row: Row, n: int): Row {
    if RowSeen(p, row).Some? then Some(n) else None
  }

  predicate LoadFails(p: Process, f: Faults) {
    f.noSession || (p.last < 0 && f.loadFails)
  }

  /** The process after a transaction that is rolled back once an address was taken. */
  ghost predicate TakenThenLost(p: Process, row: Row, f: Faults, mid: Process) {
    && IsNext(p.used, Start(p, row) + 1, mid.last)
    && mid == Take(p, mid.last).(marked := p.marked || p.last < 0 || f.marks)
  }

  ghost predicate Called(p: Process, row: Row, f: Faults, p': Process, row': Row, mac: string) {
    if f.noSession then FallsBack(p, p', mac) && row' == row
    else if LoadFails(p, f) then FallsBack(p.(marked := p.marked || f.marks), p', mac) && row' == row
    else if f.storeFails then row' == row && exists mid :: TakenThenLost(p, row, f, mid) && FallsBack(mid, p', mac)
    else
      && IsNext(p.used, Start(p, row) + 1, p'.last) && p' == Take(p, p'.last).(marked := true)
      && mac == Format(p'.last) && row' == Updated(p, row, p'.last)
  }

  class MacAllocator {
    var last: int
    var used: set<string>
    var marked: bool

    function State(): Process
      reads this
    {
      Process(last, used, marked)
    }

    constructor ()
      ensures State() == NEW_PROCESS
    {
      last, used, marked := -1, {}, false;
    }

    /** The search loop; it ends because some counter within 2^24 steps is free. */
    method Search(from: int)
      requires |used| < SPACE
      modifies this
      ensures marked == old(marked) && used == old(used) && IsNext(used, from, last)
    {
      hide Format;
      SomeFree(used, from);
      ghost var free :| from <= free < from + SPACE && Format(free) !in used;
      last := from;
      while Format(last) in used
        invariant from <= last <= free && used == old(used) && marked == old(marked)
        invariant forall j :: from <= j < last ==> Format(j) in used
        decreases free - last
      {
        last := last + 1;
      }
    }

    method FallBack() returns (mac: string)
      requires |used| < SPACE
      modifies this
      ensures FallsBack(old(State()), State(), mac)
    {
      hide Format, IsNext;
      Search(if last < 0 then 0 else last + 1);
      mac := Format(last);
      used := used + {mac};
    }

    /** `next_mac`; a call that loses its transaction takes two addresses. */
    method NextMac(row: Row, f: Faults) returns (mac: string, row': Row)
      requires |used| + (if f.storeFails then 1 else 0) < SPACE
      modifies this
      ensures Called(old(State()), row, f, State(), row', mac)
    {
      hide Format, IsNext;
      ghost var p := State();
      row' := row;
      if f.noSession {
        mac := FallBack();
      } else if last < 0 && f.loadFails {
        marked := marked || f.marks;
        mac := FallBack();
      } else {
        var start := if last >= 0 then last else if row.Some? then row.value else -1;
        var seeded, first := !marked && row.None?, last < 0;
        Search(start + 1);
        used := used + {Format(last)};
        if f.storeFails {
          marked := marked || first || f.marks;
          assert TakenThenLost(p, row, f, State());
          mac := FallBack();
        } else {
          marked := true;
          mac := Format(last);
          row' := if seeded || row.Some? then Some(last) else None;
        }
      }
    }
  }

  // ---- One process ----

  lemma CallIsNew(p: Process, row: Row, f: Faults, p': Process, row': Row, mac: string)
    requires Called(p, row, f, p', row', mac)
    ensures mac !in p.used && mac in p'.used && p.used <= p'.used
  {
    hide Format;
  }

  ghost predicate IsProcessRun(ps: seq<Process>, rows: seq<Row>, fs: seq<Faults>, macs: seq<string>) {
    && |ps| == |rows| == |fs| + 1 && |macs| == |fs|
    && forall i :: 0 <= i < |fs| ==> Called(ps[i], rows[i], fs[i], ps[i + 1], rows[i + 1], macs[i])
  }

  lemma {:induction false} IssuedStaysUsed(ps: seq<Process>, rows: seq<Row>, fs: seq<Faults>, macs: seq<string>, i: nat,
                                           j: nat)
    requires IsProcessRun(ps, rows, fs, macs) && i < j <= |fs|
    ensures macs[i] in ps[j].used
  {
    hide Called;
    assert Called(ps[j - 1], rows[j - 1], fs[j - 1], ps[j - 1 + 1], rows[j - 1 + 1], macs[j - 1]);
    CallIsNew(ps[j - 1], rows[j - 1], fs[j - 1], ps[j], rows[j], macs[j - 1]);
    if i < j - 1 {
      IssuedStaysUsed(ps, rows, fs, macs, i, j - 1);
    }
  }

  /** Whatever steps fail, one process never returns the same address twice. */
  lemma ProcessNeverRepeats(ps: seq<Process>, rows: seq<Row>, fs: seq<Faults>, macs: seq<string>, i: nat, j: nat)
    requires IsProcessRun(ps, rows, fs, macs) && i < j < |fs|
    ensures macs[i] != macs[j]
  {
    hide Called;
    assert Called(ps[j], rows[j], fs[j], ps[j + 1], rows[j + 1], macs[j]);
    CallIsNew(ps[j], rows[j], fs[j], ps[j + 1], rows[j + 1], macs[j]);
    IssuedStaysUsed(ps, rows, fs, macs, i, j);
  }

  // ---- Restarts ----

  /** `saved`: the last call of the process committed. */
  datatype World = World(p: Process, row: Row, saved: bool, issued: set<string>)

  datatype Step = Call(f: Faults, mac: string) | Restart

  ghost predicate Takes(w: World, s: Step, w': World) {
    match s
    case Call(f, mac) =>
      && Called(w.p, w.row, f, w'.p, w'.row, mac)
      && w'.saved == (!f.noSession && !f.storeFails) && w'.issued == w.issued + {mac}
    case Restart => w' == World(NEW_PROCESS, w.row, true, w.issued)
  }

  /**
   A first call loads the row and, when there is none yet, commits the one it seeds; a process ends
   only after a committed call; the counter stays below 2^24.
   */
  ghost predicate Disciplined(w: World, s: Step, w': World) {
    match s
    case Call(f, _) => w'.p.last < SPACE && (w.p.last < 0 ==> !LoadFails(w.p, f) && (w.row.Some? || !f.storeFails))
    case Restart => w.p.last < 0 || w.saved
  }

  function RowValue(row: Row): int {
    if row.Some? then row.value else -1
  }

  /** The counter that bounds everything issued: in memory once loaded, in the row before. */
  function High(w: World): int {
    if w.p.last < 0 then RowValue(w.row) else w.p.last
  }

  ghost predicate Sound(w: World) {
    && w.issued <= Formats(0, High(w) + 1) && -1 <= High(w) < SPACE
    && (w.p.last < 0 ==> w.p == NEW_PROCESS)
    && (w.p.last >= 0 ==> w.row.Some? && -1 <= w.row.value <= w.p.last && (w.saved ==> w.row.value == w.p.last))
  }

  lemma StepSound(w: World, s: Step, w': World)
    requires Sound(w) && Takes(w, s, w') && Disciplined(w, s, w')
    ensures Sound(w')
    ensures s.Call? ==> s.mac !in w.issued
  {
    hide Format;
    if s.Call? {
      var n := w'.p.last;
      CallAdvances(w, s.f, w', s.mac);
      FormatsGrow(High(w) + 1, n);
      FreshAbove(High(w), n);
      hide Formats, Called;
    }
  }

  lemma CallAdvances(w: World, f: Faults, w': World, mac: string)
    requires Sound(w) && Takes(w, Call(f, mac), w') && Disciplined(w, Call(f, mac), w')
    ensures High(w) < w'.p.last < SPACE && mac == Format(w'.p.last)
    ensures w'.row.Some? && -1 <= w'.row.value <= w'.p.last && (w'.saved ==> w'.row.value == w'.p.last)
  {
    hide Format, Formats;
  }

  lemma FormatsGrow(a: int, n: int)
    requires 0 <= a <= n
    ensures Formats(0, a) <= Formats(0, n + 1) && Format(n) in Formats(0, n + 1)
  {
    hide Format;
  }

  lemma FreshAbove(high: int, n: int)
    requires -1 <= high < n < SPACE
    ensures Format(n) !in Formats(0, high + 1)
  {
    hide Format;
    NewAddress(0, n);
    FormatsWithin(high + 1, n);
  }

  lemma FormatsWithin(a: int, n: int)
    requires 0 <= a <= n
    ensures Formats(0, a) <= Formats(0, n)
  {
    hide Format;
  }

  ghost predicate IsRun(ws: seq<World>, steps: seq<Step>) {
    && |ws| == |steps| + 1 && ws[0] == World(NEW_PROCESS, None, true, {})
    && forall i :: 0 <= i < |steps| ==> Takes(ws[i], steps[i], ws[i + 1]) && Disciplined(ws[i], steps[i], ws[i + 1])
  }

  lemma {:induction false} RunSound(ws: seq<World>, steps: seq<Step>, n: nat)
    requires IsRun(ws, steps) && n <= |steps|
    ensures Sound(ws[n])
    ensures forall i :: 0 <= i < n && steps[i].Call? ==> steps[i].mac in ws[n].issued
  {
    hide Takes, Disciplined, Sound;
    if n == 0 {
      StartSound();
    } else {
      RunSound(ws, steps, n - 1);
      assert Takes(ws[n - 1], steps[n - 1], ws[n - 1 + 1]) && Disciplined(ws[n - 1], steps[n - 1], ws[n - 1 + 1]);
      StepSound(ws[n - 1], steps[n - 1], ws[n]);
      IssuedGrows(ws[n - 1], steps[n - 1], ws[n]);
    }
  }

  lemma StartSound()
    ensures Sound(World(NEW_PROCESS, None, true, {}))
  {
  }

  lemma IssuedGrows(w: World, s: Step, w': World)
    requires Takes(w, s, w')
    ensures w.issued <= w'.issued && (s.Call? ==> s.mac in w'.issued)
  {
  }

  /** Across any number of restarts, a disciplined run issues no address twice. */
  lemma RunNeverRepeats(ws: seq<World>, steps: seq<Step>, i: nat, j: nat)
    requires IsRun(ws, steps) && i < j < |steps| && steps[i].Call? && steps[j].Call?
    ensures steps[i].mac != steps[j].mac
  {
    hide Takes, Disciplined, Sound;
    RunSound(ws, steps, j);
    assert Takes(ws[j], steps[j], ws[j + 1]) && Disciplined(ws[j], steps[j], ws[j + 1]);
    StepSound(ws[j], steps[j], ws[j + 1]);
  }

  // ---- What goes wrong without the discipline ----

  /** A new process after `n` calls without faults, starting from the row `r`. */
  function AfterHealthy(r: int, n: nat): Process {
    if n == 0 then NEW_PROCESS else Process(r + n, Formats(r + 1, r + n + 1), true)
  }

  lemma HealthyCall(r: int, n: nat, row: Row)
    requires -1 <= r && r + n + 1 < SPACE
    requires if n == 0 then row == Some(r) || (row.None? && r == -1) else row == Some(r + n)
    ensures Called(AfterHealthy(r, n), row, HEALTHY, AfterHealthy(r, n + 1), Some(r + n + 1), Format(r + n + 1))
  {
    hide Format, Formats;
    FormatsSnoc(r + 1, r + n + 1);
    FormatsSnoc(r + 1, r + 1);
    NewAddress(r + 1, r + n + 1);
  }

  /** The address that the next process returns at its call number `n` if nothing fails any more. */
  ghost predicate NextProcessReturns(row: Row, n: nat, mac: string) {
    var r := RowValue(row);
    var before := if n == 1 then row else Some(r + n - 1);
    n > 0 && Called(AfterHealthy(r, n - 1), before, HEALTHY, AfterHealthy(r, n), Some(r + n), mac)
  }

  lemma NextProcessCounts(row: Row, n: nat)
    requires n > 0 && -1 <= RowValue(row) && RowValue(row) + n < SPACE
    ensures NextProcessReturns(row, n, Format(RowValue(row) + n))
    ensures forall mac :: NextProcessReturns(row, n, mac) ==> mac == Format(RowValue(row) + n)
  {
    hide Format, Formats;
    HealthyCall(RowValue(row), n - 1, if n == 1 then row else Some(RowValue(row) + n - 1));
  }

  /**
   A restart is safe exactly when the row has caught up with the counter: if it lags, the next process
   returns an issued address again, even if nothing fails any more.
   */
  lemma RestartSafeIff(w: World)
    requires w.p.last >= 0 && -1 <= RowValue(w.row) <= w.p.last < SPACE
    requires Format(w.p.last) in w.issued && w.issued <= Formats(0, w.p.last + 1)
    ensures RowValue(w.row) == w.p.last <==> !NextProcessRepeats(w)
  {
    hide Format, Formats, NextProcessReturns;
    var r := RowValue(w.row);
    if r < w.p.last {
      NextProcessCounts(w.row, w.p.last - r);
    } else {
      forall n: nat, mac | n > 0 && r + n < SPACE && NextProcessReturns(w.row, n, mac) ensures mac !in w.issued {
        NextProcessCounts(w.row, n);
        FreshAbove(w.p.last, r + n);
      }
    }
  }

  ghost predicate NextProcessRepeats(w: World) {
    exists n: nat, mac :: n > 0 && RowValue(w.row) + n < SPACE && NextProcessReturns(w.row, n, mac) && mac in w.issued
  }

  /** A first call whose load fails starts at zero and repeats the very first address. */
  lemma FailedLoadRepeats(row: Row)
    requires row.Some? && row.value >= 0
    ensures exists p' :: Called(NEW_PROCESS, row, Faults(false, true, false, false), p', row, Format(0))
  {
    var p' := Take(NEW_PROCESS, 0);
    assert FallsBack(NEW_PROCESS, p', Format(0));
    assert NEW_PROCESS.(marked := false) == NEW_PROCESS;
    assert Called(NEW_PROCESS, row, Faults(false, true, false, false), p', row, Format(0));
  }

  /**
   A process that starts on a row which bounds everything issued repeats an address with its first call
   if and only if the load of the row fails, whatever else fails.
   */
  lemma FirstCallRepeatsIff(w: World, f: Faults, mac: string, w': World)
    requires w.p == NEW_PROCESS && w.row.Some? && 0 <= w.row.value && w.row.value + 2 < SPACE
    requires Format(0) in w.issued && w.issued <= Formats(0, w.row.value + 1)
    requires Takes(w, Call(f, mac), w')
    ensures mac in w.issued <==> LoadFails(w.p, f)
  {
    hide Format, Formats;
    if LoadFails(w.p, f) {
      FailedLoadStartsOver(w, f, mac, w');
    } else if f.storeFails {
      LostCallIsNew(w, f, mac, w');
    } else {
      FirstIsNext({}, w.row.value + 1, w'.p.last);
      FreshAbove(w.row.value, w.row.value + 1);
    }
  }

  lemma FailedLoadStartsOver(w: World, f: Faults, mac: string, w': World)
    requires w.p == NEW_PROCESS && LoadFails(w.p, f) && Takes(w, Call(f, mac), w')
    ensures mac == Format(0)
  {
    hide Format;
    assert FallsBack(NEW_PROCESS.(marked := w'.p.marked), w'.p, mac);
    FirstIsNext({}, 0, w'.p.last);
  }

  lemma LostCallIsNew(w: World, f: Faults, mac: string, w': World)
    requires w.p == NEW_PROCESS && w.row.Some? && 0 <= w.row.value && w.row.value + 2 < SPACE
    requires w.issued <= Formats(0, w.row.value + 1)
    requires !LoadFails(w.p, f) && f.storeFails && Takes(w, Call(f, mac), w')
    ensures mac !in w.issued
  {
    hide Format, Formats;
    var r := w.row.value;
    var mid :| TakenThenLost(w.p, w.row, f, mid) && FallsBack(mid, w'.p, mac);
    hide Takes;
    FirstIsNext({}, r + 1, mid.last);
    NewAddressHere(r + 1, r + 2);
    FirstIsNext({Format(r + 1)}, r + 2, w'.p.last);
    FreshAbove(r, r + 2);
  }

  /** If the first counter is free, the search stops there. */
  lemma FirstIsNext(used: set<string>, from: int, n: int)
    requires IsNext(used, from, n) && Format(from) !in used
    ensures n == from
  {
    hide Format;
  }

  lemma NewAddressHere(a: int, b: int)
    requires a < b < a + SPACE
    ensures Format(a) != Format(b)
  {
    FormatInjective(a, b);
    NearbyDiffer(a, b);
  }

  /**
   A first call that seeds the row and then loses its transaction leaves the table flag set: every later
   commit of the process updates nothing, and the next process starts over.
   */
  lemma LostSeedIsNeverWritten(p: Process, row: Row, f: Faults, p': Process, row': Row, mac: string)
    requires p.marked && row.None? && Called(p, row, f, p', row', mac)
    ensures p'.marked && row'.None?
  {
    hide Format, IsNext;
  }

  const SEED_LOST := Faults(false, false, true, false)

  /**
   On a new database it is not enough that a first call loads and a last call commits: with the seed lost,
   addresses 1 and 2 are issued, the second call commits, and the next process issues 0 and then 1 again.
   */
  lemma LostSeedRepeats()
    ensures exists p1, p2 ::
      && Called(NEW_PROCESS, None, SEED_LOST, p1, None, Format(1)) && Called(p1, None, HEALTHY, p2, None, Format(2))
      && NextProcessReturns(None, 1, Format(0)) && NextProcessReturns(None, 2, Format(1))
  {
    var mid := Take(NEW_PROCESS, 0).(marked := true);
    var p1 := Take(mid, 1);
    var p2 := Take(p1, 2);
    FormatInjective(0, 1);
    FormatInjective(0, 2);
    FormatInjective(1, 2);
    hide Format;
    assert TakenThenLost(NEW_PROCESS, None, SEED_LOST, mid);
    assert FallsBack(mid, p1, Format(1));
    NextProcessCounts(None, 1);
    NextProcessCounts(None, 2);
    hide NextProcessReturns;
    assert Called(NEW_PROCESS, None, SEED_LOST, p1, None, Format(1));
    assert Called(p1, None, HEALTHY, p2, None, Format(2));
  }

  // ---- Exactly which runs are safe ----

  /** The books of a process and its row: everything refers to addresses that were issued. */
  ghost predicate Kept(w: World) {
    && (w.p.last < 0 ==> w.p == NEW_PROCESS)
    && (w.p.last >= 0 ==> Format(w.p.last) in w.issued && w.p.used <= Formats(0, w.p.last + 1))
    && -1 <= RowValue(w.row) && (RowValue(w.row) >= 0 ==> Format(RowValue(w.row)) in w.issued)
    && High(w) < SPACE
  }

  /** The row does not run ahead of a process that has called. */
  predicate RowBehind(w: World) {
    w.p.last >= 0 ==> RowValue(w.row) <= w.p.last
  }

  /** `h` is the highest counter issued, or -1. */
  ghost predicate IsTop(w: World, h: int) {
    -1 <= h < SPACE && w.issued <= Formats(0, h + 1) && (h >= 0 ==> Format(h) in w.issued)
  }

  /** No counter above the one the next call starts from was ever issued. */
  ghost predicate Secure(w: World) {
    w.issued <= Formats(0, High(w) + 1)
  }

  /** If nothing fails, the next call returns the next counter. */
  lemma HealthyReturnsNext(w: World) returns (w': World)
    requires Kept(w) && High(w) + 1 < SPACE
    ensures Takes(w, Call(HEALTHY, Format(High(w) + 1)), w') && High(w') == High(w) + 1 && w.issued <= w'.issued
    ensures Kept(w')
  {
    var k := High(w) + 1;
    hide Format, Formats;
    assert Format(k) !in w.p.used by {
      if w.p.last >= 0 { FreshAbove(w.p.last, k); }
    }
    w' := World(Take(w.p, k).(marked := true), Updated(w.p, w.row, k), true, w.issued + {Format(k)});
    assert Called(w.p, w.row, HEALTHY, w'.p, w'.row, Format(k));
    FormatsGrow(High(w) + 1, k);
  }

  /** Within `n` calls without faults some call returns one of the addresses in `issued`. */
  ghost predicate Repeats(w: World, issued: set<string>, n: nat)
    decreases n
  {
    n > 0 && exists mac, w' ::
      Takes(w, Call(HEALTHY, mac), w') && High(w') < SPACE && (mac in issued || Repeats(w', issued, n - 1))
  }

  lemma {:induction false} GapRepeats(w: World, issued: set<string>, h: int)
    requires Kept(w) && High(w) < h < SPACE && Format(h) in issued
    ensures Repeats(w, issued, h - High(w))
    decreases h - High(w)
  {
    hide Format, Formats, Kept, Takes;
    var w' := HealthyReturnsNext(w);
    KeptBelow(w');
    if High(w') < h {
      GapRepeats(w', issued, h);
    }
  }

  lemma KeptBelow(w: World)
    requires Kept(w)
    ensures -1 <= High(w) < SPACE
  {
  }

  lemma {:induction false} SecureNeverRepeats(w: World, issued: set<string>, n: nat)
    requires Kept(w) && issued <= Formats(0, High(w) + 1)
    ensures !Repeats(w, issued, n)
    decreases n
  {
    hide Format, Formats;
    if n > 0 {
      forall mac, w' | Takes(w, Call(HEALTHY, mac), w') && High(w') < SPACE
        ensures mac !in issued && !Repeats(w', issued, n - 1)
      {
        HealthyCallKeeps(w, mac, w');
        FreshAbove(High(w), High(w'));
        FormatsWithin(High(w) + 1, High(w') + 1);
        SecureNeverRepeats(w', issued, n - 1);
      }
    }
  }

  lemma HealthyCallKeeps(w: World, mac: string, w': World)
    requires Kept(w) && Takes(w, Call(HEALTHY, mac), w') && High(w') < SPACE
    ensures Kept(w') && High(w) < High(w') && mac == Format(High(w'))
  {
    GoodCallKeeps(w, HEALTHY, mac, w');
  }

  /** A call that does not miss the row keeps the books and returns a counter above all earlier ones. */
  lemma GoodCallKeeps(w: World, f: Faults, mac: string, w': World)
    requires Kept(w) && Takes(w, Call(f, mac), w') && High(w') < SPACE && !(w.p.last < 0 && LoadFails(w.p, f))
    ensures Kept(w') && High(w) < High(w') && mac == Format(High(w'))
  {
    hide Format, Formats;
    CallCounts(w, f, mac, w');
    UsedStays(w, f, mac, w');
  }

  lemma CallCounts(w: World, f: Faults, mac: string, w': World)
    requires Kept(w) && Takes(w, Call(f, mac), w') && !(w.p.last < 0 && LoadFails(w.p, f))
    ensures High(w) < w'.p.last && mac == Format(w'.p.last) && High(w') == w'.p.last
    ensures w'.row == w.row || w'.row == None || w'.row == Some(w'.p.last)
    ensures w'.issued == w.issued + {mac}
  {
    hide Format, Formats;
  }

  lemma UsedStays(w: World, f: Faults, mac: string, w': World)
    requires Kept(w) && Takes(w, Call(f, mac), w') && !(w.p.last < 0 && LoadFails(w.p, f))
    ensures w'.p.used <= Formats(0, w'.p.last + 1)
  {
    hide Format;
    if !LoadFails(w.p, f) && f.storeFails {
      var mid :| TakenThenLost(w.p, w.row, f, mid) && FallsBack(mid, w'.p, mac);
      assert w'.p.used == w.p.used + {Format(mid.last)} + {Format(w'.p.last)};
    } else {
      assert w'.p.used == w.p.used + {Format(w'.p.last)};
    }
  }

  /** Without further faults the world repeats an issued address sooner or later. */
  ghost predicate CanRepeat(w: World) {
    exists n: nat :: Repeats(w, w.issued, n)
  }

  /** That is so exactly when the world is not secure. */
  lemma SecureIff(w: World, h: int)
    requires Kept(w) && IsTop(w, h)
    ensures Secure(w) <==> !CanRepeat(w)
  {
    hide Format, Repeats;
    if Secure(w) {
      forall n: nat { SecureNeverRepeats(w, w.issued, n); }
    } else {
      KeptBelow(w);
      if h <= High(w) {
        FormatsWithin(h + 1, High(w) + 1);
      } else {
        GapRepeats(w, w.issued, h);
      }
    }
  }

  /** What may happen: a row that exists is not missed, and a process ends with the row caught up. */
  predicate Allowed(w: World, s: Step) {
    match s
    case Call(f, _) => w.p.last < 0 && LoadFails(w.p, f) ==> RowValue(w.row) == -1
    case Restart => w.p.last < 0 || RowValue(w.row) == w.p.last
  }

  lemma AllowedStep(w: World, s: Step, w': World)
    requires Kept(w) && RowBehind(w) && Secure(w) && Takes(w, s, w') && High(w') < SPACE && Allowed(w, s)
    ensures RowBehind(w') && Secure(w') && (s.Call? ==> s.mac !in w.issued)
  {
    hide Format, Formats;
    if s.Call? {
      if w.p.last < 0 && LoadFails(w.p, s.f) {
        FirstEver(w, s.f, s.mac, w');
      } else {
        GoodCallKeeps(w, s.f, s.mac, w');
        CallCounts(w, s.f, s.mac, w');
        FreshAbove(High(w), High(w'));
        FormatsGrow(High(w) + 1, High(w'));
      }
    }
  }

  /** Missing a row that is not there is harmless: nothing was issued yet. */
  lemma FirstEver(w: World, f: Faults, mac: string, w': World)
    requires Kept(w) && Secure(w) && Takes(w, Call(f, mac), w') && w.p.last < 0 && LoadFails(w.p, f)
    requires RowValue(w.row) == -1
    ensures RowBehind(w') && Secure(w') && mac !in w.issued
  {
    hide Format;
    assert Formats(0, 0) == {};
    FirstIsNext({}, 0, w'.p.last);
    assert w'.p.last == 0 && w'.issued == {Format(0)} && w'.p.used == {Format(0)};
    FormatsGrow(0, 0);
  }

  lemma ForbiddenStep(w: World, s: Step, w': World)
    requires Kept(w) && RowBehind(w) && Secure(w) && Takes(w, s, w') && High(w') < SPACE && !Allowed(w, s)
    ensures !Secure(w') || (s.Call? && s.mac in w.issued)
  {
    hide Format, Formats;
    match s
    case Restart => FreshAbove(RowValue(w.row), w.p.last);
    case Call(f, mac) =>
      FirstIsNext({}, 0, w'.p.last);
      if RowValue(w.row) > 0 { FreshAbove(0, RowValue(w.row)); }
  }

  /** Every step keeps the books, allowed or not. */
  lemma AnyStepKeeps(w: World, s: Step, w': World)
    requires Kept(w) && Takes(w, s, w') && High(w') < SPACE
    ensures Kept(w')
  {
    hide Format;
    if s.Call? {
      if w.p.last < 0 && LoadFails(w.p, s.f) {
        FirstIsNext({}, 0, w'.p.last);
        assert w'.p.used == {Format(0)};
        FormatsGrow(0, 0);
      } else {
        GoodCallKeeps(w, s.f, s.mac, w');
      }
    }
  }

  lemma AnyStepTops(w: World, s: Step, w': World, h: int) returns (h': int)
    requires Kept(w) && IsTop(w, h) && Takes(w, s, w') && High(w') < SPACE
    ensures IsTop(w', h')
  {
    hide Format, Formats;
    h' := h;
    if s.Call? {
      AnyStepKeeps(w, s, w');
      CallReturnsLast(w, s.f, s.mac, w');
      h' := if h < w'.p.last then w'.p.last else h;
      FormatsWithin(h + 1, h' + 1);
      FormatsGrow(w'.p.last, w'.p.last);
      FormatsWithin(w'.p.last + 1, h' + 1);
    }
  }

  lemma CallReturnsLast(w: World, f: Faults, mac: string, w': World)
    requires Kept(w) && Takes(w, Call(f, mac), w')
    ensures w'.p.last >= 0 && mac == Format(w'.p.last) && w'.issued == w.issued + {mac}
  {
    hide Format, Formats;
  }

  /** Any run of calls and restarts below 2^24, whatever fails. */
  ghost predicate IsAnyRun(ws: seq<World>, steps: seq<Step>) {
    && |ws| == |steps| + 1 && ws[0] == World(NEW_PROCESS, None, true, {})
    && (forall i :: 0 <= i < |ws| ==> High(ws[i]) < SPACE)
    && (forall i :: 0 <= i < |steps| ==> Takes(ws[i], steps[i], ws[i + 1]))
  }

  lemma {:induction false} AnyRunKept(ws: seq<World>, steps: seq<Step>, n: nat) returns (h: int)
    requires IsAnyRun(ws, steps) && n <= |steps|
    ensures Kept(ws[n]) && IsTop(ws[n], h)
  {
    hide Takes, Kept, IsTop;
    if n == 0 {
      h := -1;
      StartKept();
    } else {
      var h0 := AnyRunKept(ws, steps, n - 1);
      assert Takes(ws[n - 1], steps[n - 1], ws[n - 1 + 1]);
      AnyStepKeeps(ws[n - 1], steps[n - 1], ws[n]);
      h := AnyStepTops(ws[n - 1], steps[n - 1], ws[n], h0);
    }
  }

  /** The step returns no issued address, and leaves a world that cannot repeat one without further faults. */
  ghost predicate StepIsSafe(w: World, s: Step, w': World) {
    (s.Call? ==> s.mac !in w.issued) && !CanRepeat(w')
  }

  ghost predicate AllSafe(ws: seq<World>, steps: seq<Step>, n: nat)
    requires |ws| == |steps| + 1
  {
    forall i :: 0 <= i < n && i < |steps| ==> StepIsSafe(ws[i], steps[i], ws[i + 1])
  }

  ghost predicate AllAllowed(ws: seq<World>, steps: seq<Step>, n: nat)
    requires |ws| == |steps| + 1
  {
    forall i :: 0 <= i < n && i < |steps| ==> Allowed(ws[i], steps[i])
  }

  /** The exact condition over whole runs: every step is safe if and only if every step is allowed. */
  lemma {:induction false} RunSafeIff(ws: seq<World>, steps: seq<Step>, n: nat)
    requires IsAnyRun(ws, steps) && n <= |steps|
    ensures AllSafe(ws, steps, n) <==> AllAllowed(ws, steps, n)
    ensures AllAllowed(ws, steps, n) ==> RowBehind(ws[n]) && Secure(ws[n])
  {
    hide Takes, Kept, Secure, Allowed, CanRepeat, IsTop, RowBehind;
    if n == 0 {
      StartKept();
    } else {
      RunSafeIff(ws, steps, n - 1);
      assert Takes(ws[n - 1], steps[n - 1], ws[n - 1 + 1]);
      var h0 := AnyRunKept(ws, steps, n - 1);
      var h := AnyRunKept(ws, steps, n);
      SecureIff(ws[n], h);
      if AllAllowed(ws, steps, n - 1) {
        if Allowed(ws[n - 1], steps[n - 1]) {
          AllowedStep(ws[n - 1], steps[n - 1], ws[n]);
        } else {
          ForbiddenStep(ws[n - 1], steps[n - 1], ws[n]);
          assert !StepIsSafe(ws[n - 1], steps[n - 1], ws[n - 1 + 1]);
        }
      }
    }
  }

  lemma StartKept()
    ensures var w := World(NEW_PROCESS, None, true, {}); Kept(w) && Secure(w) && RowBehind(w) && IsTop(w, -1)
  {
  }
}
