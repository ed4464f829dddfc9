/**
 * A stand-in for the blocking two-wire bus that both sub-devices are driven
 * through. The driver only ever issues two kinds of transfer:
 *   write(addr, [reg, value])           store one byte in register `reg`;
 *   write_read(addr, [reg], buf)        read |buf| consecutive registers from `reg`.
 * The sub-device behind the bus is passive storage: 256 byte-wide registers.
 * Whether a transfer succeeds is decided by a script of outcomes (the failure
 * oracle), one entry per transfer, and every transfer issued is appended to a
 * trace together with its outcome. The transport's error value is opaque to
 * the driver; it is carried unchanged from the script to the caller.
 */
module Transport {

  /** The transport's own error, opaque to the driver. */
  datatype BusError = BusError(code: nat)

  /** What one transfer came to. */
  datatype Status = Done | Failed(error: BusError)

  /** A transfer as the driver issues it (device address first, then the bytes). */
  datatype Transfer =
    | Write(addr: bv8, reg: bv8, value: bv8)
    | WriteRead(addr: bv8, reg: bv8, len: nat)

  /** One entry of the call trace. */
  datatype Event = Event(transfer: Transfer, status: Status)

  const REGISTER_COUNT: nat := 256

  /** The register file of a sub-device: one byte for every 8-bit register address. */
  type Registers = regs: seq<bv8> | |regs| == REGISTER_COUNT witness seq(REGISTER_COUNT, _ => 0x00)

  /** Everything the bus holds: the register file, the outcomes still scripted, the trace so far. */
  datatype BusState = BusState(regs: Registers, faults: seq<Status>, trace: seq<Event>)

  /** The outcome scripted for the i-th transfer from now; once the script runs out every transfer succeeds. */
  function StatusAt(faults: seq<Status>, i: nat): Status
  {
    if i < |faults| then faults[i] else Done
  }

  /** The script after n transfers have consumed their outcomes. */
  function Drop(faults: seq<Status>, n: nat): seq<Status>
  {
    if n < |faults| then faults[n..] else []
  }

  lemma DropShifts(faults: seq<Status>, n: nat, m: nat)
    ensures forall i: nat :: StatusAt(Drop(faults, n), i) == StatusAt(faults, n + i)
    ensures Drop(Drop(faults, n), m) == Drop(faults, n + m)
  {
  }

  /** `n` consecutive registers from `reg`: what a write_read with an n-byte buffer returns. */
  function Window(regs: Registers, reg: bv8, n: nat): (w: seq<bv8>)
    requires reg as int + n <= REGISTER_COUNT
    ensures |w| == n
    ensures forall i :: 0 <= i < n ==> w[i] == regs[reg as int + i]
  {
    regs[reg as int..reg as int + n]
  }

  /** The register file after a transfer that succeeded: a write stores its byte, a read changes nothing. */
  function Store(regs: Registers, t: Transfer): Registers
  {
    if t.Write? then regs[t.reg as int := t.value] else regs
  }

  /** One transfer: it consumes one scripted outcome, is logged, and takes effect only if it succeeded. */
  function Step(st: BusState, t: Transfer): BusState
  {
    var s := StatusAt(st.faults, 0);
    BusState(if s.Done? then Store(st.regs, t) else st.regs,
             Drop(st.faults, 1),
             st.trace + [Event(t, s)])
  }

  /**
   * A public operation as the driver runs it: the transfers of `plan` in order,
   * stopping at the first one that fails (the `?` after every transfer but the
   * last). The status is that of the last transfer issued, which the driver
   * returns as the operation's own outcome.
   */
  function Run(st: BusState, plan: seq<Transfer>): (res: (BusState, Status))
    decreases |plan|
  {
    if plan == [] then (st, Done)
    else
      var s := StatusAt(st.faults, 0);
      var next := Step(st, plan[0]);
      if s.Failed? then (next, s) else Run(next, plan[1..])
  }

  /**
   * What stopping at the first failure makes of an operation's trace: it extends the old trace by at
   * least one and at most |plan| transfers, every one of them but the last
   * succeeded, the operation's outcome is that of the last transfer issued, and
   * an operation that succeeded issued its whole plan.
   */
  lemma {:induction false} RunOutcome(st: BusState, plan: seq<Transfer>)
    ensures var (after, s) := Run(st, plan);
            && |st.trace| <= |after.trace| <= |st.trace| + |plan|
            && after.trace[..|st.trace|] == st.trace
            && (plan == [] <==> |after.trace| == |st.trace|)
            && (plan != [] ==> after.trace[|after.trace| - 1].status == s)
            && (s.Done? ==> |after.trace| == |st.trace| + |plan|)
            && (forall i :: |st.trace| <= i < |after.trace| - 1 ==> after.trace[i].status.Done?)
    decreases |plan|
  {
    if plan != [] && StatusAt(st.faults, 0).Done? {
      var next := Step(st, plan[0]);
      RunOutcome(next, plan[1..]);
      var after := Run(next, plan[1..]).0;
      assert after.trace[..|next.trace|] == next.trace;
      assert after.trace[|st.trace|] == next.trace[|st.trace|];
    }
  }

  /** An operation whose first transfer succeeded goes on with the rest of its plan. */
  lemma RunContinues(st: BusState, plan: seq<Transfer>)
    requires plan != [] && StatusAt(st.faults, 0).Done?
    ensures Run(st, plan) == Run(Step(st, plan[0]), plan[1..])
  {
  }

  /** An operation whose first transfer failed stops there, with that transfer's status. */
  lemma RunStops(st: BusState, plan: seq<Transfer>)
    requires plan != [] && StatusAt(st.faults, 0).Failed?
    ensures Run(st, plan) == (Step(st, plan[0]), StatusAt(st.faults, 0))
  {
  }

  /** The last transfer of an operation decides its outcome. */
  lemma RunLast(st: BusState, t: Transfer)
    ensures Run(st, [t]) == (Step(st, t), StatusAt(st.faults, 0))
  {
  }

  /** The register file after every transfer of `plan` succeeded. */
  function Apply(regs: Registers, plan: seq<Transfer>): (after: Registers)
    ensures plan != [] && plan[|plan| - 1].Write? ==> after[plan[|plan| - 1].reg] == plan[|plan| - 1].value
    decreases |plan|
  {
    if plan == [] then regs else Apply(Store(regs, plan[0]), plan[1..])
  }

  /** The trace entries for `plan`, each with its scripted outcome. */
  function Events(plan: seq<Transfer>, faults: seq<Status>): (events: seq<Event>)
    ensures |events| == |plan|
    ensures forall i :: 0 <= i < |plan| ==> events[i] == Event(plan[i], StatusAt(faults, i))
  {
    seq(|plan|, i requires 0 <= i < |plan| => Event(plan[i], StatusAt(faults, i)))
  }

  lemma EventsCons(plan: seq<Transfer>, faults: seq<Status>)
    requires plan != []
    ensures Events(plan, faults) == [Event(plan[0], StatusAt(faults, 0))] + Events(plan[1..], Drop(faults, 1))
  {
    var lhs := Events(plan, faults);
    var rhs := [Event(plan[0], StatusAt(faults, 0))] + Events(plan[1..], Drop(faults, 1));
    assert |lhs| == |rhs|;
    forall i | 0 <= i < |lhs| ensures lhs[i] == rhs[i] {
      if i > 0 {
        assert rhs[i] == Events(plan[1..], Drop(faults, 1))[i - 1];
      }
    }
  }

  lemma TraceCons(trace: seq<Event>, plan: seq<Transfer>, faults: seq<Status>)
    requires plan != []
    ensures (trace + [Event(plan[0], StatusAt(faults, 0))]) + Events(plan[1..], Drop(faults, 1))
         == trace + Events(plan, faults)
  {
    EventsCons(plan, faults);
  }

  /** The first `n` scripted outcomes are all success. */
  predicate Succeeds(faults: seq<Status>, n: nat)
  {
    forall i: nat :: i < n ==> StatusAt(faults, i).Done?
  }

  /**
   * When every scripted outcome for the transfers of `plan` is success, the
   * operation issues all of them, each write takes effect in order, and the
   * operation succeeds.
   */
  lemma {:induction false} RunCompletes(st: BusState, plan: seq<Transfer>)
    requires forall i: nat :: i < |plan| ==> StatusAt(st.faults, i).Done?
    ensures Run(st, plan)
         == (BusState(Apply(st.regs, plan), Drop(st.faults, |plan|), st.trace + Events(plan, st.faults)), Done)
    decreases |plan|
  {
    if plan == [] {
      assert st.trace + Events(plan, st.faults) == st.trace;
      assert st.faults == Drop(st.faults, 0);
    } else {
      var next := Step(st, plan[0]);
      assert StatusAt(st.faults, 0).Done?;
      assert Run(st, plan) == Run(next, plan[1..]);
      forall i: nat | i < |plan[1..]| ensures StatusAt(next.faults, i).Done? {
        DropShifts(st.faults, 1, 0);
        assert StatusAt(next.faults, i) == StatusAt(st.faults, 1 + i);
      }
      RunCompletes(next, plan[1..]);
      assert Drop(next.faults, |plan| - 1) == Drop(st.faults, |plan|) by {
        DropShifts(st.faults, 1, |plan| - 1);
      }
      assert next.regs == Store(st.regs, plan[0]);
      assert Apply(st.regs, plan) == Apply(next.regs, plan[1..]);
      TraceCons(st.trace, plan, st.faults);
    }
  }

  /** A plan that completes leaves the outcomes scripted after it for the next operation. */
  lemma RunLeavesSuccesses(st: BusState, plan: seq<Transfer>, n: nat)
    requires Succeeds(st.faults, |plan| + n)
    ensures Succeeds(Run(st, plan).0.faults, n)
  {
    RunCompletes(st, plan);
    DropShifts(st.faults, |plan|, 0);
  }

  /**
   * Fail-fast: when the k-th transfer of `plan` is the first whose scripted
   * outcome is a failure, the operation issues exactly the first k + 1
   * transfers, only the writes among the first k take effect, and the
   * operation fails with that transfer's error, unchanged.
   */
  lemma {:induction false} RunStopsAtFailure(st: BusState, plan: seq<Transfer>, k: nat)
    requires k < |plan|
    requires forall i: nat :: i < k ==> StatusAt(st.faults, i).Done?
    requires StatusAt(st.faults, k).Failed?
    ensures Run(st, plan)
         == (BusState(Apply(st.regs, plan[..k]), Drop(st.faults, k + 1), st.trace + Events(plan[..k + 1], st.faults)),
             StatusAt(st.faults, k))
    decreases k
  {
    var next := Step(st, plan[0]);
    DropShifts(st.faults, 1, k);
    if k == 0 {
      assert Events(plan[..1], st.faults) == [Event(plan[0], StatusAt(st.faults, 0))];
      assert plan[..0] == [];
    } else {
      assert Run(st, plan) == Run(next, plan[1..]);
      RunStopsAtFailure(next, plan[1..], k - 1);
      assert plan[1..][..k - 1] == plan[..k][1..];
      assert plan[1..][..k] == plan[..k + 1][1..];
      assert next.regs == Store(st.regs, plan[0]);
      assert Apply(st.regs, plan[..k]) == Apply(next.regs, plan[1..][..k - 1]);
      TraceCons(st.trace, plan[..k + 1], st.faults);
    }
  }

  /** A register that no write of `plan` addresses keeps its value. */
  lemma {:induction false} ApplyUntouched(regs: Registers, plan: seq<Transfer>, r: bv8)
    requires forall i :: 0 <= i < |plan| && plan[i].Write? ==> plan[i].reg != r
    ensures Apply(regs, plan)[r] == regs[r]
    decreases |plan|
  {
    if plan != [] {
      ApplyUntouched(Store(regs, plan[0]), plan[1..], r);
    }
  }

  /** Running two plans back to back is running the first and, unless it failed, the second from where it left off. */
  lemma {:induction false} RunAppend(st: BusState, p: seq<Transfer>, q: seq<Transfer>)
    ensures Run(st, p + q) == (var (mid, s) := Run(st, p); if s.Failed? then (mid, s) else Run(mid, q))
    decreases |p|
  {
    if p == [] {
      assert p + q == q;
    } else {
      assert (p + q)[0] == p[0];
      assert (p + q)[1..] == p[1..] + q;
      if StatusAt(st.faults, 0).Done? {
        RunAppend(Step(st, p[0]), p[1..], q);
      }
    }
  }

  /** A register that no write of `plan` addresses keeps its value, however far the operation gets. */
  lemma {:induction false} RunKeeps(st: BusState, plan: seq<Transfer>, r: bv8)
    requires forall i :: 0 <= i < |plan| && plan[i].Write? ==> plan[i].reg != r
    ensures Run(st, plan).0.regs[r] == st.regs[r]
    decreases |plan|
  {
    if plan != [] {
      var next := Step(st, plan[0]);
      assert next.regs[r] == st.regs[r] by {
        assert !plan[0].Write? || plan[0].reg != r;
      }
      if StatusAt(st.faults, 0).Done? {
        assert forall i :: 0 <= i < |plan[1..]| ==> plan[1..][i] == plan[i + 1];
        RunKeeps(next, plan[1..], r);
      }
    }
  }

  /**
   * The bus as the driver sees it: a class holding the register file, the
   * script of outcomes and the trace, which each transfer updates in place.
   */
  class Bus {
    var st: BusState

    constructor (regs: Registers, faults: seq<Status>)
      ensures st == BusState(regs, faults, [])
    {
      st := BusState(regs, faults, []);
    }

    /** write(addr, [reg, value]) */
    method Write(addr: bv8, reg: bv8, value: bv8) returns (s: Status)
      modifies this
      ensures s == StatusAt(old(st.faults), 0)
      ensures st == Step(old(st), Transfer.Write(addr, reg, value))
    {
      s := StatusAt(st.faults, 0);
      var regs := st.regs;
      if s.Done? {
        regs := regs[reg as int := value];
      }
      st := BusState(regs, Drop(st.faults, 1), st.trace + [Event(Transfer.Write(addr, reg, value), s)]);
    }

    /** write_read(addr, [reg], buf): on success buf holds the registers from reg on; on failure it is left alone. */
    method WriteRead(addr: bv8, reg: bv8, buf: array<bv8>) returns (s: Status)
      requires reg as int + buf.Length <= REGISTER_COUNT
      modifies this, buf
      ensures s == StatusAt(old(st.faults), 0)
      ensures st == Step(old(st), Transfer.WriteRead(addr, reg, buf.Length))
      ensures s.Done? ==> buf[..] == Window(old(st.regs), reg, buf.Length)
      ensures s.Failed? ==> buf[..] == old(buf[..])
    {
      s := StatusAt(st.faults, 0);
      if s.Done? {
        var i := 0;
        while i < buf.Length
          modifies buf
          invariant 0 <= i <= buf.Length
          invariant forall j :: 0 <= j < i ==> buf[j] == st.regs[reg as int + j]
        {
          buf[i] := st.regs[reg as int + i];
          i := i + 1;
        }
      }
      st := BusState(st.regs, Drop(st.faults, 1), st.trace + [Event(Transfer.WriteRead(addr, reg, buf.Length), s)]);
    }
  }

  /**
   * The read-modify-write the driver performs on a configuration register:
   * read it into the one-byte buffer, update the byte in place, write it back.
   * A failed read stops the sequence, so nothing is written.
   */
  method ReadModifyWrite(bus: Bus, addr: bv8, reg: bv8, data: array<bv8>, update: bv8 -> bv8) returns (s: Status)
    requires data.Length == 1
    modifies bus, data
    ensures (bus.st, s) == Run(old(bus.st), [WriteRead(addr, reg, 1), Write(addr, reg, update(old(bus.st.regs)[reg]))])
  {
    ghost var st0 := bus.st;
    ghost var plan := [WriteRead(addr, reg, 1), Write(addr, reg, update(st0.regs[reg]))];
    s := bus.WriteRead(addr, reg, data);
    if s.Failed? {
      RunStops(st0, plan);
      return;
    }
    RunContinues(st0, plan);
    assert data[0] == data[..][0] == Window(st0.regs, reg, 1)[0] == st0.regs[reg];
    data[0] := update(data[0]);
    assert plan[1..] == [Write(addr, reg, data[0])];
    ghost var st1 := bus.st;
    s := bus.Write(addr, reg, data[0]);
    RunLast(st1, Write(addr, reg, data[0]));
  }
}
