/** A model of the tail-call dispatch VM of tce_tiny.cpp.
 *
 *  The C++ program keeps a table of 100005 handler pointers, three registers
 *  (IP, SP, FLAGS) and four counters. Every handler ends by tail-calling the
 *  handler the table holds at IP, except the loop guard, which returns once
 *  it has run more than PGM_LOOPS times. Here the handler pointers are the
 *  opcodes of a closed datatype, the chain of tail calls is an explicit
 *  trampoline loop (Machine.Run) over one-dispatch steps (Machine.Step), and
 *  the effect of one handler is the pure function Handle.
 */
module TceTiny {

  datatype Option<T> = None | Some(value: T)

  /** The four handlers func1 .. func4 that the table can point to. */
  datatype Op = Func1 | Func2 | Func3 | Func4

  /** Number of slots of the dispatch table OPARRAY. */
  const CAPACITY: nat := 100005
  /** SP starts at the last slot index of the table. */
  const INITIAL_SP: int := CAPACITY - 1
  /** The two FLAGS bits; no handler reads or writes them. */
  const ZR: int := 1
  const CY: int := 2
  /** The configuration of the shipped program. */
  const PGM_SIZE: nat := 10000
  const PGM_LOOPS: nat := 100000

  /** The registers and the four handler counters at one point of a run. */
  datatype State = State(ip: int, sp: int, flags: int, f1: int, f2: int, f3: int, f4: int)

  /** How a handler ends: by tail-calling the slot at the new IP, or by
      returning, which ends the whole run. */
  datatype Outcome = TailCall(state: State) | Return(state: State)

  /** The effect of one handler on the registers and counters. No handler
      writes the reserved registers, and only the guard ever returns. */
  function Handle(op: Op, s: State, loops: int): (r: Outcome)
    ensures r.state.sp == s.sp && r.state.flags == s.flags
    ensures r.Return? ==> op == Func4
  {
    match op
    case Func1 => TailCall(s.(f1 := s.f1 + 1, ip := s.ip + 1))
    case Func2 => TailCall(s.(f2 := s.f2 + 1, ip := s.ip + 1))
    case Func3 => TailCall(s.(f3 := s.f3 + 1, ip := s.ip + 1))
    case Func4 =>
      var t := s.(f4 := s.f4 + 1);
      if t.f4 > loops then Return(t) else TailCall(t.(ip := 0))
  }

  /** The counter a handler owns. */
  function Counter(s: State, op: Op): int
  {
    match op
    case Func1 => s.f1
    case Func2 => s.f2
    case Func3 => s.f3
    case Func4 => s.f4
  }

  /** The opcode the loader puts at step slot i; never the guard. */
  function PatternAt(i: nat): (r: Op)
    ensures r != Func4
  {
    if i % 17 == 0 then Func3
    else if i % 13 != 0 then Func2
    else Func1
  }

  /** The whole loaded program: the step pattern, then the guard at slot size. */
  function OpAt(size: nat, i: nat): (r: Op)
    ensures r == Func4 <==> i >= size
  {
    if i < size then PatternAt(i) else Func4
  }

  /** Number of step slots among 0 .. n-1 that the loader gives to op. */
  function Count(op: Op, n: nat): (c: nat)
    ensures c <= n
  {
    if n == 0 then 0
    else Count(op, n - 1) + (if PatternAt(n - 1) == op then 1 else 0)
  }

  /** The state while the trampoline still runs: `f4` guard checks have
      passed, the current pass has executed the slots 0 .. ip-1, and the
      reserved registers hold their initial values. */
  ghost predicate Running(s: State, size: nat, loops: nat)
  {
    0 <= s.ip <= size && 0 <= s.f4 <= loops &&
    s.sp == INITIAL_SP && s.flags == 0 &&
    s.f1 == Count(Func1, size) * s.f4 + Count(Func1, s.ip) &&
    s.f2 == Count(Func2, size) * s.f4 + Count(Func2, s.ip) &&
    s.f3 == Count(Func3, size) * s.f4 + Count(Func3, s.ip)
  }

  /** The state when the guard has returned: loops + 1 full passes. */
  ghost predicate Finished(s: State, size: nat, loops: nat)
  {
    s.ip == size && s.f4 == loops + 1 &&
    s.sp == INITIAL_SP && s.flags == 0 &&
    s.f1 == Count(Func1, size) * (loops + 1) &&
    s.f2 == Count(Func2, size) * (loops + 1) &&
    s.f3 == Count(Func3, size) * (loops + 1)
  }

  /** Every handler bumps exactly its own counter and leaves SP and FLAGS
      alone; the step handlers advance IP by one, the guard either keeps IP
      and returns or resets it to 0. */
  lemma HandleEffect(op: Op, s: State, loops: int)
    ensures var t := Handle(op, s, loops).state;
      t.sp == s.sp && t.flags == s.flags &&
      Counter(t, op) == Counter(s, op) + 1 &&
      (forall other :: other != op ==> Counter(t, other) == Counter(s, other))
    ensures op != Func4 ==>
      Handle(op, s, loops).TailCall? && Handle(op, s, loops).state.ip == s.ip + 1
    ensures op == Func4 ==>
      (Handle(op, s, loops).Return? <==> s.f4 + 1 > loops) &&
      Handle(op, s, loops).state.ip == (if s.f4 + 1 > loops then s.ip else 0)
  {
  }

  /** One dispatch from a running state of the loaded program either keeps
      the run going, with (f4, ip) lexicographically larger, or ends it in
      the finished state. */
  lemma HandleStep(s: State, size: nat, loops: nat)
    requires Running(s, size, loops)
    ensures match Handle(OpAt(size, s.ip), s, loops)
      case TailCall(t) => Running(t, size, loops) && (t.f4 > s.f4 || (t.f4 == s.f4 && t.ip > s.ip))
      case Return(t) => Finished(t, size, loops)
  {
    var c1, c2, c3 := Count(Func1, size), Count(Func2, size), Count(Func3, size);
    if s.ip < size {
      var i: nat := s.ip;
      assert Count(Func1, i + 1) == Count(Func1, i) + (if PatternAt(i) == Func1 then 1 else 0);
      assert Count(Func2, i + 1) == Count(Func2, i) + (if PatternAt(i) == Func2 then 1 else 0);
      assert Count(Func3, i + 1) == Count(Func3, i) + (if PatternAt(i) == Func3 then 1 else 0);
    } else {
      MulSucc(c1, s.f4);
      MulSucc(c2, s.f4);
      MulSucc(c3, s.f4);
    }
  }

  lemma MulSucc(a: int, n: int)
    ensures a * (n + 1) == a * n + a
    ensures (n + 1) * a == n * a + a
  {
  }

  /** The three step opcodes share out every slot of the step region. */
  lemma {:induction false} CountsPartition(n: nat)
    ensures Count(Func1, n) + Count(Func2, n) + Count(Func3, n) == n
    ensures Count(Func4, n) == 0
  {
    if n > 0 {
      CountsPartition(n - 1);
    }
  }

  /** The sum the program reports, f1 + f2 + f3 + f4, is (size + 1) * (loops + 1):
      every slot, guard included, runs once per pass. */
  lemma TotalInstructions(s: State, size: nat, loops: nat)
    requires Finished(s, size, loops)
    ensures s.f1 + s.f2 + s.f3 == size * (loops + 1)
    ensures s.f1 + s.f2 + s.f3 + s.f4 == (size + 1) * (loops + 1)
  {
    CountsPartition(size);
    var k := loops + 1;
    var c1, c2, c3 := Count(Func1, size), Count(Func2, size), Count(Func3, size);
    assert s.f1 + s.f2 + s.f3 == c1 * k + c2 * k + c3 * k;
    Distribute(c1, c2, c3, k);
    assert c1 + c2 + c3 == size;
    assert s.f1 + s.f2 + s.f3 == size * k;
    MulSucc(k, size);
    assert (size + 1) * k == size * k + k;
  }

  lemma Distribute(a: int, b: int, c: int, k: int)
    ensures a * k + b * k + c * k == (a + b + c) * k
  {
  }

  /** Slots of the form 17 * q: Func3 gets one slot in every 17. */
  lemma {:induction false} CountFunc3(n: nat)
    ensures Count(Func3, n) == (n + 16) / 17
  {
    if n > 0 {
      CountFunc3(n - 1);
    }
  }

  /** A multiple of 13 that is also a multiple of 17 is a multiple of 221. */
  lemma MultipleOf221(i: nat)
    requires i % 13 == 0 && i % 17 == 0
    ensures i % 221 == 0
  {
    var a := i / 13;
    var b, c := a / 17, a % 17;
    assert i == 221 * b + 13 * c;
    assert (13 * c) % 17 == 0;
  }

  /** A multiple of 221 is a multiple of both 13 and 17. */
  lemma FactorsOf221(i: nat)
    requires i % 221 == 0
    ensures i % 13 == 0 && i % 17 == 0
  {
    var q := i / 221;
    assert i == 13 * (17 * q);
    assert i == 17 * (13 * q);
  }

  /** Passing slot i adds one to the number of multiples of 13 (of 221)
      below the bound exactly when i is such a multiple. */
  lemma NextMultiple(i: nat)
    ensures (i + 13) / 13 == (i + 12) / 13 + (if i % 13 == 0 then 1 else 0)
    ensures (i + 221) / 221 == (i + 220) / 221 + (if i % 221 == 0 then 1 else 0)
  {
  }

  /** Func1 gets the multiples of 13 that are not multiples of 17, that is,
      the multiples of 13 less the multiples of 221. */
  lemma {:induction false} CountFunc1(n: nat)
    ensures Count(Func1, n) == (n + 12) / 13 - (n + 220) / 221
  {
    if n > 0 {
      var i := n - 1;
      CountFunc1(i);
      NextMultiple(i);
      var isFunc1 := i % 17 != 0 && i % 13 == 0;
      assert Count(Func1, n) == Count(Func1, i) + (if isFunc1 then 1 else 0);
      if i % 13 == 0 && i % 17 == 0 {
        MultipleOf221(i);
      }
      if i % 221 == 0 {
        FactorsOf221(i);
      }
      assert (if isFunc1 then 1 else 0) ==
        (if i % 13 == 0 then 1 else 0) - (if i % 221 == 0 then 1 else 0);
    }
  }

  /** The VM: the dispatch table OPARRAY, the register file and the counters. */
  class Machine {
    const table: array<Option<Op>>
    const pgmSize: nat
    const pgmLoops: nat
    var ip: int
    var sp: int
    var flags: int
    var f1: int
    var f2: int
    var f3: int
    var f4: int

    ghost predicate Valid()
    {
      table.Length == CAPACITY && pgmSize < CAPACITY
    }

    /** The table holds the loaded program in slots 0 .. pgmSize. */
    ghost predicate Loaded()
      requires Valid()
      reads table
    {
      forall i :: 0 <= i <= pgmSize ==> table[i] == Some(OpAt(pgmSize, i))
    }

    function Snapshot(): State
      reads this
    {
      State(ip, sp, flags, f1, f2, f3, f4)
    }

    /** Static initialisation of the globals: every slot empty, IP = 0,
        SP = 100004, FLAGS = 0 and all counters 0. */
    constructor (size: nat, loops: nat)
      requires size < CAPACITY
      ensures Valid() && fresh(table)
      ensures pgmSize == size && pgmLoops == loops
      ensures forall i :: 0 <= i < table.Length ==> table[i] == None
      ensures Snapshot() == State(0, INITIAL_SP, 0, 0, 0, 0, 0)
    {
      table := new Option<Op>[CAPACITY](_ => None);
      pgmSize, pgmLoops := size, loops;
      ip, sp, flags := 0, INITIAL_SP, 0;
      f1, f2, f3, f4 := 0, 0, 0, 0;
    }

    /** The loader loop of main: slots 0 .. pgmSize-1 get the mod-17 /
        mod-13 pattern, slot pgmSize gets the guard; no other slot changes. */
    method Load()
      requires Valid()
      modifies table
      ensures Loaded()
      ensures forall i :: pgmSize < i < table.Length ==> table[i] == old(table[i])
    {
      for i := 0 to pgmSize
        invariant forall j :: 0 <= j < i ==> table[j] == Some(PatternAt(j))
        invariant forall j :: pgmSize <= j < table.Length ==> table[j] == old(table[j])
      {
        if i % 17 == 0 {
          table[i] := Some(Func3);
        } else if i % 13 != 0 {
          table[i] := Some(Func2);
        } else {
          table[i] := Some(Func1);
        }
      }
      table[pgmSize] := Some(Func4);
    }

    /** One dispatch: run the handler in slot ip. The result says whether
        the handler returned instead of tail-calling. */
    method Step() returns (halted: bool)
      requires Valid() && 0 <= ip < table.Length && table[ip].Some?
      modifies this
      ensures halted == Handle(old(table[ip]).value, old(Snapshot()), pgmLoops).Return?
      ensures Snapshot() == Handle(old(table[ip]).value, old(Snapshot()), pgmLoops).state
    {
      var op := table[ip].value;
      halted := false;
      match op {
        case Func1 =>
          f1 := f1 + 1;
          ip := ip + 1;
        case Func2 =>
          f2 := f2 + 1;
          ip := ip + 1;
        case Func3 =>
          f3 := f3 + 1;
          ip := ip + 1;
        case Func4 =>
          f4 := f4 + 1;
          if f4 > pgmLoops {
            halted := true;
          } else {
            ip := 0;
          }
      }
    }

    /** The trampoline: dispatch slot after slot until a handler returns.
        Every dispatch is within the table and hits a loaded slot. */
    method Run()
      requires Valid() && Loaded() && Running(Snapshot(), pgmSize, pgmLoops)
      modifies this
      ensures Finished(Snapshot(), pgmSize, pgmLoops)
    {
      while true
        invariant Running(Snapshot(), pgmSize, pgmLoops)
        decreases pgmLoops + 1 - f4, pgmSize - ip
      {
        HandleStep(Snapshot(), pgmSize, pgmLoops);
        var halted := Step();
        if halted {
          return;
        }
      }
    }
  }

  /** main without the clock and the printing: build the VM, load the
      program, start at IP = 0, run, and sum the counters. */
  method RunProgram(size: nat, loops: nat) returns (final: State, executed: int)
    requires size < CAPACITY
    ensures final.ip == size && final.f4 == loops + 1
    ensures final.sp == INITIAL_SP && final.flags == 0
    ensures final.f1 == Count(Func1, size) * (loops + 1)
    ensures final.f2 == Count(Func2, size) * (loops + 1)
    ensures final.f3 == Count(Func3, size) * (loops + 1)
    ensures final.f1 + final.f2 + final.f3 == size * (loops + 1)
    ensures executed == (size + 1) * (loops + 1)
  {
    var m := new Machine(size, loops);
    m.Load();
    m.ip := 0;
    m.Run();
    final := m.Snapshot();
    executed := final.f1 + final.f2 + final.f3 + final.f4;
    TotalInstructions(final, size, loops);
  }

  /** The shipped configuration, 10000 slots and 100000 loops: the exact
      counter values the program prints, and a total below 2^31, so no int
      counter overflows. */
  method RunShipped() returns (final: State, executed: int)
    ensures final.ip == 10000 && final.f4 == 100001
    ensures final.f1 == 724 * 100001 && final.f2 == 8687 * 100001 && final.f3 == 589 * 100001
    ensures executed == 1000110001 && executed < 0x8000_0000
  {
    final, executed := RunProgram(PGM_SIZE, PGM_LOOPS);
    ShippedCounts();
  }

  /** How the 10000 step slots of the shipped program are shared out. */
  lemma ShippedCounts()
    ensures Count(Func1, PGM_SIZE) == 724
    ensures Count(Func2, PGM_SIZE) == 8687
    ensures Count(Func3, PGM_SIZE) == 589
  {
    CountFunc1(PGM_SIZE);
    CountFunc3(PGM_SIZE);
    CountsPartition(PGM_SIZE);
  }
}
