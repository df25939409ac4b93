/** What the first engine promises: every instruction moves the cursor
    forward past its operand words, so a run never revisits an address; ADD
    reads by position whatever its modes; MULT honours immediate mode; the
    unknown codes, the jumps among them, throw; and no run ends with an exit
    code. */
module Save1Laws {
  import opened JsText
  import opened JsArray
  import opened Runtime
  import opened Decoder
  import Intcomp
  import opened Save1
  import IntcompLaws

  /** The instruction laws below are stated on the operands as read. */
  ghost predicate Reads(s: State, op: Com, args: seq<int>) {
    && |op.modes| == 4
    && ArgsNumber(op.code) == Some(|args|)
    && forall i :: 0 <= i < |args| ==> Lookup(s.memory, s.cursor + i) == Some(args[i])
  }

  lemma DispatchInstruction<E>(op: Com, at: int, s: State, env: E, ports: Ports<E>, args: seq<int>)
    requires Reads(s, op, args)
    ensures Dispatch(op, at, s, env, ports) == Execute(op, args, State(s.memory, s.cursor + |args|), env, ports)
  {
    var words := Intcomp.Words(s.memory, s.cursor, |args|);
    var r := Intcomp.Operands(words);
    assert forall i :: 0 <= i < |args| ==> words[i] == Some(args[i]);
    assert r.Some?;
    assert r.value == args;
  }

  // ---------------------------------------------------------------------
  // The cursor

  /** An instruction that lets the run go on leaves the cursor exactly past
      its operand words; one that stops leaves it no further back. */
  lemma DispatchCursor<E>(op: Com, at: int, s: State, env: E, ports: Ports<E>)
    requires |op.modes| == 4
    ensures var r := Dispatch(op, at, s, env, ports);
      r.Next? ==> ArgsNumber(op.code).Some? && r.state.cursor == s.cursor + ArgsNumber(op.code).value
    ensures Dispatch(op, at, s, env, ports).state.cursor >= s.cursor
  {
  }

  /** Each turn that goes on moves the cursor forward by one plus the
      number of operands of the command it decoded. */
  lemma StepAdvances<E>(s: State, env: E, ports: Ports<E>)
    ensures var r := Step(s, env, ports);
      r.Next? ==>
        && Lookup(s.memory, s.cursor).Some?
        && ArgsNumber(Decode(Lookup(s.memory, s.cursor).value).code).Some?
        && r.state.cursor == s.cursor + 1 + ArgsNumber(Decode(Lookup(s.memory, s.cursor).value).code).value
    ensures Step(s, env, ports).state.cursor >= s.cursor
  {
    match Lookup(s.memory, s.cursor)
    case None =>
    case Some(w) =>
      StepDecodes(s, env, ports, w);
      DispatchCursor(Layout(Decode(w)), s.cursor, State(s.memory, s.cursor + 1), env, ports);
  }

  /** The cursor never moves back: a run ends at or after the address it
      started from. */
  lemma {:induction false} RunCursorGrows<E>(s: State, env: E, ports: Ports<E>, fuel: nat)
    ensures Evaluate(s, env, ports, fuel).state.cursor >= s.cursor
    decreases fuel
  {
    if fuel > 0 {
      var first := Step(s, env, ports);
      EvaluateStep(s, env, ports, fuel, first);
      StepAdvances(s, env, ports);
      if first.Next? {
        RunCursorGrows(first.state, first.env, ports, fuel - 1);
      }
    }
  }

  /** Nothing in this engine exits with a code: a run halts, throws or is
      still going. */
  lemma StepNeverExits<E>(s: State, env: E, ports: Ports<E>)
    ensures var r := Step(s, env, ports); r.Stop? ==> !r.outcome.Exit? && !r.outcome.OutOfFuel?
  {
    match Lookup(s.memory, s.cursor)
    case None =>
    case Some(w) => StepDecodes(s, env, ports, w);
  }

  lemma {:induction false} RunNeverExits<E>(s: State, env: E, ports: Ports<E>, fuel: nat)
    ensures !Evaluate(s, env, ports, fuel).outcome.Exit?
    decreases fuel
  {
    if fuel > 0 {
      var first := Step(s, env, ports);
      EvaluateStep(s, env, ports, fuel, first);
      StepNeverExits(s, env, ports);
      if first.Next? {
        RunNeverExits(first.state, first.env, ports, fuel - 1);
      }
    }
  }

  // ---------------------------------------------------------------------
  // The commands

  /** ADD stores memory[a] + memory[b] at c, reading by position whatever
      the modes say. */
  lemma ExecuteAdd<E>(modes: seq<Option<Number>>, args: seq<int>, s: State, env: E, ports: Ports<E>, a: int, b: int)
    requires |modes| == 4 && |args| == 3
    requires Lookup(s.memory, args[0]) == Some(a) && Lookup(s.memory, args[1]) == Some(b)
    ensures Execute(Com(Num(ADD), modes), args, s, env, ports) ==
      Next(State(Store(s.memory, args[2], a + b), s.cursor), env, [])
  {
  }

  /** The modes of an ADD make no difference at all. */
  lemma AddIgnoresModes<E>(m1: seq<Option<Number>>, m2: seq<Option<Number>>, args: seq<int>, s: State, env: E, ports: Ports<E>)
    requires |m1| == 4 && |m2| == 4 && |args| == 3
    ensures Execute(Com(Num(ADD), m1), args, s, env, ports) == Execute(Com(Num(ADD), m2), args, s, env, ports)
  {
  }

  /** An ADD operand address with nothing stored throws. */
  lemma ExecuteAddUndefined<E>(op: Com, args: seq<int>, s: State, env: E, ports: Ports<E>)
    requires |op.modes| == 4 && op.code == Num(ADD) && |args| == 3
    requires Lookup(s.memory, args[0]).None? || Lookup(s.memory, args[1]).None?
    ensures Execute(op, args, s, env, ports).Stop?
    ensures Execute(op, args, s, env, ports).outcome ==
      Thrown(UndefinedValue(if Lookup(s.memory, args[0]).None? then args[0] else args[1]))
  {
  }

  /** MULT takes its first operand as it is when slot 1 of the modes holds
      1, its second when slot 2 does, and from memory otherwise, and stores
      the product at its third operand. */
  lemma ExecuteMult<E>(op: Com, args: seq<int>, s: State, env: E, ports: Ports<E>, a: int, b: int)
    requires |op.modes| == 4 && op.code == Num(MULT) && |args| == 3
    requires (if op.modes[1] == Some(Num(1)) then Some(args[0]) else Lookup(s.memory, args[0])) == Some(a)
    requires (if op.modes[2] == Some(Num(1)) then Some(args[1]) else Lookup(s.memory, args[1])) == Some(b)
    ensures Execute(op, args, s, env, ports) == Next(State(Store(s.memory, args[2], a * b), s.cursor), env, [])
  {
  }

  /** INP stores what the input callback returns at its operand; a failing
      callback throws. */
  lemma ExecuteInput<E>(op: Com, args: seq<int>, s: State, env: E, ports: Ports<E>)
    requires |op.modes| == 4 && op.code == Num(INP) && |args| == 1
    ensures ports.input(env).Ok? ==>
      Execute(op, args, s, env, ports) ==
        Next(State(Store(s.memory, args[0], ports.input(env).value.0), s.cursor),
             ports.input(env).value.1, [In(ports.input(env).value.0)])
    ensures ports.input(env).Fail? ==>
      Execute(op, args, s, env, ports) == Stop(Thrown(CallbackFailed(ports.input(env).reason)), s, env, [])
  {
  }

  /** OUT hands memory[pos] to the output callback, whatever the mode. */
  lemma ExecuteOutput<E>(op: Com, args: seq<int>, s: State, env: E, ports: Ports<E>, v: int)
    requires |op.modes| == 4 && op.code == Num(OUT) && |args| == 1
    requires Lookup(s.memory, args[0]) == Some(v)
    ensures ports.output(env, v).Ok? ==> Execute(op, args, s, env, ports) == Next(s, ports.output(env, v).value, [Out(v)])
    ensures ports.output(env, v).Fail? ==>
      Execute(op, args, s, env, ports) == Stop(Thrown(CallbackFailed(ports.output(env, v).reason)), s, env, [Out(v)])
  {
  }

  /** HALT returns the snapshot of memory. */
  lemma ExecuteHalt<E>(op: Com, s: State, env: E, ports: Ports<E>)
    requires |op.modes| == 4 && op.code == Num(HALT)
    ensures Execute(op, [], s, env, ports) == Stop(Halted(Snapshot(s.memory)), s, env, [])
  {
  }

  /** Any other code, the jumps and comparisons of the later engine
      included, throws "Unknown command" before reading an operand. */
  lemma DispatchUnknown<E>(op: Com, at: int, s: State, env: E, ports: Ports<E>)
    requires |op.modes| == 4 && op.code !in {Num(HALT), Num(ADD), Num(MULT), Num(INP), Num(OUT)}
    ensures Dispatch(op, at, s, env, ports) == Stop(Thrown(UnknownCommand(op.code)), s, env, [])
  {
  }

  lemma LaterCodesUnknown(code: int)
    requires 5 <= code <= 8
    ensures ArgsNumber(Num(code)).None? && Intcomp.ArgsNumber(Num(code)).Some?
  {
  }

  // ---------------------------------------------------------------------
  // Agreement with the later engine

  /** On instructions whose modes are all 0 and whose reads are defined,
      the two engines' commands 1 to 4 and 99 do the same thing. */
  lemma AgreesWithIntcomp<E>(code: int, args: seq<int>, s: State, env: E, ports: Ports<E>)
    requires code in {HALT, ADD, MULT, INP, OUT}
    requires ArgsNumber(Num(code)) == Some(|args|)
    requires code in {ADD, MULT} ==> Lookup(s.memory, args[0]).Some? && Lookup(s.memory, args[1]).Some?
    requires code == OUT ==> Lookup(s.memory, args[0]).Some?
    ensures Intcomp.ArgsNumber(Num(code)) == Some(|args|)
    ensures Execute(Layout(Op(Num(code), [Num(0), Num(0), Num(0)])), args, s, env, ports) ==
      Intcomp.Execute(Op(Num(code), [Num(0), Num(0), Num(0)]), args, s, env, ports)
  {
  }

  // ---------------------------------------------------------------------
  // run

  /** The program runs on a copy of the memory the transform returns. */
  lemma RunTransformed<E>(text: string, f: Memory -> Memory, input: Option<E -> Reply<(int, E)>>,
                          output: Option<(E, int) -> Reply<E>>, env: E, fuel: nat, xs: seq<int>)
    requires |xs| >= 1 && text == Intcomp.Source(xs)
    ensures RunText(text, Intcomp.Options(Some(f), input, output), env, fuel) ==
      Some(Evaluate(State(Slice(f(FromSeq(xs))), 0), env, Wire(input, output), fuel))
  {
    IntcompLaws.CompileSource(xs);
  }

  /** With no callback given, INP and OUT throw. */
  lemma Unwired<E>(env: E, v: int)
    ensures Wire<E>(None, None).input(env) == Fail("program.input is not a function")
    ensures Wire<E>(None, None).output(env, v) == Fail("program.output is not a function")
  {
  }

  // ---------------------------------------------------------------------
  // Runs

  /** An ADD seen from the whole run. */
  lemma RunAdd<E>(s: State, env: E, ports: Ports<E>, fuel: nat, w: int, args: seq<int>, a: int, b: int)
    requires fuel > 0 && Lookup(s.memory, s.cursor) == Some(w) && Decode(w).code == Num(ADD)
    requires Reads(State(s.memory, s.cursor + 1), Layout(Decode(w)), args)
    requires Lookup(s.memory, args[0]) == Some(a) && Lookup(s.memory, args[1]) == Some(b)
    ensures Evaluate(s, env, ports, fuel) ==
      Evaluate(State(Store(s.memory, args[2], a + b), s.cursor + 4), env, ports, fuel - 1)
  {
    var next := State(Store(s.memory, args[2], a + b), s.cursor + 4);
    StepDecodes(s, env, ports, w);
    DispatchInstruction(Layout(Decode(w)), s.cursor, State(s.memory, s.cursor + 1), env, ports, args);
    ExecuteAdd(Layout(Decode(w)).modes, args, State(s.memory, s.cursor + 4), env, ports, a, b);
    EvaluateStep(s, env, ports, fuel, Next(next, env, []));
    Intcomp.AfterNothing(Evaluate(next, env, ports, fuel - 1));
  }

  /** A HALT seen from the whole run. */
  lemma RunHalt<E>(s: State, env: E, ports: Ports<E>, fuel: nat, w: int)
    requires fuel > 0 && Lookup(s.memory, s.cursor) == Some(w) && Decode(w).code == Num(HALT)
    ensures Evaluate(s, env, ports, fuel) ==
      Final(Halted(Snapshot(s.memory)), State(s.memory, s.cursor + 1), env, [])
  {
    StepDecodes(s, env, ports, w);
    DispatchInstruction(Layout(Decode(w)), s.cursor, State(s.memory, s.cursor + 1), env, ports, []);
    EvaluateStep(s, env, ports, fuel, Step(s, env, ports));
  }

  /** 1101,2,3,0,99: this engine adds memory[2] and memory[3], giving 3; the
      later engine honours the immediate modes and adds 2 and 3. */
  lemma ImmediateAddDiffers<E>(xs: seq<int>, here: seq<int>, later: seq<int>, env: E, ports: Ports<E>)
    requires xs == [1101, 2, 3, 0, 99]
    requires here == [3, 2, 3, 0, 99] && later == [5, 2, 3, 0, 99]
    ensures Evaluate(State(FromSeq(xs), 0), env, ports, 2).outcome == Halted(Dense(here))
    ensures Intcomp.Evaluate(State(FromSeq(xs), 0), env, ports, 2).outcome == Halted(Dense(later))
    ensures here != later
  {
    ImmediateAddHere(xs, here, env, ports);
    ImmediateAddLater(xs, later, env, ports);
  }

  lemma ImmediateAddHere<E>(xs: seq<int>, ys: seq<int>, env: E, ports: Ports<E>)
    requires xs == [1101, 2, 3, 0, 99] && ys == [3, 2, 3, 0, 99]
    ensures Evaluate(State(FromSeq(xs), 0), env, ports, 2).outcome == Halted(Dense(ys))
  {
    ImmediateAddCodes();
    ImmediateAddHereMemory(xs, ys);
    HaltFacts(ys);
    RunAdd(State(FromSeq(xs), 0), env, ports, 2, 1101, [2, 3, 0], 3, 0);
    RunHalt(State(FromSeq(ys), 4), env, ports, 1, 99);
  }

  lemma ImmediateAddCodes()
    ensures Decode(1101).code == Num(ADD) && Decode(99).code == Num(HALT)
    ensures Decode(1101).modes[0] == Num(1) && Decode(1101).modes[1] == Num(1)
  {
  }

  lemma HaltFacts(ys: seq<int>)
    requires |ys| == 5 && ys[4] == 99
    ensures Lookup(FromSeq(ys), 4) == Some(99) && Snapshot(FromSeq(ys)) == Dense(ys)
  {
    SnapshotFromSeq(ys);
  }

  lemma ImmediateAddHereMemory(xs: seq<int>, ys: seq<int>)
    requires xs == [1101, 2, 3, 0, 99] && ys == [3, 2, 3, 0, 99]
    ensures var m := FromSeq(xs);
      && Lookup(m, 0) == Some(1101) && Reads(State(m, 1), Layout(Decode(1101)), [2, 3, 0])
      && Lookup(m, 2) == Some(3) && Lookup(m, 3) == Some(0)
      && Store(m, 0, 3 + 0) == FromSeq(ys)
  {
    StoreFromSeq(xs, 0, 3);
    assert xs[0 := 3] == ys;
  }

  lemma ImmediateAddLater<E>(xs: seq<int>, ys: seq<int>, env: E, ports: Ports<E>)
    requires xs == [1101, 2, 3, 0, 99] && ys == [5, 2, 3, 0, 99]
    ensures Intcomp.Evaluate(State(FromSeq(xs), 0), env, ports, 2).outcome == Halted(Dense(ys))
  {
    ImmediateAddCodes();
    ImmediateAddLaterMemory(xs, ys);
    HaltFacts(ys);
    IntcompLaws.RunCompute(State(FromSeq(xs), 0), env, ports, 2, 1101, [2, 3, 0], 2, 3);
    IntcompLaws.RunHalt(State(FromSeq(ys), 4), env, ports, 99, 1);
  }

  lemma ImmediateAddLaterMemory(xs: seq<int>, ys: seq<int>)
    requires xs == [1101, 2, 3, 0, 99] && ys == [5, 2, 3, 0, 99]
    ensures var m := FromSeq(xs);
      && Lookup(m, 0) == Some(1101) && IntcompLaws.Reads(State(m, 1), Decode(1101), [2, 3, 0])
      && Intcomp.DerefValue(m, Decode(1101).modes[0], 2) == Intcomp.Value(2)
      && Intcomp.DerefValue(m, Decode(1101).modes[1], 3) == Intcomp.Value(3)
      && Store(m, 0, Intcomp.Compute(Decode(1101).code, 2, 3)) == FromSeq(ys)
  {
    ImmediateAddCodes();
    StoreFromSeq(xs, 0, 5);
    assert xs[0 := 5] == ys;
  }
}
