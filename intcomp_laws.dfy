/** What one instruction of the engine does, command by command, and what a
    whole run does: the cursor moves past exactly the operand words unless
    a jump is taken, only the destination cell is written, the destination's
    mode is never consulted, comparisons store a bit, HALT returns the
    snapshot, an unknown code throws, and more fuel never changes a run that
    has ended. */
module IntcompLaws {
  import opened JsText
  import opened JsArray
  import opened Runtime
  import opened Decoder
  import opened Intcomp

  /** The |args| words from the cursor on are defined and are the operand
      words of `op`, as many as its command takes. */
  ghost predicate Reads(s: State, op: Op, args: seq<int>) {
    && |op.modes| == 3
    && ArgsNumber(op.code) == Some(|args|)
    && forall i :: 0 <= i < |args| ==> Lookup(s.memory, s.cursor + i) == Some(args[i])
  }

  /** A turn reads the word under the cursor, moving the cursor past it, and
      goes on with its decoding. */
  lemma StepDecodes<E>(s: State, env: E, ports: Ports<E>, w: int)
    requires Lookup(s.memory, s.cursor) == Some(w)
    ensures Step(s, env, ports) == Dispatch(Decode(w), s.cursor, State(s.memory, s.cursor + 1), env, ports)
  {
  }

  /** An undefined word under the cursor cannot be decoded: the run throws. */
  lemma StepNoWord<E>(s: State, env: E, ports: Ports<E>)
    requires Lookup(s.memory, s.cursor).None?
    ensures Step(s, env, ports) == Stop(Thrown(NotAnOpcode(s.cursor)), State(s.memory, s.cursor + 1), env, [])
  {
  }

  /** With all its operand words defined, a command reads them and runs its
      exec function on the state past them. */
  lemma DispatchInstruction<E>(op: Op, at: int, s: State, env: E, ports: Ports<E>, args: seq<int>)
    requires Reads(s, op, args)
    ensures Dispatch(op, at, s, env, ports) == Execute(op, args, State(s.memory, s.cursor + |args|), env, ports)
  {
    var words := Words(s.memory, s.cursor, |args|);
    var r := Operands(words);
    assert forall i :: 0 <= i < |args| ==> words[i] == Some(args[i]);
    assert r.Some?;
    assert r.value == args;
  }

  /** ADD, MULT, LESS_THAN and EQUALS write the computed value at the
      address given by the third operand word and fall through to the next
      instruction. */
  lemma DispatchCompute<E>(op: Op, at: int, s: State, env: E, ports: Ports<E>, args: seq<int>, a: int, b: int)
    requires Reads(s, op, args) && op.code in {Num(ADD), Num(MULT), Num(LESS_THAN), Num(EQUALS)}
    requires DerefValue(s.memory, op.modes[0], args[0]) == Value(a)
    requires DerefValue(s.memory, op.modes[1], args[1]) == Value(b)
    ensures Dispatch(op, at, s, env, ports) ==
      Next(State(Store(s.memory, args[2], Compute(op.code, a, b)), s.cursor + 3), env, [])
  {
    DispatchInstruction(op, at, s, env, ports, args);
  }

  /** The values the four computing commands write; the comparisons write
      exactly 1 or 0. */
  lemma ComputeMeaning(code: Number, a: int, b: int)
    ensures code == Num(ADD) ==> Compute(code, a, b) == a + b
    ensures code == Num(MULT) ==> Compute(code, a, b) == a * b
    ensures code == Num(LESS_THAN) ==> (Compute(code, a, b) == 1 <==> a < b)
    ensures code == Num(EQUALS) ==> (Compute(code, a, b) == 1 <==> a == b)
    ensures code in {Num(LESS_THAN), Num(EQUALS)} ==> Compute(code, a, b) in {0, 1}
  {
  }

  /** JUMP_IF moves the cursor to the second operand exactly when the first
      is not 0, JUMP_IFNOT exactly when it is 0; otherwise the run falls
      through to the next instruction. Nothing is written. */
  lemma DispatchJump<E>(op: Op, at: int, s: State, env: E, ports: Ports<E>, args: seq<int>, a: int, b: int)
    requires Reads(s, op, args) && op.code in {Num(JUMP_IF), Num(JUMP_IFNOT)}
    requires DerefValue(s.memory, op.modes[0], args[0]) == Value(a)
    requires DerefValue(s.memory, op.modes[1], args[1]) == Value(b)
    ensures var taken := if op.code == Num(JUMP_IF) then a != 0 else a == 0;
      Dispatch(op, at, s, env, ports) == Next(State(s.memory, if taken then b else s.cursor + 2), env, [])
  {
    DispatchInstruction(op, at, s, env, ports, args);
  }

  /** INP stores what the input callback returns at the address of its
      operand word, whatever that operand's mode; a failing callback ends the
      run with its error. */
  lemma DispatchInput<E>(op: Op, at: int, s: State, env: E, ports: Ports<E>, args: seq<int>)
    requires Reads(s, op, args) && op.code == Num(INP)
    ensures ports.input(env).Ok? ==>
      Dispatch(op, at, s, env, ports) ==
        Next(State(Store(s.memory, args[0], ports.input(env).value.0), s.cursor + 1),
             ports.input(env).value.1, [In(ports.input(env).value.0)])
    ensures ports.input(env).Fail? ==>
      Dispatch(op, at, s, env, ports) ==
        Stop(Thrown(CallbackFailed(ports.input(env).reason)), State(s.memory, s.cursor + 1), env, [])
  {
    DispatchInstruction(op, at, s, env, ports, args);
  }

  /** OUT hands its resolved operand to the output callback and changes no
      cell; the value counts as output even when the callback throws. */
  lemma DispatchOutput<E>(op: Op, at: int, s: State, env: E, ports: Ports<E>, args: seq<int>, v: int)
    requires Reads(s, op, args) && op.code == Num(OUT)
    requires DerefValue(s.memory, op.modes[0], args[0]) == Value(v)
    ensures ports.output(env, v).Ok? ==>
      Dispatch(op, at, s, env, ports) == Next(State(s.memory, s.cursor + 1), ports.output(env, v).value, [Out(v)])
    ensures ports.output(env, v).Fail? ==>
      Dispatch(op, at, s, env, ports) ==
        Stop(Thrown(CallbackFailed(ports.output(env, v).reason)), State(s.memory, s.cursor + 1), env, [Out(v)])
  {
    DispatchInstruction(op, at, s, env, ports, args);
  }

  /** A first read operand that cannot be resolved ends the run: an unset
      cell throws, a mode other than 0 and 1 exits with code 2. */
  lemma DispatchAbort<E>(op: Op, at: int, s: State, env: E, ports: Ports<E>, args: seq<int>)
    requires Reads(s, op, args) && op.code !in {Num(HALT), Num(INP)}
    requires DerefValue(s.memory, op.modes[0], args[0]).Abort?
    ensures Dispatch(op, at, s, env, ports).Stop?
    ensures Dispatch(op, at, s, env, ports).outcome ==
      if op.modes[0] == Num(POSITIONAL) then Thrown(FailedToRead(args[0])) else Exit(2)
  {
    DispatchInstruction(op, at, s, env, ports, args);
  }

  /** A command with two read operands resolves the second one even when
      the first is resolved and a jump would not be taken; when the second
      cannot be resolved the run ends the same way. */
  lemma DispatchSecondAbort<E>(op: Op, at: int, s: State, env: E, ports: Ports<E>, args: seq<int>)
    requires Reads(s, op, args)
    requires op.code in {Num(ADD), Num(MULT), Num(JUMP_IF), Num(JUMP_IFNOT), Num(LESS_THAN), Num(EQUALS)}
    requires DerefValue(s.memory, op.modes[0], args[0]).Value?
    requires DerefValue(s.memory, op.modes[1], args[1]).Abort?
    ensures Dispatch(op, at, s, env, ports).Stop?
    ensures Dispatch(op, at, s, env, ports).outcome ==
      if op.modes[1] == Num(POSITIONAL) then Thrown(FailedToRead(args[1])) else Exit(2)
  {
    DispatchInstruction(op, at, s, env, ports, args);
  }

  /** HALT ends the run with a snapshot of the memory. */
  lemma DispatchHalt<E>(op: Op, at: int, s: State, env: E, ports: Ports<E>)
    requires |op.modes| == 3 && op.code == Num(HALT)
    ensures Dispatch(op, at, s, env, ports) == Stop(Halted(Snapshot(s.memory)), s, env, [])
  {
    DispatchInstruction(op, at, s, env, ports, []);
  }

  /** A code with no command ends the run with "Unknown command", before
      any operand word is read. */
  lemma DispatchUnknown<E>(op: Op, at: int, s: State, env: E, ports: Ports<E>)
    requires |op.modes| == 3 && ArgsNumber(op.code).None?
    ensures Dispatch(op, at, s, env, ports) == Stop(Thrown(UnknownCommand(op.code)), s, env, [])
  {
  }

  /** A command goes on with the cursor just past its operand words unless
      it is a jump; when it stops, the cursor is past them too. */
  lemma DispatchCursor<E>(op: Op, at: int, s: State, env: E, ports: Ports<E>, args: seq<int>)
    requires Reads(s, op, args)
    ensures Dispatch(op, at, s, env, ports).state.cursor == s.cursor + |args| ||
            (Dispatch(op, at, s, env, ports).Next? && op.code in {Num(JUMP_IF), Num(JUMP_IFNOT)})
  {
    DispatchInstruction(op, at, s, env, ports, args);
  }

  /** A command writes no cell other than its destination (the last operand
      word of INP, ADD, MULT, LESS_THAN and EQUALS); every other command
      leaves the memory as it was. */
  lemma DispatchFrame<E>(op: Op, at: int, s: State, env: E, ports: Ports<E>, args: seq<int>)
    requires Reads(s, op, args)
    ensures op.code in {Num(INP), Num(ADD), Num(MULT), Num(LESS_THAN), Num(EQUALS)} ==>
      forall k :: k != args[|args| - 1] ==> Lookup(Dispatch(op, at, s, env, ports).state.memory, k) == Lookup(s.memory, k)
    ensures op.code in {Num(HALT), Num(OUT), Num(JUMP_IF), Num(JUMP_IFNOT)} ==>
      Dispatch(op, at, s, env, ports).state.memory == s.memory
  {
    DispatchInstruction(op, at, s, env, ports, args);
  }

  /** The mode digit of a destination operand is never consulted: changing
      it changes nothing in what the command does. */
  lemma DestinationModeIgnored<E>(op: Op, m: Number, args: seq<int>, s: State, env: E, ports: Ports<E>)
    requires |op.modes| == 3 && ArgsNumber(op.code) == Some(|args|)
    ensures op.code in {Num(ADD), Num(MULT), Num(LESS_THAN), Num(EQUALS)} ==>
      Execute(op.(modes := op.modes[2 := m]), args, s, env, ports) == Execute(op, args, s, env, ports)
    ensures op.code == Num(INP) ==>
      Execute(op.(modes := op.modes[0 := m]), args, s, env, ports) == Execute(op, args, s, env, ports)
  {
  }

  // ---------------------------------------------------------------------
  // Runs

  /** A run that ended within `fuel` steps ends the same way with any
      larger budget: the fuel only stands for "not yet". */
  lemma {:induction false} RunMoreFuel<E>(s: State, env: E, ports: Ports<E>, fuel: nat, more: nat)
    requires Evaluate(s, env, ports, fuel).outcome != OutOfFuel
    requires fuel <= more
    ensures Evaluate(s, env, ports, more) == Evaluate(s, env, ports, fuel)
    decreases fuel
  {
    var first := FirstStep(s, env, ports);
    if first.Next? {
      RunMoreFuel(first.state, first.env, ports, fuel - 1, more - 1);
    }
  }

  /** The run from a HALT word stops at once with the snapshot. */
  lemma RunHalt<E>(s: State, env: E, ports: Ports<E>, w: int, fuel: nat)
    requires fuel > 0 && Lookup(s.memory, s.cursor) == Some(w) && Decode(w).code == Num(HALT)
    ensures Evaluate(s, env, ports, fuel) ==
      Final(Halted(Snapshot(s.memory)), State(s.memory, s.cursor + 1), env, [])
  {
    var op := Decode(w);
    StepDecodes(s, env, ports, w);
    DispatchHalt(op, s.cursor, State(s.memory, s.cursor + 1), env, ports);
    EvaluateStep(s, env, ports, fuel, Step(s, env, ports));
  }

  /** The run from a word with no command throws "Unknown command", which
      the loop does not catch. */
  lemma RunUnknown<E>(s: State, env: E, ports: Ports<E>, w: int, fuel: nat)
    requires fuel > 0 && Lookup(s.memory, s.cursor) == Some(w) && ArgsNumber(Decode(w).code).None?
    ensures Evaluate(s, env, ports, fuel).outcome == Thrown(UnknownCommand(Decode(w).code))
  {
    var op := Decode(w);
    StepDecodes(s, env, ports, w);
    DispatchUnknown(op, s.cursor, State(s.memory, s.cursor + 1), env, ports);
    EvaluateStep(s, env, ports, fuel, Step(s, env, ports));
  }

  /** A computing instruction, seen from the whole run: the rest of the run
      starts from the memory with the result written and the cursor past
      the instruction. */
  lemma RunCompute<E>(s: State, env: E, ports: Ports<E>, fuel: nat, w: int, args: seq<int>, a: int, b: int)
    requires fuel > 0 && Lookup(s.memory, s.cursor) == Some(w)
    requires Reads(State(s.memory, s.cursor + 1), Decode(w), args)
    requires Decode(w).code in {Num(ADD), Num(MULT), Num(LESS_THAN), Num(EQUALS)}
    requires DerefValue(s.memory, Decode(w).modes[0], args[0]) == Value(a)
    requires DerefValue(s.memory, Decode(w).modes[1], args[1]) == Value(b)
    ensures Evaluate(s, env, ports, fuel) ==
      Evaluate(State(Store(s.memory, args[2], Compute(Decode(w).code, a, b)), s.cursor + 4), env, ports, fuel - 1)
  {
    var next := State(Store(s.memory, args[2], Compute(Decode(w).code, a, b)), s.cursor + 4);
    StepDecodes(s, env, ports, w);
    DispatchCompute(Decode(w), s.cursor, State(s.memory, s.cursor + 1), env, ports, args, a, b);
    EvaluateStep(s, env, ports, fuel, Next(next, env, []));
    AfterNothing(Evaluate(next, env, ports, fuel - 1));
  }

  /** A jump instruction, seen from the whole run. */
  lemma RunJump<E>(s: State, env: E, ports: Ports<E>, fuel: nat, w: int, args: seq<int>, a: int, b: int)
    requires fuel > 0 && Lookup(s.memory, s.cursor) == Some(w)
    requires Reads(State(s.memory, s.cursor + 1), Decode(w), args)
    requires Decode(w).code in {Num(JUMP_IF), Num(JUMP_IFNOT)}
    requires DerefValue(s.memory, Decode(w).modes[0], args[0]) == Value(a)
    requires DerefValue(s.memory, Decode(w).modes[1], args[1]) == Value(b)
    ensures var taken := if Decode(w).code == Num(JUMP_IF) then a != 0 else a == 0;
      Evaluate(s, env, ports, fuel) ==
        Evaluate(State(s.memory, if taken then b else s.cursor + 3), env, ports, fuel - 1)
  {
    var taken := if Decode(w).code == Num(JUMP_IF) then a != 0 else a == 0;
    var next := State(s.memory, if taken then b else s.cursor + 3);
    StepDecodes(s, env, ports, w);
    DispatchJump(Decode(w), s.cursor, State(s.memory, s.cursor + 1), env, ports, args, a, b);
    EvaluateStep(s, env, ports, fuel, Next(next, env, []));
    AfterNothing(Evaluate(next, env, ports, fuel - 1));
  }

  /** An input instruction whose callback returns `v`, seen from the whole
      run: `v` crosses the callback and is stored. */
  lemma RunInput<E>(s: State, env: E, ports: Ports<E>, fuel: nat, w: int, args: seq<int>, v: int, env': E)
    requires fuel > 0 && Lookup(s.memory, s.cursor) == Some(w)
    requires Reads(State(s.memory, s.cursor + 1), Decode(w), args) && Decode(w).code == Num(INP)
    requires ports.input(env) == Ok((v, env'))
    ensures Evaluate(s, env, ports, fuel) ==
      After([In(v)], Evaluate(State(Store(s.memory, args[0], v), s.cursor + 2), env', ports, fuel - 1))
  {
    StepDecodes(s, env, ports, w);
    DispatchInput(Decode(w), s.cursor, State(s.memory, s.cursor + 1), env, ports, args);
    EvaluateStep(s, env, ports, fuel, Next(State(Store(s.memory, args[0], v), s.cursor + 2), env', [In(v)]));
  }

  /** An output instruction whose callback accepts `v`, seen from the whole
      run. */
  lemma RunOutput<E>(s: State, env: E, ports: Ports<E>, fuel: nat, w: int, args: seq<int>, v: int, env': E)
    requires fuel > 0 && Lookup(s.memory, s.cursor) == Some(w)
    requires Reads(State(s.memory, s.cursor + 1), Decode(w), args) && Decode(w).code == Num(OUT)
    requires DerefValue(s.memory, Decode(w).modes[0], args[0]) == Value(v)
    requires ports.output(env, v) == Ok(env')
    ensures Evaluate(s, env, ports, fuel) ==
      After([Out(v)], Evaluate(State(s.memory, s.cursor + 2), env', ports, fuel - 1))
  {
    StepDecodes(s, env, ports, w);
    DispatchOutput(Decode(w), s.cursor, State(s.memory, s.cursor + 1), env, ports, args, v);
    EvaluateStep(s, env, ports, fuel, Next(State(s.memory, s.cursor + 2), env', [Out(v)]));
  }

  // ---------------------------------------------------------------------
  // compile

  lemma {:induction false} ParseFieldsOfTexts(xs: seq<int>)
    ensures ParseFields(seq(|xs|, i requires 0 <= i < |xs| => IntToString(xs[i]))) == Some(xs)
    decreases |xs|
  {
    var fields := seq(|xs|, i requires 0 <= i < |xs| => IntToString(xs[i]));
    if xs != [] {
      ParseIntOfIntToString(xs[0]);
      ParseFieldsOfTexts(xs[1..]);
      assert fields[1..] == seq(|xs[1..]|, i requires 0 <= i < |xs[1..]| => IntToString(xs[1..][i]));
      assert [xs[0]] + xs[1..] == xs;
    }
  }

  /** Compiling the text of a program, its numbers joined by commas, gives
      the array of those numbers. */
  lemma CompileSource(xs: seq<int>)
    requires |xs| >= 1
    ensures Compile(Source(xs)) == Some(FromSeq(xs))
  {
    var fields := seq(|xs|, i requires 0 <= i < |xs| => IntToString(xs[i]));
    forall i | 0 <= i < |fields|
      ensures ',' !in fields[i]
    {
      IntTextAvoids(xs[i], ',');
    }
    SplitJoin(fields, ',');
    ParseFieldsOfTexts(xs);
  }

  // ---------------------------------------------------------------------
  // The callbacks' environment

  /** What one command does to the callbacks' environment: a command that
      ends the run leaves it as it was (its only crossing is a value the
      output callback refused); one that goes on either crosses nothing and
      leaves it, or got it back from the input callback with the value it
      received, or from the output callback with the value it passed. */
  lemma ExecuteEnv<E>(op: Op, args: seq<int>, s: State, env: E, ports: Ports<E>)
    requires |op.modes| == 3 && ArgsNumber(op.code) == Some(|args|)
    ensures var r := Execute(op, args, s, env, ports);
      r.Stop? ==> r.env == env && (r.events == [] || (|r.events| == 1 && r.events[0].Out? && ports.output(env, r.events[0].v).Fail?))
    ensures var r := Execute(op, args, s, env, ports);
      r.Next? ==>
        || (r.events == [] && r.env == env)
        || (|r.events| == 1 && r.events[0].In? && ports.input(env) == Ok((r.events[0].v, r.env)))
        || (|r.events| == 1 && r.events[0].Out? && ports.output(env, r.events[0].v) == Ok(r.env))
  {
    if op.code == Num(INP) {
      match ports.input(env)
      case Fail(_) =>
      case Ok((v, env')) =>
    } else if op.code == Num(OUT) {
      match DerefValue(s.memory, op.modes[0], args[0])
      case Abort(_) =>
      case Value(v) =>
    }
  }

  /** ExecuteEnv for a whole turn. */
  lemma StepEnv<E>(s: State, env: E, ports: Ports<E>)
    ensures var r := Step(s, env, ports);
      r.Stop? ==> r.env == env && (r.events == [] || (|r.events| == 1 && r.events[0].Out? && ports.output(env, r.events[0].v).Fail?))
    ensures var r := Step(s, env, ports);
      r.Next? ==>
        || (r.events == [] && r.env == env)
        || (|r.events| == 1 && r.events[0].In? && ports.input(env) == Ok((r.events[0].v, r.env)))
        || (|r.events| == 1 && r.events[0].Out? && ports.output(env, r.events[0].v) == Ok(r.env))
  {
    match Lookup(s.memory, s.cursor)
    case None =>
    case Some(w) =>
      var op := Decode(w);
      var t := State(s.memory, s.cursor + 1);
      match ArgsNumber(op.code)
      case None =>
      case Some(n) =>
        match Operands(Words(t.memory, t.cursor, n))
        case None =>
        case Some(args) =>
          ExecuteEnv(op, args, State(t.memory, t.cursor + n), env, ports);
  }
}
