/** The first version of the engine: commands ADD 1, MULT 2, INP 3, OUT 4
    and HALT 99 only, with no jumps, decoded like the later engine but with
    the modes of an instruction kept at positions 1 to 3. ADD always reads
    its operands by position; MULT takes an operand as it is when its mode
    is 1; INP and OUT address memory directly. The callbacks are fixed when
    the state is created, and the cursor is a local variable of the loop.

    The functions are the meaning of a run; the class Program is the state
    object, and its methods and RunSource are proved to compute them. */
module Save1 {
  import opened JsText
  import opened JsArray
  import opened Runtime
  import opened Decoder
  import Intcomp

  const IMMEDIATE := 1

  const HALT := 99
  const ADD := 1
  const MULT := 2
  const INP := 3
  const OUT := 4

  /** What readOpcode returns here: the code and the modes array, whose
      slot 0 is null and whose slots 1 to 3 hold the modes of the operands
      in order. */
  datatype Com = Com(code: Number, modes: seq<Option<Number>>)

  /** A decoded instruction in this engine's layout. */
  function Layout(op: Op): (com: Com)
    requires |op.modes| == 3
    ensures com.code == op.code && |com.modes| == 4 && com.modes[0] == None
    ensures forall k :: 1 <= k < 4 ==> com.modes[k] == Some(op.modes[k - 1])
  {
    Com(op.code, [None, Some(op.modes[0]), Some(op.modes[1]), Some(op.modes[2])])
  }

  /** readOpcode: the padded decimal text of the word, sliced and parsed as
      in the later engine, the three modes moved up one slot. Its code is
      the word's last two decimal digits and slot k its (k + 2)-th digit
      from the right, with NaN where a '-' falls. */
  function ReadOpcode(word: int): (com: Com)
    ensures com == Layout(Decode(word))
    ensures |com.modes| == 4 && com.modes[0] == None && com.code == Decode(word).code
    ensures forall k :: 1 <= k < 4 ==> com.modes[k] == Some(Decode(word).modes[k - 1])
  {
    DecodeAgrees(word);
    Layout(Decoder.ReadOpcode(word))
  }

  /** The table of commands: a command takes as many operand words as its
      exec function has parameters after the program and the command. */
  function ArgsNumber(code: Number): (n: Option<nat>)
    ensures n.Some? <==> code in {Num(HALT), Num(ADD), Num(MULT), Num(INP), Num(OUT)}
    ensures n == Some(3) <==> code in {Num(ADD), Num(MULT)}
    ensures n == Some(1) <==> code in {Num(INP), Num(OUT)}
    ensures n == Some(0) <==> code == Num(HALT)
    ensures n.Some? ==> n == Intcomp.ArgsNumber(code)
  {
    if code == Num(HALT) then Some(0)
    else if code == Num(ADD) || code == Num(MULT) then Some(3)
    else if code == Num(INP) || code == Num(OUT) then Some(1)
    else None
  }

  /** A MULT operand: the word itself when the mode slot holds 1, memory[word]
      for any other slot (0, NaN or another digit alike); None when that cell
      is undefined. */
  function Fetch(mem: Memory, mode: Option<Number>, raw: int): (r: Option<int>)
    ensures mode == Some(Num(IMMEDIATE)) ==> r == Some(raw)
    ensures mode != Some(Num(IMMEDIATE)) ==> r == Lookup(mem, raw)
  {
    if mode == Some(Num(IMMEDIATE)) then Some(raw) else Lookup(mem, raw)
  }

  /** The exec function of a command: `s` is the state after the operand
      words were read. */
  function Execute<E>(op: Com, args: seq<int>, s: State, env: E, ports: Ports<E>): Stepped<E>
    requires |op.modes| == 4 && ArgsNumber(op.code) == Some(|args|)
  {
    var mem := s.memory;
    if op.code == Num(HALT) then Stop(Halted(Snapshot(mem)), s, env, [])
    else if op.code == Num(ADD) then
      match (Lookup(mem, args[0]), Lookup(mem, args[1]))
      case (None, _) => Stop(Thrown(UndefinedValue(args[0])), s, env, [])
      case (_, None) => Stop(Thrown(UndefinedValue(args[1])), s, env, [])
      case (Some(a), Some(b)) => Next(State(Store(mem, args[2], a + b), s.cursor), env, [])
    else if op.code == Num(MULT) then
      match (Fetch(mem, op.modes[1], args[0]), Fetch(mem, op.modes[2], args[1]))
      case (None, _) => Stop(Thrown(UndefinedValue(args[0])), s, env, [])
      case (_, None) => Stop(Thrown(UndefinedValue(args[1])), s, env, [])
      case (Some(a), Some(b)) => Next(State(Store(mem, args[2], a * b), s.cursor), env, [])
    else if op.code == Num(INP) then
      match ports.input(env)
      case Fail(reason) => Stop(Thrown(CallbackFailed(reason)), s, env, [])
      case Ok((v, env')) => Next(State(Store(mem, args[0], v), s.cursor), env', [In(v)])
    else
      match Lookup(mem, args[0])
      case None => Stop(Thrown(UndefinedValue(args[0])), s, env, [])
      case Some(v) =>
        match ports.output(env, v)
        case Fail(reason) => Stop(Thrown(CallbackFailed(reason)), s, env, [Out(v)])
        case Ok(env') => Next(s, env', [Out(v)])
  }

  /** The rest of a turn once the word at `at` has been read and decoded;
      `s` is the state with the cursor past that word. */
  function Dispatch<E>(op: Com, at: int, s: State, env: E, ports: Ports<E>): Stepped<E>
    requires |op.modes| == 4
  {
    match ArgsNumber(op.code)
    case None => Stop(Thrown(UnknownCommand(op.code)), s, env, [])
    case Some(n) =>
      var after := State(s.memory, s.cursor + n);
      match Intcomp.Operands(Intcomp.Words(s.memory, s.cursor, n))
      case None => Stop(Thrown(MissingOperand(at)), after, env, [])
      case Some(args) => Execute(op, args, after, env, ports)
  }

  /** One turn of the loop: get the word under the cursor (an undefined one
      cannot be decoded, and the cursor has not moved yet), decode it, move
      the cursor past it, look the command up, read its operand words, run
      it. The decoded instruction is written Layout(Decode(word)), which is
      readOpcode(word) by ReadOpcode's contract. */
  function Step<E>(s: State, env: E, ports: Ports<E>): Stepped<E> {
    match Lookup(s.memory, s.cursor)
    case None => Stop(Thrown(NotAnOpcode(s.cursor)), s, env, [])
    case Some(word) => Dispatch(Layout(Decode(word)), s.cursor, State(s.memory, s.cursor + 1), env, ports)
  }

  /** A turn decodes the word under the cursor and goes on past it. */
  lemma StepDecodes<E>(s: State, env: E, ports: Ports<E>, w: int)
    requires Lookup(s.memory, s.cursor) == Some(w)
    ensures Step(s, env, ports) == Dispatch(Layout(Decode(w)), s.cursor, State(s.memory, s.cursor + 1), env, ports)
  {
  }

  /** readOpcode as the loop calls it, with its result in Decode's terms. */
  method DecodeCom(word: int) returns (com: Com)
    ensures com == Layout(Decode(word))
  {
    com := ReadOpcode(word);
  }

  /** runProgram with a budget of `fuel` instructions for its while(true). */
  function Evaluate<E>(s: State, env: E, ports: Ports<E>, fuel: nat): Final<E>
    decreases fuel, 2
  {
    if fuel == 0 then Final(OutOfFuel, s, env, []) else Turn(s, env, ports, fuel)
  }

  /** One turn with some fuel left, kept apart from Resume for the same
      reason as in the later engine: unfolding a run two calls deep stops
      short of the instruction. */
  function Turn<E>(s: State, env: E, ports: Ports<E>, fuel: nat): Final<E>
    requires fuel > 0
    decreases fuel, 1
  {
    Resume(s, env, ports, fuel)
  }

  function Resume<E>(s: State, env: E, ports: Ports<E>, fuel: nat): Final<E>
    requires fuel > 0
    decreases fuel, 0
  {
    match Step(s, env, ports)
    case Stop(o, s', env', ev) => Final(o, s', env', ev)
    case Next(s', env', ev) => Intcomp.After(ev, Evaluate(s', env', ports, fuel - 1))
  }

  /** The first turn of a run with some fuel left, written out. */
  lemma EvaluateStep<E>(s: State, env: E, ports: Ports<E>, fuel: nat, first: Stepped<E>)
    requires fuel > 0 && Step(s, env, ports) == first
    ensures first.Stop? ==> Evaluate(s, env, ports, fuel) == Final(first.outcome, first.state, first.env, first.events)
    ensures first.Next? ==>
      Evaluate(s, env, ports, fuel) == Intcomp.After(first.events, Evaluate(first.state, first.env, ports, fuel - 1))
  {
    assert Evaluate(s, env, ports, fuel) == Turn(s, env, ports, fuel);
    assert Turn(s, env, ports, fuel) == Resume(s, env, ports, fuel);
  }

  /** The callbacks createState closes over; a missing one throws when the
      program calls it. */
  function Wire<E>(input: Option<E -> Reply<(int, E)>>, output: Option<(E, int) -> Reply<E>>): (p: Ports<E>)
    ensures input.Some? ==> p.input == input.value
    ensures output.Some? ==> p.output == output.value
  {
    Ports(if input.Some? then input.value else _ => Fail("program.input is not a function"),
          if output.Some? then output.value else (_, _) => Fail("program.output is not a function"))
  }

  /** run(text, opts): parse the fields, let the transform return the
      memory to run, create the state over a copy of it with the callbacks,
      run from 0. None when a field does not parse. */
  function RunText<E>(text: string, opts: Intcomp.Options<E>, env: E, fuel: nat): Option<Final<E>> {
    match Intcomp.Compile(text)
    case None => None
    case Some(m) =>
      Some(Evaluate(State(Slice(Intcomp.Transformed(m, opts.transform)), 0), env, Wire(opts.input, opts.output), fuel))
  }

  // ---------------------------------------------------------------------
  // The state object

  class Program<E> {
    var memory: Memory
    const ports: Ports<E>

    /** createState(initial, input, output): a copy of the array and the
        two callbacks. */
    constructor (initial: Memory, input: Option<E -> Reply<(int, E)>>, output: Option<(E, int) -> Reply<E>>)
      ensures memory == Slice(initial) && ports == Wire(input, output)
    {
      memory := Slice(initial);
      ports := Wire(input, output);
    }

    /** get(n): memory[n], None for undefined. */
    method Get(n: int) returns (v: Option<int>)
      ensures v == Lookup(memory, n)
    {
      v := if n in memory.cells then Some(memory.cells[n]) else None;
    }

    /** put(n, v): memory[n] = v */
    method Put(n: int, v: int)
      modifies this`memory
      ensures memory == Store(old(memory), n, v)
    {
      memory := Store(memory, n, v);
    }

    /** mem(fn): fn works on the array itself. */
    method Mem(f: Memory -> Memory)
      modifies this`memory
      ensures memory == f(old(memory))
    {
      memory := f(memory);
    }

    method Snapshot() returns (s: seq<Option<int>>)
      ensures s == JsArray.Snapshot(memory)
    {
      s := JsArray.Snapshot(memory);
    }

    /** readArgs(program, cursor, nargs): get `nargs` words, undefined ones
        included, counting nargs down; returns them and the moved cursor. */
    method ReadArgs(cursor: int, nargs: nat) returns (args: seq<Option<int>>, cursor': int)
      ensures args == Intcomp.Words(memory, cursor, nargs) && cursor' == cursor + nargs
    {
      args, cursor' := [], cursor;
      var left := nargs;
      while left > 0
        invariant 0 <= left <= nargs && cursor' == cursor + (nargs - left)
        invariant args == Intcomp.Words(memory, cursor, nargs - left)
        decreases left
      {
        var w := Get(cursor');
        args, cursor', left := args + [w], cursor' + 1, left - 1;
      }
    }

    /** The exec function of the command, on this state. */
    method RunCommand(op: Com, args: seq<int>, cursor: int, env: E) returns (stop: Option<Outcome>, env': E, ev: seq<Event>)
      requires |op.modes| == 4 && ArgsNumber(op.code) == Some(|args|)
      modifies this`memory
      ensures Intcomp.AsStepped(stop, State(memory, cursor), env', ev) ==
        Execute(op, args, State(old(memory), cursor), env, ports)
    {
      env', ev := env, [];
      if op.code == Num(HALT) {
        var snap := Snapshot();
        stop := Some(Halted(snap));
      } else if op.code == Num(ADD) {
        var a := Lookup(memory, args[0]);
        var b := Lookup(memory, args[1]);
        if a.None? {
          stop := Some(Thrown(UndefinedValue(args[0])));
        } else if b.None? {
          stop := Some(Thrown(UndefinedValue(args[1])));
        } else {
          var out := args[2];
          Mem(mem => Store(mem, out, a.value + b.value));
          stop := None;
        }
      } else if op.code == Num(MULT) {
        var a := if op.modes[1] == Some(Num(IMMEDIATE)) then Some(args[0]) else Lookup(memory, args[0]);
        var b := if op.modes[2] == Some(Num(IMMEDIATE)) then Some(args[1]) else Lookup(memory, args[1]);
        if a.None? {
          stop := Some(Thrown(UndefinedValue(args[0])));
        } else if b.None? {
          stop := Some(Thrown(UndefinedValue(args[1])));
        } else {
          Put(args[2], a.value * b.value);
          stop := None;
        }
      } else if op.code == Num(INP) {
        var r := ports.input(env);
        if r.Fail? {
          stop := Some(Thrown(CallbackFailed(r.reason)));
        } else {
          Put(args[0], r.value.0);
          stop, env', ev := None, r.value.1, [In(r.value.0)];
        }
      } else {
        var v := Get(args[0]);
        if v.None? {
          stop := Some(Thrown(UndefinedValue(args[0])));
        } else {
          var r := ports.output(env, v.value);
          ev := [Out(v.value)];
          if r.Fail? {
            stop := Some(Thrown(CallbackFailed(r.reason)));
          } else {
            stop, env' := None, r.value;
          }
        }
      }
    }

    /** One turn of the loop from `cursor`; returns the moved cursor. */
    method StepAt(cursor: int, env: E) returns (stop: Option<Outcome>, cursor': int, env': E, ev: seq<Event>)
      modifies this`memory
      ensures Intcomp.AsStepped(stop, State(memory, cursor'), env', ev) ==
        Step(State(old(memory), cursor), env, ports)
    {
      var word := Get(cursor);
      if word.None? {
        return Some(Thrown(NotAnOpcode(cursor))), cursor, env, [];
      }
      var com := DecodeCom(word.value);
      StepDecodes(State(memory, cursor), env, ports, word.value);
      stop, cursor', env', ev := DispatchAt(com, cursor, env);
    }

    /** The rest of the turn for the instruction at `at`, decoded as `op`. */
    method DispatchAt(op: Com, at: int, env: E) returns (stop: Option<Outcome>, cursor': int, env': E, ev: seq<Event>)
      requires |op.modes| == 4
      modifies this`memory
      ensures Intcomp.AsStepped(stop, State(memory, cursor'), env', ev) ==
        Dispatch(op, at, State(old(memory), at + 1), env, ports)
    {
      ghost var before := State(memory, at + 1);
      var nargs := ArgsNumber(op.code);
      if nargs.None? {
        return Some(Thrown(UnknownCommand(op.code))), at + 1, env, [];
      }
      var words;
      words, cursor' := ReadArgs(at + 1, nargs.value);
      var args := Intcomp.Operands(words);
      if args.None? {
        return Some(Thrown(MissingOperand(at))), cursor', env, [];
      }
      assert Dispatch(op, at, before, env, ports) == Execute(op, args.value, State(memory, cursor'), env, ports);
      stop, env', ev := RunCommand(op, args.value, cursor', env);
    }

    /** runProgram(program): step from cursor 0 until the run ends, for at
        most `fuel` steps. */
    method RunProgram(env: E, fuel: nat) returns (outcome: Outcome, cursor: int, env': E, events: seq<Event>)
      modifies this`memory
      ensures Final(outcome, State(memory, cursor), env', events) == Evaluate(State(old(memory), 0), env, ports, fuel)
    {
      ghost var goal := Evaluate(State(memory, 0), env, ports, fuel);
      var k := fuel;
      cursor, env', events := 0, env, [];
      Intcomp.AfterNothing(goal);
      while k > 0
        invariant 0 <= k <= fuel
        invariant goal == Intcomp.After(events, Evaluate(State(memory, cursor), env', ports, k))
        decreases k
      {
        ghost var here := State(memory, cursor);
        var stop, c, e, ev := StepAt(cursor, env');
        EvaluateStep(here, env', ports, k, Intcomp.AsStepped(stop, State(memory, c), e, ev));
        if stop.Some? {
          outcome, cursor, env', events := stop.value, c, e, events + ev;
          return;
        }
        Intcomp.AfterAfter(events, ev, Evaluate(State(memory, c), e, ports, k - 1));
        cursor, env', events := c, e, events + ev;
        k := k - 1;
      }
      outcome := OutOfFuel;
      Intcomp.AfterNothing(Final(outcome, State(memory, cursor), env', events));
    }
  }

  /** run(text, opts). */
  method RunSource<E>(text: string, opts: Intcomp.Options<E>, env: E, fuel: nat) returns (r: Option<Final<E>>)
    ensures r == RunText(text, opts, env, fuel)
  {
    var parsed := Intcomp.Compile(text);
    if parsed.None? {
      return None;
    }
    var memory := Intcomp.Transformed(parsed.value, opts.transform);
    var program := new Program<E>(memory, opts.input, opts.output);
    var outcome, cursor, env', events := program.RunProgram(env, fuel);
    r := Some(Final(outcome, State(program.memory, cursor), env', events));
  }
}
