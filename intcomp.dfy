/** The Intcode engine: a program text is parsed into a memory array; a
    cursor walks it, and each instruction word is decoded into a command
    code and the modes of its operands; operands are resolved by position
    (mode 0) or taken as they are (mode 1); the commands are ADD 1, MULT 2,
    INP 3, OUT 4, JUMP_IF 5, JUMP_IFNOT 6, LESS_THAN 7, EQUALS 8 and
    HALT 99.

    The functions below are the meaning of a run; the class Machine is the
    state object the engine hands out (memory and cursor closed over, with
    the callbacks), and its methods are proved to compute those functions. */
module Intcomp {
  import opened JsText
  import opened JsArray
  import opened Runtime
  import opened Decoder

  const POSITIONAL := 0
  const IMMEDIATE := 1

  const HALT := 99
  const ADD := 1
  const MULT := 2
  const INP := 3
  const OUT := 4
  const JUMP_IF := 5
  const JUMP_IFNOT := 6
  const LESS_THAN := 7
  const EQUALS := 8

  // ---------------------------------------------------------------------
  // compile

  /** parseInt over every field; None when some field reads as NaN. */
  function ParseFields(fields: seq<string>): (r: Option<seq<int>>)
    ensures r.Some? ==> |r.value| == |fields|
    ensures r.Some? ==> forall i :: 0 <= i < |fields| ==> ParseInt(fields[i]) == Num(r.value[i])
    ensures r.None? ==> exists i :: 0 <= i < |fields| && ParseInt(fields[i]) == NaN
  {
    if fields == [] then Some([])
    else
      match ParseInt(fields[0])
      case NaN => None
      case Num(v) =>
        match ParseFields(fields[1..])
        case None => None
        case Some(rest) => Some([v] + rest)
  }

  /** compile(str): split on ',' and parse every field into the memory;
      None exactly when some field reads as NaN, and otherwise cell i holds
      parseInt of field i. */
  function Compile(text: string): (m: Option<Memory>)
    ensures m.Some? <==> ParseFields(Split(text, ',')).Some?
    ensures m.Some? <==> forall i :: 0 <= i < |Split(text, ',')| ==> ParseInt(Split(text, ',')[i]).Num?
    ensures m.Some? ==> m.value == FromSeq(ParseFields(Split(text, ',')).value)
    ensures m.Some? ==> Valid(m.value) && m.value.length == |Split(text, ',')|
    ensures m.Some? ==> forall i :: 0 <= i < |Split(text, ',')| ==>
      Lookup(m.value, i).Some? && ParseInt(Split(text, ',')[i]) == Num(Lookup(m.value, i).value)
  {
    match ParseFields(Split(text, ','))
    case None => None
    case Some(xs) => Some(FromSeq(xs))
  }

  /** The program text whose fields are the decimal texts of xs. */
  function Source(xs: seq<int>): string {
    Join(seq(|xs|, i requires 0 <= i < |xs| => IntToString(xs[i])), ',')
  }

  // ---------------------------------------------------------------------
  // The command table

  /** The number of operand words of each known command (the arity of its
      exec function minus the program and the decoded op); None for a code
      with no command. */
  function ArgsNumber(code: Number): (n: Option<nat>)
    ensures n == Some(3) <==> code in {Num(ADD), Num(MULT), Num(LESS_THAN), Num(EQUALS)}
    ensures n == Some(2) <==> code in {Num(JUMP_IF), Num(JUMP_IFNOT)}
    ensures n == Some(1) <==> code in {Num(INP), Num(OUT)}
    ensures n == Some(0) <==> code == Num(HALT)
    ensures n.Some? ==> n.value <= 3
  {
    match code
    case NaN => None
    case Num(c) =>
      if c == ADD || c == MULT || c == LESS_THAN || c == EQUALS then Some(3)
      else if c == JUMP_IF || c == JUMP_IFNOT then Some(2)
      else if c == INP || c == OUT then Some(1)
      else if c == HALT then Some(0)
      else None
  }

  /** A resolved operand, or the way the run ends instead. */
  datatype Operand = Value(v: int) | Abort(outcome: Outcome)

  /** deref: mode 1 gives the word itself, mode 0 the memory cell it
      addresses (reading an unset cell throws), any other mode exits with
      code 2. */
  function DerefValue(mem: Memory, mode: Number, raw: int): (r: Operand)
    ensures r.Value? <==> mode == Num(IMMEDIATE) || (mode == Num(POSITIONAL) && Lookup(mem, raw).Some?)
    ensures r.Value? && mode == Num(IMMEDIATE) ==> r.v == raw
    ensures r.Value? && mode == Num(POSITIONAL) ==> Lookup(mem, raw) == Some(r.v)
    ensures r.Abort? ==> r.outcome == if mode == Num(POSITIONAL) then Thrown(FailedToRead(raw)) else Exit(2)
  {
    if mode == Num(IMMEDIATE) then Value(raw)
    else if mode == Num(POSITIONAL) then
      match Lookup(mem, raw)
      case None => Abort(Thrown(FailedToRead(raw)))
      case Some(v) => Value(v)
    else Abort(Exit(2))
  }

  /** The value the command with three operands writes. */
  function Compute(code: Number, a: int, b: int): int {
    if code == Num(ADD) then a + b
    else if code == Num(MULT) then a * b
    else if code == Num(LESS_THAN) then (if a < b then 1 else 0)
    else (if a == b then 1 else 0)
  }

  /** The operand words read after an instruction word: the values, or None
      when one of them is undefined. */
  function Operands(words: seq<Option<int>>): (r: Option<seq<int>>)
    ensures r.Some? <==> forall i :: 0 <= i < |words| ==> words[i].Some?
    ensures r.Some? ==> |r.value| == |words| && forall i :: 0 <= i < |words| ==> words[i] == Some(r.value[i])
  {
    if words == [] then Some([])
    else
      match words[0]
      case None => None
      case Some(w) =>
        match Operands(words[1..])
        case None => None
        case Some(rest) => Some([w] + rest)
  }

  /** The n words from address `from` on, as the cursor reads them. */
  function Words(mem: Memory, from: int, n: nat): (ws: seq<Option<int>>)
    ensures |ws| == n && forall i :: 0 <= i < n ==> ws[i] == Lookup(mem, from + i)
  {
    seq(n, i => Lookup(mem, from + i))
  }

  /** The exec function of a command: `s` is the state after the operand
      words were read. Both value operands are resolved in order before
      anything else happens; a destination operand is the address written,
      whatever its mode. */
  function Execute<E>(op: Op, args: seq<int>, s: State, env: E, ports: Ports<E>): Stepped<E>
    requires |op.modes| == 3 && ArgsNumber(op.code) == Some(|args|)
  {
    var mem := s.memory;
    if op.code == Num(HALT) then Stop(Halted(Snapshot(mem)), s, env, [])
    else if op.code == Num(INP) then
      match ports.input(env)
      case Fail(reason) => Stop(Thrown(CallbackFailed(reason)), s, env, [])
      case Ok((v, env')) => Next(State(Store(mem, args[0], v), s.cursor), env', [In(v)])
    else if op.code == Num(OUT) then
      match DerefValue(mem, op.modes[0], args[0])
      case Abort(o) => Stop(o, s, env, [])
      case Value(v) =>
        match ports.output(env, v)
        case Fail(reason) => Stop(Thrown(CallbackFailed(reason)), s, env, [Out(v)])
        case Ok(env') => Next(s, env', [Out(v)])
    else
      match DerefValue(mem, op.modes[0], args[0])
      case Abort(o) => Stop(o, s, env, [])
      case Value(a) =>
        match DerefValue(mem, op.modes[1], args[1])
        case Abort(o) => Stop(o, s, env, [])
        case Value(b) =>
          if op.code == Num(JUMP_IF) then Next(if a != 0 then State(mem, b) else s, env, [])
          else if op.code == Num(JUMP_IFNOT) then Next(if a == 0 then State(mem, b) else s, env, [])
          else Next(State(Store(mem, args[2], Compute(op.code, a, b)), s.cursor), env, [])
  }

  /** One turn of the runProgram loop: read the word under the cursor
      (moving it on), decode it (Decode is readOpcode in arithmetic terms,
      by DecodeAgrees), look the command up, read its operand words, run
      it. */
  function Step<E>(s: State, env: E, ports: Ports<E>): Stepped<E> {
    match Lookup(s.memory, s.cursor)
    case None => Stop(Thrown(NotAnOpcode(s.cursor)), State(s.memory, s.cursor + 1), env, [])
    case Some(word) => Dispatch(Decode(word), s.cursor, State(s.memory, s.cursor + 1), env, ports)
  }

  /** The rest of the turn once the word at `at` has been read and decoded;
      `s` is the state after that read. */
  function Dispatch<E>(op: Op, at: int, s: State, env: E, ports: Ports<E>): Stepped<E>
    requires |op.modes| == 3
  {
    match ArgsNumber(op.code)
    case None => Stop(Thrown(UnknownCommand(op.code)), s, env, [])
    case Some(n) =>
      var after := State(s.memory, s.cursor + n);
      match Operands(Words(s.memory, s.cursor, n))
      case None => Stop(Thrown(MissingOperand(at)), after, env, [])
      case Some(args) => Execute(op, args, after, env, ports)
  }

  /** runProgram with a budget of `fuel` instructions for its while(true). */
  function Evaluate<E>(s: State, env: E, ports: Ports<E>, fuel: nat): Final<E>
    decreases fuel, 2
  {
    if fuel == 0 then Final(OutOfFuel, s, env, []) else Turn(s, env, ports, fuel)
  }

  /** One turn of the loop with some fuel left. Turn and Resume are one
      function kept in two parts, so that unfolding a run two calls deep
      stops short of the instruction it executes. */
  function Turn<E>(s: State, env: E, ports: Ports<E>, fuel: nat): Final<E>
    requires fuel > 0
    decreases fuel, 1
  {
    Resume(s, env, ports, fuel)
  }

  /** One instruction, then the rest of the run on what is left of the fuel. */
  function Resume<E>(s: State, env: E, ports: Ports<E>, fuel: nat): Final<E>
    requires fuel > 0
    decreases fuel, 0
  {
    match Step(s, env, ports)
    case Stop(o, s', env', ev) => Final(o, s', env', ev)
    case Next(s', env', ev) => After(ev, Evaluate(s', env', ports, fuel - 1))
  }

  /** The first turn of a run with some fuel left, written out. */
  lemma EvaluateStep<E>(s: State, env: E, ports: Ports<E>, fuel: nat, first: Stepped<E>)
    requires fuel > 0 && Step(s, env, ports) == first
    ensures first.Stop? ==> Evaluate(s, env, ports, fuel) == Final(first.outcome, first.state, first.env, first.events)
    ensures first.Next? ==>
      Evaluate(s, env, ports, fuel) == After(first.events, Evaluate(first.state, first.env, ports, fuel - 1))
  {
    assert Evaluate(s, env, ports, fuel) == Turn(s, env, ports, fuel);
    assert Turn(s, env, ports, fuel) == Resume(s, env, ports, fuel);
  }

  /** The first step of a run from `s`, whatever the budget. */
  lemma FirstStep<E>(s: State, env: E, ports: Ports<E>) returns (first: Stepped<E>)
    ensures forall k: nat {:trigger Evaluate(s, env, ports, k)} :: k > 0 && first.Stop? ==>
      Evaluate(s, env, ports, k) == Final(first.outcome, first.state, first.env, first.events)
    ensures forall k: nat {:trigger Evaluate(s, env, ports, k)} :: k > 0 && first.Next? ==>
      Evaluate(s, env, ports, k) == After(first.events, Evaluate(first.state, first.env, ports, k - 1))
  {
    first := Step(s, env, ports);
    forall k: nat | k > 0
      ensures first.Stop? ==> Evaluate(s, env, ports, k) == Final(first.outcome, first.state, first.env, first.events)
      ensures first.Next? ==> Evaluate(s, env, ports, k) == After(first.events, Evaluate(first.state, first.env, ports, k - 1))
    {
      EvaluateStep(s, env, ports, k, first);
    }
  }

  /** A run preceded by callback crossings that happened before it. */
  function After<E>(ev: seq<Event>, r: Final<E>): Final<E> {
    Final(r.outcome, r.state, r.env, ev + r.events)
  }

  lemma AfterNothing<E>(r: Final<E>)
    ensures After([], r) == r
    ensures After(r.events, Final(r.outcome, r.state, r.env, [])) == r
  {
    assert [] + r.events == r.events;
    assert r.events + [] == r.events;
  }

  lemma AfterAfter<E>(a: seq<Event>, b: seq<Event>, r: Final<E>)
    ensures After(a, After(b, r)) == After(a + b, r)
  {
    assert a + (b + r.events) == (a + b) + r.events;
  }

  /** The options of run(program, opts). */
  datatype Options<!E> = Options(
    transform: Option<Memory -> Memory>,
    input: Option<E -> Reply<(int, E)>>,
    output: Option<(E, int) -> Reply<E>>)

  function NoOptions<E>(): Options<E> {
    Options(None, None, None)
  }

  /** The callbacks of a state: an unassigned one throws when called. */
  function Wire<E>(input: Option<E -> Reply<(int, E)>>, output: Option<(E, int) -> Reply<E>>): (p: Ports<E>)
    ensures input.Some? ==> p.input == input.value
    ensures output.Some? ==> p.output == output.value
  {
    Ports(if input.Some? then input.value else Unassigned<E>().input,
          if output.Some? then output.value else Unassigned<E>().output)
  }

  function Transformed(m: Memory, f: Option<Memory -> Memory>): Memory {
    if f.Some? then f.value(m) else m
  }

  /** run(text, opts): compile a fresh state, apply the options, run it. */
  function RunText<E>(text: string, opts: Options<E>, env: E, fuel: nat): Option<Final<E>> {
    match Compile(text)
    case None => None
    case Some(m) =>
      Some(Evaluate(State(Transformed(m, opts.transform), 0), env, Wire(opts.input, opts.output), fuel))
  }

  /** A step's result, rebuilt from what the imperative step reports. */
  function AsStepped<E>(stop: Option<Outcome>, s: State, env: E, ev: seq<Event>): Stepped<E> {
    if stop.Some? then Stop(stop.value, s, env, ev) else Next(s, env, ev)
  }

  // ---------------------------------------------------------------------
  // The state object

  class Machine<E> {
    var memory: Memory
    var cursor: int
    var input: Option<E -> Reply<(int, E)>>
    var output: Option<(E, int) -> Reply<E>>

    function Image(): State
      reads this`memory, this`cursor
    {
      State(memory, cursor)
    }

    function Wiring(): Ports<E>
      reads this`input, this`output
    {
      Wire(input, output)
    }

    /** createState(initial): a copy of the initial array, the cursor at 0,
        no callbacks. */
    constructor (initial: Memory)
      ensures memory == Slice(initial) && cursor == 0 && input == None && output == None
    {
      memory := Slice(initial);
      cursor := 0;
      input := None;
      output := None;
    }

    method MoveTo(n: int)
      modifies this`cursor
      ensures cursor == n
    {
      cursor := n;
    }

    /** read(): the word under the cursor (None for undefined); the cursor
        moves on either way. */
    method Read() returns (w: Option<int>)
      modifies this`cursor
      ensures w == Lookup(memory, old(cursor)) && cursor == old(cursor) + 1
    {
      w := Lookup(memory, cursor);
      cursor := cursor + 1;
    }

    /** get(n): the value at n; None stands for the "Failed to read
        position" error. */
    method Get(n: int) returns (v: Option<int>)
      ensures v.Some? <==> n in memory.cells
      ensures v.Some? ==> v.value == memory.cells[n]
    {
      if n in memory.cells {
        v := Some(memory.cells[n]);
      } else {
        v := None;
      }
    }

    method Set(n: int, v: int)
      modifies this`memory
      ensures memory == Store(old(memory), n, v)
    {
      memory := Store(memory, n, v);
    }

    /** transform(fn): fn rewrites the memory array in place. */
    method Transform(f: Memory -> Memory)
      modifies this`memory
      ensures memory == f(old(memory))
    {
      memory := f(memory);
    }

    method Snapshot() returns (s: seq<Option<int>>)
      ensures |s| == memory.length
      ensures forall i :: 0 <= i < |s| ==> s[i] == Lookup(memory, i)
    {
      s := JsArray.Snapshot(memory);
    }

    method SetInput(f: E -> Reply<(int, E)>)
      modifies this`input
      ensures input == Some(f)
    {
      input := Some(f);
    }

    method SetOutput(f: (E, int) -> Reply<E>)
      modifies this`output
      ensures output == Some(f)
    {
      output := Some(f);
    }

    method WithIO(i: E -> Reply<(int, E)>, o: (E, int) -> Reply<E>) returns (self: Machine<E>)
      modifies this`input, this`output
      ensures self == this && input == Some(i) && output == Some(o)
    {
      SetInput(i);
      SetOutput(o);
      self := this;
    }

    /** fork(): a new state over a copy of the memory as it is now, with the
        cursor at 0 and no callbacks. The copy is a separate object, so a
        later write to either leaves the other alone; a negative key written
        into the memory is not copied. */
    method Fork() returns (m: Machine<E>)
      ensures fresh(m) && m.memory == Slice(memory) && m.cursor == 0 && m.input == None && m.output == None
    {
      m := new Machine(memory);
    }

    method Input(env: E) returns (r: Reply<(int, E)>)
      ensures r == Wiring().input(env)
    {
      r := Wiring().input(env);
    }

    method Output(env: E, v: int) returns (r: Reply<E>)
      ensures r == Wiring().output(env, v)
    {
      r := Wiring().output(env, v);
    }

    /** readArgs: push `nargs` reads, undefined ones included. */
    method ReadArgs(nargs: nat) returns (args: seq<Option<int>>)
      modifies this`cursor
      ensures args == Words(memory, old(cursor), nargs) && cursor == old(cursor) + nargs
    {
      args := [];
      for i := 1 to nargs + 1
        invariant cursor == old(cursor) + (i - 1)
        invariant args == Words(memory, old(cursor), i - 1)
      {
        var w := Read();
        args := args + [w];
      }
    }

    method Deref(mode: Number, raw: int) returns (r: Operand)
      ensures r == DerefValue(memory, mode, raw)
    {
      if mode == Num(IMMEDIATE) {
        r := Value(raw);
      } else if mode == Num(POSITIONAL) {
        var v := Get(raw);
        r := if v.Some? then Value(v.value) else Abort(Thrown(FailedToRead(raw)));
      } else {
        r := Abort(Exit(2));
      }
    }

    /** The exec function of the command, on this state. */
    method RunCommand(op: Op, args: seq<int>, env: E) returns (stop: Option<Outcome>, env': E, ev: seq<Event>)
      requires |op.modes| == 3 && ArgsNumber(op.code) == Some(|args|)
      modifies this`memory, this`cursor
      ensures AsStepped(stop, Image(), env', ev) == Execute(op, args, old(Image()), env, Wiring())
    {
      env', ev := env, [];
      if op.code == Num(HALT) {
        var snap := Snapshot();
        assert snap == JsArray.Snapshot(memory);
        stop := Some(Halted(snap));
      } else if op.code == Num(INP) {
        var r := Input(env);
        if r.Fail? {
          stop := Some(Thrown(CallbackFailed(r.reason)));
        } else {
          Set(args[0], r.value.0);
          stop, env', ev := None, r.value.1, [In(r.value.0)];
        }
      } else if op.code == Num(OUT) {
        var a := Deref(op.modes[0], args[0]);
        if a.Abort? {
          stop := Some(a.outcome);
        } else {
          var r := Output(env, a.v);
          ev := [Out(a.v)];
          if r.Fail? {
            stop := Some(Thrown(CallbackFailed(r.reason)));
          } else {
            stop, env' := None, r.value;
          }
        }
      } else {
        var a := Deref(op.modes[0], args[0]);
        if a.Abort? {
          stop := Some(a.outcome);
          return;
        }
        var b := Deref(op.modes[1], args[1]);
        if b.Abort? {
          stop := Some(b.outcome);
          return;
        }
        stop := None;
        if op.code == Num(JUMP_IF) {
          if a.v != 0 {
            MoveTo(b.v);
          }
        } else if op.code == Num(JUMP_IFNOT) {
          if a.v == 0 {
            MoveTo(b.v);
          }
        } else {
          Set(args[2], Compute(op.code, a.v, b.v));
        }
      }
    }

    /** One turn of the runProgram loop on this state. */
    method StepOnce(env: E) returns (stop: Option<Outcome>, env': E, ev: seq<Event>)
      modifies this`memory, this`cursor
      ensures AsStepped(stop, Image(), env', ev) == Step(old(Image()), env, Wiring())
    {
      var at := cursor;
      var word := Read();
      if word.None? {
        return Some(Thrown(NotAnOpcode(at))), env, [];
      }
      var op := DecodeWord(word.value);
      stop, env', ev := DispatchOnce(op, at, env);
    }

    method DispatchOnce(op: Op, at: int, env: E) returns (stop: Option<Outcome>, env': E, ev: seq<Event>)
      requires |op.modes| == 3
      modifies this`memory, this`cursor
      ensures AsStepped(stop, Image(), env', ev) == Dispatch(op, at, old(Image()), env, Wiring())
    {
      ghost var before := Image();
      var nargs := ArgsNumber(op.code);
      if nargs.None? {
        return Some(Thrown(UnknownCommand(op.code))), env, [];
      }
      var words := ReadArgs(nargs.value);
      var args := Operands(words);
      if args.None? {
        return Some(Thrown(MissingOperand(at))), env, [];
      }
      ghost var after := Image();
      assert Dispatch(op, at, before, env, Wiring()) == Execute(op, args.value, after, env, Wiring());
      stop, env', ev := RunCommand(op, args.value, env);
    }

    /** One turn of the loop, seen from a run with k steps left. */
    method TakeTurn(env: E, ghost k: nat) returns (stop: Option<Outcome>, env': E, ev: seq<Event>)
      requires k > 0
      modifies this`memory, this`cursor
      ensures stop.Some? ==> Evaluate(old(Image()), env, Wiring(), k) == Final(stop.value, Image(), env', ev)
      ensures stop.None? ==> Evaluate(old(Image()), env, Wiring(), k) == After(ev, Evaluate(Image(), env', Wiring(), k - 1))
    {
      ghost var before := Image();
      stop, env', ev := StepOnce(env);
      EvaluateStep(before, env, Wiring(), k, AsStepped(stop, Image(), env', ev));
    }

    /** runProgram: step until the run ends, for at most `fuel` steps;
        returns how it ended, the callbacks' environment and the log of
        values that crossed them. */
    method RunProgram(env: E, fuel: nat) returns (outcome: Outcome, env': E, events: seq<Event>)
      modifies this`memory, this`cursor
      ensures Final(outcome, Image(), env', events) == Evaluate(old(Image()), env, Wiring(), fuel)
    {
      ghost var goal := Evaluate(Image(), env, Wiring(), fuel);
      var k := fuel;
      env', events := env, [];
      AfterNothing(goal);
      while k > 0
        invariant 0 <= k <= fuel
        invariant goal == After(events, Evaluate(Image(), env', Wiring(), k))
        decreases k
      {
        var stop, e, ev := TakeTurn(env', k);
        if stop.Some? {
          outcome, env', events := stop.value, e, events + ev;
          return;
        }
        AfterAfter(events, ev, Evaluate(Image(), e, Wiring(), k - 1));
        env', events := e, events + ev;
        k := k - 1;
      }
      outcome := OutOfFuel;
      AfterNothing(Final(outcome, Image(), env', events));
    }

    /** run(program, opts) on a state: apply the transform, plug in the
        callbacks that are given, run from the current cursor. */
    method Run(opts: Options<E>, env: E, fuel: nat) returns (outcome: Outcome, env': E, events: seq<Event>)
      modifies this
      ensures input == if opts.input.Some? then opts.input else old(input)
      ensures output == if opts.output.Some? then opts.output else old(output)
      ensures Final(outcome, Image(), env', events) ==
        Evaluate(State(Transformed(old(memory), opts.transform), old(cursor)), env, Wiring(), fuel)
    {
      if opts.transform.Some? {
        Transform(opts.transform.value);
      }
      if opts.input.Some? {
        SetInput(opts.input.value);
      }
      if opts.output.Some? {
        SetOutput(opts.output.value);
      }
      outcome, env', events := RunProgram(env, fuel);
    }
  }

  /** run(text, opts): compile, then run the compiled state. None when a
      field of the text does not parse. */
  method RunSource<E>(text: string, opts: Options<E>, env: E, fuel: nat) returns (r: Option<Final<E>>)
    ensures r == RunText(text, opts, env, fuel)
  {
    var m := Compile(text);
    if m.None? {
      return None;
    }
    SliceFromSeq(ParseFields(Split(text, ',')).value);
    var program := new Machine<E>(m.value);
    var outcome, env', events := program.Run(opts, env, fuel);
    r := Some(Final(outcome, program.Image(), env', events));
  }
}
