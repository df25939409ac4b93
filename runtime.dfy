/** What both interpreters share: the machine state they step, the input
    and output callbacks a driver plugs in, the ways a run can end, and the
    log of the values that crossed the callbacks. */
module Runtime {
  import opened JsText
  import opened JsArray

  /** The memory array and the cursor: the address of the next word to read. */
  datatype State = State(memory: Memory, cursor: int)

  /** What a callback returns: a value, or the value it threw. */
  datatype Reply<T> = Ok(value: T) | Fail(reason: string)

  /** The input callback (called with no argument, it returns the next
      number) and the output callback (called with one number). A driver's
      closures keep their own variables; here those variables are the
      environment E, which each call receives and passes on. */
  datatype Ports<!E> = Ports(input: E -> Reply<(int, E)>, output: (E, int) -> Reply<E>)

  /** The errors a run can throw. */
  datatype Fault =
    | UnknownCommand(code: Number)   // getCommand: "Unknown command"
    | NotAnOpcode(at: int)           // the word under the cursor is undefined
    | FailedToRead(pos: int)         // get: "Failed to read position"
    | MissingOperand(at: int)        // an operand word of the instruction at `at` is undefined
    | UndefinedValue(pos: int)       // a computation needs memory[pos], which is undefined
    | CallbackFailed(reason: string) // the input or output callback threw

  /** How a run ends: HALT returns a snapshot of memory; `exit(n)` with
      n != 0 returns "Exit: n"; any other error propagates to the caller;
      OutOfFuel means the step budget ran out, which stands for a run that
      has not ended yet. */
  datatype Outcome =
    | Halted(snapshot: seq<Option<int>>)
    | Exit(code: int)
    | Thrown(fault: Fault)
    | OutOfFuel

  /** One crossing of a callback: a value returned by the input callback or
      passed to the output callback. */
  datatype Event = In(v: int) | Out(v: int)

  /** The result of one instruction: go on from a new state, or stop. */
  datatype Stepped<E> =
    | Next(state: State, env: E, events: seq<Event>)
    | Stop(outcome: Outcome, state: State, env: E, events: seq<Event>)

  /** The result of a run: how it ended, the final state and environment,
      and every callback crossing in order. */
  datatype Final<E> = Final(outcome: Outcome, state: State, env: E, events: seq<Event>)

  /** The values passed to the output callback, in order. */
  function Outputs(events: seq<Event>): (vs: seq<int>)
    ensures |vs| <= |events|
  {
    if events == [] then []
    else (if events[0].Out? then [events[0].v] else []) + Outputs(events[1..])
  }

  lemma {:induction false} OutputsAppend(a: seq<Event>, b: seq<Event>)
    ensures Outputs(a + b) == Outputs(a) + Outputs(b)
    decreases |a|
  {
    if a == [] {
      assert a + b == b;
    } else {
      OutputsAppend(a[1..], b);
      var head := if a[0].Out? then [a[0].v] else [];
      assert (a + b)[0] == a[0];
      assert (a + b)[1..] == a[1..] + b;
      calc {
        Outputs(a + b);
        head + Outputs(a[1..] + b);
        head + (Outputs(a[1..]) + Outputs(b));
        (head + Outputs(a[1..])) + Outputs(b);
      }
    }
  }

  // ---------------------------------------------------------------------
  // A queue of inputs and a log of outputs: the callbacks the test-suite
  // style drivers provide.

  datatype Tape = Tape(pending: seq<int>, written: seq<int>)

  function TapeInput(t: Tape): Reply<(int, Tape)> {
    if t.pending == [] then Fail("no input available")
    else Ok((t.pending[0], t.(pending := t.pending[1..])))
  }

  function TapeOutput(t: Tape, v: int): Reply<Tape> {
    Ok(t.(written := t.written + [v]))
  }

  function TapePorts(): Ports<Tape> {
    Ports(TapeInput, TapeOutput)
  }

  /** An engine with no input or output assigned: calling either throws,
      as calling an undefined function does. */
  function Unassigned<E>(): Ports<E> {
    Ports(_ => Fail("inputFun is not a function"), (_, _) => Fail("outputFun is not a function"))
  }
}
