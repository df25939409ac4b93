/** The engine's own test vectors: programs, the memory they halt with, and
    the values they exchange with their callbacks. Each run is given the
    exact number of steps it takes; by RunMoreFuel any larger budget ends
    the same way. Each program comes with lemmas about its memory images,
    kept apart from the run so that the run only chains instruction laws. */
module IntcompExamples {
  import opened JsText
  import opened JsArray
  import opened Runtime
  import opened Decoder
  import opened Intcomp
  import opened IntcompLaws

  /** The opcodes of these programs, decoded. */
  lemma Codes()
    ensures Decode(1).code == Num(ADD) && Decode(2).code == Num(MULT)
    ensures Decode(3).code == Num(INP) && Decode(4).code == Num(OUT)
    ensures Decode(7).code == Num(LESS_THAN) && Decode(8).code == Num(EQUALS)
    ensures Decode(99).code == Num(HALT)
    ensures Decode(1002).code == Num(MULT)
    ensures Decode(1107).code == Num(LESS_THAN) && Decode(1108).code == Num(EQUALS)
  {
  }

  /** Events recorded in front of a run that records none. */
  lemma Events2<E>(a: Event, b: Event, r: Final<E>)
    requires r.events == []
    ensures After([a], After([b], r)) == Final(r.outcome, r.state, r.env, [a, b])
  {
    assert [a] + ([b] + []) == [a, b];
  }

  /** The last memory of a run: a HALT at `at`, and its snapshot. */
  lemma HaltsAt(ys: seq<int>, at: nat)
    requires at < |ys| && ys[at] == 99
    ensures Lookup(FromSeq(ys), at) == Some(99) && Snapshot(FromSeq(ys)) == Dense(ys)
  {
    SnapshotFromSeq(ys);
  }

  // ---------------------------------------------------------------------
  // Arithmetic

  /** 1,0,0,0,99: memory[0] + memory[0] into memory[0], then HALT. */
  lemma AddProgram<E>(xs: seq<int>, ys: seq<int>, env: E, ports: Ports<E>)
    requires xs == [1, 0, 0, 0, 99] && ys == [2, 0, 0, 0, 99]
    ensures var r := Evaluate(State(FromSeq(xs), 0), env, ports, 2);
      r.outcome == Halted(Dense(ys)) && r.events == [] && r.env == env
  {
    Codes();
    AddMemory(xs, ys);
    HaltsAt(ys, 4);
    RunCompute(State(FromSeq(xs), 0), env, ports, 2, 1, [0, 0, 0], 1, 1);
    RunHalt(State(FromSeq(ys), 4), env, ports, 99, 1);
  }

  lemma AddMemory(xs: seq<int>, ys: seq<int>)
    requires xs == [1, 0, 0, 0, 99] && ys == [2, 0, 0, 0, 99]
    ensures var m := FromSeq(xs);
      && Lookup(m, 0) == Some(1) && Reads(State(m, 1), Decode(1), [0, 0, 0])
      && DerefValue(m, Decode(1).modes[0], 0) == Value(1)
      && DerefValue(m, Decode(1).modes[1], 0) == Value(1)
      && Store(m, 0, Compute(Decode(1).code, 1, 1)) == FromSeq(ys)
  {
    StoreFromSeq(xs, 0, 2);
    assert xs[0 := 2] == ys;
  }

  /** 2,3,0,3,99: memory[3] * memory[0] into memory[3], then HALT. */
  lemma MultProgram<E>(xs: seq<int>, ys: seq<int>, env: E, ports: Ports<E>)
    requires xs == [2, 3, 0, 3, 99] && ys == [2, 3, 0, 6, 99]
    ensures var r := Evaluate(State(FromSeq(xs), 0), env, ports, 2);
      r.outcome == Halted(Dense(ys)) && r.events == [] && r.env == env
  {
    Codes();
    MultMemory(xs, ys);
    HaltsAt(ys, 4);
    RunCompute(State(FromSeq(xs), 0), env, ports, 2, 2, [3, 0, 3], 3, 2);
    RunHalt(State(FromSeq(ys), 4), env, ports, 99, 1);
  }

  lemma MultMemory(xs: seq<int>, ys: seq<int>)
    requires xs == [2, 3, 0, 3, 99] && ys == [2, 3, 0, 6, 99]
    ensures var m := FromSeq(xs);
      && Lookup(m, 0) == Some(2) && Reads(State(m, 1), Decode(2), [3, 0, 3])
      && DerefValue(m, Decode(2).modes[0], 3) == Value(3)
      && DerefValue(m, Decode(2).modes[1], 0) == Value(2)
      && Store(m, 3, Compute(Decode(2).code, 3, 2)) == FromSeq(ys)
  {
    StoreFromSeq(xs, 3, 6);
    assert xs[3 := 6] == ys;
  }

  /** 2,4,4,5,99,0: memory[4] squared into memory[5], then HALT. */
  lemma SquareProgram<E>(xs: seq<int>, ys: seq<int>, env: E, ports: Ports<E>)
    requires xs == [2, 4, 4, 5, 99, 0] && ys == [2, 4, 4, 5, 99, 9801]
    ensures var r := Evaluate(State(FromSeq(xs), 0), env, ports, 2);
      r.outcome == Halted(Dense(ys)) && r.events == [] && r.env == env
  {
    Codes();
    SquareMemory(xs, ys);
    HaltsAt(ys, 4);
    RunCompute(State(FromSeq(xs), 0), env, ports, 2, 2, [4, 4, 5], 99, 99);
    RunHalt(State(FromSeq(ys), 4), env, ports, 99, 1);
  }

  lemma SquareMemory(xs: seq<int>, ys: seq<int>)
    requires xs == [2, 4, 4, 5, 99, 0] && ys == [2, 4, 4, 5, 99, 9801]
    ensures var m := FromSeq(xs);
      && Lookup(m, 0) == Some(2) && Reads(State(m, 1), Decode(2), [4, 4, 5])
      && DerefValue(m, Decode(2).modes[0], 4) == Value(99)
      && DerefValue(m, Decode(2).modes[1], 4) == Value(99)
      && Store(m, 5, Compute(Decode(2).code, 99, 99)) == FromSeq(ys)
  {
    StoreFromSeq(xs, 5, 9801);
    assert xs[5 := 9801] == ys;
  }

  /** 1,1,1,4,99,5,6,0,99: the first instruction overwrites the HALT at 4
      with a MULT, which then writes 30 into memory[0]. */
  lemma SelfModifyingProgram<E>(xs: seq<int>, ys: seq<int>, env: E, ports: Ports<E>)
    requires xs == [1, 1, 1, 4, 99, 5, 6, 0, 99] && ys == [30, 1, 1, 4, 2, 5, 6, 0, 99]
    ensures var r := Evaluate(State(FromSeq(xs), 0), env, ports, 3);
      r.outcome == Halted(Dense(ys)) && r.events == [] && r.env == env
  {
    var mid := [1, 1, 1, 4, 2, 5, 6, 0, 99];
    Codes();
    SelfModifyingFirst(xs, mid);
    SelfModifyingSecond(mid, ys);
    HaltsAt(ys, 8);
    RunCompute(State(FromSeq(xs), 0), env, ports, 3, 1, [1, 1, 4], 1, 1);
    RunCompute(State(FromSeq(mid), 4), env, ports, 2, 2, [5, 6, 0], 5, 6);
    RunHalt(State(FromSeq(ys), 8), env, ports, 99, 1);
  }

  lemma SelfModifyingFirst(xs: seq<int>, mid: seq<int>)
    requires xs == [1, 1, 1, 4, 99, 5, 6, 0, 99] && mid == [1, 1, 1, 4, 2, 5, 6, 0, 99]
    ensures var m := FromSeq(xs);
      && Lookup(m, 0) == Some(1) && Reads(State(m, 1), Decode(1), [1, 1, 4])
      && DerefValue(m, Decode(1).modes[0], 1) == Value(1)
      && DerefValue(m, Decode(1).modes[1], 1) == Value(1)
      && Store(m, 4, Compute(Decode(1).code, 1, 1)) == FromSeq(mid)
  {
    StoreFromSeq(xs, 4, 2);
    assert xs[4 := 2] == mid;
  }

  lemma SelfModifyingSecond(mid: seq<int>, ys: seq<int>)
    requires mid == [1, 1, 1, 4, 2, 5, 6, 0, 99] && ys == [30, 1, 1, 4, 2, 5, 6, 0, 99]
    ensures var m := FromSeq(mid);
      && Lookup(m, 4) == Some(2) && Reads(State(m, 5), Decode(2), [5, 6, 0])
      && DerefValue(m, Decode(2).modes[0], 5) == Value(5)
      && DerefValue(m, Decode(2).modes[1], 6) == Value(6)
      && Store(m, 0, Compute(Decode(2).code, 5, 6)) == FromSeq(ys)
  {
    StoreFromSeq(mid, 0, 30);
    assert mid[0 := 30] == ys;
  }

  /** 1002,4,3,4,33: code 2 with an immediate second operand, so memory[4]
      becomes 33 * 3 = 99, the HALT the cursor reaches next. */
  lemma ImmediateModeProgram<E>(xs: seq<int>, ys: seq<int>, env: E, ports: Ports<E>)
    requires xs == [1002, 4, 3, 4, 33] && ys == [1002, 4, 3, 4, 99]
    ensures var r := Evaluate(State(FromSeq(xs), 0), env, ports, 2);
      r.outcome == Halted(Dense(ys)) && r.events == [] && r.env == env
  {
    Codes();
    ImmediateModeMemory(xs, ys);
    HaltsAt(ys, 4);
    RunCompute(State(FromSeq(xs), 0), env, ports, 2, 1002, [4, 3, 4], 33, 3);
    RunHalt(State(FromSeq(ys), 4), env, ports, 99, 1);
  }

  lemma ImmediateModeMemory(xs: seq<int>, ys: seq<int>)
    requires xs == [1002, 4, 3, 4, 33] && ys == [1002, 4, 3, 4, 99]
    ensures var m := FromSeq(xs);
      && Lookup(m, 0) == Some(1002) && Reads(State(m, 1), Decode(1002), [4, 3, 4])
      && DerefValue(m, Decode(1002).modes[0], 4) == Value(33)
      && DerefValue(m, Decode(1002).modes[1], 3) == Value(3)
      && Store(m, 4, Compute(Decode(1002).code, 33, 3)) == FromSeq(ys)
  {
    StoreFromSeq(xs, 4, 99);
    assert xs[4 := 99] == ys;
  }

  // ---------------------------------------------------------------------
  // Input and output

  /** 3,5,4,5,99: whatever the input callback returns is stored past the
      end of the program and handed to the output callback. */
  lemma EchoProgram<E>(xs: seq<int>, ys: seq<int>, env: E, ports: Ports<E>, v: int, env1: E, env2: E)
    requires xs == [3, 5, 4, 5, 99] && ys == [3, 5, 4, 5, 99, v]
    requires ports.input(env) == Ok((v, env1)) && ports.output(env1, v) == Ok(env2)
    ensures var r := Evaluate(State(FromSeq(xs), 0), env, ports, 3);
      r.outcome == Halted(Dense(ys)) && r.events == [In(v), Out(v)] && r.env == env2
  {
    Codes();
    EchoInput(xs, ys, v);
    EchoOutput(ys, v);
    HaltsAt(ys, 4);
    RunInput(State(FromSeq(xs), 0), env, ports, 3, 3, [5], v, env1);
    RunOutput(State(FromSeq(ys), 2), env1, ports, 2, 4, [5], v, env2);
    RunHalt(State(FromSeq(ys), 4), env2, ports, 99, 1);
    Events2(In(v), Out(v), Evaluate(State(FromSeq(ys), 4), env2, ports, 1));
  }

  lemma EchoInput(xs: seq<int>, ys: seq<int>, v: int)
    requires xs == [3, 5, 4, 5, 99] && ys == [3, 5, 4, 5, 99, v]
    ensures var m := FromSeq(xs);
      && Lookup(m, 0) == Some(3) && Reads(State(m, 1), Decode(3), [5])
      && Store(m, 5, v) == FromSeq(ys)
  {
    StoreAppend(xs, v);
    assert xs + [v] == ys;
  }

  lemma EchoOutput(ys: seq<int>, v: int)
    requires ys == [3, 5, 4, 5, 99, v]
    ensures var m := FromSeq(ys);
      && Lookup(m, 2) == Some(4) && Reads(State(m, 3), Decode(4), [5])
      && DerefValue(m, Decode(4).modes[0], 5) == Value(v)
  {
  }

  // ---------------------------------------------------------------------
  // Comparisons: code 8 tests for equality, code 7 for less than

  /** 3, 9, 8, 9, 10, 9, 4, 9, 99, -1, 8: the input is compared for equality with the 8 at address 10, through positional operands, and the result output. */
  lemma EqualsPositionProgram<E>(xs: seq<int>, env: E, ports: Ports<E>, v: int, env1: E, env2: E)
    requires xs == [3, 9, 8, 9, 10, 9, 4, 9, 99, -1, 8]
    requires ports.input(env) == Ok((v, env1))
    requires ports.output(env1, if v == 8 then 1 else 0) == Ok(env2)
    ensures var bit := if v == 8 then 1 else 0;
      var r := Evaluate(State(FromSeq(xs), 0), env, ports, 4);
      && r.outcome == Halted(Dense([3, 9, 8, 9, 10, 9, 4, 9, 99, bit, 8]))
      && r.events == [In(v), Out(bit)] && r.env == env2
  {
    var bit := if v == 8 then 1 else 0;
    var m1 := [3, 9, 8, 9, 10, 9, 4, 9, 99, v, 8];
    var m2 := [3, 9, 8, 9, 10, 9, 4, 9, 99, bit, 8];
    Codes();
    EqualsPositionInput(xs, m1, v);
    EqualsPositionTest(m1, v);
    EqualsPositionWrite(m1, m2, v);
    EqualsPositionOutput(m2, bit);
    HaltsAt(m2, 8);
    RunInput(State(FromSeq(xs), 0), env, ports, 4, 3, [9], v, env1);
    RunCompute(State(FromSeq(m1), 2), env1, ports, 3, 8, [9, 10, 9], v, 8);
    RunOutput(State(FromSeq(m2), 6), env1, ports, 2, 4, [9], bit, env2);
    RunHalt(State(FromSeq(m2), 8), env2, ports, 99, 1);
    Events2(In(v), Out(bit), Evaluate(State(FromSeq(m2), 8), env2, ports, 1));
  }

  lemma EqualsPositionInput(xs: seq<int>, m1: seq<int>, v: int)
    requires xs == [3, 9, 8, 9, 10, 9, 4, 9, 99, -1, 8] && m1 == [3, 9, 8, 9, 10, 9, 4, 9, 99, v, 8]
    ensures var m := FromSeq(xs);
      && Lookup(m, 0) == Some(3) && Reads(State(m, 1), Decode(3), [9])
      && Store(m, 9, v) == FromSeq(m1)
  {
    StoreFromSeq(xs, 9, v);
    assert xs[9 := v] == m1;
  }

  lemma EqualsPositionTest(m1: seq<int>, v: int)
    requires m1 == [3, 9, 8, 9, 10, 9, 4, 9, 99, v, 8]
    ensures var m := FromSeq(m1);
      Lookup(m, 2) == Some(8) && Reads(State(m, 3), Decode(8), [9, 10, 9])
      && DerefValue(m, Decode(8).modes[0], 9) == Value(v)
      && DerefValue(m, Decode(8).modes[1], 10) == Value(8)
  {
  }

  lemma EqualsPositionWrite(m1: seq<int>, m2: seq<int>, v: int)
    requires m1 == [3, 9, 8, 9, 10, 9, 4, 9, 99, v, 8]
    requires m2 == [3, 9, 8, 9, 10, 9, 4, 9, 99, if v == 8 then 1 else 0, 8]
    ensures var m := FromSeq(m1);
      Store(m, 9, Compute(Decode(8).code, v, 8)) == FromSeq(m2)
  {
    StoreFromSeq(m1, 9, if v == 8 then 1 else 0);
    assert m1[9 := if v == 8 then 1 else 0] == m2;
  }

  lemma EqualsPositionOutput(m2: seq<int>, bit: int)
    requires m2 == [3, 9, 8, 9, 10, 9, 4, 9, 99, bit, 8]
    ensures var m := FromSeq(m2);
      && Lookup(m, 6) == Some(4) && Reads(State(m, 7), Decode(4), [9])
      && DerefValue(m, Decode(4).modes[0], 9) == Value(bit)
  {
  }

  /** 3, 9, 7, 9, 10, 9, 4, 9, 99, -1, 8: the input is compared with the 8 at address 10, through positional operands, and the result (1 for less than 8) output. */
  lemma LessPositionProgram<E>(xs: seq<int>, env: E, ports: Ports<E>, v: int, env1: E, env2: E)
    requires xs == [3, 9, 7, 9, 10, 9, 4, 9, 99, -1, 8]
    requires ports.input(env) == Ok((v, env1))
    requires ports.output(env1, if v < 8 then 1 else 0) == Ok(env2)
    ensures var bit := if v < 8 then 1 else 0;
      var r := Evaluate(State(FromSeq(xs), 0), env, ports, 4);
      && r.outcome == Halted(Dense([3, 9, 7, 9, 10, 9, 4, 9, 99, bit, 8]))
      && r.events == [In(v), Out(bit)] && r.env == env2
  {
    var bit := if v < 8 then 1 else 0;
    var m1 := [3, 9, 7, 9, 10, 9, 4, 9, 99, v, 8];
    var m2 := [3, 9, 7, 9, 10, 9, 4, 9, 99, bit, 8];
    Codes();
    LessPositionInput(xs, m1, v);
    LessPositionTest(m1, v);
    LessPositionWrite(m1, m2, v);
    LessPositionOutput(m2, bit);
    HaltsAt(m2, 8);
    RunInput(State(FromSeq(xs), 0), env, ports, 4, 3, [9], v, env1);
    RunCompute(State(FromSeq(m1), 2), env1, ports, 3, 7, [9, 10, 9], v, 8);
    RunOutput(State(FromSeq(m2), 6), env1, ports, 2, 4, [9], bit, env2);
    RunHalt(State(FromSeq(m2), 8), env2, ports, 99, 1);
    Events2(In(v), Out(bit), Evaluate(State(FromSeq(m2), 8), env2, ports, 1));
  }

  lemma LessPositionInput(xs: seq<int>, m1: seq<int>, v: int)
    requires xs == [3, 9, 7, 9, 10, 9, 4, 9, 99, -1, 8] && m1 == [3, 9, 7, 9, 10, 9, 4, 9, 99, v, 8]
    ensures var m := FromSeq(xs);
      && Lookup(m, 0) == Some(3) && Reads(State(m, 1), Decode(3), [9])
      && Store(m, 9, v) == FromSeq(m1)
  {
    StoreFromSeq(xs, 9, v);
    assert xs[9 := v] == m1;
  }

  lemma LessPositionTest(m1: seq<int>, v: int)
    requires m1 == [3, 9, 7, 9, 10, 9, 4, 9, 99, v, 8]
    ensures var m := FromSeq(m1);
      Lookup(m, 2) == Some(7) && Reads(State(m, 3), Decode(7), [9, 10, 9])
      && DerefValue(m, Decode(7).modes[0], 9) == Value(v)
      && DerefValue(m, Decode(7).modes[1], 10) == Value(8)
  {
  }

  lemma LessPositionWrite(m1: seq<int>, m2: seq<int>, v: int)
    requires m1 == [3, 9, 7, 9, 10, 9, 4, 9, 99, v, 8]
    requires m2 == [3, 9, 7, 9, 10, 9, 4, 9, 99, if v < 8 then 1 else 0, 8]
    ensures var m := FromSeq(m1);
      Store(m, 9, Compute(Decode(7).code, v, 8)) == FromSeq(m2)
  {
    StoreFromSeq(m1, 9, if v < 8 then 1 else 0);
    assert m1[9 := if v < 8 then 1 else 0] == m2;
  }

  lemma LessPositionOutput(m2: seq<int>, bit: int)
    requires m2 == [3, 9, 7, 9, 10, 9, 4, 9, 99, bit, 8]
    ensures var m := FromSeq(m2);
      && Lookup(m, 6) == Some(4) && Reads(State(m, 7), Decode(4), [9])
      && DerefValue(m, Decode(4).modes[0], 9) == Value(bit)
  {
  }

  /** 3, 3, 1108, -1, 8, 3, 4, 3, 99: the input is written over the first operand of an immediate-mode comparison with 8, which then overwrites it with the result that is output. */
  lemma EqualsImmediateProgram<E>(xs: seq<int>, env: E, ports: Ports<E>, v: int, env1: E, env2: E)
    requires xs == [3, 3, 1108, -1, 8, 3, 4, 3, 99]
    requires ports.input(env) == Ok((v, env1))
    requires ports.output(env1, if v == 8 then 1 else 0) == Ok(env2)
    ensures var bit := if v == 8 then 1 else 0;
      var r := Evaluate(State(FromSeq(xs), 0), env, ports, 4);
      && r.outcome == Halted(Dense([3, 3, 1108, bit, 8, 3, 4, 3, 99]))
      && r.events == [In(v), Out(bit)] && r.env == env2
  {
    var bit := if v == 8 then 1 else 0;
    var m1 := [3, 3, 1108, v, 8, 3, 4, 3, 99];
    var m2 := [3, 3, 1108, bit, 8, 3, 4, 3, 99];
    Codes();
    EqualsImmediateInput(xs, m1, v);
    EqualsImmediateTest(m1, v);
    EqualsImmediateWrite(m1, m2, v);
    EqualsImmediateOutput(m2, bit);
    HaltsAt(m2, 8);
    RunInput(State(FromSeq(xs), 0), env, ports, 4, 3, [3], v, env1);
    RunCompute(State(FromSeq(m1), 2), env1, ports, 3, 1108, [v, 8, 3], v, 8);
    RunOutput(State(FromSeq(m2), 6), env1, ports, 2, 4, [3], bit, env2);
    RunHalt(State(FromSeq(m2), 8), env2, ports, 99, 1);
    Events2(In(v), Out(bit), Evaluate(State(FromSeq(m2), 8), env2, ports, 1));
  }

  lemma EqualsImmediateInput(xs: seq<int>, m1: seq<int>, v: int)
    requires xs == [3, 3, 1108, -1, 8, 3, 4, 3, 99] && m1 == [3, 3, 1108, v, 8, 3, 4, 3, 99]
    ensures var m := FromSeq(xs);
      && Lookup(m, 0) == Some(3) && Reads(State(m, 1), Decode(3), [3])
      && Store(m, 3, v) == FromSeq(m1)
  {
    StoreFromSeq(xs, 3, v);
    assert xs[3 := v] == m1;
  }

  lemma EqualsImmediateTest(m1: seq<int>, v: int)
    requires m1 == [3, 3, 1108, v, 8, 3, 4, 3, 99]
    ensures var m := FromSeq(m1);
      Lookup(m, 2) == Some(1108) && Reads(State(m, 3), Decode(1108), [v, 8, 3])
      && DerefValue(m, Decode(1108).modes[0], v) == Value(v)
      && DerefValue(m, Decode(1108).modes[1], 8) == Value(8)
  {
  }

  lemma EqualsImmediateWrite(m1: seq<int>, m2: seq<int>, v: int)
    requires m1 == [3, 3, 1108, v, 8, 3, 4, 3, 99]
    requires m2 == [3, 3, 1108, if v == 8 then 1 else 0, 8, 3, 4, 3, 99]
    ensures var m := FromSeq(m1);
      Store(m, 3, Compute(Decode(1108).code, v, 8)) == FromSeq(m2)
  {
    StoreFromSeq(m1, 3, if v == 8 then 1 else 0);
    assert m1[3 := if v == 8 then 1 else 0] == m2;
  }

  lemma EqualsImmediateOutput(m2: seq<int>, bit: int)
    requires m2 == [3, 3, 1108, bit, 8, 3, 4, 3, 99]
    ensures var m := FromSeq(m2);
      && Lookup(m, 6) == Some(4) && Reads(State(m, 7), Decode(4), [3])
      && DerefValue(m, Decode(4).modes[0], 3) == Value(bit)
  {
  }

  /** 3, 3, 1107, -1, 8, 3, 4, 3, 99: as above, with the less-than comparison. */
  lemma LessImmediateProgram<E>(xs: seq<int>, env: E, ports: Ports<E>, v: int, env1: E, env2: E)
    requires xs == [3, 3, 1107, -1, 8, 3, 4, 3, 99]
    requires ports.input(env) == Ok((v, env1))
    requires ports.output(env1, if v < 8 then 1 else 0) == Ok(env2)
    ensures var bit := if v < 8 then 1 else 0;
      var r := Evaluate(State(FromSeq(xs), 0), env, ports, 4);
      && r.outcome == Halted(Dense([3, 3, 1107, bit, 8, 3, 4, 3, 99]))
      && r.events == [In(v), Out(bit)] && r.env == env2
  {
    var bit := if v < 8 then 1 else 0;
    var m1 := [3, 3, 1107, v, 8, 3, 4, 3, 99];
    var m2 := [3, 3, 1107, bit, 8, 3, 4, 3, 99];
    Codes();
    LessImmediateInput(xs, m1, v);
    LessImmediateTest(m1, v);
    LessImmediateWrite(m1, m2, v);
    LessImmediateOutput(m2, bit);
    HaltsAt(m2, 8);
    RunInput(State(FromSeq(xs), 0), env, ports, 4, 3, [3], v, env1);
    RunCompute(State(FromSeq(m1), 2), env1, ports, 3, 1107, [v, 8, 3], v, 8);
    RunOutput(State(FromSeq(m2), 6), env1, ports, 2, 4, [3], bit, env2);
    RunHalt(State(FromSeq(m2), 8), env2, ports, 99, 1);
    Events2(In(v), Out(bit), Evaluate(State(FromSeq(m2), 8), env2, ports, 1));
  }

  lemma LessImmediateInput(xs: seq<int>, m1: seq<int>, v: int)
    requires xs == [3, 3, 1107, -1, 8, 3, 4, 3, 99] && m1 == [3, 3, 1107, v, 8, 3, 4, 3, 99]
    ensures var m := FromSeq(xs);
      && Lookup(m, 0) == Some(3) && Reads(State(m, 1), Decode(3), [3])
      && Store(m, 3, v) == FromSeq(m1)
  {
    StoreFromSeq(xs, 3, v);
    assert xs[3 := v] == m1;
  }

  lemma LessImmediateTest(m1: seq<int>, v: int)
    requires m1 == [3, 3, 1107, v, 8, 3, 4, 3, 99]
    ensures var m := FromSeq(m1);
      Lookup(m, 2) == Some(1107) && Reads(State(m, 3), Decode(1107), [v, 8, 3])
      && DerefValue(m, Decode(1107).modes[0], v) == Value(v)
      && DerefValue(m, Decode(1107).modes[1], 8) == Value(8)
  {
  }

  lemma LessImmediateWrite(m1: seq<int>, m2: seq<int>, v: int)
    requires m1 == [3, 3, 1107, v, 8, 3, 4, 3, 99]
    requires m2 == [3, 3, 1107, if v < 8 then 1 else 0, 8, 3, 4, 3, 99]
    ensures var m := FromSeq(m1);
      Store(m, 3, Compute(Decode(1107).code, v, 8)) == FromSeq(m2)
  {
    StoreFromSeq(m1, 3, if v < 8 then 1 else 0);
    assert m1[3 := if v < 8 then 1 else 0] == m2;
  }

  lemma LessImmediateOutput(m2: seq<int>, bit: int)
    requires m2 == [3, 3, 1107, bit, 8, 3, 4, 3, 99]
    ensures var m := FromSeq(m2);
      && Lookup(m, 6) == Some(4) && Reads(State(m, 7), Decode(4), [3])
      && DerefValue(m, Decode(4).modes[0], 3) == Value(bit)
  {
  }

}
