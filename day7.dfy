/** The amplifier search: every ordering of the phases 0..4 is tried on a
    chain of five copies of one program. Each copy first reads its phase,
    then reads the value piped out of the previous copy (0 for the first);
    each value it outputs becomes the piped value. The largest value piped
    out of the last copy, and the first ordering that gives it, are kept.

    Phase orderings are the five-digit tuples over 0..4 with no repeated
    digit; Candidate(n) is the tuple whose base-5 digits spell n, which is
    how the five nested loops enumerate them. */
module Day7 {
  import opened JsText
  import opened JsArray
  import opened Runtime
  import Intcomp
  import IntcompLaws

  // ---------------------------------------------------------------------
  // The uniqueness test

  /** candidate.filter((v, i, self) => self.indexOf(v) === i), over the
      first n entries: the entries kept are those at their first occurrence. */
  function FirstOccurrences(c: seq<int>, n: nat): (kept: seq<int>)
    requires n <= |c|
    ensures |kept| <= n
  {
    if n == 0 then []
    else FirstOccurrences(c, n - 1) + (if IndexOf(c, c[n - 1]) == n - 1 then [c[n - 1]] else [])
  }

  /** The filtered candidate is as long as the candidate. */
  predicate IsUnique(c: seq<int>) {
    |FirstOccurrences(c, |c|)| == |c|
  }

  ghost predicate Distinct(c: seq<int>) {
    forall i, j :: 0 <= i < j < |c| ==> c[i] != c[j]
  }

  /** The entry at k is at its first occurrence. */
  ghost predicate AtFirst(c: seq<int>, k: int)
    requires 0 <= k < |c|
  {
    IndexOf(c, c[k]) == k
  }

  /** Every one of the first n entries is kept exactly when each of them is
      at its first occurrence. */
  lemma {:induction false} AllKept(c: seq<int>, n: nat)
    requires n <= |c|
    ensures |FirstOccurrences(c, n)| == n <==> forall k :: 0 <= k < n ==> AtFirst(c, k)
    decreases n
  {
    if n > 0 {
      AllKept(c, n - 1);
      var kept := AtFirst(c, n - 1);
      assert |FirstOccurrences(c, n)| == |FirstOccurrences(c, n - 1)| + (if kept then 1 else 0);
    }
  }

  /** The uniqueness test holds exactly for candidates with no repeated entry. */
  lemma UniqueIffDistinct(c: seq<int>)
    ensures IsUnique(c) <==> Distinct(c)
  {
    AllKept(c, |c|);
    if IsUnique(c) {
      forall i, j | 0 <= i < j < |c|
        ensures c[i] != c[j]
      {
        assert AtFirst(c, j);
        IndexOfFirst(c, c[j]);
      }
    } else {
      var k :| 0 <= k < |c| && !AtFirst(c, k);
      IndexOfFirst(c, c[k]);
      var i := IndexOf(c, c[k]);
      assert 0 <= i < k && c[i] == c[k];
    }
  }

  // ---------------------------------------------------------------------
  // phaseSettings

  const RADIX := 5
  const COUNT := 3125

  /** Five digits, each one of 0..4. */
  ghost predicate Digits(p: seq<int>) {
    |p| == 5 && forall i :: 0 <= i < 5 ==> 0 <= p[i] < RADIX
  }

  /** A phase ordering: five digits, none repeated. */
  ghost predicate IsPermutation(p: seq<int>) {
    Digits(p) && Distinct(p)
  }

  /** The number a tuple spells in base 5: its place in the loops' order. */
  function Code(p: seq<int>): int
    requires |p| == 5
  {
    p[0] * 625 + p[1] * 125 + p[2] * 25 + p[3] * 5 + p[4]
  }

  /** The last k digits of n in base 5, the most significant first. */
  function Base5(n: nat, k: nat): (p: seq<int>)
    ensures |p| == k
  {
    if k == 0 then [] else Base5(n / RADIX, k - 1) + [n % RADIX]
  }

  /** The n-th tuple the nested loops visit. */
  function Candidate(n: nat): seq<int> {
    Base5(n, 5)
  }

  /** The n-th tuple spells n. */
  lemma CandidateDigits(n: nat)
    requires n < COUNT
    ensures Digits(Candidate(n)) && Code(Candidate(n)) == n
  {
    Base5Five(n);
  }

  lemma Base5Five(n: nat)
    ensures Candidate(n) == [n / 5 / 5 / 5 / 5 % 5, n / 5 / 5 / 5 % 5, n / 5 / 5 % 5, n / 5 % 5, n % 5]
  {
    var n1, n2, n3, n4 := n / 5, n / 5 / 5, n / 5 / 5 / 5, n / 5 / 5 / 5 / 5;
    assert Base5(n4, 1) == [n4 % 5] by {
      assert Base5(n4 / 5, 0) == [];
    }
    assert Base5(n3, 2) == Base5(n4, 1) + [n3 % 5];
    assert Base5(n2, 3) == Base5(n3, 2) + [n2 % 5];
    assert Base5(n1, 4) == Base5(n2, 3) + [n1 % 5];
    assert Base5(n, 5) == Base5(n1, 4) + [n % 5];
  }

  /** The loops' result once the first n tuples were visited. */
  ghost function Upto(n: nat): seq<seq<int>>
    requires n <= COUNT
  {
    if n == 0 then []
    else Upto(n - 1) + (if Distinct(Candidate(n - 1)) then [Candidate(n - 1)] else [])
  }

  /** A tuple is visited at the place its digits spell. */
  lemma CandidateOfCode(p: seq<int>)
    requires Digits(p)
    ensures 0 <= Code(p) < COUNT && Candidate(Code(p)) == p
  {
    var n := Code(p);
    Base5Five(n);
    assert n / 5 == p[0] * 125 + p[1] * 25 + p[2] * 5 + p[3];
    assert n / 5 / 5 == p[0] * 25 + p[1] * 5 + p[2];
    assert n / 5 / 5 / 5 == p[0] * 5 + p[1];
    assert n / 5 / 5 / 5 / 5 == p[0];
  }

  /** p[..k] == q[..k] && p[k] < q[k] for some k: p comes first in the
      lexicographic order. */
  ghost predicate LexLess(p: seq<int>, q: seq<int>) {
    |p| == |q| && exists k :: 0 <= k < |p| && p[..k] == q[..k] && p[k] < q[k]
  }

  /** A smaller code is a lexicographically earlier tuple. */
  lemma CodeOrder(p: seq<int>, q: seq<int>)
    requires Digits(p) && Digits(q) && Code(p) < Code(q)
    ensures LexLess(p, q)
  {
    var k := if p[0] != q[0] then 0 else if p[1] != q[1] then 1 else if p[2] != q[2] then 2
      else if p[3] != q[3] then 3 else 4;
    assert p[..k] == q[..k];
    assert p[k] < q[k];
  }

  /** The tuples kept so far were visited before the n-th, in the order
      visited. */
  lemma {:induction false} UptoOrdered(n: nat)
    requires n <= COUNT
    ensures forall i :: 0 <= i < |Upto(n)| ==> Digits(Upto(n)[i]) && Code(Upto(n)[i]) < n
    ensures forall i, j :: 0 <= i < j < |Upto(n)| ==>
      |Upto(n)[i]| == |Upto(n)[j]| == 5 && Code(Upto(n)[i]) < Code(Upto(n)[j])
    decreases n
  {
    if n > 0 {
      var u := Upto(n - 1);
      UptoOrdered(n - 1);
      var c := Candidate(n - 1);
      CandidateDigits(n - 1);
      assert Upto(n) == u + (if Distinct(c) then [c] else []);
      if Distinct(c) {
        OrderedAppend(u, c, n);
      }
    }
  }

  /** UptoOrdered's step: a tuple coded n - 1 extends an ordered list of
      tuples coded below n - 1. */
  lemma OrderedAppend(u: seq<seq<int>>, c: seq<int>, n: nat)
    requires Digits(c) && Code(c) == n - 1
    requires forall i :: 0 <= i < |u| ==> Digits(u[i]) && Code(u[i]) < n - 1
    requires forall i, j :: 0 <= i < j < |u| ==>
      |u[i]| == |u[j]| == 5 && Code(u[i]) < Code(u[j])
    ensures var r := u + [c];
      && (forall i :: 0 <= i < |r| ==> Digits(r[i]) && Code(r[i]) < n)
      && (forall i, j :: 0 <= i < j < |r| ==> |r[i]| == |r[j]| == 5 && Code(r[i]) < Code(r[j]))
  {
    var r := u + [c];
    forall i | 0 <= i < |r|
      ensures Digits(r[i]) && Code(r[i]) < n
    {
      if i < |u| {
        assert r[i] == u[i];
      } else {
        assert r[i] == c;
      }
    }
    forall i, j | 0 <= i < j < |r|
      ensures |r[i]| == |r[j]| == 5 && Code(r[i]) < Code(r[j])
    {
      assert r[i] == u[i];
      if j < |u| {
        assert r[j] == u[j];
      } else {
        assert r[j] == c;
      }
    }
  }

  /** The tuples kept so far are exactly the phase orderings visited so far. */
  lemma {:induction false} UptoMembers(n: nat)
    requires n <= COUNT
    ensures forall p :: p in Upto(n) ==> IsPermutation(p)
    ensures forall p :: IsPermutation(p) && Code(p) < n ==> p in Upto(n)
    decreases n
  {
    if n > 0 {
      var u := Upto(n - 1);
      UptoMembers(n - 1);
      var c := Candidate(n - 1);
      CandidateDigits(n - 1);
      var r := Upto(n);
      assert r == u + (if Distinct(c) then [c] else []);
      forall p | p in r
        ensures IsPermutation(p)
      {
        if p !in u {
          assert Distinct(c) && r == u + [c];
          assert p == c;
        }
      }
      forall p | IsPermutation(p) && Code(p) < n
        ensures p in r
      {
        if Code(p) == n - 1 {
          CandidateOfCode(p);
          assert p == c;
        } else {
          assert p in u;
        }
      }
    }
  }

  /** The loops' n-th turn visits the tuple (a, b, c, d, e). */
  lemma Visit(a: int, b: int, c: int, d: int, e: int, n: int)
    requires 0 <= a < 5 && 0 <= b < 5 && 0 <= c < 5 && 0 <= d < 5 && 0 <= e < 5
    requires n == a * 625 + b * 125 + c * 25 + d * 5 + e
    ensures 0 <= n < COUNT
    ensures Upto(n + 1) == Upto(n) + (if Distinct([a, b, c, d, e]) then [[a, b, c, d, e]] else [])
  {
    CandidateOfCode([a, b, c, d, e]);
  }

  /** The uniqueness test as the loops run it: it passes exactly the
      candidates with no repeated entry. */
  method CheckUnique(candidate: seq<int>) returns (isUnique: bool)
    ensures isUnique <==> Distinct(candidate)
  {
    isUnique := IsUnique(candidate);
    UniqueIffDistinct(candidate);
  }

  /** phaseSettings: the five nested loops, keeping each tuple that passes
      the uniqueness test. The result is every phase ordering, each once,
      in lexicographic order. */
  method PhaseSettings() returns (result: seq<seq<int>>)
    ensures result == Upto(COUNT)
    ensures forall p :: p in result <==> IsPermutation(p)
    ensures forall i, j :: 0 <= i < j < |result| ==> LexLess(result[i], result[j])
  {
    result := [];
    ghost var n := 0;
    for a := 0 to 5
      invariant n == a * 625 && result == Upto(n)
    {
      for b := 0 to 5
        invariant n == a * 625 + b * 125 && result == Upto(n)
      {
        for c := 0 to 5
          invariant n == a * 625 + b * 125 + c * 25 && result == Upto(n)
        {
          for d := 0 to 5
            invariant n == a * 625 + b * 125 + c * 25 + d * 5 && result == Upto(n)
          {
            for e := 0 to 5
              invariant n == a * 625 + b * 125 + c * 25 + d * 5 + e && result == Upto(n)
            {
              var candidate := [a, b, c, d, e];
              Visit(a, b, c, d, e, n);
              var isUnique := CheckUnique(candidate);
              if isUnique {
                result := result + [candidate];
              }
              n := n + 1;
            }
          }
        }
      }
    }
    SettingsAreOrderings();
  }

  /** The tuples the loops keep are every phase ordering, each once, in
      lexicographic order. */
  lemma SettingsAreOrderings()
    ensures forall p :: p in Upto(COUNT) <==> IsPermutation(p)
    ensures forall i, j :: 0 <= i < j < |Upto(COUNT)| ==> LexLess(Upto(COUNT)[i], Upto(COUNT)[j])
  {
    var r := Upto(COUNT);
    UptoMembers(COUNT);
    UptoOrdered(COUNT);
    forall p | IsPermutation(p)
      ensures p in r
    {
      CandidateOfCode(p);
    }
    forall i, j | 0 <= i < j < |r|
      ensures LexLess(r[i], r[j])
    {
      CodeOrder(r[i], r[j]);
    }
  }

  // ---------------------------------------------------------------------
  // runAmplifiers

  /** The variables an amplifier's callbacks close over: makeInput's
      calledOnce and initVal, and runAmplifiers' pipedValue. */
  datatype Amp = Amp(calledOnce: bool, initVal: int, piped: int)

  /** makeInput(initVal): the phase on the first call, the piped value on
      every later one. */
  function AmpInput(a: Amp): Reply<(int, Amp)> {
    if a.calledOnce then Ok((a.piped, a)) else Ok((a.initVal, a.(calledOnce := true)))
  }

  /** makeOutput(): every output becomes the piped value. */
  function AmpOutput(a: Amp, v: int): Reply<Amp> {
    Ok(a.(piped := v))
  }

  function AmpPorts(): Ports<Amp> {
    Ports(AmpInput, AmpOutput)
  }

  /** What the chain gives: the piped value at the end, the error a run
      threw (it propagates out of runAmplifiers), or a run still going. */
  datatype Chained = Piped(value: int) | Threw(fault: Fault) | Unfinished

  /** The amplifiers run in order, each on a fresh fork of `program`
      reading its phase and then the piped value. A run that ends by HALT
      or by an exit code passes the piped value on. */
  function Amplify(program: Memory, phases: seq<int>, piped: int, fuel: nat): Chained
    decreases |phases|
  {
    if phases == [] then Piped(piped)
    else
      var f := Intcomp.Evaluate(State(program, 0), Amp(false, phases[0], piped), AmpPorts(), fuel);
      match f.outcome
      case Thrown(e) => Threw(e)
      case OutOfFuel => Unfinished
      case _ => Amplify(program, phases[1..], f.env.piped, fuel)
  }

  /** The last of vs, or d when vs is empty. */
  function LastOr(vs: seq<int>, d: int): int {
    if vs == [] then d else vs[|vs| - 1]
  }

  lemma {:induction false} LastOrAppend(a: seq<int>, b: seq<int>, d: int)
    ensures LastOr(a + b, d) == LastOr(b, LastOr(a, d))
  {
    if b == [] {
      assert a + b == a;
    }
  }

  /** An amplifier's first input is its phase and every later one the piped
      value. */
  lemma AmpInputOrder(phase: int, piped: int)
    ensures AmpInput(Amp(false, phase, piped)) == Ok((phase, Amp(true, phase, piped)))
    ensures AmpInput(Amp(true, phase, piped)) == Ok((piped, Amp(true, phase, piped)))
  {
  }

  /** After a run of one amplifier the piped value is the last value it
      output, or the value it started with when it output nothing; its phase
      is left alone. */
  lemma {:induction false} AmpRunPipes(s: State, a: Amp, fuel: nat)
    ensures var f := Intcomp.Evaluate(s, a, AmpPorts(), fuel);
      f.env.piped == LastOr(Outputs(f.events), a.piped) && f.env.initVal == a.initVal
    decreases fuel
  {
    if fuel > 0 {
      var first := Intcomp.Step(s, a, AmpPorts());
      Intcomp.EvaluateStep(s, a, AmpPorts(), fuel, first);
      AmpStepPipes(s, a);
      if first.Next? {
        var rest := Intcomp.Evaluate(first.state, first.env, AmpPorts(), fuel - 1);
        AmpRunPipes(first.state, first.env, fuel - 1);
        OutputsAppend(first.events, rest.events);
        LastOrAppend(Outputs(first.events), Outputs(rest.events), a.piped);
      }
    }
  }

  /** AmpRunPipes for one turn of the loop. */
  lemma AmpStepPipes(s: State, a: Amp)
    ensures var r := Intcomp.Step(s, a, AmpPorts());
      && (r.Stop? ==> r.env == a)
      && r.env.piped == LastOr(Outputs(r.events), a.piped) && r.env.initVal == a.initVal
  {
    IntcompLaws.StepEnv(s, a, AmpPorts());
    assert forall v :: AmpPorts().output(a, v) == Ok(a.(piped := v));
    var r := Intcomp.Step(s, a, AmpPorts());
    assert r.events == [] || |r.events| == 1;
  }

  /** The value an amplifier passes down the chain is the last value it
      output, or the value it was handed when it output nothing. */
  lemma AmplifyPipes(program: Memory, phases: seq<int>, piped: int, fuel: nat)
    requires phases != []
    ensures var f := Intcomp.Evaluate(State(program, 0), Amp(false, phases[0], piped), AmpPorts(), fuel);
      !f.outcome.Thrown? && !f.outcome.OutOfFuel? ==>
        Amplify(program, phases, piped, fuel) == Amplify(program, phases[1..], LastOr(Outputs(f.events), piped), fuel)
  {
    AmpRunPipes(State(program, 0), Amp(false, phases[0], piped), fuel);
  }

  /** runAmplifiers(phases): amplifiers A..E, each a fork of `forkable`
      with its own input and output callbacks, share one piped value that
      starts at 0. */
  method RunAmplifiers(forkable: Intcomp.Machine<Amp>, phases: seq<int>, fuel: nat) returns (r: Chained)
    requires |phases| == 5
    ensures r == Amplify(Slice(forkable.memory), phases, 0, fuel)
  {
    var pipedValue := 0;
    var phaseIndex := 0;
    while phaseIndex < 5
      invariant 0 <= phaseIndex <= 5
      invariant Amplify(Slice(forkable.memory), phases, 0, fuel) == Amplify(Slice(forkable.memory), phases[phaseIndex..], pipedValue, fuel)
    {
      var program := forkable.Fork();
      program := program.WithIO(AmpInput, AmpOutput);
      assert program.Wiring() == AmpPorts();
      var outcome, env', events := program.Run(Intcomp.NoOptions(), Amp(false, phases[phaseIndex], pipedValue), fuel);
      if outcome.Thrown? {
        return Threw(outcome.fault);
      } else if outcome.OutOfFuel? {
        return Unfinished;
      }
      assert phases[phaseIndex..][1..] == phases[phaseIndex + 1..];
      pipedValue := env'.piped;
      phaseIndex := phaseIndex + 1;
    }
    r := Piped(pipedValue);
  }

  // ---------------------------------------------------------------------
  // The search for the largest value

  /** The chain's value for every ordering in turn, or the first failure. */
  datatype Sweep = Swept(values: seq<int>) | Broke(failure: Chained)

  function Amplified(program: Memory, settings: seq<seq<int>>, fuel: nat): (r: Sweep)
    ensures r.Swept? ==> |r.values| == |settings|
    ensures r.Swept? ==> forall k :: 0 <= k < |settings| ==> Amplify(program, settings[k], 0, fuel) == Piped(r.values[k])
    decreases |settings|
  {
    if settings == [] then Swept([])
    else
      var n := |settings| - 1;
      match Amplified(program, settings[..n], fuel)
      case Broke(c) => Broke(c)
      case Swept(vs) =>
        match Amplify(program, settings[n], 0, fuel)
        case Piped(v) => Swept(vs + [v])
        case c => Broke(c)
  }

  /** maxValue and maxPhases. */
  datatype Best = Best(maxValue: int, maxPhases: Option<seq<int>>)

  /** The forEach over the orderings: a value replaces the best so far only
      when it is strictly greater. */
  function Scan(settings: seq<seq<int>>, values: seq<int>): Best
    requires |settings| == |values|
  {
    if settings == [] then Best(0, None)
    else
      var n := |settings| - 1;
      var b := Scan(settings[..n], values[..n]);
      if values[n] > b.maxValue then Best(values[n], Some(settings[n])) else b
  }

  /** maxValue is the largest value, or 0 when none is positive; maxPhases
      is undefined exactly when no value is positive, and otherwise is the
      first ordering that reaches maxValue. */
  lemma {:induction false} ScanFirstMaximum(settings: seq<seq<int>>, values: seq<int>)
    requires |settings| == |values|
    ensures var b := Scan(settings, values);
      && b.maxValue >= 0
      && (forall i :: 0 <= i < |values| ==> values[i] <= b.maxValue)
      && (b.maxPhases.None? <==> forall i :: 0 <= i < |values| ==> values[i] <= 0)
      && (b.maxPhases.None? ==> b.maxValue == 0)
      && (b.maxPhases.Some? ==> exists j :: 0 <= j < |values| && IsFirstMax(settings, values, j, b))
    decreases |settings|
  {
    if settings != [] {
      var n := |settings| - 1;
      var b := Scan(settings[..n], values[..n]);
      ScanFirstMaximum(settings[..n], values[..n]);
      if values[n] > b.maxValue {
        assert IsFirstMax(settings, values, n, Scan(settings, values));
      } else if b.maxPhases.Some? {
        var j :| 0 <= j < n && IsFirstMax(settings[..n], values[..n], j, b);
        assert IsFirstMax(settings, values, j, b);
      }
    }
  }

  /** settings[j] is maxPhases, values[j] is maxValue, and no earlier value
      reached it. */
  ghost predicate IsFirstMax(settings: seq<seq<int>>, values: seq<int>, j: int, b: Best)
    requires |settings| == |values| && 0 <= j < |values|
  {
    && b.maxPhases == Some(settings[j]) && values[j] == b.maxValue
    && forall i :: 0 <= i < j ==> values[i] < b.maxValue
  }

  /** The search over the orderings; `failure` is what the chain threw or
      left unfinished, which ends the search. */
  method MaxSearch(forkable: Intcomp.Machine<Amp>, settings: seq<seq<int>>, fuel: nat)
    returns (maxValue: int, maxPhases: Option<seq<int>>, failure: Option<Chained>)
    requires forall k :: 0 <= k < |settings| ==> |settings[k]| == 5
    ensures var sweep := Amplified(Slice(forkable.memory), settings, fuel);
      && (sweep.Broke? ==> failure == Some(sweep.failure))
      && (sweep.Swept? ==> failure == None && Best(maxValue, maxPhases) == Scan(settings, sweep.values))
  {
    maxValue, maxPhases := 0, None;
    ghost var values: seq<int> := [];
    for i := 0 to |settings|
      invariant Amplified(Slice(forkable.memory), settings[..i], fuel) == Swept(values)
      invariant Best(maxValue, maxPhases) == Scan(settings[..i], values)
    {
      var phases := settings[i];
      var value := RunAmplifiers(forkable, phases, fuel);
      SweepExtends(Slice(forkable.memory), settings, i, values, fuel);
      if !value.Piped? {
        failure := Some(value);
        AmplifiedBreaks(Slice(forkable.memory), settings, i + 1, fuel);
        return;
      }
      ScanExtends(settings, values, i, value.value);
      if value.value > maxValue {
        maxValue, maxPhases := value.value, Some(phases);
      }
      values := values + [value.value];
    }
    failure := None;
    assert settings[..|settings|] == settings;
  }

  /** The sweep of one more ordering adds that ordering's value, or breaks. */
  lemma SweepExtends(program: Memory, settings: seq<seq<int>>, i: nat, values: seq<int>, fuel: nat)
    requires i < |settings| && Amplified(program, settings[..i], fuel) == Swept(values)
    ensures var c := Amplify(program, settings[i], 0, fuel);
      Amplified(program, settings[..i + 1], fuel) == if c.Piped? then Swept(values + [c.value]) else Broke(c)
  {
    assert settings[..i + 1][..i] == settings[..i];
  }

  /** Scanning one more value replaces the best only when it is greater. */
  lemma ScanExtends(settings: seq<seq<int>>, values: seq<int>, i: nat, v: int)
    requires i < |settings| && |values| == i
    ensures var b := Scan(settings[..i], values);
      Scan(settings[..i + 1], values + [v]) == if v > b.maxValue then Best(v, Some(settings[i])) else b
  {
    assert settings[..i + 1][..i] == settings[..i];
    assert (values + [v])[..i] == values;
  }

  /** Once the sweep of a prefix broke, so does the sweep of the whole. */
  lemma {:induction false} AmplifiedBreaks(program: Memory, settings: seq<seq<int>>, n: nat, fuel: nat)
    requires n <= |settings| && Amplified(program, settings[..n], fuel).Broke?
    ensures Amplified(program, settings, fuel) == Amplified(program, settings[..n], fuel)
    decreases |settings| - n
  {
    if n < |settings| {
      assert settings[..n + 1][..n] == settings[..n];
      AmplifiedBreaks(program, settings, n + 1, fuel);
    } else {
      assert settings[..n] == settings;
    }
  }

  /** The whole puzzle: every phase ordering through the chain, keeping the
      first largest value. */
  method Solve(forkable: Intcomp.Machine<Amp>, fuel: nat)
    returns (maxValue: int, maxPhases: Option<seq<int>>, failure: Option<Chained>)
    ensures var sweep := Amplified(Slice(forkable.memory), Upto(COUNT), fuel);
      && (sweep.Broke? ==> failure == Some(sweep.failure))
      && (sweep.Swept? ==> failure == None && Best(maxValue, maxPhases) == Scan(Upto(COUNT), sweep.values))
  {
    var phaseSettings := PhaseSettings();
    assert forall k :: 0 <= k < |phaseSettings| ==> phaseSettings[k] in phaseSettings;
    maxValue, maxPhases, failure := MaxSearch(forkable, phaseSettings, fuel);
  }
}
