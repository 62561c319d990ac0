/** The protected-call wrappers, as programs on the Lua stack (sections 3.1 and 3.7 of the Lua
    5.1 Reference Manual). */
module LuaCalls {

  datatype Value = Nil | Number(n: int) | Text(text: string) | Function(id: nat) | Table(id: nat)

  datatype Outcome = Success(results: seq<Value>) | Failure(error: Value)

  /** The surroundings of a call: the globals, the fields of tables, what each function does
      with its arguments, and what a chunk of source compiles to. */
  datatype Machine = Machine(
    global: string -> Value, field: (Value, string) -> Value,
    run: (nat, seq<Value>) -> Outcome, compile: string -> Outcome)

  const MULTRET: int := -1

  /** The error handler the wrappers push: StackTraceback. */
  const HANDLER: Value := Function(0)

  /** Calling a value that is no function is an error too. */
  function Call(m: Machine, f: Value, args: seq<Value>): Outcome {
    if f.Function? then m.run(f.id, args) else Failure(Text("attempt to call a value that is not a function"))
  }

  /** As many results as asked for: cut off, or filled up with nil; all of them for MULTRET. */
  function Adjusted(results: seq<Value>, n: int): (r: seq<Value>)
    ensures |r| == if n >= 0 then n else |results|
    ensures forall k | 0 <= k < |r| :: r[k] == if k < |results| then results[k] else Nil
  {
    if n < 0 || n == |results| then results
    else if n < |results| then results[..n]
    else results + seq(n - |results|, _ => Nil)
  }

  /** The global "debug" is a table with a function "traceback" that takes the error and the
      level, and succeeds. */
  predicate Traces(m: Machine, error: Value) {
    && m.global("debug").Table? && m.field(m.global("debug"), "traceback").Function?
    && m.run(m.field(m.global("debug"), "traceback").id, [error, Number(2)]).Success?
  }

  /** The message StackTraceback makes of an error: the first thing such a function returns, or the
      error itself. */
  function Traceback(m: Machine, error: Value): (r: Value)
    ensures !Traces(m, error) ==> r == error
    ensures Traces(m, error) ==>
              var results := m.run(m.field(m.global("debug"), "traceback").id, [error, Number(2)]).results;
              r == if results == [] then Nil else results[0]
  {
    var debug := m.global("debug");
    var f := m.field(debug, "traceback");
    if !debug.Table? || !f.Function? then error
    else
      match Call(m, f, [error, Number(2)])
      case Success(results) => Adjusted(results, 1)[0]
      case Failure(_) => error
  }

  class LuaState {
    const machine: Machine
    var stack: seq<Value>

    constructor (machine: Machine, stack: seq<Value>)
      ensures this.machine == machine && this.stack == stack
    {
      this.machine, this.stack := machine, stack;
    }

    // ----- the API, with 1-based stack positions -----

    method Push(v: Value)
      modifies this
      ensures stack == old(stack) + [v]
    {
      stack := stack + [v];
    }

    method Pop(n: nat)
      requires n <= |stack|
      modifies this
      ensures stack == old(stack)[..|old(stack)| - n]
    {
      stack := stack[..|stack| - n];
    }

    /** lua_insert: the top element moves to position `i`, everything from there up by one. */
    method Insert(i: nat)
      requires 1 <= i <= |stack|
      modifies this
      ensures var s := old(stack);
              stack == s[..i - 1] + [s[|s| - 1]] + s[i - 1..|s| - 1]
    {
      stack := stack[..i - 1] + [stack[|stack| - 1]] + stack[i - 1..|stack| - 1];
    }

    method Remove(i: nat)
      requires 1 <= i <= |stack|
      modifies this
      ensures stack == old(stack)[..i - 1] + old(stack)[i..]
    {
      stack := stack[..i - 1] + stack[i..];
    }

    /** lua_pcall: the function and its arguments go; then the results, or one error value,
        which the handler at position `handler` has seen unless that is 0. */
    method PCall(nargs: nat, nresults: int, handler: nat) returns (ok: bool)
      requires nargs + 1 <= |stack| && nresults >= MULTRET
      requires handler > 0 ==> handler <= |stack| - nargs - 1 && stack[handler - 1] == HANDLER
      modifies this
      ensures var base := |old(stack)| - nargs - 1;
              var outcome := Call(machine, old(stack)[base], old(stack)[base + 1..]);
              && ok == outcome.Success?
              && stack == old(stack)[..base] +
                          (match outcome
                           case Success(results) => Adjusted(results, nresults)
                           case Failure(e) => [if handler > 0 then Traceback(machine, e) else e])
      ensures var base := |old(stack)| - nargs - 1;
              var (f, args) := (old(stack)[base], old(stack)[base + 1..]);
              && (f.Function? ==> Call(machine, f, args) == machine.run(f.id, args))
              && (!f.Function? ==> !ok)
              && (f.Function? && machine.run(f.id, args).Failure? && handler > 0 ==>
                    var e := machine.run(f.id, args).error;
                    stack == old(stack)[..base] +
                             [if Traces(machine, e) then
                                var r := machine.run(machine.field(machine.global("debug"), "traceback").id,
                                                     [e, Number(2)]).results;
                                if r == [] then Nil else r[0]
                              else e])
    {
      var base := |stack| - nargs - 1;
      match Call(machine, stack[base], stack[base + 1..])
      case Success(results) =>
        stack := stack[..base] + Adjusted(results, nresults);
        return true;
      case Failure(e) =>
        stack := stack[..base] + [if handler > 0 then Traceback(machine, e) else e];
        return false;
    }

    // ----- the wrappers -----

    /** StackTraceback: returns one value, the message made of the error on top, and never
        touches what was below. */
    method StackTraceback() returns (count: nat)
      requires stack != []
      modifies this
      ensures count == 1 && old(stack) <= stack
      ensures stack[|stack| - 1] == Traceback(machine, old(stack)[|old(stack)| - 1])
      ensures var (e, debug) := (old(stack)[|old(stack)| - 1], machine.global("debug"));
              var g := machine.field(debug, "traceback");
              if debug.Table? && g.Function? && machine.run(g.id, [e, Number(2)]).Success?
              then var r := machine.run(g.id, [e, Number(2)]).results;
                   stack[|stack| - 1] == if r == [] then Nil else r[0]
              else stack == old(stack)
    {
      hide Adjusted, Call;
      ghost var s := stack;
      Push(machine.global("debug"));
      if !stack[|stack| - 1].Table? {
        Pop(1);
        return 1;
      }
      Push(machine.field(stack[|stack| - 1], "traceback"));
      if !stack[|stack| - 1].Function? {
        Pop(2);
        return 1;
      }
      Push(stack[|stack| - 3]);
      Push(Number(2));
      assert stack[|stack| - 2..] == [s[|s| - 1], Number(2)];
      var ok := PCall(2, 1, 0);
      if !ok {
        Pop(2);
        return 1;
      }
      return 1;
    }

    /** SafeCallScript leaves the stack as it found it, whatever happens. */
    method SafeCallScript(source: string) returns (ok: bool)
      modifies this
      ensures stack == old(stack)
      ensures ok == (machine.compile(source).Success? &&
                     Call(machine, Adjusted(machine.compile(source).results, 1)[0], []).Success?)
    {
      Push(HANDLER);
      var handler := |stack|;
      match machine.compile(source) {
        case Failure(e) =>
          Push(e);
          Pop(2);
          return false;
        case Success(chunk) =>
          Push(Adjusted(chunk, 1)[0]);
      }
      var ran := PCall(0, 0, handler);
      if !ran {
        Pop(2);
        return false;
      }
      Pop(1);
      return true;
    }

    /** SafeCallGlobalFunction: on success exactly the results are added, on failure nothing. */
    method SafeCallGlobalFunction(name: string, retc: int) returns (ok: bool)
      requires retc >= MULTRET
      modifies this
      ensures var outcome := Call(machine, machine.global(name), []);
              && ok == outcome.Success?
              && stack == old(stack) + (if ok then Adjusted(outcome.results, retc) else [])
    {
      hide Adjusted, Call, Traceback;
      ghost var s := stack;
      Push(HANDLER);
      var handler := |stack|;
      Push(machine.global(name));
      assert stack[..|s| + 1] == s + [HANDLER] && stack[|s| + 2..] == [];
      ok := PCall(0, retc, handler);
      if ok {
        Remove(handler);
      } else {
        Pop(2);
      }
    }

    /** The rotation that brings the handler and the function below the arguments. */
    method PlaceBelowArguments(argc: nat, ghost below: seq<Value>, ghost args: seq<Value>, ghost f: Value)
      requires |args| == argc && stack == below + args + [HANDLER, f]
      modifies this
      ensures stack == below + [HANDLER, f] + args
    {
      var base := |stack| - 2 - argc;
      if argc > 0 {
        Insert(base + 1);
        assert stack == below + [f] + args + [HANDLER];
        Insert(base + 1);
        assert stack == below + [HANDLER] + ([f] + args);
      }
    }

    /** SafeCallGlobalFunctionB: the arguments go.  On failure, or without such a function,
        nothing else changes.  On success the results come in their place -- unless all results
        are asked for: then the last of them is dropped and the handler stays below them. */
    method SafeCallGlobalFunctionB(name: string, argc: nat, retc: int) returns (ok: bool)
      requires argc <= |stack| && retc >= MULTRET
      modifies this
      ensures (ok, stack) == CallB(machine, old(stack), name, argc, retc)
      ensures var below, args := old(stack)[..|old(stack)| - argc], old(stack)[|old(stack)| - argc..];
              var outcome := Call(machine, machine.global(name), args);
              && ok == (machine.global(name).Function? && outcome.Success?)
              && stack == below + (if ok then Returned(outcome.results, retc) else [])
              && (ok ==> (stack == below + Adjusted(outcome.results, retc) <==>
                          retc >= 0 || OnlyHandlers(outcome.results)))
    {
      hide Returned, Adjusted, Traceback, Call, OnlyHandlers, CallB;
      ghost var (below, args) := (stack[..|stack| - argc], stack[|stack| - argc..]);
      ghost var s := stack;
      assert s == below + args && below + [] == below;
      CallBIs(machine, s, below, args, name, argc, retc);
      var base := |stack| - argc;
      var f := machine.global(name);
      Push(HANDLER);
      Push(f);
      if !stack[|stack| - 1].Function? {
        Pop(argc + 2);
        assert stack == below;
        return false;
      }
      assert stack == below + args + [HANDLER, f];
      PlaceBelowArguments(argc, below, args, f);
      ok := CallPlaced(base, argc, retc, below, args, f);
    }

    /** The call itself, with the handler and the function below the arguments. */
    method CallPlaced(base: nat, argc: nat, retc: int, ghost below: seq<Value>, ghost args: seq<Value>, ghost f: Value)
      returns (ok: bool)
      requires |below| == base && |args| == argc && retc >= MULTRET && stack == below + [HANDLER, f] + args
      modifies this
      ensures var outcome := Call(machine, f, args);
              && ok == outcome.Success?
              && stack == (if ok then below + Returned(outcome.results, retc) else below)
              && (ok ==> (stack == below + Adjusted(outcome.results, retc) <==>
                          retc >= 0 || OnlyHandlers(outcome.results)))
    {
      hide Returned, Adjusted, Traceback, Call, OnlyHandlers;
      assert stack[..base + 1] == below + [HANDLER] && stack[base + 2..] == args;
      var ran := PCall(argc, retc, base + 1);
      if !ran {
        Pop(2);
        assert stack == below;
        return false;
      }
      ghost var results := Call(machine, f, args).results;
      DropHandler(base, retc, below, results);
      ReturnsResultsIff(results, retc);
      SameAbove(below, Returned(results, retc), Adjusted(results, retc));
      return true;
    }

    /** The end of a successful call: the handler is removed from below the results, or, when
        none were asked for by number, one element is popped. */
    method DropHandler(base: nat, retc: int, ghost below: seq<Value>, ghost results: seq<Value>)
      requires |below| == base && retc >= MULTRET && stack == below + [HANDLER] + Adjusted(results, retc)
      modifies this
      ensures stack == below + Returned(results, retc)
    {
      hide Adjusted, Returned;
      ghost var top := Adjusted(results, retc);
      Dropped(results, retc);
      HandlerBetween(below, top);
      if retc > 0 {
        Remove(base + 1);
      } else {
        Pop(1);
      }
    }
  }

  lemma HandlerBetween(below: seq<Value>, top: seq<Value>)
    ensures var s := below + [HANDLER] + top;
            s[..|below|] + s[|below| + 1..] == below + top && s[..|s| - 1] == below + ([HANDLER] + top)[..|top|]
  {
  }

  lemma Dropped(results: seq<Value>, retc: int)
    requires retc >= MULTRET
    ensures var top := Adjusted(results, retc);
            Returned(results, retc) == if retc > 0 then top else ([HANDLER] + top)[..|top|]
  {
  }

  /** What SafeCallGlobalFunctionB leaves above the stack it found. */
  function Returned(results: seq<Value>, retc: int): seq<Value> {
    if retc >= 0 || results == [] then Adjusted(results, retc)
    else [HANDLER] + results[..|results| - 1]
  }

  /** Results that cannot be told from the error handler. */
  ghost predicate OnlyHandlers(results: seq<Value>) {
    forall k | 0 <= k < |results| :: results[k] == HANDLER
  }

  /** It leaves exactly the results of a call, exactly when it is not asked for all of them, or
      all of them are the handler itself. */
  lemma ReturnsResultsIff(results: seq<Value>, retc: int)
    requires retc >= MULTRET
    ensures Returned(results, retc) == Adjusted(results, retc) <==> retc >= 0 || OnlyHandlers(results)
  {
    if retc < 0 && results != [] {
      var r := Returned(results, retc);
      if r == results {
        AllAlike(results, |results|);
      } else {
        var k :| 0 <= k < |results| && r[k] != results[k];
        assert r[k] == if k == 0 then HANDLER else results[k - 1];
      }
    }
  }

  lemma {:induction false} AllAlike(results: seq<Value>, n: nat)
    requires results != [] && results == [HANDLER] + results[..|results| - 1] && n <= |results|
    ensures forall k | 0 <= k < n :: results[k] == HANDLER
  {
    if n > 0 {
      AllAlike(results, n - 1);
      assert results[n - 1] == ([HANDLER] + results[..|results| - 1])[n - 1];
    }
  }

  lemma SameAbove(below: seq<Value>, a: seq<Value>, b: seq<Value>)
    ensures below + a == below + b <==> a == b
  {
    assert (below + a)[|below|..] == a && (below + b)[|below|..] == b;
  }

  /** A call of SafeCallGlobalFunctionB: whether it succeeds, and the stack after it. */
  function CallB(m: Machine, stack: seq<Value>, name: string, argc: nat, retc: int): (bool, seq<Value>)
    requires argc <= |stack|
  {
    var (below, args) := (stack[..|stack| - argc], stack[|stack| - argc..]);
    var outcome := Call(m, m.global(name), args);
    var ok := m.global(name).Function? && outcome.Success?;
    (ok, if ok then below + Returned(outcome.results, retc) else below)
  }

  lemma CallBIs(m: Machine, stack: seq<Value>, below: seq<Value>, args: seq<Value>, name: string, argc: nat, retc: int)
    requires argc <= |stack| && below == stack[..|stack| - argc] && args == stack[|stack| - argc..]
    ensures var outcome := Call(m, m.global(name), args);
            var ok := m.global(name).Function? && outcome.Success?;
            CallB(m, stack, name, argc, retc) == (ok, if ok then below + Returned(outcome.results, retc) else below)
  {
  }

  /** What a caller expects of one: exactly the results in place of the arguments. */
  ghost predicate Exact(m: Machine, stack: seq<Value>, name: string, argc: nat, retc: int)
    requires argc <= |stack|
  {
    var (ok, after) := CallB(m, stack, name, argc, retc);
    ok ==> after == stack[..|stack| - argc] +
                    Adjusted(Call(m, m.global(name), stack[|stack| - argc..]).results, retc)
  }

  /** A machine whose only function returns nil. */
  function NilMachine(): Machine {
    Machine(_ => Function(1), (_, _) => Nil, (_, _) => Success([Nil]), _ => Success([]))
  }

  /** Called for all its results, it leaves the handler instead of the nil. */
  lemma HandlerLeft(below: seq<Value>)
    ensures Call(NilMachine(), NilMachine().global("f"), []) == Success([Nil])
    ensures CallB(NilMachine(), below, "f", 0, MULTRET) == (true, below + [HANDLER])
    ensures below + [HANDLER] != below + Adjusted([Nil], MULTRET)
    ensures !Exact(NilMachine(), below, "f", 0, MULTRET)
  {
    assert below[..|below| - 0] == below && below[|below| - 0..] == [];
    assert Returned([Nil], MULTRET) == [HANDLER] + [Nil][..0] == [HANDLER];
    SameAbove(below, [HANDLER], Adjusted([Nil], MULTRET));
  }

  /** Every call, on every machine and stack, leaves exactly its results, exactly when the caller
      asks for a number of them. */
  lemma ExactIff(retc: int)
    requires retc >= MULTRET
    ensures (forall m: Machine, stack, name, argc: nat | argc <= |stack| :: Exact(m, stack, name, argc, retc)) <==>
            retc >= 0
    ensures (forall results: seq<Value> :: Returned(results, retc) == Adjusted(results, retc)) <==> retc >= 0
  {
    if retc < 0 {
      HandlerLeft([]);
      assert Returned([Nil], retc)[0] == HANDLER;
    }
  }
}
