/** How client code uses stack_cleaner: a scope opens with a named cleaner,
    runs wrapped calls, and on leaving the scope, normally or because a call
    raised an error, the cleaner's destructor runs. Programs of wrapped calls
    with such scopes are modelled as a small language, `Op`, whose meaning
    `Exec` is stated over LuaStack; `Run` executes the same programs with the
    Wrap classes and is proved to agree with `Exec`. */
module Usage {
  import opened LuaStack
  import opened Wrap

  /** One wrapped call, or a scope guarded by a stack_cleaner. */
  datatype Op =
    | PushBooleanOp(b: bool)
    | PushIntegerOp(i: int32)
    | PushNilOp
    | PushStringOp(s: string)
    | PushCFunctionOp(f: CFunction)
    | PushCClosureOp(f: CFunction, nup: int)
    | NewTableOp
    | PopOp(n: int)
      /** Any other wrapped call, by its stack effect (see State.Foreign). */
    | ForeignOp(consumed: nat, produced: seq<Value>, raises: bool)
      /** `{ stack_cleaner c(s); body; if (forget) c.forget(); }` */
    | Guarded(body: seq<Op>, forget: bool)

  /** The outcome of running a program: the final interpreter, whether an
      error is propagating out of it, and the lowest depth the stack had at
      any moment of the run (including in the middle of a call that consumes
      entries before it pushes). */
  datatype Trace = Trace(after: Lua, thrown: bool, low: nat)

  /** How many top entries an unguarded call consumes before it pushes. */
  function Consumed(op: Op): int
    requires !op.Guarded?
  {
    match op
    case PushCClosureOp(_, nup) => nup
    case PopOp(n) => n
    case ForeignOp(k, _, _) => k
    case _ => 0
  }

  /** One unguarded call: the interpreter afterwards, or the error that the
      wrapper raises without touching the stack. Every call reaches only the
      top `Consumed(op)` entries. */
  function Step(l: Lua, op: Op): (r: Result<Lua>)
    requires !op.Guarded?
    ensures r.Ok? <==> 0 <= Consumed(op) <= Top(l)
    ensures r.Ok? ==> Top(l) - Consumed(op) <= Top(r.value)
    ensures r.Ok? ==> r.value.stack[..Top(l) - Consumed(op)] == l.stack[..Top(l) - Consumed(op)]
  {
    match op
    case PushBooleanOp(b) => Ok(PushBoolean(l, b))
    case PushIntegerOp(i) => Ok(PushInteger(l, i))
    case PushNilOp => Ok(PushNil(l))
    case PushStringOp(s) => Ok(PushString(l, s))
    case PushCFunctionOp(f) => Ok(PushCFunction(l, f))
    case PushCClosureOp(f, nup) => PushCClosure(l, f, nup)
    case NewTableOp => Ok(NewTable(l))
    case PopOp(n) => LuaStack.Pop(l, n)
    case ForeignOp(k, p, _) => Rewrite(l, k, p)
  }

  /** Every unguarded call never lowers the table counter and keeps it ahead
      of the stack's tables, unless it is a foreign call that produces a
      table the counter never handed out. */
  lemma StepKeepsWellFormed(l: Lua, op: Op)
    requires !op.Guarded? && WellFormed(l)
    requires op.ForeignOp? ==> forall v | v in op.produced :: TablesBelow(v, l.tables)
    ensures Step(l, op).Ok? ==> WellFormed(Step(l, op).value)
    ensures Step(l, op).Ok? ==> l.tables <= Step(l, op).value.tables
  {
    match op
    case PushBooleanOp(b) => PushAddsOne(l, Boolean(b));
    case PushIntegerOp(i) => PushAddsOne(l, Number(i as int));
    case PushNilOp => PushAddsOne(l, Nil);
    case PushStringOp(s) => PushAddsOne(l, Str(s));
    case PushCFunctionOp(f) => PushAddsOne(l, Function(f, []));
    case _ =>
  }

  /** The meaning of a program. A call that fails, or a foreign call that
      raises, stops the run; the enclosing cleaners still release on the way
      out, and a `forget()` at the end of a scope that raised is never reached.
      The run never disturbs the entries below its lowest depth. */
  function Exec(l: Lua, ops: seq<Op>): (t: Trace)
    ensures t.low <= Top(l) && t.low <= Top(t.after)
    ensures t.after.stack[..t.low] == l.stack[..t.low]
    decreases ops
  {
    if ops == [] then Trace(l, false, Top(l))
    else if ops[0].Guarded? then
      var b := Exec(l, ops[0].body);
      var r := Lua(Released(b.after.stack, Top(l), ops[0].forget && !b.thrown), b.after.tables);
      assert r.stack[..b.low] == b.after.stack[..b.low];
      if b.thrown then Trace(r, true, b.low)
      else Continue(r, b.low, l, ops)
    else
      match Step(l, ops[0])
      case Err(_) => Trace(l, true, Top(l))
      case Ok(next) =>
        var dip: nat := Top(l) - Consumed(ops[0]);
        if ops[0].ForeignOp? && ops[0].raises then Trace(next, true, dip)
        else Continue(next, dip, l, ops)
  }

  /** The rest of a run after its first operation left `next`, having gone no
      lower than `dip`. */
  function Continue(next: Lua, dip: nat, l: Lua, ops: seq<Op>): (t: Trace)
    requires ops != []
    requires dip <= Top(l) && dip <= Top(next)
    requires next.stack[..dip] == l.stack[..dip]
    ensures t.low <= Top(l) && t.low <= Top(t.after)
    ensures t.after.stack[..t.low] == l.stack[..t.low]
    decreases ops, 0
  {
    var rest := Exec(next, ops[1..]);
    var low := Min(dip, rest.low);
    assert rest.after.stack[..low] == next.stack[..low];
    assert next.stack[..low] == l.stack[..low];
    Trace(rest.after, rest.thrown, low)
  }

  // ---------------------------------------------------------------------
  // Properties of guarded scopes

  /** Running two programs one after the other: an error in the first skips
      the second; otherwise the second starts where the first ended. */
  lemma {:induction false} ExecAppend(l: Lua, a: seq<Op>, c: seq<Op>)
    ensures Exec(l, a).thrown ==> Exec(l, a + c) == Exec(l, a)
    ensures !Exec(l, a).thrown ==>
      var tc := Exec(Exec(l, a).after, c);
      Exec(l, a + c) == Trace(tc.after, tc.thrown, Min(Exec(l, a).low, tc.low))
    decreases a
  {
    if a == [] {
      assert a + c == c;
    } else {
      assert (a + c)[0] == a[0];
      assert (a + c)[1..] == a[1..] + c;
      if a[0].Guarded? {
        var b := Exec(l, a[0].body);
        var r := Lua(Released(b.after.stack, Top(l), a[0].forget && !b.thrown), b.after.tables);
        if !b.thrown {
          ExecAppend(r, a[1..], c);
        }
      } else {
        match Step(l, a[0])
        case Err(_) =>
        case Ok(next) =>
          if !(a[0].ForeignOp? && a[0].raises) {
            ExecAppend(next, a[1..], c);
          }
      }
    }
  }

  /** A program that is one guarded scope: its body runs, then the cleaner
      releases, with cleanup off only when the body finished and forgot. */
  lemma ExecGuarded(l: Lua, body: seq<Op>, forget: bool)
    ensures
      var b := Exec(l, body);
      Exec(l, [Guarded(body, forget)])
        == Trace(Lua(Released(b.after.stack, Top(l), forget && !b.thrown), b.after.tables), b.thrown, b.low)
  {
    var ops := [Guarded(body, forget)];
    var b := Exec(l, body);
    var r := Lua(Released(b.after.stack, Top(l), forget && !b.thrown), b.after.tables);
    assert ops[1..] == [];
    assert Exec(r, ops[1..]) == Trace(r, false, Top(r));
    if !b.thrown {
      assert Exec(l, ops) == Continue(r, b.low, l, ops);
    }
  }

  /** A scope guarded by a cleaner, on every way out of it, normal or by an
      error: a body that never went below the depth recorded at the scope's
      start leaves the stack exactly as it was before the scope; in any case
      the cleaner only pops what the body left, down to the recorded depth or
      not at all when the body left the stack shorter than that. */
  lemma GuardRestores(l: Lua, body: seq<Op>)
    ensures Exec(l, [Guarded(body, false)]).thrown == Exec(l, body).thrown
    ensures Exec(l, body).low >= Top(l) ==> Exec(l, [Guarded(body, false)]).after.stack == l.stack
    ensures Exec(l, [Guarded(body, false)]).after.stack <= Exec(l, body).after.stack
    ensures Top(Exec(l, [Guarded(body, false)]).after) == Min(Top(Exec(l, body).after), Top(l))
    ensures Exec(l, [Guarded(body, false)]).after.tables == Exec(l, body).after.tables
  {
    ExecGuarded(l, body, false);
    var b := Exec(l, body);
    if b.low >= Top(l) {
      assert b.after.stack[..Top(l)] == l.stack;
    }
  }

  /** A scope that ends by calling forget() keeps everything its body left;
      if its body raised, forget() was never reached and the cleaner
      releases as usual. */
  lemma ForgetKeeps(l: Lua, body: seq<Op>)
    ensures !Exec(l, body).thrown ==> Exec(l, [Guarded(body, true)]).after == Exec(l, body).after
    ensures Exec(l, body).thrown ==> Exec(l, [Guarded(body, true)]) == Exec(l, [Guarded(body, false)])
  {
    ExecGuarded(l, body, true);
    ExecGuarded(l, body, false);
  }

  /** No foreign call anywhere in `op`, also inside nested scopes, produces a
      table the counter `bound` has not handed out. */
  predicate ForeignBelow(op: Op, bound: nat)
    decreases op
  {
    match op
    case ForeignOp(_, produced, _) => forall v | v in produced :: TablesBelow(v, bound)
    case Guarded(body, _) => forall o | o in body :: ForeignBelow(o, bound)
    case _ => true
  }

  /** Raising the counter keeps ForeignBelow. */
  lemma ForeignBelowMonotone(op: Op, lo: nat, hi: nat)
    requires lo <= hi && ForeignBelow(op, lo)
    ensures ForeignBelow(op, hi)
    decreases op
  {
    match op
    case ForeignOp(_, produced, _) =>
      forall v | v in produced ensures TablesBelow(v, hi) {
        TablesBelowMonotone(v, lo, hi);
      }
    case Guarded(body, _) =>
      forall o | o in body ensures ForeignBelow(o, hi) {
        ForeignBelowMonotone(o, lo, hi);
      }
    case _ =>
  }

  /** A prefix of a well-formed stack, under the same counter, is well-formed:
      a cleaner's release keeps the interpreter well-formed. */
  lemma PrefixKeepsWellFormed(l: Lua, keep: seq<Value>)
    requires WellFormed(l) && keep <= l.stack
    ensures WellFormed(Lua(keep, l.tables))
  {
    forall v | v in keep ensures TablesBelow(v, l.tables) {
      var i :| 0 <= i < |keep| && keep[i] == v;
      assert l.stack[i] == v;
    }
  }

  /** A whole program, guarded scopes and error unwinding included, keeps the
      interpreter well-formed and never lowers the table counter, so the
      freshness of new_table holds at every point of the run, as long as no
      foreign call in it produces a table the counter never handed out. */
  lemma {:induction false} ExecKeepsWellFormed(l: Lua, ops: seq<Op>)
    requires WellFormed(l)
    requires forall o | o in ops :: ForeignBelow(o, l.tables)
    ensures WellFormed(Exec(l, ops).after) && l.tables <= Exec(l, ops).after.tables
    decreases ops
  {
    if ops != [] {
      var op := ops[0];
      assert op in ops;
      if op.Guarded? {
        ExecKeepsWellFormed(l, op.body);
        var b := Exec(l, op.body);
        var r := Lua(Released(b.after.stack, Top(l), op.forget && !b.thrown), b.after.tables);
        PrefixKeepsWellFormed(b.after, r.stack);
        if !b.thrown {
          forall o | o in ops[1..] ensures ForeignBelow(o, r.tables) {
            assert o in ops;
            ForeignBelowMonotone(o, l.tables, r.tables);
          }
          ExecKeepsWellFormed(r, ops[1..]);
          assert Exec(l, ops) == Continue(r, b.low, l, ops);
        }
      } else {
        StepKeepsWellFormed(l, op);
        match Step(l, op)
        case Err(_) =>
        case Ok(next) =>
          if !(op.ForeignOp? && op.raises) {
            forall o | o in ops[1..] ensures ForeignBelow(o, next.tables) {
              assert o in ops;
              ForeignBelowMonotone(o, l.tables, next.tables);
            }
            ExecKeepsWellFormed(next, ops[1..]);
            assert Exec(l, ops) == Continue(next, Top(l) - Consumed(op), l, ops);
          }
      }
    }
  }

  /** Nested scopes compose: after outer code `pre`, an inner guarded scope
      whose body stays above the inner cleaner's depth removes only what it
      pushed, leaving pre's values in place; if `pre` itself stayed above the
      outer depth, the outer cleaner then restores the outer stack. */
  lemma {:induction false} NestedGuards(l: Lua, pre: seq<Op>, inner: seq<Op>)
    requires !Exec(l, pre).thrown
    requires Exec(Exec(l, pre).after, inner).low >= Top(Exec(l, pre).after)
    ensures Exec(l, pre + [Guarded(inner, false)]).after.stack == Exec(l, pre).after.stack
    ensures Exec(l, pre + [Guarded(inner, false)]).thrown == Exec(Exec(l, pre).after, inner).thrown
    ensures Exec(l, pre).low >= Top(l) ==>
      Exec(l, [Guarded(pre + [Guarded(inner, false)], false)]).after.stack == l.stack
  {
    var p := Exec(l, pre);
    ExecAppend(l, pre, [Guarded(inner, false)]);
    GuardRestores(p.after, inner);
    GuardRestores(l, pre + [Guarded(inner, false)]);
  }

  /** The example in lutok's documentation of stack_cleaner: the integers 3
      and 5 pushed under an outer cleaner, then a chunk loaded and called with
      pcall(0, 1, 0) under an inner one. Leaving the inner scope drops the
      call's result and keeps 3 and 5; leaving the outer scope drops those. */
  lemma {:induction false} DocScenario(l: Lua, chunk: Value, result: Value)
    ensures
      var inner := [ForeignOp(0, [chunk], false), ForeignOp(1, [result], false)];
      var outer := [PushIntegerOp(3), PushIntegerOp(5), Guarded(inner, false)];
      && Exec(l, outer).after.stack == l.stack + [Number(3), Number(5)]
      && Exec(l, [Guarded(outer, false)]).after.stack == l.stack
      && !Exec(l, [Guarded(outer, false)]).thrown
  {
    var inner := [ForeignOp(0, [chunk], false), ForeignOp(1, [result], false)];
    var pre := [PushIntegerOp(3), PushIntegerOp(5)];
    var outer := [PushIntegerOp(3), PushIntegerOp(5), Guarded(inner, false)];
    var l1 := Lua(l.stack + [Number(3)], l.tables);
    var l2 := Lua(l.stack + [Number(3), Number(5)], l.tables);
    var l3 := Lua(l2.stack + [chunk], l.tables);
    var l4 := Lua(l2.stack + [result], l.tables);
    // the two pushes
    assert pre[1..][1..] == [];
    assert Exec(l2, pre[1..][1..]) == Trace(l2, false, Top(l2));
    assert l1.stack + [Number(5)] == l2.stack;
    assert Step(l1, pre[1..][0]) == Ok(l2);
    assert Exec(l1, pre[1..]) == Continue(l2, Top(l1), l1, pre[1..]);
    assert Exec(l1, pre[1..]) == Trace(l2, false, Top(l1));
    assert Step(l, pre[0]) == Ok(l1);
    assert Exec(l, pre) == Trace(l2, false, Top(l));
    // load_string, then pcall(0, 1, 0)
    assert inner[1..][1..] == [];
    assert l3.stack[..Top(l3) - 1] + [result] == l4.stack;
    assert Exec(l4, inner[1..][1..]) == Trace(l4, false, Top(l4));
    assert Exec(l3, inner[1..]) == Trace(l4, false, Top(l2));
    assert l2.stack[..Top(l2) - 0] + [chunk] == l3.stack;
    assert Step(l2, inner[0]) == Ok(l3);
    assert Exec(l2, inner) == Continue(l3, Top(l2), l2, inner);
    assert Exec(l2, inner) == Trace(l4, false, Top(l2));
    NestedGuards(l, pre, inner);
    assert pre + [Guarded(inner, false)] == outer;
    ExecAppend(l, pre, [Guarded(inner, false)]);
    GuardRestores(l2, inner);
    GuardRestores(l, outer);
  }

  // ---------------------------------------------------------------------
  // The same programs run with the classes

  /** Runs a program against a State, opening a StackCleaner for each guarded
      scope and releasing it on the way out, whether the body raised or not.
      The resulting interpreter and error are exactly those of Exec, so the
      lemmas above hold of the classes. */
  method Run(st: State, ops: seq<Op>) returns (thrown: bool)
    modifies st
    ensures st.Model() == Exec(old(st.Model()), ops).after
    ensures thrown == Exec(old(st.Model()), ops).thrown
    decreases ops
  {
    thrown := false;
    if ops == [] {
      return;
    }
    ghost var l := st.Model();
    var ok := true;
    match ops[0] {
      case Guarded(body, forget) =>
        var cleaner := new StackCleaner(st);
        var raised := Run(st, body);
        if forget && !raised {
          cleaner.Forget();
        }
        cleaner.Release();
        ok := !raised;
        ExecGuarded(l, body, forget);
        ExecAppend(l, [ops[0]], ops[1..]);
        assert [ops[0]] + ops[1..] == ops;
      case PushBooleanOp(b) => st.PushBoolean(b);
      case PushIntegerOp(i) => st.PushInteger(i);
      case PushNilOp => st.PushNil();
      case PushStringOp(s) => st.PushString(s);
      case PushCFunctionOp(f) => st.PushCFunction(f);
      case PushCClosureOp(f, nup) => ok := st.PushCClosure(f, nup);
      case NewTableOp => st.NewTable();
      case PopOp(n) => ok := st.Pop(n);
      case ForeignOp(k, p, raises) => ok := st.Foreign(k, p, raises);
    }
    if !ok {
      return true;
    }
    thrown := Run(st, ops[1..]);
  }

  /** The documented use of stack_cleaner written against the classes: an
      outer cleaner guards two pushed integers, and each round of a loop loads
      a chunk and calls it under an inner cleaner. Each round's result is
      gone when its cleaner is released, and the integers are gone after the
      outer cleaner. */
  method DocExample(s: State, chunk: Value, result: Value, rounds: nat)
    modifies s
    ensures s.stack == old(s.stack) && s.tables == old(s.tables)
  {
    var cleaner1 := new StackCleaner(s);
    s.PushInteger(3);
    s.PushInteger(5);
    ghost var withInts := s.stack;
    assert withInts == old(s.stack) + [Number(3), Number(5)];
    var i := 0;
    while i < rounds
      invariant s.stack == withInts && s.tables == old(s.tables)
      invariant !cleaner1.forgotten
    {
      var cleaner2 := new StackCleaner(s);
      var loaded := s.Foreign(0, [chunk], false);  // load_string pushes the chunk
      var called := s.Foreign(1, [result], false);  // pcall(0, 1, 0) replaces it by its one result
      cleaner2.Release();
      ReleasedDropsPushes(withInts, [result]);
      i := i + 1;
    }
    cleaner1.Release();
    ReleasedDropsPushes(old(s.stack), [Number(3), Number(5)]);
  }
}
