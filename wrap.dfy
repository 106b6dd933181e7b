/** lutok's `state` and `stack_cleaner` classes over the abstract stack of
    LuaStack. A `state` owns one interpreter; its methods change the one
    shared stack in place. A `stack_cleaner` watches a `state`, records the
    depth at construction and pops back down to it when it is destroyed. */
module Wrap {
  import opened LuaStack

  type CFunction = nat

  /** The session wrapper, reduced to the stack it manipulates. */
  class State {
    var stack: seq<Value>
    var tables: nat

    /** The abstract value of this interpreter. */
    function Model(): Lua
      reads this
    {
      Lua(stack, tables)
    }

    /** get_top: the number of entries on the stack. */
    method GetTop() returns (n: int)
      ensures n == |stack| && n >= 0
    {
      n := |stack|;
    }

    /** pop(n): removes exactly n entries; `ok` is false (lutok raises an
        error) for a negative count or one above the depth, and then nothing
        changes. */
    method Pop(n: int) returns (ok: bool)
      modifies this
      ensures ok <==> 0 <= n <= |old(stack)|
      ensures ok ==> |stack| == |old(stack)| - n && stack <= old(stack)
      ensures Model() == (if ok then LuaStack.Pop(old(Model()), n).value else old(Model()))
    {
      var r := LuaStack.Pop(Model(), n);
      ok := r.Ok?;
      if ok {
        stack, tables := r.value.stack, r.value.tables;
      }
    }

    method PushBoolean(b: bool)
      modifies this
      ensures stack == old(stack) + [Boolean(b)] && tables == old(tables)
      ensures Model() == LuaStack.PushBoolean(old(Model()), b)
    {
      stack := stack + [Boolean(b)];
    }

    method PushInteger(i: int32)
      modifies this
      ensures stack == old(stack) + [Number(i as int)] && tables == old(tables)
      ensures Model() == LuaStack.PushInteger(old(Model()), i)
    {
      stack := stack + [Number(i as int)];
    }

    method PushNil()
      modifies this
      ensures stack == old(stack) + [Nil] && tables == old(tables)
      ensures Model() == LuaStack.PushNil(old(Model()))
    {
      stack := stack + [Nil];
    }

    method PushString(s: string)
      modifies this
      ensures stack == old(stack) + [Str(s)] && tables == old(tables)
      ensures Model() == LuaStack.PushString(old(Model()), s)
    {
      stack := stack + [Str(s)];
    }

    method PushCFunction(f: CFunction)
      modifies this
      ensures stack == old(stack) + [Function(f, [])] && tables == old(tables)
      ensures Model() == LuaStack.PushCFunction(old(Model()), f)
    {
      stack := stack + [Function(f, [])];
    }

    /** push_c_closure(f, n): `ok` is false (an error) when fewer than n
        entries, or a negative n, are given; then nothing changes. */
    method PushCClosure(f: CFunction, n: int) returns (ok: bool)
      modifies this
      ensures ok <==> 0 <= n <= |old(stack)|
      ensures ok ==> |stack| == |old(stack)| - n + 1
      ensures Model() == (if ok then LuaStack.PushCClosure(old(Model()), f, n).value else old(Model()))
    {
      var r := LuaStack.PushCClosure(Model(), f, n);
      ok := r.Ok?;
      if ok {
        stack, tables := r.value.stack, r.value.tables;
      }
    }

    method NewTable()
      modifies this
      ensures stack == old(stack) + [Table(old(tables))] && tables == old(tables) + 1
      ensures Model() == LuaStack.NewTable(old(Model()))
      ensures old(WellFormed(Model())) ==> Table(old(tables)) !in old(stack) && WellFormed(Model())
    {
      stack, tables := stack + [Table(tables)], tables + 1;
    }

    /** Any other wrapped call, by its stack effect only: it consumes the top
        `consumed` entries and pushes `produced`, then returns normally or,
        when `raises`, reports an error. With fewer than `consumed` entries it
        reports an error at once and changes nothing. */
    method Foreign(consumed: nat, produced: seq<Value>, raises: bool) returns (ok: bool)
      modifies this
      ensures ok <==> consumed <= |old(stack)| && !raises
      ensures Model() == (if consumed <= |old(stack)| then LuaStack.Rewrite(old(Model()), consumed, produced).value
                          else old(Model()))
    {
      var r := LuaStack.Rewrite(Model(), consumed, produced);
      if r.Ok? {
        stack, tables := r.value.stack, r.value.tables;
      }
      ok := r.Ok? && !raises;
    }

    // The type predicates read the stack and change nothing; like the C++
    // methods, they look at the top entry unless told otherwise, and an index
    // that names no entry is of no type.

    predicate IsBoolean(index: int := -1)
      reads this
      ensures IsBoolean(index) ==> Slot(|stack|, index).Some?
    {
      LuaStack.IsBoolean(stack, index)
    }
    predicate IsFunction(index: int := -1)
      reads this
      ensures IsFunction(index) ==> Slot(|stack|, index).Some?
    {
      LuaStack.IsFunction(stack, index)
    }
    predicate IsNil(index: int := -1)
      reads this
      ensures IsNil(index) ==> Slot(|stack|, index).Some?
    {
      LuaStack.IsNil(stack, index)
    }
    predicate IsNumber(index: int := -1)
      reads this
      ensures IsNumber(index) ==> Slot(|stack|, index).Some?
    {
      LuaStack.IsNumber(stack, index)
    }
    predicate IsString(index: int := -1)
      reads this
      ensures IsString(index) ==> Slot(|stack|, index).Some?
    {
      LuaStack.IsString(stack, index)
    }
    predicate IsTable(index: int := -1)
      reads this
      ensures IsTable(index) ==> Slot(|stack|, index).Some?
    {
      LuaStack.IsTable(stack, index)
    }
    predicate IsUserdata(index: int := -1)
      reads this
      ensures IsUserdata(index) ==> Slot(|stack|, index).Some?
    {
      LuaStack.IsUserdata(stack, index)
    }
  }

  /** The scope guard: records the depth of `st` when created; Release, the
      destructor, pops back down to that depth unless Forget was called. */
  class StackCleaner {
    const st: State
    const depth: nat
    var forgotten: bool

    constructor (s: State)
      ensures st == s && depth == |s.stack| && !forgotten
    {
      var top := s.GetTop();
      st := s;
      depth := top;
      forgotten := false;
    }

    /** Turns the cleanup off; the recorded depth is kept. */
    method Forget()
      modifies this
      ensures forgotten
    {
      forgotten := true;
    }

    /** The destructor: when the stack is higher than the recorded depth and
        cleanup is on, pops the difference in one call; otherwise leaves the
        stack alone. It never pushes. */
    method Release()
      modifies st
      ensures st.stack == Released(old(st.stack), depth, forgotten)
      ensures st.tables == old(st.tables)
      ensures !forgotten && |old(st.stack)| >= depth ==> |st.stack| == depth
      ensures forgotten ==> st.stack == old(st.stack)
    {
      var current := st.GetTop();
      if current > depth && !forgotten {
        var ok := st.Pop(current - depth);
        assert ok;
      }
    }
  }
}
