/** An abstract model of the Lua interpreter stack that lutok's `state`
    class wraps: the values it holds, how stack indices address them, and
    what each wrapped push and pop does to it. */
module LuaStack {

  /** The C++ `int` that push_integer takes. */
  newtype int32 = x: int | -0x8000_0000 <= x < 0x8000_0000

  /** A Lua value as far as the stack discipline needs to tell values apart. */
  datatype Value =
    | Nil
    | Boolean(b: bool)
    | Number(n: int)
    | Str(s: string)
    | Table(id: nat)
    | Function(code: nat, upvalues: seq<Value>)
    | Userdata(id: nat)

  datatype Option<T> = None | Some(value: T)

  /** Why a wrapped call refused to touch the stack (lutok reports it by throwing). */
  datatype StackError = NegativeCount(count: int) | Underflow(count: int, depth: nat)

  datatype Result<T> = Ok(value: T) | Err(error: StackError)

  /** What the model observes of one interpreter: the stack, bottom entry
      first, and how many tables new_table has created so far. */
  datatype Lua = Lua(stack: seq<Value>, tables: nat)

  function Min(a: nat, b: nat): nat { if a < b then a else b }

  /** Every table id in `v`, including those inside a closure's upvalues, is
      below `bound`. */
  predicate TablesBelow(v: Value, bound: nat)
    decreases v
  {
    match v
    case Table(id) => id < bound
    case Function(_, upvalues) => forall u | u in upvalues :: TablesBelow(u, bound)
    case _ => true
  }

  /** The table counter is ahead of every table on the stack: each table
      there was handed out by an earlier new_table. */
  predicate WellFormed(l: Lua)
  {
    forall v | v in l.stack :: TablesBelow(v, l.tables)
  }

  // ---------------------------------------------------------------------
  // Stack indices

  /** The zero-based position that a Lua stack index names in a stack of the
      given depth: 1 is the bottom entry and -1 the top one; 0 and indices
      beyond either end name nothing. */
  function Slot(depth: nat, index: int): (r: Option<nat>)
    ensures r.Some? <==> (1 <= index <= depth || 1 <= -index <= depth)
    ensures r.Some? ==> r.value < depth
  {
    if 1 <= index <= depth then Some(index - 1)
    else if 1 <= -index <= depth then Some(depth + index)
    else None
  }

  /** The value at a Lua stack index, if the index names an entry. */
  function At(stack: seq<Value>, index: int): (r: Option<Value>)
    ensures r.Some? <==> Slot(|stack|, index).Some?
    ensures r.Some? ==> r.value in stack
  {
    match Slot(|stack|, index)
    case None => None
    case Some(k) => Some(stack[k])
  }

  /** Counting from the bottom and counting from the top name the same entries:
      index i and index i - depth - 1 are the same slot. */
  lemma SlotFromBothEnds(depth: nat, i: int)
    requires 1 <= i <= depth
    ensures Slot(depth, i) == Slot(depth, i - depth - 1) == Some(i - 1)
  {
  }

  /** Pushing one value makes it the entry at -1, moves every negative index
      down by one and leaves every positive index where it was. */
  lemma PushShiftsIndices(stack: seq<Value>, v: Value, index: int)
    ensures At(stack + [v], -1) == Some(v)
    ensures index < 0 ==> At(stack + [v], index - 1) == At(stack, index)
    ensures 1 <= index <= |stack| ==> At(stack + [v], index) == At(stack, index)
  {
  }

  // ---------------------------------------------------------------------
  // Type predicates (the `is_*` family); an index that names nothing is of no type

  predicate IsBoolean(stack: seq<Value>, index: int) { At(stack, index).Some? && At(stack, index).value.Boolean? }
  predicate IsFunction(stack: seq<Value>, index: int) { At(stack, index).Some? && At(stack, index).value.Function? }
  predicate IsNil(stack: seq<Value>, index: int) { At(stack, index).Some? && At(stack, index).value.Nil? }
  predicate IsNumber(stack: seq<Value>, index: int) { At(stack, index).Some? && At(stack, index).value.Number? }
  /** Lua counts a number as a string too: it converts it on demand. */
  predicate IsString(stack: seq<Value>, index: int)
  {
    At(stack, index).Some? && (At(stack, index).value.Str? || At(stack, index).value.Number?)
  }
  predicate IsTable(stack: seq<Value>, index: int) { At(stack, index).Some? && At(stack, index).value.Table? }
  predicate IsUserdata(stack: seq<Value>, index: int) { At(stack, index).Some? && At(stack, index).value.Userdata? }

  // ---------------------------------------------------------------------
  // Stack operations

  function Top(l: Lua): nat { |l.stack| }

  function Push(l: Lua, v: Value): Lua { Lua(l.stack + [v], l.tables) }

  function PushBoolean(l: Lua, b: bool): Lua { Push(l, Boolean(b)) }
  function PushInteger(l: Lua, i: int32): Lua { Push(l, Number(i as int)) }
  function PushNil(l: Lua): Lua { Push(l, Nil) }
  function PushString(l: Lua, s: string): Lua { Push(l, Str(s)) }
  /** A C function is a closure without upvalues. */
  function PushCFunction(l: Lua, f: nat): Lua { Push(l, Function(f, [])) }

  /** new_table pushes one table on top and keeps the rest of the stack; on
      a well-formed interpreter the table is new (no entry of the stack is it)
      and the interpreter stays well-formed. */
  function NewTable(l: Lua): (r: Lua)
    ensures Top(r) == Top(l) + 1 && r.stack[..Top(l)] == l.stack
    ensures At(r.stack, -1) == Some(Table(l.tables)) && l.tables < r.tables
    ensures WellFormed(l) ==> Table(l.tables) !in l.stack && WellFormed(r)
  {
    var r := Lua(l.stack + [Table(l.tables)], l.tables + 1);
    if WellFormed(l) then
      forall v | v in l.stack ensures TablesBelow(v, r.tables) {
        TablesBelowMonotone(v, l.tables, r.tables);
      }
      r
    else r
  }

  /** Raising the bound keeps every value below it. */
  lemma TablesBelowMonotone(v: Value, lo: nat, hi: nat)
    requires lo <= hi && TablesBelow(v, lo)
    ensures TablesBelow(v, hi)
    decreases v
  {
    if v.Function? {
      forall u | u in v.upvalues ensures TablesBelow(u, hi) {
        TablesBelowMonotone(u, lo, hi);
      }
    }
  }

  /** pop(n): removes exactly n entries from the top; refuses a negative count
      or a count above the depth. */
  function Pop(l: Lua, n: int): (r: Result<Lua>)
    ensures r.Ok? <==> 0 <= n <= Top(l)
    ensures r.Ok? ==> Top(r.value) == Top(l) - n && r.value.stack <= l.stack
    ensures r.Ok? ==> r.value.tables == l.tables
    ensures r.Ok? && WellFormed(l) ==> WellFormed(r.value)
    ensures r.Err? && n < 0 ==> r.error == NegativeCount(n)
    ensures r.Err? && n >= 0 ==> r.error == Underflow(n, Top(l))
  {
    if n < 0 then Err(NegativeCount(n))
    else if n > |l.stack| then Err(Underflow(n, |l.stack|))
    else Ok(Lua(l.stack[..|l.stack| - n], l.tables))
  }

  /** push_c_closure(f, n): the top n entries become the closure's upvalues, in
      stack order, and the closure takes their place. */
  function PushCClosure(l: Lua, f: nat, n: int): (r: Result<Lua>)
    ensures r.Ok? <==> 0 <= n <= Top(l)
    ensures r.Ok? ==> Top(r.value) == Top(l) - n + 1 && r.value.tables == l.tables
    ensures r.Ok? ==> r.value.stack[..Top(l) - n] == l.stack[..Top(l) - n]
    ensures r.Ok? ==> At(r.value.stack, -1) == Some(Function(f, l.stack[Top(l) - n..]))
    ensures r.Ok? && WellFormed(l) ==> WellFormed(r.value)
  {
    if n < 0 then Err(NegativeCount(n))
    else if n > |l.stack| then Err(Underflow(n, |l.stack|))
    else Ok(Lua(l.stack[..|l.stack| - n] + [Function(f, l.stack[|l.stack| - n..])], l.tables))
  }

  /** Any other wrapped call (loading a chunk, a protected call, a table or
      global access), seen only through its stack effect: it consumes the top
      `consumed` entries and pushes `produced`. */
  function Rewrite(l: Lua, consumed: nat, produced: seq<Value>): (r: Result<Lua>)
    ensures r.Ok? <==> consumed <= Top(l)
    ensures r.Ok? ==> Top(r.value) == Top(l) - consumed + |produced|
    ensures r.Ok? ==> r.value.stack[..Top(l) - consumed] == l.stack[..Top(l) - consumed]
    ensures r.Ok? ==> r.value.stack[Top(l) - consumed..] == produced
    ensures r.Ok? ==> r.value.tables == l.tables
    ensures r.Ok? && WellFormed(l) && (forall v | v in produced :: TablesBelow(v, l.tables)) ==> WellFormed(r.value)
  {
    if consumed > |l.stack| then Err(Underflow(consumed, |l.stack|))
    else Ok(Lua(l.stack[..|l.stack| - consumed] + produced, l.tables))
  }

  /** Every push adds exactly one entry on top and keeps the rest; pushing a
      value that holds no table newer than the counter keeps the interpreter
      well-formed. */
  lemma PushAddsOne(l: Lua, v: Value)
    ensures Top(Push(l, v)) == Top(l) + 1
    ensures Push(l, v).stack[..Top(l)] == l.stack
    ensures At(Push(l, v).stack, -1) == Some(v)
    ensures WellFormed(l) && TablesBelow(v, l.tables) ==> WellFormed(Push(l, v))
  {
  }

  /** Every push_* other than new_table pushes a value without tables, so it
      keeps the interpreter well-formed. */
  lemma PushesKeepWellFormed(l: Lua, b: bool, i: int32, s: string, f: nat)
    requires WellFormed(l)
    ensures WellFormed(PushBoolean(l, b)) && WellFormed(PushInteger(l, i)) && WellFormed(PushNil(l))
    ensures WellFormed(PushString(l, s)) && WellFormed(PushCFunction(l, f))
  {
    PushAddsOne(l, Boolean(b));
    PushAddsOne(l, Number(i as int));
    PushAddsOne(l, Nil);
    PushAddsOne(l, Str(s));
    PushAddsOne(l, Function(f, []));
  }

  /** After each push, the matching type predicate holds at the top entry,
      the index the predicates look at by default. */
  lemma PushedTypes(l: Lua, b: bool, i: int32, s: string, f: nat)
    ensures IsBoolean(PushBoolean(l, b).stack, -1)
    ensures IsNumber(PushInteger(l, i).stack, -1) && IsString(PushInteger(l, i).stack, -1)
    ensures IsNil(PushNil(l).stack, -1)
    ensures IsString(PushString(l, s).stack, -1) && At(PushString(l, s).stack, -1) == Some(Str(s))
    ensures IsFunction(PushCFunction(l, f).stack, -1)
    ensures IsTable(NewTable(l).stack, -1)
  {
  }

  // ---------------------------------------------------------------------
  // What a stack_cleaner leaves behind

  /** The stack left by releasing a cleaner that recorded `depth`: popped down
      to `depth` when it is higher, left alone when it is already at or below
      `depth` or when the cleaner was told to forget. */
  function Released(stack: seq<Value>, depth: nat, forgotten: bool): (r: seq<Value>)
    ensures r <= stack
    ensures forgotten ==> r == stack
    ensures !forgotten ==> |r| == Min(|stack|, depth)
  {
    if !forgotten && |stack| > depth then stack[..depth] else stack
  }

  /** Everything pushed above the recorded depth is gone after release, and
      what lay below is exactly as it was. */
  lemma ReleasedDropsPushes(below: seq<Value>, pushed: seq<Value>)
    ensures Released(below + pushed, |below|, false) == below
  {
    assert (below + pushed)[..|below|] == below;
  }

  /** Releasing an inner cleaner (recorded at `inner`) and then an outer one
      (recorded at `outer <= inner`) leaves what the outer one alone would. */
  lemma ReleasedNested(stack: seq<Value>, outer: nat, inner: nat)
    requires outer <= inner
    ensures Released(Released(stack, inner, false), outer, false) == Released(stack, outer, false)
  {
  }
}
