# lutok stack discipline, modelled in Dafny

lutok wraps the Lua C API in C++. Its `state` class owns one interpreter and
exposes its single shared value stack through typed methods that report errors
by throwing. `stack_cleaner` is a scope guard over a `state`: on construction it
records `get_top()`, and its destructor pops the stack back down to that depth
unless `forget()` was called. The header `wrap.hpp` declares both classes and
documents the guard's contract and a nested-usage example.

The model has three modules:

- `LuaStack` (lua_stack.dfy) is pure. It defines an abstract stack of tagged
  Lua values (`Value`) and the snapshot `Lua(stack, tables)`. It resolves Lua
  stack indices (1 is the bottom entry, -1 the top one). It gives each push,
  `pop`, `push_c_closure` and `new_table` as a function, and `Released`: what
  the stack looks like after a cleaner's destructor runs.
- `Wrap` (wrap.dfy) is imperative. A `State` class has a mutable `seq` stack,
  and each of its methods is specified by the matching `LuaStack` function. A
  `StackCleaner` class has the watched `State`, the recorded depth and the
  `forgotten` flag. `Release()` stands for the destructor.
- `Usage` (usage.dfy) models client code that opens C++ scopes with named
  cleaners, as in the header's example. `Op` is a small program language in
  which `Guarded(body, forget)` is such a scope. `Exec` gives its meaning,
  including error unwinding: when a call raises, the enclosing destructors
  still run, and a `forget()` at the end of a scope that raised is never
  reached. `Exec` also records the lowest depth reached. `Run` executes the
  same programs with the `State` and `StackCleaner` classes and is proved to
  give exactly `Exec`'s result, so the scope lemmas hold of the classes.

Modelling decisions:

- The destructor tolerates a stack that is already shorter than the recorded
  depth and then does nothing. The header calls shrinking below the recorded
  depth impossible "as a corollary"; the model does not assume it. Instead the
  restore lemmas take "the body never went below the recorded depth" as a
  hypothesis about the run.
- `pop(n)` refuses a count above the depth, and also a negative count. When it
  refuses, it leaves the stack unchanged. This stands for lutok raising an
  error.
- `push_c_closure(f, n)` is refused in the same way, with the stack
  unchanged, when `n` is negative or above the depth. The header does not say
  what happens then, since a caller must supply `n` values. The refusal is a
  modelling choice.
- Calls whose Lua semantics are outside this model (loading a chunk, `pcall`,
  table and global access) appear only through their stack effect, as
  `State.Foreign(consumed, produced, raises)`.
- Inputs that the real system gets from outside, such as the code identity of
  a C function and the values a foreign call produces, are parameters.

## Model

| member | source | states |
|---|---|---|
| `LuaStack.Slot` | wrap.hpp:95-101 | A stack index names an entry exactly when it is in 1..depth (from the bottom) or -depth..-1 (from the top); the position it names is inside the stack |
| `LuaStack.At` | wrap.hpp:95-101 | The value at an index exists exactly when the index names a slot, and it is an entry of the stack |
| `LuaStack.SlotFromBothEnds` | wrap.hpp:95-101 | Index i and index i - depth - 1 name the same entry |
| `LuaStack.PushShiftsIndices` | wrap.hpp:112-117 | After a push the pushed value is at -1, each negative index moves down by one and positive indices keep their entries |
| `LuaStack.PushAddsOne` | wrap.hpp:112-117 | Every push increases get_top by exactly one, keeps the entries below, and puts the value on top; pushing a value with no table newer than the counter keeps the interpreter well-formed |
| `LuaStack.PushesKeepWellFormed` | wrap.hpp:112-117 | push_boolean, push_integer, push_nil, push_string and push_c_function keep the interpreter well-formed (the table counter stays ahead of every table on the stack) |
| `LuaStack.PushedTypes` | wrap.hpp:95-117 | After each push_* or new_table, the matching is_* predicate holds at the default index -1, and a number also counts as a string; a pushed string sits at -1 unchanged |
| `LuaStack.NewTable` | wrap.hpp:104 | new_table adds one table on top and keeps the rest; on a well-formed interpreter (every table id on the stack, also inside closure upvalues, is below the counter) that table is not already on the stack and the interpreter stays well-formed |
| `LuaStack.Pop` | wrap.hpp:111 | pop(n) succeeds exactly when 0 <= n <= depth; it then lowers get_top by exactly n and leaves a prefix of the old stack; otherwise it reports the negative count or the underflow; it keeps the interpreter well-formed |
| `LuaStack.PushCClosure` | wrap.hpp:113 | push_c_closure(f, n) succeeds exactly when 0 <= n <= depth; the top n entries become the closure's upvalues in order, the closure replaces them, and the entries below are kept; it keeps the interpreter well-formed |
| `LuaStack.Rewrite` | wrap.hpp:110 | Stack effect of any other wrapped call: it succeeds exactly when enough entries exist, keeps everything below the consumed entries and puts the produced values on top; it keeps the interpreter well-formed when the produced values hold no table newer than the counter |
| `LuaStack.Released` | wrap.hpp:133-137 | Release leaves a prefix of the stack: its depth is min(current, recorded) when cleanup is on, and the stack is unchanged after forget |
| `LuaStack.ReleasedDropsPushes` | wrap.hpp:141-146 | Whatever was pushed above the recorded depth is gone after release, and what lay below is unchanged |
| `LuaStack.ReleasedNested` | wrap.hpp:147-155 | Releasing an inner cleaner and then an outer one (outer depth <= inner depth) equals releasing the outer one alone |
| `Wrap.State.GetTop` | wrap.hpp:94 | get_top returns the number of entries on the stack |
| `Wrap.State.Pop` | wrap.hpp:111 | Succeeds exactly when 0 <= n <= depth; then the depth drops by n and the stack is a prefix of the old one; otherwise nothing changes |
| `Wrap.State.PushBoolean` | wrap.hpp:112 | Appends Boolean(b); nothing else changes |
| `Wrap.State.PushCClosure` | wrap.hpp:113 | Replaces the top n entries by a closure over them when 0 <= n <= depth (net depth change 1 - n); otherwise nothing changes |
| `Wrap.State.PushCFunction` | wrap.hpp:114 | Appends a function with no upvalues |
| `Wrap.State.PushInteger` | wrap.hpp:115 | Appends the 32-bit integer as a number |
| `Wrap.State.PushNil` | wrap.hpp:116 | Appends nil |
| `Wrap.State.PushString` | wrap.hpp:117 | Appends the string |
| `Wrap.State.NewTable` | wrap.hpp:104 | Appends Table(counter) and advances the counter; on a well-formed interpreter that table was not on the stack, and the interpreter stays well-formed |
| `Wrap.State.Foreign` | wrap.hpp:110 | Stands for pcall, load_* and the table/global calls: consumes and produces entries as told and reports an error when asked to, or reports an underflow and changes nothing |
| `Wrap.State.IsBoolean` | wrap.hpp:95 | Checks the top entry by default; false at an index that names no entry |
| `Wrap.State.IsFunction` | wrap.hpp:96 | Checks the top entry by default; false at an index that names no entry |
| `Wrap.State.IsNil` | wrap.hpp:97 | Checks the top entry by default; false at an index that names no entry |
| `Wrap.State.IsNumber` | wrap.hpp:98 | Checks the top entry by default; false at an index that names no entry |
| `Wrap.State.IsString` | wrap.hpp:99 | Checks the top entry by default; true for strings and numbers; false at an index that names no entry |
| `Wrap.State.IsTable` | wrap.hpp:100 | Checks the top entry by default; false at an index that names no entry |
| `Wrap.State.IsUserdata` | wrap.hpp:101 | Checks the top entry by default; false at an index that names no entry |
| `Wrap.StackCleaner.constructor` | wrap.hpp:165 | Records the watched state and its current get_top, with cleanup on |
| `Wrap.StackCleaner.Forget` | wrap.hpp:168 | Turns cleanup off |
| `Wrap.StackCleaner.Release` | wrap.hpp:133-137 | The destructor: only pops, never pushes; restores exactly the recorded depth when the stack is at least that deep, leaves a shorter stack alone, and after forget leaves the stack unchanged |
| `Usage.Step` | wrap.hpp:111-117 | Each unguarded call succeeds exactly when the entries it consumes exist, and it leaves every entry below them unchanged |
| `Usage.StepKeepsWellFormed` | wrap.hpp:104-117 | Every unguarded call never lowers the table counter, and on a well-formed interpreter leaves it well-formed, provided a foreign call produces no table newer than the counter |
| `Usage.Exec` | wrap.hpp:139-159 | Running a program never goes below its recorded low-water depth, and the entries below that depth are unchanged at the end |
| `Usage.ExecKeepsWellFormed` | wrap.hpp:104-159 | A whole program, with guarded scopes and error unwinding, keeps the interpreter well-formed and never lowers the table counter, when no foreign call in it produces a table newer than the counter; so new_table's freshness holds throughout the run |
| `Usage.PrefixKeepsWellFormed` | wrap.hpp:133-137 | A cleaner's release, which keeps a prefix of the stack, keeps the interpreter well-formed |
| `Usage.ExecAppend` | wrap.hpp:139-159 | Running a then c: an error in a skips c; otherwise c starts where a ended and the low-water depth is the lower of the two |
| `Usage.ExecGuarded` | wrap.hpp:131-137 | A guarded scope runs its body, then releases to the depth recorded at the scope's start; cleanup is off only if the body finished and forgot |
| `Usage.GuardRestores` | wrap.hpp:133-137 | On both normal and error exit, a scope whose body stayed at or above the recorded depth leaves the stack exactly as before; in any case the release only pops, to min(body's final depth, recorded depth), and the error outcome is the body's |
| `Usage.ForgetKeeps` | wrap.hpp:168 | A scope ending in forget() keeps everything its body left; if the body raised, forget() was not reached and the cleaner releases as usual |
| `Usage.NestedGuards` | wrap.hpp:147-155 | After outer code, an inner guarded scope that stays above its own depth removes only what it pushed, leaving the outer values; then, when the outer code stayed at or above the outer depth, the outer cleaner restores the outer stack |
| `Usage.DocScenario` | wrap.hpp:139-155 | The documented example: 3 and 5 survive the inner cleaner, which removes the pcall result, and are gone after the outer one |
| `Usage.Run` | wrap.hpp:139-159 | Executing a program with the State and StackCleaner classes, one cleaner per guarded scope and released on every exit, gives exactly Exec's final interpreter and error outcome |
| `Usage.DocExample` | wrap.hpp:139-155 | The documented example against the classes, with the inner scope in a loop: after the outer cleaner the stack and table counter are as before |

## Left out

- Lua execution semantics: `pcall`, `load_file`, `load_string`, `open_base`, `open_string`, `open_table`, `next`, `get_table`, `set_table`, `set_metatable`, `get_global`, `set_global`. Their behaviour lives in the Lua C library, which is not part of this model. They appear only as `State.Foreign`, by their stack effect.
- `to_boolean`, `to_integer`, `to_string`: their conversion rules are Lua's. They do not change the stack's depth, but `to_string` may turn a number entry into a string in place.
- Debug accessors `get_info`, `get_stack`, `upvalue_index`: pass-throughs to interpreter metadata. For the same reason, pseudo-indices (registry, globals, upvalues) are not modelled. The type predicates read them as ordinary negative indices, which name no entry on any stack shallower than the index's magnitude.
- `new_userdata`, `to_userdata` and their untyped helpers: these reinterpret raw memory, which this model cannot express.
- Construction and closing of `state` (`state()`, `state(lua_State*)`, `close`), `raw_state_for_testing`, the `auto_ptr` pimpl and `noncopyable`. These are about handle ownership and C++ plumbing. The model starts from an existing `State`.
- Exception translation of Lua error codes and the message texts. A failure is a boolean or a `StackError`, with no message.
- Lua's stack capacity and memory exhaustion: pushes never fail in the model.
- Tables that Lua creates inside foreign calls: the counter only counts new_table calls, so the freshness that `LuaStack.NewTable` proves holds only while foreign calls produce no table the counter never handed out.
- Strings are sequences of characters. The byte-string nature of `std::string`, including embedded NUL bytes, is not modelled; the stack discipline does not depend on it.
- Lua numbers are doubles. Only the integers that `push_integer` produces are modelled.
- Object lifetime: C++ runs the destructor exactly once, at scope exit. The model calls `Release()` explicitly, at the points where `Run` and `DocExample` leave a scope.
- Wrap.State.IsNumber: does not recognise strings that Lua would convert to a number. Lua's numeral syntax is not modelled.
