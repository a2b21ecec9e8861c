# Rhino `NativeJavaArray` in Dafny

This project models `NativeJavaArray`, the class in Mozilla Rhino that shows a fixed-length Java array to
JavaScript. A script reading the bridge sees these parts:

- a read-only `length`;
- the integer indices `0 .. length-1`. Reads are wrapped. Writes are converted to the element type and
  stored in place in the shared Java array;
- two search functions, `indexOf` and `includes`. They scan forward and stop at the first equal element;
- the symbol `Symbol.isConcatSpreadable`, which is always `true`;
- a default-value conversion and an `instanceof` test;
- a prototype that is looked up in the parent scope on first use and kept once found. A lookup that finds
  nothing is tried again on the next use.

Modules:

- `ScriptTypes` (`script_types.dfy`): results, errors, symbol keys and default-value hints.
- `ArraySearch` (`array_search.dfy`): the specification functions `IndexOf` and `Includes` over the array
  contents, the classes `IndexOfMethod` and `IncludesMethod`, whose `Call` loops are proved equal to those
  functions, and lemmas about the two searches.
- `JavaArrayBridge` (`java_array_bridge.dfy`): the class `NativeJavaArray`. It holds the backing `array<E>`,
  the `length` and the memoised `prototype`, and has one member per dispatch path: named, indexed and
  symbol.
- `BridgeScenarios` (`bridge_scenarios.dfy`): clients that use only the contracts. They cover read after
  write, prototype memoisation, and the arrays `[1,2,3]`, `["a","b","c"]` and `[]`.

The element type is a type parameter `E`. Its equality stands for `Objects.deepEquals`. The engines the
bridge calls are passed in as functions:

- `wrap` stands for the wrap factory;
- `jsToJava` stands for `Context.jsToJava`. It returns `None` when the conversion throws;
- `intValue` stands for `((Number) v).intValue()`. It returns `None` when the cast or the call throws;
- `superHas` and `superGet` stand for the generic `NativeJavaObject` lookup;
- `protoHasProperty` stands for `ScriptableObject.hasProperty`;
- `arrayPrototypeOf` stands for `ScriptableObject.getArrayPrototype`;
- `isInstance` stands for `cls.isInstance`.

Exceptions become `Failure`/`Fail` values that carry an `Error` tag with the exception's arguments.

Behaviour taken from the code as written:

- `indexOf` moves a negative start forward by the number of call arguments, not by the array length. For
  example, `indexOf(x, -1)` starts at 1 (`NegativeStartAsymmetry`).
- `includes` does not adjust a negative start.
- A start that is still negative always fails on the first element read, even when the array is empty. The
  loop guard `index < length` holds for every negative index, so the loop body runs once and reads at that
  index.
- A call with no arguments fails with `MissingArgument`, because `args[0]` is read without a check.

## Model

| member | source | states |
|---|---|---|
| `ArraySearch.FirstMatch` | src/org/mozilla/javascript/NativeJavaArray.java:50-53 | the result is -1 or an index at or after `from` holding `x`, and no index from `from` up to it (or to the end, for -1) holds `x` |
| `ArraySearch.IndexOf` | src/org/mozilla/javascript/NativeJavaArray.java:38-53 | a call with no arguments fails with `MissingArgument`; a successful result is -1 or a valid index whose element equals the unwrapped search value |
| `ArraySearch.StartArgument` | src/org/mozilla/javascript/NativeJavaArray.java:43-45 | without a second argument the start is 0; with one, the start is its int value when it is a number, and otherwise the read fails with `NotANumber` (a wrapper is never a number) |
| `ArraySearch.Includes` | src/org/mozilla/javascript/NativeJavaArray.java:68-82 | a call with no arguments fails with `MissingArgument`; the call succeeds iff the start is a number and not negative; then the result is whether the search value occurs in the array from the start on |
| `ArraySearch.IndexOfIsFirst` | src/org/mozilla/javascript/NativeJavaArray.java:43-53 | for every start, with `from` the start or, for a negative start, the argument count plus the start: a negative `from` fails at that index; otherwise `indexOf` succeeds, gives -1 iff nothing from `from` on matches, and otherwise gives an index at or after `from` holding the search value with no match between `from` and it |
| `ArraySearch.IncludesAgreesWithIndexOf` | src/org/mozilla/javascript/NativeJavaArray.java:68-82 | for a non-negative start, `includes` is `true` exactly when `indexOf` returns something other than -1 |
| `ArraySearch.SearchFailures` | src/org/mozilla/javascript/NativeJavaArray.java:38-47 | both searches fail only for a missing search value, a start that is not a number, or a negative start; a start that is not a number gives `NotANumber` in both |
| `ArraySearch.IncludesNegativeStartFails` | src/org/mozilla/javascript/NativeJavaArray.java:73-81 | `includes` with a negative start fails at that index for every array, the empty one included |
| `ArraySearch.NegativeStartAsymmetry` | src/org/mozilla/javascript/NativeJavaArray.java:43-47 | on `[a,b,c]` with two arguments and start -1, `indexOf(b)` returns 1 (start 2 + (-1)), while `includes` fails |
| `ArraySearch.IndexOfMethod.constructor` | src/org/mozilla/javascript/NativeJavaArray.java:33-35 | the function object is bound to the given backing array |
| `ArraySearch.IndexOfMethod.Call` | src/org/mozilla/javascript/NativeJavaArray.java:38-54 | the loop with its early return computes exactly `IndexOf` of the current array contents |
| `ArraySearch.IncludesMethod.constructor` | src/org/mozilla/javascript/NativeJavaArray.java:63-65 | the function object is bound to the given backing array |
| `ArraySearch.IncludesMethod.Call` | src/org/mozilla/javascript/NativeJavaArray.java:68-82 | the loop computes exactly `Includes`: whether some element at or after the start equals the search value, with the same failures |
| `JavaArrayBridge.NativeJavaArray.constructor` | src/org/mozilla/javascript/NativeJavaArray.java:99-108 | the bridge holds the given array (not a copy), its `length` is the array's length, and no prototype is resolved yet |
| `JavaArrayBridge.NativeJavaArray.Wrap` | src/org/mozilla/javascript/NativeJavaArray.java:90-108 | a non-array host object is refused with `ArrayExpected`; an array gives a fresh bridge over that same array with the array's length |
| `JavaArrayBridge.NativeJavaArray.HasNamed` | src/org/mozilla/javascript/NativeJavaArray.java:110-113 | a name is present iff it is `length`, `indexOf` or `includes`, or the generic lookup has it |
| `JavaArrayBridge.NativeJavaArray.HasIndex` | src/org/mozilla/javascript/NativeJavaArray.java:115-118 | an index is present iff it lies within the bounds of the backing array |
| `JavaArrayBridge.NativeJavaArray.HasSymbol` | src/org/mozilla/javascript/NativeJavaArray.java:120-123 | only `Symbol.isConcatSpreadable` is present |
| `JavaArrayBridge.NativeJavaArray.GetNamed` | src/org/mozilla/javascript/NativeJavaArray.java:125-142 | `length` reads the array's length. `indexOf`/`includes` give fresh functions bound to the same array. Other names come from the generic lookup. When that misses, the prototype is resolved (memoised) and a name it lacks fails with `MemberNotFound(class name, name)`. |
| `JavaArrayBridge.NativeJavaArray.GetIndex` | src/org/mozilla/javascript/NativeJavaArray.java:144-152 | in bounds the result is the wrapped element at that index; out of bounds it is `Undefined`, never an error |
| `JavaArrayBridge.NativeJavaArray.GetSymbol` | src/org/mozilla/javascript/NativeJavaArray.java:154-160 | the result is `true` for the spreadable key and `NotFound` for every other key |
| `JavaArrayBridge.NativeJavaArray.PutNamed` | src/org/mozilla/javascript/NativeJavaArray.java:162-168 | a write to `length` succeeds and does nothing; a write to any other name fails with `ArrayMemberNotFound(name)`; no state changes either way |
| `JavaArrayBridge.NativeJavaArray.PutIndex` | src/org/mozilla/javascript/NativeJavaArray.java:170-180 | out of bounds fails with `IndexOutOfBounds(index, length-1)`, and a failed conversion fails with `CoercionFailed`; both leave the array as it was. Otherwise exactly the slot at `index` becomes the converted value. `length` is a constant of the bridge. |
| `JavaArrayBridge.NativeJavaArray.DeleteSymbol` | src/org/mozilla/javascript/NativeJavaArray.java:182-185 | it has no `modifies` clause, so it changes nothing; its ensures only records that the spreadable key is still present, which holds in any state |
| `JavaArrayBridge.NativeJavaArray.GetDefaultValue` | src/org/mozilla/javascript/NativeJavaArray.java:187-196 | no hint or a string hint gives the array's text; a boolean hint gives `true`; a number hint gives NaN; any other hint gives the bridge itself. Each correspondence holds both ways. |
| `JavaArrayBridge.NativeJavaArray.GetIds` | src/org/mozilla/javascript/NativeJavaArray.java:198-205 | a fresh array of the backing array's length with `ids[k] == k` at every position, so exactly `0 .. length-1` in ascending order; it is empty for an empty array |
| `JavaArrayBridge.NativeJavaArray.HasInstance` | src/org/mozilla/javascript/NativeJavaArray.java:207-213 | only a wrapped host value can be an instance, and it is one iff its unwrapped value is an instance of the element type |
| `JavaArrayBridge.NativeJavaArray.GetPrototype` | src/org/mozilla/javascript/NativeJavaArray.java:215-222 | a resolved prototype is returned unchanged; an unresolved one is looked up in the parent scope, stored and returned |
| `JavaArrayBridge.HasIndexIffDefined` | src/org/mozilla/javascript/NativeJavaArray.java:115-152 | an index is present exactly when reading it does not give `Undefined` |
| `JavaArrayBridge.HasSymbolIffFound` | src/org/mozilla/javascript/NativeJavaArray.java:120-160 | a symbol is present exactly when reading it does not give `NotFound` |
| `BridgeScenarios.WriteThenRead` | src/org/mozilla/javascript/NativeJavaArray.java:144-180 | after a convertible write at a valid index, reading that index gives the wrapped converted value and the shared array holds it; a value that does not convert fails with `CoercionFailed` and the old element is read back; at an invalid index the write fails with `(index, length-1)` and the read is `Undefined` |
| `BridgeScenarios.PrototypeResolvedOnce` | src/org/mozilla/javascript/NativeJavaArray.java:215-222 | once a resolution yields a prototype, a later resolution returns it whatever the scope lookup would now answer |

## Left out

- Java reflection (`Array.get`, `Array.set`, `Array.getLength`, `getComponentType`) is not modelled. The
  element type is the type parameter `E`, and the `cls` field is not modelled separately.
- `Context.jsToJava`, the wrap factory, `NativeJavaObject`'s own `has`/`get` and `ScriptableObject.hasProperty`
  belong to other engines. They are injected functions, so the model does not say what they compute.
- `ScriptableObject.hasProperty` is not part of this model. Its behaviour on a null prototype is folded into
  the injected `protoHasProperty`, which receives `None` for null and always answers with a boolean. The model
  therefore does not capture an exception that the real lookup might raise there.
- The scope walk of `ScriptableObject.getArrayPrototype` is injected as `arrayPrototypeOf`. Only the
  memoisation is modelled.
- `Objects.deepEquals` is equality on `E`. Its recursion into nested arrays is not modelled.
- Error message texts and `Context.reportRuntimeError*` are not modelled. Errors are `Error` tags that carry
  the message arguments.
- The text of `array.toString()` is the parameter `arrayText`. `ScriptRuntime.NaNobj` is the constant `NaN`.
- `getClassName` (the constant `"JavaArray"`), `unwrap` (returns the backing array) and `serialVersionUID`
  are not modelled. They are constants with no behaviour to prove.
- `intValue` returns an unbounded `int` where Java returns a 32-bit one. This changes nothing: the sum
  `args.length + start` is computed only for a negative start, so it cannot overflow, and the loop index
  never passes `length`.
- Concurrent mutation of the backing array by host code during a scan is not modelled. Every method runs
  without interference.
- JavaArrayBridge.NativeJavaArray.DeleteSymbol: the whole contract is the missing `modifies` clause (nothing
  changes). Its ensures, that the spreadable key is still present, holds in any state and adds nothing.
