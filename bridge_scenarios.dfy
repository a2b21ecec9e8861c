/** Clients of the bridge that use only its contracts: a write followed by a
    read, memoised prototype resolution, and the behaviour on small concrete
    arrays. */
module BridgeScenarios {
  import opened ScriptTypes
  import opened ArraySearch
  import opened JavaArrayBridge

  /** Writing a convertible value at a valid index and reading it back gives
      the wrapped converted value, and the backing array (shared with any
      other holder) holds it; a value that does not convert fails and the old
      element is read back; an invalid index fails and reads `undefined`. */
  method WriteThenRead<E, V, W>(bridge: NativeJavaArray<E>, index: int, value: V,
                                jsToJava: V -> Option<E>, wrap: E -> W)
    returns (written: Outcome, read: ScriptValue<E, W>)
    requires bridge.Valid()
    modifies bridge.javaArray
    ensures 0 <= index < bridge.length && jsToJava(value).Some? ==>
      written == Pass && read == Wrapped(wrap(jsToJava(value).value)) &&
      bridge.javaArray[index] == jsToJava(value).value
    ensures 0 <= index < bridge.length && jsToJava(value).None? ==>
      written == Fail(CoercionFailed) && read == Wrapped(wrap(old(bridge.javaArray[index])))
    ensures !(0 <= index < bridge.length) ==>
      written == Fail(IndexOutOfBounds(index, bridge.length - 1)) && read == Undefined
  {
    written := bridge.PutIndex(index, value, jsToJava);
    read := bridge.GetIndex(index, wrap);
  }

  /** The second resolution of the prototype returns the first one's result,
      whatever the scope lookup would now answer. */
  method PrototypeResolvedOnce<E>(bridge: NativeJavaArray<E>,
                                  first: ObjectId -> Option<ObjectId>,
                                  second: ObjectId -> Option<ObjectId>)
    returns (p: Option<ObjectId>, q: Option<ObjectId>)
    modifies bridge`prototype
    ensures p.Some? ==> q == p
    ensures old(bridge.prototype).None? ==> p == first(bridge.parentScope)
  {
    p := bridge.GetPrototype(first);
    q := bridge.GetPrototype(second);
  }

  /** [1, 2, 3]: indexOf(2) is 1, includes(3) holds, includes(5) does not;
      writing 5 at index 1 is visible through the backing array. */
  method IntegerArray(wrap: int -> int, intValue: int -> Option<int>)
  {
    var a := new int[3];
    a[0], a[1], a[2] := 1, 2, 3;
    var bridge := new NativeJavaArray(0, a);
    var indexOf := new IndexOfMethod(a);
    var includes := new IncludesMethod(a);
    var i := indexOf.Call([Plain(2)], intValue);
    assert FirstMatch(a[..], 2, 0) == 1;
    assert i == Success(1);
    var has3 := includes.Call([Plain(3)], intValue);
    assert a[..][2] == 3;
    assert has3 == Success(true);
    var has5 := includes.Call([Plain(5)], intValue);
    assert has5 == Success(false);
    var w := bridge.PutIndex(1, 5, x => Some(x));
    assert w == Pass && a[1] == 5;
    assert bridge.GetIndex(1, wrap) == Wrapped(wrap(5));
  }

  /** An empty array: no keys, index 0 reads `undefined`, and writing index 0
      fails naming 0 and -1. */
  method EmptyArray(wrap: int -> int)
  {
    var a := new int[0];
    var bridge := new NativeJavaArray(0, a);
    var ids := bridge.GetIds();
    assert ids.Length == 0;
    assert bridge.GetIndex(0, wrap) == Undefined;
    var w := bridge.PutIndex(0, 7, x => Some(x));
    assert w == Fail(IndexOutOfBounds(0, -1));
  }

  /** ["a", "b", "c"]: indexOf("b") is 1; after writing "f" at index 1,
      reading index 1 gives the wrapped "f". */
  method StringArray(wrap: string -> string, intValue: string -> Option<int>)
  {
    var a := new string[3];
    a[0], a[1], a[2] := "a", "b", "c";
    var bridge := new NativeJavaArray(0, a);
    var indexOf := new IndexOfMethod(a);
    var i := indexOf.Call([Plain("b")], intValue);
    assert FirstMatch(a[..], "b", 0) == 1;
    assert i == Success(1);
    var w := bridge.PutIndex(1, "f", x => Some(x));
    assert bridge.GetIndex(1, wrap) == Wrapped(wrap("f"));
  }
}
