/** The bridge that shows a fixed-length Java array to scripts as an object
    with a read-only `length`, the functions `indexOf` and `includes`, the
    integer indices 0 .. length-1 and the symbol `Symbol.isConcatSpreadable`.

    The engines the bridge calls into are passed in as functions:
    - `wrap` turns an element into a script value (the wrap factory);
    - `jsToJava` converts a script value to the element type, None when it
      cannot (`Context.jsToJava` throwing);
    - `superHas` / `superGet` are the generic Java-object property lookup;
    - `protoHasProperty` asks whether a prototype (None for null) has a name;
    - `arrayPrototypeOf` finds the shared array prototype of a scope. */
module JavaArrayBridge {
  import opened ScriptTypes
  import opened ArraySearch

  /** The script values the bridge hands out. */
  datatype ScriptValue<E(==), W> =
    | Undefined
    | NotFound                                    // Scriptable.NOT_FOUND
    | Integer(n: int)
    | Boolean(b: bool)
    | Text(s: string)
    | NaN                                         // the runtime's not-a-number sentinel
    | Wrapped(w: W)                               // a value produced by another engine
    | JavaArray(bridge: NativeJavaArray<E>)
    | IndexOfFunction(indexOf: IndexOfMethod<E>)
    | IncludesFunction(includes: IncludesMethod<E>)

  /** A host object handed to the bridge's constructor: an array, or anything
      else (named by its class). */
  datatype HostObject<E> = HostArray(elements: array<E>) | NonArray(className: string)

  /** A candidate of an `instanceof` test: a wrapped host value, or a script
      object that wraps nothing. */
  datatype Candidate<X> = HostWrapper(unwrapped: X) | ScriptObject

  /** The names the bridge answers itself, before any generic lookup. */
  const BuiltinNames: set<string> := {"length", "indexOf", "includes"}

  class NativeJavaArray<E(==)> {
    const javaArray: array<E>
    const length: int
    const parentScope: ObjectId
    var prototype: Option<ObjectId>

    /** The length the bridge reports is the length of its backing array. */
    ghost predicate Valid()
      reads this
    {
      length == javaArray.Length
    }

    constructor (scope: ObjectId, javaArray: array<E>)
      ensures Valid()
      ensures this.javaArray == javaArray && length == javaArray.Length
      ensures parentScope == scope && prototype == None
    {
      this.javaArray := javaArray;
      length := javaArray.Length;
      parentScope := scope;
      prototype := None;
    }

    /** Bridges a host object, refusing anything that is not an array. */
    static method Wrap(scope: ObjectId, obj: HostObject<E>) returns (r: Result<NativeJavaArray<E>>)
      ensures obj.NonArray? ==> r == Failure(ArrayExpected)
      ensures obj.HostArray? ==> r.Success? && fresh(r.value) && r.value.Valid()
      ensures obj.HostArray? ==> r.value.javaArray == obj.elements && r.value.length == obj.elements.Length
      ensures obj.HostArray? ==> r.value.parentScope == scope && r.value.prototype == None
    {
      match obj
      case NonArray(_) =>
        return Failure(ArrayExpected);
      case HostArray(elements) =>
        var bridge := new NativeJavaArray(scope, elements);
        return Success(bridge);
    }

    /** Named membership: the built-in names, or whatever the generic lookup
        finds. */
    function HasNamed(id: string, superHas: string -> bool): (r: bool)
      ensures r <==> id in BuiltinNames || superHas(id)
    {
      id == "length" || id == "indexOf" || id == "includes" || superHas(id)
    }

    /** Indexed membership is a bounds check against the backing array. */
    function HasIndex(index: int): (r: bool)
      requires Valid()
      reads this
      ensures r <==> 0 <= index < javaArray.Length
    {
      0 <= index && index < length
    }

    /** Only `Symbol.isConcatSpreadable` is present. */
    function HasSymbol(key: Symbol): (r: bool)
      ensures r <==> key == IsConcatSpreadable
    {
      key == IsConcatSpreadable
    }

    /** Named read: `length`, a fresh `indexOf` or `includes` bound to the
        backing array, otherwise the generic lookup; when that misses too,
        the prototype is resolved and a name it lacks is an error. */
    method GetNamed<W>(id: string, superGet: string -> Option<W>,
                       protoHasProperty: (Option<ObjectId>, string) -> bool,
                       arrayPrototypeOf: ObjectId -> Option<ObjectId>,
                       arrayClassName: string)
      returns (r: Result<ScriptValue<E, W>>)
      requires Valid()
      modifies this`prototype
      ensures Valid()
      ensures id == "length" ==> r == Success(Integer(javaArray.Length))
      ensures id == "indexOf" ==>
        r.Success? && r.value.IndexOfFunction? && fresh(r.value.indexOf) && r.value.indexOf.javaArray == javaArray
      ensures id == "includes" ==>
        r.Success? && r.value.IncludesFunction? && fresh(r.value.includes) && r.value.includes.javaArray == javaArray
      ensures id !in BuiltinNames && superGet(id).Some? ==> r == Success(Wrapped(superGet(id).value))
      ensures id in BuiltinNames || superGet(id).Some? ==> prototype == old(prototype)
      ensures id !in BuiltinNames && superGet(id).None? ==>
        prototype == (if old(prototype).Some? then old(prototype) else arrayPrototypeOf(parentScope))
      ensures id !in BuiltinNames && superGet(id).None? ==>
        r == if protoHasProperty(prototype, id) then Success(NotFound) else Failure(MemberNotFound(arrayClassName, id))
    {
      if id == "length" {
        return Success(Integer(length));
      } else if id == "indexOf" {
        var f := new IndexOfMethod(javaArray);
        return Success(IndexOfFunction(f));
      } else if id == "includes" {
        var f := new IncludesMethod(javaArray);
        return Success(IncludesFunction(f));
      }
      var result := superGet(id);
      if result.None? {
        var proto := GetPrototype(arrayPrototypeOf);
        if !protoHasProperty(proto, id) {
          return Failure(MemberNotFound(arrayClassName, id));
        }
        return Success(NotFound);
      }
      return Success(Wrapped(result.value));
    }

    /** Indexed read: the wrapped element in range, `undefined` out of range;
        never an error. */
    function GetIndex<W>(index: int, wrap: E -> W): (r: ScriptValue<E, W>)
      requires Valid()
      reads this, javaArray
      ensures 0 <= index < javaArray.Length ==> r == Wrapped(wrap(javaArray[index]))
      ensures !(0 <= index < javaArray.Length) ==> r == Undefined
    {
      if 0 <= index && index < length then Wrapped(wrap(javaArray[index])) else Undefined
    }

    /** Symbol read: true for `Symbol.isConcatSpreadable`, not found otherwise. */
    function GetSymbol<W>(key: Symbol): (r: ScriptValue<E, W>)
      ensures r == Boolean(true) || r == NotFound
      ensures r == Boolean(true) <==> HasSymbol(key)
    {
      if key == IsConcatSpreadable then Boolean(true) else NotFound
    }

    /** Named write: `length` is read-only and silently kept; any other name
        is an error. Nothing changes either way. */
    function PutNamed<V>(id: string, value: V): (r: Outcome)
      ensures r == Pass <==> id == "length"
      ensures r != Pass ==> r == Fail(ArrayMemberNotFound(id))
    {
      if id != "length" then Fail(ArrayMemberNotFound(id)) else Pass
    }

    /** Indexed write: out of range is an error naming the index and the last
        valid index; in range the converted value replaces that one slot of
        the shared backing array. `length` is a constant and never changes. */
    method PutIndex<V>(index: int, value: V, jsToJava: V -> Option<E>) returns (r: Outcome)
      requires Valid()
      modifies javaArray
      ensures Valid()
      ensures !(0 <= index < length) ==> r == Fail(IndexOutOfBounds(index, length - 1))
      ensures 0 <= index < length && jsToJava(value).None? ==> r == Fail(CoercionFailed)
      ensures r == Pass <==> 0 <= index < length && jsToJava(value).Some?
      ensures r == Pass ==> javaArray[..] == old(javaArray[..])[index := jsToJava(value).value]
      ensures r != Pass ==> javaArray[..] == old(javaArray[..])
    {
      if 0 <= index && index < length {
        var converted := jsToJava(value);
        if converted.None? {
          return Fail(CoercionFailed);
        }
        javaArray[index] := converted.value;
        return Pass;
      } else {
        return Fail(IndexOutOfBounds(index, length - 1));
      }
    }

    /** Deleting a symbol does nothing. That is stated by the missing
        `modifies` clause; the ensures only restates, for a reader, that the
        spreadable key is still present afterwards, which holds in any state. */
    method DeleteSymbol(key: Symbol)
      ensures HasSymbol(IsConcatSpreadable)
    {
    }

    /** Conversion to a primitive: the array's text for no hint or a string
        hint, true for a boolean hint, NaN for a number hint, and the bridge
        itself for any other hint. `arrayText` is the host's `toString` of
        the backing array. */
    function GetDefaultValue<W>(hint: Hint, arrayText: string): (r: ScriptValue<E, W>)
      ensures hint == NoHint || hint == StringHint <==> r == Text(arrayText)
      ensures hint == BooleanHint <==> r == Boolean(true)
      ensures hint == NumberHint <==> r == NaN
      ensures hint.OtherHint? <==> r == JavaArray(this)
    {
      match hint
      case NoHint => Text(arrayText)
      case StringHint => Text(arrayText)
      case BooleanHint => Boolean(true)
      case NumberHint => NaN
      case OtherHint(_) => JavaArray(this)
    }

    /** The own keys: a fresh array holding exactly 0 .. length-1 in order,
        filled from the top index down. */
    method GetIds() returns (ids: array<int>)
      requires Valid()
      ensures fresh(ids)
      ensures ids.Length == javaArray.Length
      ensures forall k :: 0 <= k < ids.Length ==> ids[k] == k
    {
      ids := new int[length];
      var i := length - 1;
      while i >= 0
        invariant -1 <= i < length
        invariant forall k :: i < k < length ==> ids[k] == k
      {
        ids[i] := i;
        i := i - 1;
      }
    }

    /** `instanceof`: only a wrapped host value can be an instance, and then
        exactly when it is an instance of the ELEMENT type (`isInstance`). */
    function HasInstance<X>(value: Candidate<X>, isInstance: X -> bool): (r: bool)
      ensures r ==> value.HostWrapper?
      ensures value.HostWrapper? ==> (r <==> isInstance(value.unwrapped))
    {
      match value
      case ScriptObject => false
      case HostWrapper(x) => isInstance(x)
    }

    /** The prototype is looked up in the parent scope on first use and kept:
        once set, it is returned unchanged. */
    method GetPrototype(arrayPrototypeOf: ObjectId -> Option<ObjectId>) returns (p: Option<ObjectId>)
      modifies this`prototype
      ensures old(prototype).Some? ==> prototype == old(prototype)
      ensures old(prototype).None? ==> prototype == arrayPrototypeOf(parentScope)
      ensures p == prototype
    {
      if prototype.None? {
        prototype := arrayPrototypeOf(parentScope);
      }
      return prototype;
    }
  }

  /** Membership and reads agree on indices: an index is present exactly
      when reading it does not give `undefined`. */
  lemma HasIndexIffDefined<E, W>(bridge: NativeJavaArray<E>, index: int, wrap: E -> W)
    requires bridge.Valid()
    ensures bridge.HasIndex(index) <==> bridge.GetIndex(index, wrap) != Undefined
  {
  }

  /** Membership and reads agree on symbols. */
  lemma HasSymbolIffFound<E, W>(bridge: NativeJavaArray<E>, key: Symbol)
    ensures bridge.HasSymbol(key) <==> bridge.GetSymbol<W>(key) != NotFound
  {
  }
}
