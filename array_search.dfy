/** The two search functions a Java array exposes to scripts, `indexOf` and
    `includes`: forward linear scans over the backing array that stop at the
    first element equal to the search value. */
module ArraySearch {
  import opened ScriptTypes

  /** A call argument: either a plain value, or a wrapper around a host value
      (the search value is unwrapped before comparing). */
  datatype Arg<E> = Plain(value: E) | Wrapper(inner: E) {
    function Unwrapped(): E {
      match this
      case Plain(v) => v
      case Wrapper(v) => v
    }
  }

  /** The start offset of a call: 0 without a second argument, otherwise the
      int value of the second argument, which must be a number.
      `intValue` stands for `((Number) v).intValue()`: None when the cast fails. */
  function StartArgument<E>(args: seq<Arg<E>>, intValue: E -> Option<int>): (r: Result<int>)
    ensures |args| <= 1 ==> r == Success(0)
    ensures r.Failure? ==> r == Failure(NotANumber)
    ensures |args| > 1 && r.Success? ==> args[1].Plain? && intValue(args[1].value) == Some(r.value)
    ensures |args| > 1 && args[1].Plain? && intValue(args[1].value).Some? ==> r.Success?
  {
    if |args| <= 1 then Success(0)
    else match args[1]
      case Wrapper(_) => Failure(NotANumber)
      case Plain(v) =>
        match intValue(v)
        case None => Failure(NotANumber)
        case Some(n) => Success(n)
  }

  /** The least index k with from <= k < |s| and s[k] == x, or -1 when there
      is none. */
  function FirstMatch<E(==)>(s: seq<E>, x: E, from: nat): (k: int)
    decreases |s| - from
    ensures k == -1 || (from <= k < |s| && s[k] == x)
    ensures forall j :: from <= j < |s| && (k == -1 || j < k) ==> s[j] != x
  {
    if from >= |s| then -1
    else if s[from] == x then from
    else FirstMatch(s, x, from + 1)
  }

  /** What `indexOf(args...)` returns on the array contents `s`. A negative
      start is moved forward by the number of ARGUMENTS of the call (not by
      the array length); a start that is still negative makes the first read
      of the backing array fail. */
  function IndexOf<E(==)>(s: seq<E>, args: seq<Arg<E>>, intValue: E -> Option<int>): (r: Result<int>)
    ensures |args| == 0 ==> r == Failure(MissingArgument)
    ensures r.Success? ==> -1 <= r.value < |s|
    ensures r.Success? && r.value >= 0 ==> s[r.value] == args[0].Unwrapped()
  {
    if |args| == 0 then Failure(MissingArgument)
    else match StartArgument(args, intValue)
      case Failure(e) => Failure(e)
      case Success(start) =>
        var from := if start < 0 then |args| + start else start;
        if from < 0 then Failure(NegativeElementIndex(from))
        else Success(FirstMatch(s, args[0].Unwrapped(), from))
  }

  /** What `includes(args...)` returns on the array contents `s`: whether
      some element at or after the start equals the search value. The start
      is used as given; a negative one makes the first read fail. */
  function Includes<E(==)>(s: seq<E>, args: seq<Arg<E>>, intValue: E -> Option<int>): (r: Result<bool>)
    ensures |args| == 0 ==> r == Failure(MissingArgument)
    ensures r.Success? <==> |args| > 0 && StartArgument(args, intValue).Success? && StartArgument(args, intValue).value >= 0
    ensures r.Success? ==> var start := StartArgument(args, intValue).value;
      r.value <==> start < |s| && args[0].Unwrapped() in s[start..]
  {
    if |args| == 0 then Failure(MissingArgument)
    else match StartArgument(args, intValue)
      case Failure(e) => Failure(e)
      case Success(start) =>
        if start < 0 then Failure(NegativeElementIndex(start))
        else Success(exists k :: start <= k < |s| && s[k] == args[0].Unwrapped())
  }

  /** For every start, `indexOf` scans from the normalised start `from`
      (the start itself, or the argument count plus a negative start): a
      `from` that is still negative fails at that index; otherwise the result
      is -1 exactly when nothing from `from` on matches, and else the FIRST
      index at or after `from` holding the search value. */
  lemma IndexOfIsFirst<E>(s: seq<E>, args: seq<Arg<E>>, intValue: E -> Option<int>, start: int)
    requires |args| > 0 && StartArgument(args, intValue) == Success(start)
    ensures var from := if start < 0 then |args| + start else start;
      from < 0 ==> IndexOf(s, args, intValue) == Failure(NegativeElementIndex(from))
    ensures var from := if start < 0 then |args| + start else start;
      from >= 0 ==> IndexOf(s, args, intValue).Success?
    ensures var from := if start < 0 then |args| + start else start;
      var r := IndexOf(s, args, intValue);
      r.Success? ==> (r.value == -1 <==> forall k :: from <= k < |s| ==> s[k] != args[0].Unwrapped())
    ensures var from := if start < 0 then |args| + start else start;
      var r := IndexOf(s, args, intValue);
      r.Success? && r.value >= 0 ==>
        from <= r.value && s[r.value] == args[0].Unwrapped() &&
        forall j :: from <= j < r.value ==> s[j] != args[0].Unwrapped()
  {
  }

  /** For a non-negative start, `includes` holds exactly when `indexOf` finds
      something. */
  lemma IncludesAgreesWithIndexOf<E>(s: seq<E>, args: seq<Arg<E>>, intValue: E -> Option<int>)
    requires |args| > 0 && StartArgument(args, intValue).Success? && StartArgument(args, intValue).value >= 0
    ensures IndexOf(s, args, intValue).Success?
    ensures Includes(s, args, intValue) == Success(IndexOf(s, args, intValue).value != -1)
  {
  }

  /** Errors come in the order the arguments are read: the missing search
      value first, then a start that is not a number. Neither search ever
      fails otherwise with a non-negative start. */
  lemma SearchFailures<E>(s: seq<E>, args: seq<Arg<E>>, intValue: E -> Option<int>)
    ensures IndexOf(s, args, intValue).Failure? ==>
      |args| == 0 || StartArgument(args, intValue).Failure? || StartArgument(args, intValue).value < 0
    ensures Includes(s, args, intValue).Failure? ==>
      |args| == 0 || StartArgument(args, intValue).Failure? || StartArgument(args, intValue).value < 0
    ensures |args| == 0 ==> Includes(s, args, intValue) == Failure(MissingArgument)
    ensures |args| > 0 && StartArgument(args, intValue).Failure? ==>
      IndexOf(s, args, intValue) == Failure(NotANumber) && Includes(s, args, intValue) == Failure(NotANumber)
  {
  }

  /** `includes` with a negative start always fails, even on an empty array:
      the loop guard `index < length` holds for any negative index. */
  lemma IncludesNegativeStartFails<E>(s: seq<E>, args: seq<Arg<E>>, intValue: E -> Option<int>)
    requires |args| > 1 && StartArgument(args, intValue).Success? && StartArgument(args, intValue).value < 0
    ensures Includes(s, args, intValue) == Failure(NegativeElementIndex(StartArgument(args, intValue).value))
  {
  }

  /** On [a, b, c] with b searched from start -1 in a two-argument call,
      `indexOf` starts at 2 + (-1) = 1 and finds b at 1, whereas `includes`
      with the same arguments fails because it does not adjust the start. */
  lemma NegativeStartAsymmetry<E>(a: E, b: E, c: E, n: E, intValue: E -> Option<int>)
    requires a != b && intValue(n) == Some(-1)
    ensures IndexOf([a, b, c], [Plain(b), Plain(n)], intValue) == Success(1)
    ensures Includes([a, b, c], [Plain(b), Plain(n)], intValue) == Failure(NegativeElementIndex(-1))
  {
  }

  /** The function object returned for the name "indexOf", bound to one
      backing array. */
  class IndexOfMethod<E(==)> {
    const javaArray: array<E>

    constructor (javaArray: array<E>)
      ensures this.javaArray == javaArray
    {
      this.javaArray := javaArray;
    }

    method Call(args: seq<Arg<E>>, intValue: E -> Option<int>) returns (r: Result<int>)
      ensures r == IndexOf(javaArray[..], args, intValue)
    {
      if |args| == 0 {
        return Failure(MissingArgument);
      }
      var arg := args[0].Unwrapped();
      var start := 0;
      if |args| > 1 {
        match args[1]
        case Wrapper(_) =>
          return Failure(NotANumber);
        case Plain(v) =>
          match intValue(v)
          case None =>
            return Failure(NotANumber);
          case Some(n) =>
            start := n;
      }
      if start < 0 {
        start := |args| + start;
      }
      var length := javaArray.Length;
      var index := start;
      while index < length
        invariant index == start || 0 <= start < index <= length
        invariant forall k :: start <= k < index ==> javaArray[k] != arg
      {
        if index < 0 {
          return Failure(NegativeElementIndex(index));
        }
        if arg == javaArray[index] {
          return Success(index);
        }
        index := index + 1;
      }
      return Success(-1);
    }
  }

  /** The function object returned for the name "includes", bound to one
      backing array. */
  class IncludesMethod<E(==)> {
    const javaArray: array<E>

    constructor (javaArray: array<E>)
      ensures this.javaArray == javaArray
    {
      this.javaArray := javaArray;
    }

    method Call(args: seq<Arg<E>>, intValue: E -> Option<int>) returns (r: Result<bool>)
      ensures r == Includes(javaArray[..], args, intValue)
    {
      if |args| == 0 {
        return Failure(MissingArgument);
      }
      var arg := args[0].Unwrapped();
      var start := 0;
      if |args| > 1 {
        match args[1]
        case Wrapper(_) =>
          return Failure(NotANumber);
        case Plain(v) =>
          match intValue(v)
          case None =>
            return Failure(NotANumber);
          case Some(n) =>
            start := n;
      }
      var length := javaArray.Length;
      var index := start;
      while index < length
        invariant index == start || 0 <= start < index <= length
        invariant forall k :: start <= k < index ==> javaArray[k] != arg
      {
        if index < 0 {
          return Failure(NegativeElementIndex(index));
        }
        if arg == javaArray[index] {
          return Success(true);
        }
        index := index + 1;
      }
      assert forall k :: start <= k < |javaArray[..]| ==> javaArray[..][k] != arg;
      return Success(false);
    }
  }
}
