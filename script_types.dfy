/** Values shared by the Java-array bridge and its search functions: results,
    the errors the bridge raises, symbol keys and default-value hints. */
module ScriptTypes {

  datatype Option<+T> = None | Some(value: T)

  /** The outcome of an operation that either yields a value or throws. */
  datatype Result<+T> = Success(value: T) | Failure(error: Error)

  /** The outcome of an operation that yields nothing or throws. */
  datatype Outcome = Pass | Fail(error: Error)

  /** Identity of a script object (a scope, a prototype) that the model does
      not look inside. */
  type ObjectId = nat

  /** Every way an operation of the bridge can fail; the message texts of the
      runtime are not modelled, only which error and its arguments. */
  datatype Error =
    | ArrayExpected                                   // constructor given a non-array
    | MemberNotFound(className: string, name: string) // "msg.java.member.not.found"
    | ArrayMemberNotFound(name: string)               // "msg.java.array.member.not.found"
    | IndexOutOfBounds(index: int, last: int)         // "msg.java.array.index.out.of.bounds"
    | CoercionFailed                                  // the value does not convert to the element type
    | MissingArgument                                 // args[0] read from an empty argument list
    | NotANumber                                      // the start argument is not a java.lang.Number
    | NegativeElementIndex(index: int)                // the backing array read at a negative index

  /** Symbol keys: the one the bridge knows, and every other symbol. */
  datatype Symbol = IsConcatSpreadable | OtherSymbol(description: string)

  /** The type hint passed to getDefaultValue. */
  datatype Hint = NoHint | StringHint | BooleanHint | NumberHint | OtherHint(className: string)
}
