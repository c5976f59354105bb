/** The library's plain enumerations and the exceptions its operations throw. */
module Model {

  /** Whether a subscription leaves the bus after its first accepted message. */
  datatype UnsubscribePolicy =
    | Manual  // never removed automatically
    | Auto    // removed from the bus after the first accepted message

  /** The exceptions thrown by the modelled operations, named by their .NET class. */
  datatype Error =
    | ArgumentNullError(param: string)  // System.ArgumentNullException
    | ArgumentError(param: string)      // System.ArgumentException
    | NotSupportedError                 // System.NotSupportedException
    | NullReferenceError                // System.NullReferenceException
    | CallbackError(token: nat)         // an exception thrown by user code with this token
}
