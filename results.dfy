/** Error outcomes shared by the indicator model.
    Each variant stands for an exception the Python code raises, or for a
    numpy division that would silently produce inf/NaN instead of a number. */
module Results {

  datatype Error =
    | IndexOutOfRange           // `xs[-1]` / `iloc[-2]` on a too-short sequence
    | EmptyArgument             // `max`, `min`, `argmax`, `np.min` of an empty sequence
    | NotEnoughData             // explicit ValueError for a too-short window
    | LengthMismatch            // element-wise arithmetic on series of different lengths
    | DegenerateDivision        // a zero denominator (numpy would give inf or NaN)
    | UnboundPattern            // a local variable read before any branch assigned it
    | MissingKey(key: string)   // dictionary lookup of an absent key
    | UnknownStrategy(name: string)
    | DuplicateArgument(argument: string)  // a keyword that repeats a named parameter
    | UnexpectedKeyword(strategy: string)  // a keyword the class's constructor does not take
    | MissingArgument(strategy: string)    // a constructor argument without a default left out
    | MissingAttribute(attribute: string)  // an attribute no class defines
    | UndefinedName(identifier: string)    // a global name that was never assigned
    | InvalidPrecision(precision: string)
    | InvalidSeparator

  datatype Result<+T> = Ok(value: T) | Fail(error: Error)
}
