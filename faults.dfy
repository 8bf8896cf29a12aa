/** The Java exceptions that can escape from the modelled code, as values. */
module Faults {

  datatype Fault =
    | NullPointer          // a method called on a null reference
    | IndexOutOfBounds     // an array, list or substring index outside its bounds
    | NumberFormat         // `Integer.parseInt` / `Long.parseLong` on malformed text
    | IllegalArgument      // thrown on purpose for input that cannot be used
    | IllegalState         // thrown on purpose when a step cannot go on
    | UnsupportedOperation // thrown on purpose for a combination that is not supported
    | Io                   // an IOException from running a command or touching a file
}
