/** Optional values, results and the kinds of exception the file manager raises. */
module Outcomes {

  datatype Option<T> = None | Some(value: T)

  /** What a Python call does: return a value or raise an exception of some kind. */
  datatype Result<T> = Ok(value: T) | Err(error: Error) {
    predicate IsFailure() { Err? }
    function PropagateFailure<U>(): Result<U> requires Err? { Err(error) }
    function Extract(): T requires Ok? { value }
  }

  /** A call that returns nothing useful (Python's None) or raises. */
  type Outcome = Result<()>

  const Done: Outcome := Ok(())

  /** The exception kinds, by the Python class that carries them. */
  datatype Error =
    | NotFound          // FileNotFoundError: the name is not bound in the current directory
    | AlreadyExists     // FileExistsError: the name is already bound
    | NotPermitted      // PermissionError: no file is open, or it is open in another mode
    | BadMode           // ValueError: FileObject.open given a mode other than "r", "w", "a"
    | NoAttribute       // AttributeError: `mode` read before any open, or `.open` on a directory
    | NotADirectory     // TypeError: `in` or `[...]` applied to a FileObject
    | MissingKey        // KeyError: a path segment that the walked directory does not bind
    | MissingArgument   // IndexError: the command has fewer arguments than it reads
    | NotAnInteger      // ValueError: int() refused an argument
}
