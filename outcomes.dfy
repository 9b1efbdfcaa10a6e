/** Values shared by the models: an optional value, the Python exceptions the
    modelled code can raise, and the outcome of a Python call (it returns a
    value or raises). */
module Outcomes {

  datatype Option<T> = None | Some(value: T)

  /** The exceptions that appear in the modelled code. `Other` stands for
      whatever a wrapped, user-supplied callable may raise. */
  datatype Exception =
    | KeyError          // `OrderedDict.popitem` on an empty dictionary
    | PermissionError   // raised by the access-control wrapper
    | StopIteration     // a mock whose `side_effect` list is exhausted
    | TypeError         // `object.__new__` given arguments it does not take
    | Other(name: string)

  /** What a Python call produces: a returned value or a raised exception. */
  datatype Outcome<T> = Return(value: T) | Raise(exc: Exception)
}
