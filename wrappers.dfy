/** The optional value used wherever the C++ code returns `std::optional` or "no code". */
module Wrappers {
  datatype Option<+T> = None | Some(value: T)
}
