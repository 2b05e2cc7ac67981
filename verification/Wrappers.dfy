// The option type shared by every module: a row that may be absent, a batch that may abort.
module Wrappers {
  datatype Option<+T> = None | Some(value: T)
}
