/// Small helper types shared by the modules of the model.
module Util {

  /// Go's `error` return: `None` stands for `nil`, `Some(v)` for a failure
  /// carrying `v`.
  datatype Option<+T> = None | Some(value: T)

  /// `t` is a suffix of `s`.
  predicate IsSuffix<T(==)>(t: seq<T>, s: seq<T>) {
    |t| <= |s| && t == s[|s| - |t|..]
  }
}
