/** The absent-or-present value that stands for the TypeScript code's
    `undefined` and `null` results (a failed `Array.find`, no open roadmap card). */
module Wrappers {

  datatype Option<+T> = None | Some(value: T)

  function Max(a: int, b: int): int { if a < b then b else a }

  function Min(a: int, b: int): int { if a < b then a else b }
}
