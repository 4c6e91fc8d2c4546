/** The few Go notions every other module uses. */
module GoTypes {

  /** One byte of a Go string, written as the character with that code. */
  type GoByte = c: char | c as int < 256 witness 'a'

  /** A Go string is a sequence of bytes. */
  type GoString = seq<GoByte>

  datatype Option<+T> = None | Some(value: T)

  datatype Result<+T, +E> = Ok(value: T) | Err(error: E)
}

module GoMaps {
  /** A Go map: a reference, so that callers see what a callee writes. */
  class StringMap {
    var m: map<string, string>

    constructor (m: map<string, string>)
      ensures this.m == m
    {
      this.m := m;
    }
  }

  /** The entries of a Go map that may be nil. */
  function Entries(params: StringMap?): map<string, string>
    reads if params == null then {} else {params}
  {
    if params == null then map[] else params.m
  }
}
