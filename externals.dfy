/** Library calls whose behaviour is not part of the model, passed in as
    functions. Being Dafny functions, they are taken to be total and
    deterministic: none of them ever raises. */
module Externals {

  /** `hashlib.md5(s).hexdigest()`, `int(text)`, and
      `datetime.utcfromtimestamp(sec + usec / 1e6).isoformat()`. */
  datatype Library = Library(
    md5Hex: string -> string,
    parseInt: string -> int,
    isoTimestamp: (int, int) -> string)
}
