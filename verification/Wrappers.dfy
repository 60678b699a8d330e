/** The two failure-carrying datatypes shared by the modules below. */
module Wrappers {
  datatype Option<+T> = None | Some(value: T) {
    function GetOr(default: T): T { if this.None? then default else value }
  }

  datatype Result<+T> = Ok(value: T) | Err(error: string)
}
