/**
 * The crate's one error type: the engine's message, kept verbatim, with no
 * classification into kinds; and the result alias every fallible call uses.
 */
module Errors {
  import opened Common
  import opened Native
  import Lib

  datatype Error = Error(message: string)

  datatype Result<T> = Ok(value: T) | Err(error: Error)

  /**
   * `Error::new`: copies the engine's message out, then hands the engine
   * string back to the allocator; the string is not touched afterwards.
   */
  method NewError(engine: Engine, errptr: Ptr) returns (e: Error)
    requires engine.Inv() && errptr.At?
    requires errptr.h in engine.live && engine.live[errptr.h].Str?
    modifies engine
    ensures engine.Inv() && engine.Gone(errptr.h)
    ensures e.message == old(engine.live[errptr.h].msg)
  {
    var message := engine.live[errptr.h].msg;
    engine.Unreferenced(errptr.h);
    Lib.Free(engine, errptr.h);
    e := Error(message);
  }
}
