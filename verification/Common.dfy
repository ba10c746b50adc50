/** Small value types shared by every module. */
module Common {
  datatype Option<+T> = None | Some(value: T) {
    function GetOr(default: T): T { if Some? then value else default }
  }

  type JobId = nat   // a random id string in the program; only ever compared for equality
  type Stamp = int   // a UTC instant in microseconds; module Clock relates it to the stored text
}
