/** Return values shared by the driver model: optional values, the kernel
    error numbers the driver uses, and a result that is either a value or an
    errno (the `0` / `-errno` convention of kernel callbacks). */
module Outcomes {

  datatype Option<+T> = None | Some(value: T) {
    function GetOr(default: T): T {
      match this
      case Some(v) => v
      case None => default
    }
  }

  /** The Linux error numbers the driver returns. */
  datatype Errno = EINVAL | ENODEV | EOPNOTSUPP

  /** The numeric value of each errno on Linux. */
  function Number(e: Errno): (n: int)
    ensures n > 0
  {
    match e
    case EINVAL => 22
    case ENODEV => 19
    case EOPNOTSUPP => 95
  }

  datatype Result<+T> = Ok(value: T) | Err(errno: Errno) {
    /** The C return code: 0 on success, the negated errno on failure. */
    function ReturnCode(): (rc: int)
      ensures rc == 0 <==> Ok?
      ensures rc < 0 <==> Err?
    {
      match this
      case Ok(_) => 0
      case Err(e) => -Number(e)
    }
  }
}
