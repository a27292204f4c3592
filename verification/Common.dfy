/** What the parts of the model share. */
module Common {

  datatype Option<+T> = None | Some(value: T)

  /** The number a block is registered under; packets and ports carry it. */
  type Idp = nat

  const IDP_UNKNOWN: Idp := 0

  // Error numbers; functions return them negated.
  const ENOENT := 2
  const ENOMEM := 12
  const EBUSY := 16
  const EEXIST := 17
  const EINVAL := 22
}
