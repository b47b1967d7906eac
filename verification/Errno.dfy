/** The Linux error numbers the driver returns, as positive constants; the code returns them negated. */
module Errno {
  const ENOENT := 2
  const EINTR := 4
  const ENOMEM := 12
  const EFAULT := 14
  const EBUSY := 16
  const ENODEV := 19
  const EINVAL := 22
  const EPIPE := 32
  const ENODATA := 61
  const EPROTO := 71
  const ENOBUFS := 105
  const ESHUTDOWN := 108
  const ETIMEDOUT := 110
  const EINPROGRESS := 115
  const ECANCELED := 125
  const ERESTARTSYS := 512
}
