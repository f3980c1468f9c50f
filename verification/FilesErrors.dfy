/** Error numbers of the Files mount. */
module FilesErrors {

  const EPERM := 1
  const ENOENT := 2
  const EACCES := 13
  const ENOTDIR := 20
  const EISDIR := 21
  const EINVAL := 22
  const EFBIG := 27
  const EOPNOTSUPP := 95

  /** The errno reported for an OSError that may carry an HTTP status. */
  function MappedErrno(errno: int, status: int): int {
    if status == 400 then EINVAL else if status == 403 then EACCES else errno
  }
}
