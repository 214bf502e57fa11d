/** What the models share. */
module Common {
  datatype Option<+T> = None | Some(value: T)

  /** include/linux/blkdev.h: the least value nr_requests can be set to */
  const BLKDEV_MIN_RQ := 4
}
