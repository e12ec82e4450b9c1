/** kernel/param.h: the most blocks one file-system operation writes. */
module Params {
  const MAXOPBLOCKS := 10
}
