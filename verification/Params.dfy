/** Kernel-wide constants (kernel/param.h, kernel/fs.h). */
module Params {
  const NPROC: nat := 64
  const MAXOPBLOCKS: nat := 10
  const LOGSIZE: nat := MAXOPBLOCKS * 3
  const NBUF: nat := MAXOPBLOCKS * 3
  const BSIZE: nat := 1024
  const UINT_RANGE: nat := 0x1_0000_0000
}
