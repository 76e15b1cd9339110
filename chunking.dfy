/**
 * The sizes every chunking algorithm of pcat is built from: the page size that
 * memory mappings are aligned to and the largest block copied in one go.
 */
module Chunking {

  const KiB: nat := 1024
  const MiB: nat := 1024 * KiB

  /** The platforms pcat builds for; only the page size differs between them. */
  datatype Platform = Posix | Windows

  /** Mapping granularity: 4 KiB on POSIX systems, 64 KiB on Windows. */
  function PageSizeFor(platform: Platform): (size: nat)
    ensures size > 0
    ensures size % (4 * KiB) == 0
  {
    if platform == Windows then 64 * KiB else 4 * KiB
  }

  /** The page size of the build modelled throughout: the POSIX one. */
  const PageSize: nat := 4096

  lemma PageSizeIsPosix()
    ensures PageSize == PageSizeFor(Posix)
  {
  }

  /** The largest amount of data moved by a single copy. */
  const TransferBlockSize: nat := 1048576

  /** Every transfer block is a whole number of pages on every platform. */
  lemma TransferBlockIsWholePages(platform: Platform)
    ensures TransferBlockSize == 1 * MiB
    ensures TransferBlockSize % PageSizeFor(platform) == 0
    ensures TransferBlockSize >= PageSizeFor(platform)
  {
  }

  /** std::min over off_t. */
  function Min(a: int, b: int): int
  {
    if b < a then b else a
  }

  /** The length of the next transfer block when `length` bytes are left. */
  function BlockLength(length: int): (block: int)
    ensures block <= TransferBlockSize && block <= length
    ensures block == TransferBlockSize || block == length
  {
    Min(TransferBlockSize, length)
  }
}
