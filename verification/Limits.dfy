/** Numeric bounds shared by several parts of the system
    (src/generation.rs:31-46). */
module Limits {
  const MAX_I64: int := 0x7fff_ffff_ffff_ffff
  const MIN_I64: int := -0x8000_0000_0000_0000
  const U64_LIMIT: int := 0x1_0000_0000_0000_0000

  /** The most assets one ComfyUI job may deliver. */
  const MAX_COMFY_ASSETS := 16
}
