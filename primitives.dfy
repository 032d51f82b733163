/** The Rust primitive types the configuration records use, with their ranges. */
module Primitives {

  type u8 = x: nat | x < 0x100
  type u32 = x: nat | x < 0x1_0000_0000
  type u64 = x: nat | x < 0x1_0000_0000_0000_0000
  type i32 = x: int | -0x8000_0000 <= x < 0x8000_0000

  /** `PathBuf`, rendered through `Path::display()` as its text. */
  type Path = string
}
