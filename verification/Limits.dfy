/** Lengths that several components share. */
module Limits {
  const IFNAMSIZ := 16
  const NQN_MAX_LEN := 256
}
