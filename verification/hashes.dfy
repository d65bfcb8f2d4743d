/** Infohashes as they are stored: 40 lower-case hexadecimal digits. */
module Hashes {
  predicate IsHex40(s: string) { |s| == 40 && forall c <- s :: '0' <= c <= '9' || 'a' <= c <= 'f' }
}
