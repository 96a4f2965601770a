/** Text formats that the release tools share (release_backup.py, release_publication.py). */
module Formats {
  import opened RepoPaths

  /** `n` lower-case hexadecimal digits. */
  predicate Hex(s: string, n: nat) {
    |s| == n && forall i :: 0 <= i < |s| ==> '0' <= s[i] <= '9' || 'a' <= s[i] <= 'f'
  }

  /** A path that stays below its root: `not is_absolute()` and no ".." among its parts. */
  predicate SafeRelative(path: string) {
    path != "" && path[0] != '/' && ".." !in Split(path)
  }
}
