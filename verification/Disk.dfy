/**
 Writing a small file by replacing it.
 */
module Disk {
  /** What a write comes to: Unsynced replaced the file but still reported an
      error. */
  datatype Write = Committed | Failed | Unsynced
}
