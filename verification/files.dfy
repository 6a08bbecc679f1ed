/** What may go wrong when a file is replaced through a temporary one. */
module Files {
  /** Whether writing the temporary file and renaming it go through. */
  datatype Disk = Disk(writes: bool, renames: bool)
}
