/** What Tower says of a virtual machine. */
module Tower {
  datatype VMStatus = Running | Stopped | Suspended | Unknown | Deleted
}
