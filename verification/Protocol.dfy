/** What messages between clients, naming server and storage servers are made of. */
module Protocol {

  /** A storage server, by the order in which it registered; stands for a pointer into the table of servers. */
  type Srv = nat

  const MAX_SS: nat := 100
  /** A message and a server's record list at most this many paths. */
  const MAX_ACCESSIBLE_PATHS: nat := 10

  /** `fread` is asked for one byte less than the buffer holds. */
  const MAX_DATA_SIZE: nat := 8192

  datatype FileKind = PlainFile | Directory | Unknown

  datatype Code =
    | SUCCESS | FILE_NOT_FOUND | PERMISSION_DENIED | SS_UNAVAILABLE | NETWORK_ERROR | FILE_EXISTS | INVALID_OPERATION
    | ASYNC_WRITE_FAILED
}
