/** The mutations carried by the consensus log and by the write-ahead log. */
module Commands {
  import opened Basics

  datatype Command =
    | Put(key: Str, value: Str)
    | Delete(key: Str)
    | Clear
    | Incr(key: Str)
    | CAS(key: Str, old_: Str, new_: Str)
    | Expire(key: Str, deadline: int)
}
