/** The in-memory engine as a value: keys with optional deadlines, and what
    each operation of MemStore does at a given clock reading. */
module Store {
  import opened Basics
  import opened Commands
  import opened Decimal

  /** `exp` is an absolute deadline; 0 means the key never expires. */
  datatype Item = Item(value: Str, exp: int)

  type Data = map<Str, Item>

  datatype Error = NotFound | NotNumeric | Overflow

  datatype Reply = Done | Value(value: Str) | Number(n: int) | Swapped(ok: bool) | Failed(error: Error)

  predicate Expired(e: Item, now: int) { e.exp != 0 && now >= e.exp }

  predicate IsLive(d: Data, key: Str, now: int) { key in d && !Expired(d[key], now) }

  /** The entries a reader at time `now` can see. */
  function Live(d: Data, now: int): Data {
    map k | k in d && !Expired(d[k], now) :: d[k]
  }

  /** Drop one key if it is dead: the second phase of Get, and the first move
      of Incr, CAS and Expire. */
  function Purge(d: Data, key: Str, now: int): Data {
    if key in d && Expired(d[key], now) then d - {key} else d
  }

  function Read(d: Data, key: Str, now: int): Reply {
    if IsLive(d, key, now) then Value(d[key].value) else Failed(NotFound)
  }

  /** Each mutation, with the lazy purge MemStore performs on the way. */
  function Apply(d: Data, cmd: Command, now: int): (Data, Reply) {
    match cmd
    case Put(k, v) => (d[k := Item(v, 0)], Done)
    case Delete(k) => (d - {k}, Done)
    case Clear => (map[], Done)
    case Incr(k) =>
      var d1 := Purge(d, k, now);
      if k !in d1 then (d1[k := Item(FormatInt(1), 0)], Number(1))
      else (match ParseInt(d1[k].value)
            case None => (d1, Failed(NotNumeric))
            case Some(v) =>
              if v == MAX_INT64 then (d1, Failed(Overflow))
              else (d1[k := Item(FormatInt(v + 1), 0)], Number(v + 1)))
    case CAS(k, old_, new_) =>
      var d1 := Purge(d, k, now);
      if k !in d1 then (d1, Failed(NotFound))
      else if d1[k].value != old_ then (d1, Swapped(false))
      else (d1[k := Item(new_, 0)], Swapped(true))
    case Expire(k, t) =>
      var d1 := Purge(d, k, now);
      if k !in d1 then (d1, Failed(NotFound))
      else (d1[k := Item(d1[k].value, t)], Done)
  }
}
