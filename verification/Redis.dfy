/** The part of Redis the service uses: string values that expire. */
module Redis {
  import opened Base

  datatype Entry = Entry(value: string, expires: int)

  // `ok` is whether Redis answers; a failing call changes nothing.
  class Client {
    var entries: map<string, Entry>

    method Set(key: string, value: string, now: int, ttl: int, ok: bool) returns (done: bool)
      modifies this
      ensures done == ok
      ensures entries == if ok then old(entries)[key := Entry(value, now + ttl)] else old(entries)
    {
      if ok { entries := entries[key := Entry(value, now + ttl)]; }
      done := ok;
    }

    method Get(key: string, now: int, ok: bool) returns (value: Option<string>)
      ensures value == if ok && key in entries && entries[key].expires > now then Some(entries[key].value) else None
    {
      if ok && key in entries && entries[key].expires > now { value := Some(entries[key].value); } else { value := None; }
    }
  }
}
