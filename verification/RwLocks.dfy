/** A read-write lock: who holds it. */
module RwLocks {
  import opened Paths

  type Tid = nat

  datatype RwLock = RwLock(readers: set<Tid>, writer: Option<Tid>)

  const UNHELD: RwLock := RwLock({}, None)

  predicate Sound(l: RwLock) {
    l.writer.Some? ==> l.readers == {}
  }

  predicate Grants(l: RwLock, write: bool) {
    l.writer == None && (write ==> l.readers == {})
  }

  function Acquire(l: RwLock, t: Tid, write: bool): RwLock {
    if write then l.(writer := Some(t)) else l.(readers := l.readers + {t})
  }

  function Release(l: RwLock, t: Tid): RwLock {
    RwLock(l.readers - {t}, if l.writer == Some(t) then None else l.writer)
  }
}
