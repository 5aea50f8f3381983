/**
 The durable sides of the audit: the outbox directory (price_collector/ghost_twap_spool.py)
 and the versioned store (price_collector/ghost_twap_store.py). Rows are kept by the
 identity of their decision.
 */
module GhostSpool {
  import opened Core
  import opened AuditRow
  import opened AuditHistory

  type Rows = map<int, Row>

  /** Write one record; None is the ValueError that leaves the directory alone. */
  function Written(outbox: Rows, capacity: nat, record: Row): Option<Rows> {
    var id := record.decision.id;
    if id !in outbox then
      if |outbox| >= capacity then None else Some(outbox[id := record])
    else if outbox[id].decision != record.decision then None
    else if outbox[id].version > record.version then Some(outbox)
    else if outbox[id].version == record.version then
      if outbox[id] != record then None else Some(outbox)
    else Some(outbox[id := record])
  }

  /** Remove a record, but never a newer version of it. */
  function Removed(outbox: Rows, record: Row): Option<Rows> {
    var id := record.decision.id;
    if id !in outbox then Some(outbox)
    else if outbox[id].version != record.version then None
    else Some(outbox - {id})
  }

  /** The store's compare-and-set; None is its conflict. */
  function Persisted(store: Rows, record: Row): Option<Rows> {
    var id := record.decision.id;
    if id !in store then Some(store[id := record])
    else if store[id].decision != record.decision then None
    else if record.version < store[id].version then Some(store)
    else if record.version == store[id].version then
      if store[id] != record then None else Some(store)
    else if !Moves(store[id], record) then None
    else Some(store[id := record])
  }

  /** Every write of a later version is a no-op or an update, never an error. */
  lemma LaterWritesSucceed(outbox: Rows, store: Rows, capacity: nat, record: Row)
    requires var id := record.decision.id;
             && (id in outbox ==> Evolves(outbox[id], record) || Evolves(record, outbox[id]))
             && (id in store ==> Evolves(store[id], record) || Evolves(record, store[id]))
    ensures record.decision.id in outbox || |outbox| < capacity <==> Written(outbox, capacity, record).Some?
    ensures Persisted(store, record).Some?
  {
    hide PublicationMoves, TargetMoves;
  }

  // ---------------------------------------------------------------- the directory in place

  datatype Directory = Directory(rows: Rows, temporary: Option<Row>)

  /** Opening the outbox drops an interrupted write's temporary file and nothing else. */
  function Opened(d: Directory): Directory { d.(temporary := None) }

  class Spool {
    const capacity: nat
    var rows: Rows
    var temporary: Option<Row>
    /** Every directory content a crash during the operations so far could have left. */
    ghost var crashable: set<Directory>

    constructor (capacity: nat)
      ensures this.capacity == capacity && rows == map[] && temporary.None?
      ensures crashable == {Directory(map[], None)}
    {
      this.capacity := capacity;
      rows := map[];
      temporary := None;
      crashable := {Directory(map[], None)};
    }

    /** Remove what an interrupted write left behind. */
    method Open()
      modifies this
      ensures rows == old(rows) && temporary.None?
      ensures crashable == old(crashable) + {Directory(rows, None)}
    {
      temporary := None;
      crashable := crashable + {Directory(rows, None)};
    }

    /** Write a temporary file, then replace the target by it in one step. */
    method Atomic(record: Row)
      modifies this
      ensures rows == old(rows)[record.decision.id := record] && temporary.None?
      ensures crashable == old(crashable) + {Directory(old(rows), Some(record)), Directory(rows, None)}
    {
      temporary := Some(record);
      crashable := crashable + {Directory(rows, temporary)};
      rows := rows[record.decision.id := record];
      temporary := None;
      crashable := crashable + {Directory(rows, temporary)};
    }

    method Write(record: Row) returns (raised: bool)
      modifies this
      ensures raised <==> Written(old(rows), capacity, record).None?
      ensures raised ==> rows == old(rows) && temporary == old(temporary)
      ensures !raised ==> rows == Written(old(rows), capacity, record).value
      // A reopened directory after a crash anywhere in the write holds the old rows or the new ones.
      ensures forall d :: d in crashable - old(crashable) ==> Opened(d).rows == old(rows) || Opened(d).rows == rows
    {
      var id := record.decision.id;
      if id !in rows && |rows| >= capacity { return true; }
      if id in rows {
        var existing := rows[id];
        if existing.decision != record.decision { return true; }
        if existing.version > record.version { return false; }
        if existing.version == record.version && existing != record { return true; }
        if existing == record { return false; }
      }
      Atomic(record);
      raised := false;
    }

    method Remove(record: Row) returns (raised: bool)
      modifies this
      ensures raised <==> Removed(old(rows), record).None?
      ensures temporary == old(temporary)
      ensures rows == if raised then old(rows) else Removed(old(rows), record).value
      ensures forall d :: d in crashable - old(crashable) ==> Opened(d).rows == old(rows) || Opened(d).rows == rows
    {
      if record.decision.id in rows {
        if rows[record.decision.id].version != record.version { return true; }
        rows := rows - {record.decision.id};
        crashable := crashable + {Directory(rows, temporary)};
      }
      raised := false;
    }
  }
}
