/**
 The learning table as the switch keeps it: a map to entries on the heap, which
 learning updates in place. Each call here runs undisturbed; module FdbSteps
 splits the calls where they release the lock.
 */
module Fdb {
  import opened Wrappers
  import opened Wire
  import opened Forwarding

  class Entry {
    var portIdx: nat
    var seenAt: int

    constructor (portIdx: nat, seenAt: int)
      ensures this.portIdx == portIdx && this.seenAt == seenAt
    {
      this.portIdx, this.seenAt := portIdx, seenAt;
    }
  }

  class FDB {
    var table: map<Key, Entry>
    var ageing: int
    ghost var contents: Table  // what the table says: Valid ties it to the entries

    /** No two keys share an entry. */
    ghost predicate Valid()
      reads this`table, this`contents, table.Values
    {
      && (forall j, k :: j in table && k in table && j != k ==> table[j] != table[k])
      && contents.Keys == table.Keys
      && (forall k :: k in table ==> contents[k] == Rec(table[k].portIdx, table[k].seenAt))
    }

    constructor ()
      ensures Valid() && contents == map[] && table == map[] && ageing == 0
    {
      table, ageing, contents := map[], 0, map[];
    }

    method SetAgeing(d: int)
      modifies this`ageing
      ensures ageing == d
    {
      ageing := d;
    }

    /** Learn records the port and the time. The first test is the path without the
        write lock: the entry already names this port. */
    method Learn(vid: uint16, mac: Mac, port: nat, now: int)
      requires Valid()
      modifies this`table, this`contents, table.Values
      ensures Valid() && fresh(table.Values - old(table.Values))
      ensures contents == old(contents)[Key(vid, mac) := Rec(port, now)]
    {
      var k := Key(vid, mac);
      if k in table && table[k].portIdx == port {
        table[k].seenAt := now;
        contents := contents[k := Rec(port, now)];
        return;
      }
      if k in table {
        table[k].portIdx := port;
        table[k].seenAt := now;
      } else {
        var e := new Entry(port, now);
        table := table[k := e];
      }
      contents := contents[k := Rec(port, now)];
    }

    method Lookup(vid: uint16, mac: Mac, now: int) returns (out: Option<nat>)
      requires Valid()
      ensures out == LookupTable(contents, ageing, Key(vid, mac), now)
    {
      var k := Key(vid, mac);
      if k !in table {
        return None;
      }
      var e := table[k];
      var age := ageing;
      if age > 0 && now - e.seenAt > age {
        return None;
      }
      return Some(e.portIdx);
    }

    /** Reap visits the keys in no particular order, and deletes as it goes. */
    method Reap(now: int)
      requires Valid()
      modifies this`table, this`contents
      ensures Valid() && table.Values <= old(table.Values)
      ensures contents == ReapTable(old(contents), ageing, now)
    {
      var age := ageing;
      if age == 0 {
        return;
      }
      var todo := table.Keys;
      while todo != {}
        invariant todo <= table.Keys <= old(table.Keys) && contents == old(contents)
        invariant forall k :: k in table ==> table[k] == old(table[k])
        invariant forall k :: k in old(table) && k !in todo ==> (k in table <==> !Expired(contents[k], age, now))
        decreases todo
      {
        var k :| k in todo;
        if now - table[k].seenAt > age {
          table := table - {k};
        }
        todo := todo - {k};
      }
      contents := ReapTable(contents, age, now);
    }
  }
}
