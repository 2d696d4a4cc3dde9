/**
 The lock object: Acquire's loop and Release, over a clerk whose network is a finite schedule.
 */
module KvLock {
  import opened Options
  import opened KvServer
  import opened KvClerk
  import opened LockProtocol

  /** The network for one turn of Acquire's loop: for its Get, and for its Put if there is one. */
  datatype Turn = Turn(forGet: seq<Try>, forPut: seq<Try>)

  datatype AcquireOutcome = AcquireOutcome(store: Store, version: Option<nat>)

  /** Acquire under the schedule; no version when the schedule ends first. */
  function AcquireRun(s: Store, key: string, id: string, net: seq<Turn>): AcquireOutcome
    decreases |net|
  {
    if net == [] then AcquireOutcome(s, None)
    else
      var g := GetRun(s, key, net[0].forGet);
      if g.answer.None? then AcquireOutcome(g.store, None)
      else
        match Next(id, g.answer.value)
        case Own(v) => AcquireOutcome(g.store, Some(v))
        case Retry => AcquireRun(g.store, key, id, net[1..])
        case Take(v) =>
          var p := PutRun(g.store, PutArgs(key, id, v), net[0].forPut, true);
          if p.answer.None? then AcquireOutcome(p.store, None)
          else if p.answer.value == OK then AcquireOutcome(p.store, Some(v + 1))
          else AcquireRun(p.store, key, id, net[1..])
  }

  class Lock {
    const ck: Clerk
    const key: string
    const clientID: string
    var version: nat

    constructor (ck: Clerk, l: string, id: string, net: seq<Try>)
      requires ck.server.Valid()
      modifies ck.server
      ensures ck.server.Valid() && this.ck == ck && key == l && clientID == id && version == 0
      ensures ck.server.Contents() == PutRun(old(ck.server.Contents()), PutArgs(l, "", 0), net, true).store
    {
      this.ck, key, clientID, version := ck, l, id, 0;
      new;
      var _, _ := ck.Put(PutArgs(l, "", 0), net);
    }

    method Acquire(net: seq<Turn>) returns (done: bool)
      requires ck.server.Valid()
      modifies this, ck.server
      ensures ck.server.Valid()
      ensures AcquireOutcome(ck.server.Contents(), if done then Some(version) else None)
           == AcquireRun(old(ck.server.Contents()), key, clientID, net)
      ensures !done ==> version == old(version)
    {
      var i := 0;
      while i < |net|
        invariant i <= |net| && ck.server.Valid() && version == old(version)
        invariant AcquireRun(ck.server.Contents(), key, clientID, net[i..])
               == AcquireRun(old(ck.server.Contents()), key, clientID, net)
      {
        assert net[i..][1..] == net[i + 1..];
        var answer := ck.Get(key, net[i].forGet);
        if answer.None? {
          return false;
        }
        var reply := answer.value;
        if reply.err == ErrNoKey {
          var err, _ := ck.Put(PutArgs(key, clientID, 0), net[i].forPut);
          if err.None? {
            return false;
          }
          if err.value == OK {
            version := 1;
            return true;
          }
        } else if reply.err == OK {
          if reply.value == "" {
            var err, _ := ck.Put(PutArgs(key, clientID, reply.version), net[i].forPut);
            if err.None? {
              return false;
            }
            if err.value == OK {
              version := reply.version + 1;
              return true;
            }
          } else if reply.value == clientID {
            version := reply.version;
            return true;
          }
        }
        i := i + 1;
      }
      done := false;
    }

    method Release(net: seq<Try>) returns (done: bool)
      requires ck.server.Valid()
      modifies ck.server
      ensures ck.server.Valid()
      ensures var r := PutRun(old(ck.server.Contents()), PutArgs(key, "", version), net, true);
        ck.server.Contents() == r.store && done == r.answer.Some?
    {
      var answer, _ := ck.Put(PutArgs(key, "", version), net);
      done := answer.Some?;
    }
  }

  /** However other clerks interfere, the moment Acquire returns the server holds this client's claim. */
  lemma {:induction false} AcquireMeaning(s: Store, key: string, id: string, net: seq<Turn>)
    requires StoreOk(s)
    ensures var r := AcquireRun(s, key, id, net);
      && StoreOk(r.store) && VersionOf(r.store, key) >= VersionOf(s, key)
      && (r.version.Some? ==> View(r.store, key) == KvState(id, r.version.value))
    decreases |net|
  {
    if net != [] {
      GetMeaning(s, key, net[0].forGet);
      var g := GetRun(s, key, net[0].forGet);
      if g.answer.Some? {
        match Next(id, g.answer.value) {
          case Own(v) =>
          case Retry => AcquireMeaning(g.store, key, id, net[1..]);
          case Take(v) =>
            PutMeaning(g.store, PutArgs(key, id, v), net[0].forPut, true);
            AcquireMeaning(PutRun(g.store, PutArgs(key, id, v), net[0].forPut, true).store, key, id, net[1..]);
        }
      }
    }
  }

  /**
   When a holder's Release returns, the version it held the lock under is past; and if nobody else wrote
   the lock's key meanwhile, its Put happened exactly once and the lock is free.
   */
  lemma ReleaseMeaning(s: Store, key: string, version: nat, net: seq<Try>)
    requires StoreOk(s) && version > 0 && VersionOf(s, key) >= version
    ensures var r := PutRun(s, PutArgs(key, "", version), net, true);
      && r.effects <= 1 && (r.answer.Some? ==> VersionOf(r.store, key) > version)
      && (r.answer.Some? && VersionOf(s, key) == version && SparedBy(net, key) ==>
            r.effects == 1 && View(r.store, key) == KvState("", version + 1))
  {
    PutMeaning(s, PutArgs(key, "", version), net, true);
    if SparedBy(net, key) {
      PutAlone(s, PutArgs(key, "", version), net, true);
    }
  }
}
