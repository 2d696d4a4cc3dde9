/**
 The versioned key/value server of src/kvsrv1/server.go, and the sequential specification of one
 key that src/models1/kv.go gives for it.
 */
module KvServer {

  datatype Err = OK | ErrNoKey | ErrVersion | ErrMaybe

  datatype GetReply = GetReply(value: string, version: nat, err: Err)

  datatype PutArgs = PutArgs(key: string, value: string, version: nat)

  datatype Store = Store(data: map<string, string>, versions: map<string, nat>)

  const Empty: Store := Store(map[], map[])

  /** Every stored key has a version, and versions start at 1. */
  ghost predicate StoreOk(s: Store) {
    s.data.Keys == s.versions.Keys && forall k | k in s.versions :: s.versions[k] >= 1
  }

  /** A missing map entry reads as zero. */
  function VersionOf(s: Store, key: string): nat {
    if key in s.versions then s.versions[key] else 0
  }

  function Lookup(s: Store, key: string): GetReply {
    if key in s.data then GetReply(s.data[key], VersionOf(s, key), OK) else GetReply("", 0, ErrNoKey)
  }

  function Written(s: Store, a: PutArgs, version: nat): Store {
    Store(s.data[a.key := a.value], s.versions[a.key := version])
  }

  function PutErr(s: Store, a: PutArgs): Err {
    if a.key in s.versions then
      if a.version != s.versions[a.key] then ErrVersion else OK
    else if a.version == 0 then OK
    else ErrNoKey
  }

  function AfterPut(s: Store, a: PutArgs): Store {
    if PutErr(s, a) == OK then Written(s, a, a.version + 1) else s
  }

  /** The server object, updated in place under its mutex. */
  class KVServer {
    var data: map<string, string>
    var versions: map<string, nat>

    function Contents(): Store
      reads this
    {
      Store(data, versions)
    }

    ghost predicate Valid()
      reads this
    {
      StoreOk(Contents())
    }

    constructor ()
      ensures Valid() && Contents() == Empty
    {
      data, versions := map[], map[];
    }

    method Get(key: string) returns (reply: GetReply)
      requires Valid()
      ensures reply == Lookup(Contents(), key)
    {
      if key !in data {
        return GetReply("", 0, ErrNoKey);
      }
      reply := GetReply(data[key], versions[key], OK);
    }

    method Put(args: PutArgs) returns (err: Err)
      requires Valid()
      modifies this
      ensures Valid() && Contents() == AfterPut(old(Contents()), args) && err == PutErr(old(Contents()), args)
    {
      if args.key in versions {
        if args.version != versions[args.key] {
          return ErrVersion;
        }
        var current := versions[args.key];
        data := data[args.key := args.value];
        versions := versions[args.key := current + 1];
        err := OK;
      } else {
        if args.version == 0 {
          data := data[args.key := args.value];
          versions := versions[args.key := 1];
          err := OK;
        } else {
          err := ErrNoKey;
        }
      }
    }
  }

  // ---------------------------------------------------------------- the sequential specification

  datatype KvState = KvState(value: string, version: nat)

  datatype KvInput = GetOp(key: string) | PutOp(args: PutArgs)

  datatype KvOutput = KvOutput(value: string, version: nat, err: Err)

  const Fresh: KvState := KvState("", 0)

  function KeyOf(i: KvInput): string {
    match i
    case GetOp(key) => key
    case PutOp(args) => args.key
  }

  /** KvModel.Step: whether the output is possible in the state, and the next state. */
  function ModelStep(st: KvState, i: KvInput, o: KvOutput): (bool, KvState) {
    match i
    case GetOp(_) => (o.value == st.value, st)
    case PutOp(a) =>
      if st.version == a.version then (o.err == OK || o.err == ErrMaybe, KvState(a.value, st.version + 1))
      else (o.err == ErrVersion || o.err == ErrMaybe, st)
  }

  /** The specification never admits a Put that answers ErrNoKey. */
  lemma NoKeyNotAdmitted(st: KvState, a: PutArgs, o: KvOutput)
    requires o.err == ErrNoKey
    ensures !ModelStep(st, PutOp(a), o).0
  {
  }

  function View(s: Store, key: string): KvState {
    if key in s.data && key in s.versions then KvState(s.data[key], s.versions[key]) else Fresh
  }

  /** The server does, key by key, what the specification does, and tells the truth about it. */
  lemma PutRefinesModel(s: Store, a: PutArgs, key: string)
    requires StoreOk(s)
    ensures StoreOk(AfterPut(s, a))
    ensures key != a.key ==> View(AfterPut(s, a), key) == View(s, key)
    ensures PutErr(s, a) != ErrNoKey ==>
        ModelStep(View(s, a.key), PutOp(a), KvOutput("", 0, PutErr(s, a))) == (true, View(AfterPut(s, a), a.key))
    ensures PutErr(s, a) == OK <==> View(s, a.key).version == a.version
    ensures PutErr(s, a) == ErrNoKey <==> View(s, a.key).version == 0 && a.version != 0
    ensures View(AfterPut(s, a), a.key) == (if PutErr(s, a) == OK then KvState(a.value, a.version + 1) else View(s, a.key))
  {
  }
}
