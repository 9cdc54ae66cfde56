/** The LMDB C API as the façade consumes it.

    The engine is an oracle: every call is appended to a trace of calls (with
    its inputs) and answered by a script, `script(i)` being the reply to the
    call at index `i` of the trace. A handle that a successful call hands out
    is named after the index of that call, so no two calls ever hand out the
    same handle. Which transactions are live is not stored but computed from
    the trace (`LiveIn`), and every call that uses a transaction requires it to
    be live: using a committed or aborted transaction is undefined behaviour
    in LMDB, so here it is a proof obligation of the caller. */
module Mdb {

  type Bytes = seq<bv8>

  // Status codes
  const SUCCESS: int := 0
  const NOTFOUND: int := -30798
  const MAP_FULL: int := -30792

  // Flags of mdb_env_open, mdb_txn_begin and mdb_dbi_open
  const CREATE: bv32 := 0x4_0000
  const NOSYNC: bv32 := 0x1_0000
  const NOMETASYNC: bv32 := 0x4_0000
  const NOTLS: bv32 := 0x20_0000
  const NOLOCK: bv32 := 0x40_0000
  const NORDAHEAD: bv32 := 0x80_0000
  const NOMEMINIT: bv32 := 0x100_0000

  /** An opaque reference to an engine object (an environment or a transaction). */
  datatype Handle = Null | Ref(id: nat)

  function Ids(h: Handle): set<nat>
  {
    if h.Ref? then {h.id} else {}
  }

  /** One call into the engine, with the inputs the caller passed. */
  datatype Call =
    | EnvCreate
    | EnvSetMapSize(env: Handle, size: nat)
    | EnvOpen(env: Handle, path: string, flags: bv32)
    | TxnBegin(env: Handle, flags: bv32)
    | DbiOpen(txn: Handle, flags: bv32)
    | TxnCommit(txn: Handle)
    | TxnAbort(txn: Handle)
    | Put(txn: Handle, dbi: nat, key: Bytes, value: Bytes)
    | Get(txn: Handle, dbi: nat, key: Bytes)
    | DbiClose(env: Handle, dbi: nat)
    | EnvClose(env: Handle)

  /** The engine's answer to one call: a status and, for a lookup that
      succeeds, the bytes found. */
  datatype Reply = Reply(rc: int, data: Bytes)

  type Script = nat -> Reply

  /** Texts of mdb_strerror (defined in LMDB's mdb.c) for the statuses the
      façade tells apart. */
  const SuccessText: string := "Successful return: 0"
  const NotFoundText: string := "MDB_NOTFOUND: No matching key/data pair found"
  const MapFullText: string := "MDB_MAP_FULL: Environment mapsize limit reached"
  const SystemErrorText: string := "Operating system error"

  /** mdb_strerror: the message for a status code. Only success, not-found
      and map-full have their own text; every other status, LMDB's own codes
      (such as MDB_KEYEXIST or MDB_TXN_FULL) as well as operating system
      errors, shares one placeholder text. */
  function StrError(rc: int): (msg: string)
    ensures |msg| > 0
  {
    if rc == SUCCESS then SuccessText
    else if rc == NOTFOUND then NotFoundText
    else if rc == MAP_FULL then MapFullText
    else SystemErrorText
  }

  /** Kinds of calls, for counting them in a trace. */
  datatype Kind = Begins | Puts | Gets | Resizes | Commits | Finishes | Ends(txn: Handle)

  predicate Is(c: Call, k: Kind)
  {
    match k
    case Begins => c.TxnBegin?
    case Puts => c.Put?
    case Gets => c.Get?
    case Resizes => c.EnvSetMapSize?
    case Commits => c.TxnCommit?
    case Finishes => c.TxnCommit? || c.TxnAbort?
    case Ends(t) => (c.TxnCommit? || c.TxnAbort?) && c.txn == t
  }

  /** The number of calls of kind `k` in `calls`. */
  function Count(calls: seq<Call>, k: Kind): (n: nat)
    ensures n <= |calls|
  {
    if calls == [] then 0
    else (if Is(calls[0], k) then 1 else 0) + Count(calls[1..], k)
  }

  lemma {:induction false} CountAppend(a: seq<Call>, b: seq<Call>, k: Kind)
    ensures Count(a + b, k) == Count(a, k) + Count(b, k)
  {
    if a == [] {
      assert a + b == b;
    } else {
      assert (a + b)[1..] == a[1..] + b;
      CountAppend(a[1..], b, k);
    }
  }

  function Indicator(c: Call, k: Kind): nat
  {
    if Is(c, k) then 1 else 0
  }

  lemma CountOne(a: Call)
    ensures forall k :: Count([a], k) == Indicator(a, k)
  {
    assert [a][1..] == [];
  }

  lemma CountThree(a: Call, b: Call, c: Call)
    ensures forall k :: Count([a, b, c], k) == Indicator(a, k) + Indicator(b, k) + Indicator(c, k)
  {
    assert [a, b, c] == [a] + [b] + [c];
    CountOne(a);
    CountOne(b);
    CountOne(c);
    forall k
      ensures Count([a, b, c], k) == Indicator(a, k) + Indicator(b, k) + Indicator(c, k)
    {
      CountAppend([a] + [b], [c], k);
      CountAppend([a], [b], k);
    }
  }

  /** Concatenation is associative; stated as a lemma so that a method
      chaining two sub-methods' traces can invoke it without a costly assert. */
  lemma AppendAssoc(a: seq<Call>, b: seq<Call>, c: seq<Call>)
    ensures a + (b + c) == (a + b) + c
  {
  }

  /** A whole sequence followed by a prefix of another is a prefix of both. */
  lemma PrefixAppend(a: seq<Call>, b: seq<Call>, j: nat)
    requires j <= |b|
    ensures a + b[..j] == (a + b)[..|a| + j]
  {
    assert forall i :: 0 <= i < |a| + j ==> (a + b[..j])[i] == (a + b)[i];
  }

  /** A trace that has grown by the first `k` calls of `steps` grows by the
      first `k + 1` with one more call. */
  lemma PrefixSnoc(before: seq<Call>, steps: seq<Call>, k: nat)
    requires k < |steps|
    ensures before + steps[..k] + [steps[k]] == before + steps[..k + 1]
  {
    assert steps[..k + 1] == steps[..k] + [steps[k]];
  }

  /** The effect of the call at index `i` on the set of live transactions:
      a begin that succeeds adds the handle it hands out; a commit ends its
      transaction whatever its status, as an abort does. */
  ghost function Step(live: set<nat>, script: Script, i: nat, c: Call): set<nat>
  {
    match c
    case TxnBegin(_, _) => if script(i).rc == SUCCESS then live + {i} else live
    case TxnCommit(t) => live - Ids(t)
    case TxnAbort(t) => live - Ids(t)
    case _ => live
  }

  /** Replays `calls`, the first of which has index `i` in the trace, starting
      from the live transactions `live`. */
  ghost function Replay(live: set<nat>, script: Script, i: nat, calls: seq<Call>): set<nat>
    decreases |calls|
  {
    if calls == [] then live
    else Replay(Step(live, script, i, calls[0]), script, i + 1, calls[1..])
  }

  /** Only transactions begun before the end of a replay can be live after it. */
  lemma {:induction false} ReplayBounded(live: set<nat>, script: Script, i: nat, calls: seq<Call>)
    requires forall id :: id in live ==> id < i
    ensures forall id :: id in Replay(live, script, i, calls) ==> id < i + |calls|
    decreases |calls|
  {
    if calls != [] {
      ReplayBounded(Step(live, script, i, calls[0]), script, i + 1, calls[1..]);
    }
  }

  lemma {:induction false} ReplayAppend(live: set<nat>, script: Script, i: nat, a: seq<Call>, b: seq<Call>)
    ensures Replay(live, script, i, a + b) == Replay(Replay(live, script, i, a), script, i + |a|, b)
    decreases |a|
  {
    if a == [] {
      assert a + b == b;
    } else {
      assert (a + b)[1..] == a[1..] + b;
      ReplayAppend(Step(live, script, i, a[0]), script, i + 1, a[1..], b);
    }
  }

  /** Replaying one more call. */
  lemma ReplaySnoc(live: set<nat>, script: Script, i: nat, calls: seq<Call>, c: Call)
    ensures Replay(live, script, i, calls + [c]) == Step(Replay(live, script, i, calls), script, i + |calls|, c)
  {
    ReplayAppend(live, script, i, calls, [c]);
    assert [c][1..] == [];
  }

  /** Replaying a prefix of `calls` one call longer. */
  lemma ReplayPrefix(live: set<nat>, script: Script, i: nat, calls: seq<Call>, j: nat)
    requires j < |calls|
    ensures Replay(live, script, i, calls[..j + 1]) == Step(Replay(live, script, i, calls[..j]), script, i + j, calls[j])
  {
    assert calls[..j + 1] == calls[..j] + [calls[j]];
    ReplaySnoc(live, script, i, calls[..j], calls[j]);
  }

  lemma ReplayThree(live: set<nat>, script: Script, i: nat, a: Call, b: Call, c: Call)
    ensures Replay(live, script, i, [a, b, c])
         == Step(Step(Step(live, script, i, a), script, i + 1, b), script, i + 2, c)
  {
    assert [a, b, c] == [a, b] + [c];
    assert [a, b] == [a] + [b];
    ReplaySnoc(live, script, i, [a, b], c);
    ReplaySnoc(live, script, i, [a], b);
    ReplaySnoc(live, script, i, [], a);
    assert [] + [a] == [a];
  }

  /** The transactions that are begun and not yet ended after `trace`. */
  ghost function LiveIn(script: Script, trace: seq<Call>): (live: set<nat>)
    ensures forall id :: id in live ==> id < |trace|
  {
    ReplayBounded({}, script, 0, trace);
    Replay({}, script, 0, trace)
  }

  lemma LiveInAppend(script: Script, trace: seq<Call>, calls: seq<Call>)
    ensures LiveIn(script, trace + calls) == Replay(LiveIn(script, trace), script, |trace|, calls)
  {
    ReplayAppend({}, script, 0, trace, calls);
  }

  lemma LiveInSnoc(script: Script, trace: seq<Call>, c: Call)
    ensures LiveIn(script, trace + [c]) == Step(LiveIn(script, trace), script, |trace|, c)
  {
    ReplaySnoc({}, script, 0, trace, c);
  }

  class Engine {
    const script: Script
    var trace: seq<Call>

    constructor (script: Script)
      ensures this.script == script && trace == []
    {
      this.script := script;
      trace := [];
    }

    /** The reply the next call will get. */
    function Next(): Reply
      reads this
    {
      script(|trace|)
    }

    ghost function Live(): set<nat>
      reads this
    {
      LiveIn(script, trace)
    }

    method Issue(c: Call) returns (reply: Reply)
      modifies this
      ensures reply == old(Next())
      ensures trace == old(trace) + [c]
      ensures Live() == Step(old(Live()), script, |old(trace)|, c)
    {
      reply := script(|trace|);
      LiveInSnoc(script, trace, c);
      trace := trace + [c];
    }

    /** mdb_env_create; `slot` is the caller's handle, written only on success. */
    method EnvCreate(slot: Handle) returns (rc: int, env: Handle)
      modifies this
      ensures rc == old(Next()).rc && trace == old(trace) + [Call.EnvCreate]
      ensures env == if rc == SUCCESS then Ref(|old(trace)|) else slot
      ensures Live() == old(Live())
    {
      var reply := Issue(Call.EnvCreate);
      rc := reply.rc;
      env := if rc == SUCCESS then Ref(|trace| - 1) else slot;
    }

    method EnvSetMapSize(env: Handle, size: nat) returns (rc: int)
      modifies this
      ensures rc == old(Next()).rc && trace == old(trace) + [Call.EnvSetMapSize(env, size)]
      ensures Live() == old(Live())
    {
      var reply := Issue(Call.EnvSetMapSize(env, size));
      rc := reply.rc;
    }

    method EnvOpen(env: Handle, path: string, flags: bv32) returns (rc: int)
      modifies this
      ensures rc == old(Next()).rc && trace == old(trace) + [Call.EnvOpen(env, path, flags)]
      ensures Live() == old(Live())
    {
      var reply := Issue(Call.EnvOpen(env, path, flags));
      rc := reply.rc;
    }

    /** mdb_txn_begin without a parent; the new transaction is live. */
    method TxnBegin(env: Handle, flags: bv32) returns (rc: int, txn: Handle)
      modifies this
      ensures rc == old(Next()).rc && trace == old(trace) + [Call.TxnBegin(env, flags)]
      ensures txn == if rc == SUCCESS then Ref(|old(trace)|) else Null
      ensures Live() == old(Live()) + Ids(txn)
      ensures |old(trace)| !in old(Live())
    {
      var reply := Issue(Call.TxnBegin(env, flags));
      rc := reply.rc;
      txn := if rc == SUCCESS then Ref(|trace| - 1) else Null;
    }

    /** mdb_dbi_open; `slot` is the caller's table handle, written only on success. */
    method DbiOpen(txn: Handle, flags: bv32, slot: nat) returns (rc: int, dbi: nat)
      requires txn.Ref? && txn.id in Live()
      modifies this
      ensures rc == old(Next()).rc && trace == old(trace) + [Call.DbiOpen(txn, flags)]
      ensures dbi == if rc == SUCCESS then |old(trace)| else slot
      ensures Live() == old(Live())
    {
      var reply := Issue(Call.DbiOpen(txn, flags));
      rc := reply.rc;
      dbi := if rc == SUCCESS then |trace| - 1 else slot;
    }

    /** mdb_txn_commit: the transaction ends whether or not the commit succeeds. */
    method TxnCommit(txn: Handle) returns (rc: int)
      requires txn.Null? || txn.id in Live()
      modifies this
      ensures rc == old(Next()).rc && trace == old(trace) + [Call.TxnCommit(txn)]
      ensures Live() == old(Live()) - Ids(txn)
    {
      var reply := Issue(Call.TxnCommit(txn));
      rc := reply.rc;
    }

    method TxnAbort(txn: Handle)
      requires txn.Null? || txn.id in Live()
      modifies this
      ensures trace == old(trace) + [Call.TxnAbort(txn)]
      ensures Live() == old(Live()) - Ids(txn)
    {
      var _ := Issue(Call.TxnAbort(txn));
    }

    method Put(txn: Handle, dbi: nat, key: Bytes, value: Bytes) returns (rc: int)
      requires txn.Ref? && txn.id in Live()
      modifies this
      ensures rc == old(Next()).rc && trace == old(trace) + [Call.Put(txn, dbi, key, value)]
      ensures Live() == old(Live())
    {
      var reply := Issue(Call.Put(txn, dbi, key, value));
      rc := reply.rc;
    }

    /** mdb_get; `data` is meaningful only when `rc` is SUCCESS. */
    method Get(txn: Handle, dbi: nat, key: Bytes) returns (rc: int, data: Bytes)
      requires txn.Ref? && txn.id in Live()
      modifies this
      ensures rc == old(Next()).rc && data == old(Next()).data
      ensures trace == old(trace) + [Call.Get(txn, dbi, key)]
      ensures Live() == old(Live())
    {
      var reply := Issue(Call.Get(txn, dbi, key));
      rc, data := reply.rc, reply.data;
    }

    method DbiClose(env: Handle, dbi: nat)
      modifies this
      ensures trace == old(trace) + [Call.DbiClose(env, dbi)]
      ensures Live() == old(Live())
    {
      var _ := Issue(Call.DbiClose(env, dbi));
    }

    method EnvClose(env: Handle)
      modifies this
      ensures trace == old(trace) + [Call.EnvClose(env)]
      ensures Live() == old(Live())
    {
      var _ := Issue(Call.EnvClose(env));
    }
  }
}
