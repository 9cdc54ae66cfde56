/** The `lmdb::DB` façade and its transaction scope `TxnGuard`, as classes
    whose methods make the engine calls one by one. Each method of DB is
    proved to do what the matching function of module LmdbSpec describes,
    and to leave the engine with the live transactions it promises. */
module Lmdb {
  import opened Mdb
  import opened LmdbSpec

  /** A transaction scope: it borrows the caller's transaction, or begins
      one of its own and then ends it exactly once, by `Commit` or, failing
      that, by `Destroy` (the destructor). */
  class TxnGuard {
    var txn: Handle
    var owned: bool
    var rc: int
    /** The transaction the guard was given (Null: none). */
    ghost var given: Handle
    /** The transaction the guard began itself (Null: none). */
    ghost var began: Handle

    ghost predicate Valid()
      reads this
    {
      && (owned <==> given.Null?)
      && (!owned ==> txn == given && rc == SUCCESS && began.Null?)
      && (owned ==> (began.Null? <==> rc != SUCCESS) && (txn.Ref? ==> txn == began))
    }

    /** A borrowed transaction is kept as it is; without one, a transaction
        is begun on the store's environment with the store's flags. */
    constructor (db: DB, t: Handle)
      modifies db.eng
      ensures Valid() && given == t && owned == t.Null?
      ensures t.Ref? ==> txn == t && db.eng.trace == old(db.eng.trace)
      ensures t.Null? ==>
        && rc == old(db.eng.Next()).rc
        && db.eng.trace == old(db.eng.trace) + [TxnBegin(db.env, db.flags)]
        && began == (if rc == SUCCESS then Ref(|old(db.eng.trace)|) else Null)
        && txn == began
      ensures db.eng.Live() == old(db.eng.Live()) + Ids(began)
      ensures began.Ref? ==> began.id !in old(db.eng.Live())
    {
      given := t;
      began := Null;
      txn := Null;
      owned := false;
      rc := SUCCESS;
      new;
      if t.Ref? {
        txn := t;
      } else {
        rc, txn := db.eng.TxnBegin(db.env, db.flags);
        began := txn;
        owned := true;
      }
    }

    /** The destructor: aborts an owned transaction that is still held. */
    method Destroy(eng: Engine)
      requires Valid() && (txn.Null? || txn.id in eng.Live())
      modifies this, eng
      ensures Valid() && given == old(given) && began == old(began) && owned == old(owned) && rc == old(rc)
      ensures owned && old(txn).Ref? ==>
        && txn.Null?
        && eng.trace == old(eng.trace) + [TxnAbort(old(txn))]
        && eng.Live() == old(eng.Live()) - {old(txn).id}
      ensures !(owned && old(txn).Ref?) ==> txn == old(txn) && eng.trace == old(eng.trace)
      ensures eng.Live() == old(eng.Live()) - (if owned then Ids(old(txn)) else {})
    {
      if owned && txn.Ref? {
        eng.TxnAbort(txn);
        txn := Null;
      }
    }

    /** Commits an owned transaction that is still held and returns the
        engine's status; otherwise returns 0 and calls nothing. */
    method Commit(eng: Engine) returns (r: int)
      requires Valid() && (txn.Null? || txn.id in eng.Live())
      modifies this, eng
      ensures Valid() && given == old(given) && began == old(began) && owned == old(owned) && rc == old(rc)
      ensures owned && old(txn).Ref? ==>
        && r == old(eng.Next()).rc && txn.Null?
        && eng.trace == old(eng.trace) + [TxnCommit(old(txn))]
      ensures !(owned && old(txn).Ref?) ==> r == SUCCESS && txn == old(txn) && eng.trace == old(eng.trace)
      ensures eng.Live() == old(eng.Live()) - (if owned then Ids(old(txn)) else {})
    {
      r := SUCCESS;
      if owned && txn.Ref? {
        r := eng.TxnCommit(txn);
        txn := Null;
      }
    }

    /** Whether the guard holds a transaction: a borrowed guard always does;
        an owned one only the transaction it began, until it is ended. */
    function HasTransaction(): (b: bool)
      reads this
      requires Valid()
      ensures !owned ==> (b <==> given.Ref?)
      ensures owned && b ==> began.Ref? && rc == SUCCESS
    {
      txn.Ref?
    }

    /** Non-zero exactly when the guard's own begin failed. */
    function LastErrorCode(): (c: int)
      reads this
      requires Valid()
      ensures c != SUCCESS <==> owned && began.Null?
    {
      rc
    }

    /** The transaction held: the borrowed one, or the one the guard began. */
    function Transaction(): (t: Handle)
      reads this
      requires Valid()
      ensures !owned ==> t == given
      ensures owned ==> t.Null? || t == began
    {
      txn
    }
  }

  class DB {
    /** The engine the store talks to. */
    const eng: Engine
    var env: Handle
    var dbi: nat
    var flags: bv32
    var mapSize: nat
    var isOpened: bool
    var lastErr: string

    function State(): Store
      reads this
    {
      Store(env, dbi, flags, mapSize, isOpened, lastErr)
    }

    ghost predicate Valid()
      reads this
    {
      LmdbSpec.Valid(State())
    }

    /** A new store is closed, with no handles and a 1 GiB map size. */
    constructor (eng: Engine)
      ensures this.eng == eng && State() == Initial && Valid()
    {
      this.eng := eng;
      env := Null;
      dbi := 0;
      flags := 0;
      mapSize := InitialMapSize;
      isOpened := false;
      lastErr := "";
    }

    function IsOpen(): (b: bool)
      reads this
      requires Valid()
      ensures b == State().isOpened
      ensures b ==> env.Ref?
    {
      isOpened
    }

    /** The CHECK_RETURN_CODE macros on a failing status. */
    method Fail(rc: int)
      modifies this
      ensures State() == Failed(old(State()), rc)
    {
      lastErr := StrError(rc);
      isOpened := false;
    }

    /** Opens the store at `path`; `flags` holds the caller's option bits,
        whose values `options` gives, translated as open does it. */
    method Open(path: string, options: Options, flags: bv64)
      requires Valid()
      modifies this, eng
      ensures Valid()
      ensures var r := OpenRun(old(State()), eng.script, |old(eng.trace)|, path, TranslateAsWritten(options, flags));
        State() == r.store && eng.trace == old(eng.trace) + r.calls
      // the transaction begun to open the table stays live only if that fails
      ensures eng.Live() == old(eng.Live())
        + (if |eng.trace| == |old(eng.trace)| + 5 then {|old(eng.trace)| + 3} else {})
    {
      this.flags := TranslateAsWritten(options, flags);
      var ok := OpenEnvironment(path);
      if !ok {
        return;
      }
      ghost var mid := eng.trace;
      OpenTable();
      // the table's calls follow the environment's
      AppendAssoc(old(eng.trace), mid[|old(eng.trace)|..], eng.trace[|mid|..]);
    }

    /** Creates the environment, sets its map size and opens it. */
    method OpenEnvironment(path: string) returns (ok: bool)
      requires Valid()
      modifies this, eng
      ensures Valid()
      ensures var r := EnvRun(old(State()), eng.script, |old(eng.trace)|, path);
        ok == r.result && State() == r.store && eng.trace == old(eng.trace) + r.calls
      ensures eng.Live() == old(eng.Live())
    {
      ghost var n := |eng.trace|;
      ghost var steps := OpenSteps(n, path, flags, mapSize);
      ghost var r := EnvRun(State(), eng.script, n, path);
      var rc;
      rc, env := eng.EnvCreate(env);
      assert eng.trace == old(eng.trace) + steps[..1];
      if rc != SUCCESS {
        Fail(rc);
        assert r == Run(false, State(), steps[..1]);
        return false;
      }
      rc := eng.EnvSetMapSize(env, mapSize);
      PrefixSnoc(old(eng.trace), steps, 1);
      if rc != SUCCESS {
        Fail(rc);
        assert r == Run(false, State(), steps[..2]);
        return false;
      }
      rc := eng.EnvOpen(env, path, EnvFlags(flags));
      PrefixSnoc(old(eng.trace), steps, 2);
      if rc != SUCCESS {
        Fail(rc);
        assert r == Run(false, State(), steps[..3]);
        return false;
      }
      assert r == Run(true, State(), steps[..3]);
      return true;
    }

    /** Begins a transaction, opens the table in it and commits it; only
        then is the store open. */
    method OpenTable()
      requires Valid() && env.Ref?
      modifies this, eng
      ensures Valid()
      ensures var r := TableRun(old(State()), eng.script, |old(eng.trace)|);
        State() == r.store && eng.trace == old(eng.trace) + r.calls
      ensures eng.Live() == old(eng.Live())
        + (if |eng.trace| == |old(eng.trace)| + 2 then {|old(eng.trace)|} else {})
    {
      ghost var n := |eng.trace|;
      ghost var steps := TableSteps(env, n);
      ghost var r := TableRun(State(), eng.script, n);
      var rc, txn := eng.TxnBegin(env, NOTLS | NOLOCK);
      assert eng.trace == old(eng.trace) + steps[..1];
      if rc != SUCCESS {
        Fail(rc);
        assert r == Run((), State(), steps[..1]);
        return;
      }
      rc, dbi := eng.DbiOpen(txn, CREATE, dbi);
      PrefixSnoc(old(eng.trace), steps, 1);
      if rc != SUCCESS {
        Fail(rc);
        assert r == Run((), State(), steps[..2]);
        return;
      }
      rc := eng.TxnCommit(txn);
      PrefixSnoc(old(eng.trace), steps, 2);
      if rc != SUCCESS {
        Fail(rc);
        assert r == Run((), State(), steps[..3]);
        return;
      }
      isOpened := true;
      lastErr := "";
      assert r == Run((), State(), steps[..3]);
    }

    /** Both handles are released and the store is closed, even if it was
        never opened. */
    method Close()
      requires Valid()
      modifies this, eng
      ensures Valid()
      ensures var r := CloseRun(old(State()));
        State() == r.store && eng.trace == old(eng.trace) + r.calls
      ensures eng.Live() == old(eng.Live())
    {
      eng.DbiClose(env, dbi);
      eng.EnvClose(env);
      env := Null;
      dbi := 0;
      isOpened := false;
    }

    /** One put attempt inside a transaction scope; returns the status. */
    method TryPut(key: Bytes, value: Bytes, txn: Handle) returns (rc: int)
      requires txn.Null? || txn.id in eng.Live()
      modifies eng
      ensures var r := TryPutRun(State(), eng.script, |old(eng.trace)|, key, value, txn);
        rc == r.result && eng.trace == old(eng.trace) + r.calls
      ensures eng.Live() == old(eng.Live())
    {
      var guard := new TxnGuard(this, txn);
      if !guard.HasTransaction() {
        rc := guard.LastErrorCode();
        guard.Destroy(eng);
        return;
      }
      rc := eng.Put(guard.Transaction(), dbi, key, value);
      if rc != SUCCESS {
        guard.Destroy(eng);
        return;
      }
      rc := guard.Commit(eng);
      guard.Destroy(eng);
    }

    /** Puts `value` under `key`; on a full map, doubles the map size once
        and tries once more. */
    method Put(key: Bytes, value: Bytes, txn: Handle := Null) returns (ok: bool)
      requires Valid() && (txn.Null? || txn.id in eng.Live())
      modifies this, eng
      ensures Valid()
      ensures var r := PutRun(old(State()), eng.script, |old(eng.trace)|, key, value, txn);
        ok == r.result && State() == r.store && eng.trace == old(eng.trace) + r.calls
      ensures eng.Live() == old(eng.Live())
    {
      if !IsOpen() {
        lastErr := NotOpened;
        return false;
      }
      var code := TryPut(key, value, txn);
      if code == SUCCESS {
        return true;
      } else if code == MAP_FULL {
        ghost var mid := eng.trace;
        ok := Retry(key, value, txn);
        // the retry's calls follow those of the first attempt
        AppendAssoc(old(eng.trace), mid[|old(eng.trace)|..], eng.trace[|mid|..]);
      } else {
        lastErr := StrError(code);
        return false;
      }
    }

    /** On a full map: doubles the map size, hands it to the engine and, if
        that succeeds, tries once more. */
    method Retry(key: Bytes, value: Bytes, txn: Handle) returns (ok: bool)
      requires Valid() && (txn.Null? || txn.id in eng.Live())
      modifies this, eng
      ensures Valid()
      ensures var r := RetryRun(old(State()), eng.script, |old(eng.trace)|, key, value, txn);
        ok == r.result && State() == r.store && eng.trace == old(eng.trace) + r.calls
      ensures eng.Live() == old(eng.Live())
    {
      mapSize := Doubled(mapSize);
      var code := eng.EnvSetMapSize(env, mapSize);
      if code != SUCCESS {
        Fail(code);
        return false;
      }
      code := TryPut(key, value, txn);
      return code == SUCCESS;
    }

    /** Looks `key` up; every failing status is recorded as the last error. */
    method Get(key: Bytes, txn: Handle := Null) returns (v: Option<Bytes>)
      requires Valid() && (txn.Null? || txn.id in eng.Live())
      modifies this, eng
      ensures Valid()
      ensures var r := GetRun(old(State()), eng.script, |old(eng.trace)|, key, txn);
        v == r.result && State() == r.store && eng.trace == old(eng.trace) + r.calls
      ensures eng.Live() == old(eng.Live())
    {
      if !IsOpen() {
        lastErr := NotOpened;
        return None;
      }
      var guard := new TxnGuard(this, txn);
      if !guard.HasTransaction() {
        guard.Destroy(eng);
        return None;
      }
      var rc, data := eng.Get(guard.Transaction(), dbi, key);
      if rc != SUCCESS {
        lastErr := StrError(rc);
        guard.Destroy(eng);
        return None;
      }
      guard.Destroy(eng);
      return Some(data);
    }

    /** Begins a transaction for the caller; a closed store returns Null. */
    method Begin() returns (txn: Handle)
      requires Valid()
      modifies this, eng
      ensures Valid()
      ensures var r := BeginRun(old(State()), eng.script, |old(eng.trace)|);
        txn == r.result && State() == r.store && eng.trace == old(eng.trace) + r.calls
      ensures eng.Live() == old(eng.Live()) + Ids(txn)
      ensures txn.Ref? ==> txn.id !in old(eng.Live())
    {
      if !IsOpen() {
        return Null;
      }
      var rc;
      rc, txn := eng.TxnBegin(env, flags);
      if rc != SUCCESS {
        Fail(rc);
        return Null;
      }
    }

    method Abort(txn: Handle)
      requires txn.Null? || txn.id in eng.Live()
      modifies eng
      ensures eng.trace == old(eng.trace) + [TxnAbort(txn)]
      ensures eng.Live() == old(eng.Live()) - Ids(txn)
    {
      eng.TxnAbort(txn);
    }

    method Commit(txn: Handle) returns (ok: bool)
      requires Valid() && (txn.Null? || txn.id in eng.Live())
      modifies this, eng
      ensures Valid()
      ensures var r := CommitRun(old(State()), eng.script, |old(eng.trace)|, txn);
        ok == r.result && State() == r.store && eng.trace == old(eng.trace) + r.calls
      ensures eng.Live() == old(eng.Live()) - Ids(txn)
    {
      var rc := eng.TxnCommit(txn);
      if rc != SUCCESS {
        Fail(rc);
        return false;
      }
      return true;
    }
  }
}
