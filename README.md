# lmdb::DB — a Dafny model of the C++ LMDB façade

`lmdb::DB` is a thin C++ wrapper around the LMDB key/value store. It
opens a single unnamed table in an environment directory. It stores and
looks up byte strings, doubling the memory map once when a put reports a
full map. It hands out explicit transactions, and it records the text of
the last error. `TxnGuard` is the scope object that `put` and `get` use. It
borrows the caller's transaction, or begins one of its own and ends it
exactly once.

The project has three modules:

- `Mdb` (`mdb.dfy`) models the LMDB C API that the façade calls, as an
  oracle engine (class `Engine`).
  - Every call is appended to a trace with its inputs. The reply to the
    i-th call is `script(i)`, for an arbitrary `script: nat -> Reply`.
  - A handle handed out by a successful call is named after that call's
    index, so handles are never reused.
  - The live transactions are computed from the trace (`LiveIn`): a
    successful begin adds one, and a commit (successful or not) or an
    abort removes it.
  - Each engine call that uses a transaction requires it to be live. So
    using an ended transaction is a proof obligation of the caller.
- `LmdbSpec` (`lmdb_spec.dfy`) describes each operation of the façade as a
  function of the store's fields (`Store`) and the engine's replies. Each
  such function returns a `Run`: the operation's result, the new store and
  the calls made. The module also holds the lemmas that state what the
  façade promises.
- `Lmdb` (`lmdb.dfy`) holds the classes `TxnGuard` and `DB`. They make
  the engine calls one by one and update their fields in place. Every
  method of `DB` is proved to produce exactly the `Run` of its `LmdbSpec`
  function. It is also proved to leave the engine with the live
  transactions it promises.

The C++ destructor `~TxnGuard` is the method `TxnGuard.Destroy`, called at
every exit of `try_put` and `get`. `m_map_size` is taken to be a 64-bit
`size_t`, so `m_map_size *= 2` is modelled with explicit wrap-around modulo
2^64 (`Doubled`, `DoubledWraps`). A new store starts with a map size of
1 GiB.

The model follows the code as written where it departs from what the
comments and the header suggest:

- a failing `begin` goes through `CHECK_RETURN_CODE_RET_NULL`, so it closes
  the store (`cxx/lmdb.cpp:193-194`);
- a `get` that finds nothing records the not-found message as the last
  error (`cxx/lmdb.cpp:179-181`);
- when the retry of a put fails, the failure is not recorded
  (`cxx/lmdb.cpp:132`);
- when `mdb_dbi_open` fails in `open`, the transaction begun to open the
  table is neither committed nor aborted, so it stays live
  (`cxx/lmdb.cpp:93-97`). `OpenLeaksOnlyWhenTableOpenFails` proves this is
  the only case where `open` leaves a transaction live;
- when a step of `open` after `mdb_env_create` fails, the environment
  created at `cxx/lmdb.cpp:81` stays in `m_env` and is not closed:
  `OpenOutcome` proves that `env` is the new handle whenever the create
  succeeded, and `open` makes no close call;
- the option tests at `cxx/lmdb.cpp:71` and `:75` read `m_flags` rather
  than the caller's `flags`, and `DB.Open` stores the word those lines
  compute (`TranslateAsWritten`); see "## Findings".

The header `cxx/lmdb.hpp` is out of step with `cxx/lmdb.cpp`:

- it declares `open(path)` without flags;
- it has no `try_put`;
- it lacks the fields `m_flags` and `m_map_size` and the option constants.

The model follows the `.cpp`. `m_flags` is taken to start at 0 (its
initialiser is not shown; `open` sets it before any use), and `m_map_size`
starts at 1 GiB, as the comment at `cxx/lmdb.cpp:84` says.

## Model

| member | source | states |
|---|---|---|
| Mdb.StrError | cxx/lmdb.cpp:9 | the recorded error text is never empty, so a failure is always visible in the last error |
| LmdbSpec.Doubled | cxx/lmdb.cpp:129 | the doubled map size still fits a size_t, and it is exactly twice the old size when no overflow occurs |
| LmdbSpec.DoubledWraps | cxx/lmdb.cpp:129 | `m_map_size *= 2` is multiplication by two modulo 2^64 |
| LmdbSpec.Failed | cxx/lmdb.cpp:7-16 | the CHECK_RETURN_CODE macros record the engine's message, mark the store closed, and change no other field; a valid store stays valid |
| LmdbSpec.TranslateAsWritten | cxx/lmdb.cpp:66-77 | the flag word open computes has NOSYNC and NOMETASYNC exactly when kAsync is asked for, is empty without kAsync whatever else is asked for, and has no bit beyond NOSYNC, NOMETASYNC, NOLOCK and NOTLS |
| LmdbSpec.AsWrittenReadsOnlyAsync | cxx/lmdb.cpp:66-77 | as written, the flag word depends on the caller's options only through kAsync: the word for `flags` equals the word for `flags & kAsync` |
| LmdbSpec.TranslateHonoursOptions | cxx/lmdb.cpp:66-77 | the intended translation (the reference open departs from) sets NOLOCK, NOTLS, NOSYNC and NOMETASYNC exactly when the caller's flags ask for kNoLocking, kNoThreadLocalStorage or kAsync, and sets nothing else |
| LmdbSpec.NoLockingIgnored | cxx/lmdb.cpp:66-77 | as written, asking for kNoLocking without kAsync yields an empty flag word, while the corrected translation sets NOLOCK |
| LmdbSpec.EnvRun | cxx/lmdb.cpp:79-89 | the environment steps change only the environment handle, the open flag and the last error; when all three succeed, the handle is the one created and exactly three calls are made |
| LmdbSpec.TableRun | cxx/lmdb.cpp:91-103 | the table steps never touch the environment, the flags or the map size |
| LmdbSpec.OpenRun | cxx/lmdb.cpp:64-104 | open keeps the store valid, stores the translated flags and keeps the map size |
| LmdbSpec.OpenOutcome | cxx/lmdb.cpp:64-104 | open makes its six engine calls in order and stops at the first failure; the store ends open exactly when all six succeed, with the new handles and an empty last error; a failure records the failing call's message; each handle is written only by the call that creates it |
| LmdbSpec.OpenLeaksOnlyWhenTableOpenFails | cxx/lmdb.cpp:91-100 | open leaves the live transactions unchanged, except when `mdb_dbi_open` fails: then the transaction begun at line 93 stays live |
| LmdbSpec.TryPutRun | cxx/lmdb.cpp:139-160 | try_put changes no field and makes one to three calls; with a borrowed transaction it makes only the put and returns the put's status |
| LmdbSpec.TryPutScope | cxx/lmdb.cpp:139-160 | at most one put and no resize; a borrowed transaction is never begun or ended; an owned one is begun first and, if that succeeds, ended exactly once, by a commit only after a successful put; a failing begin's status is returned; success is reported only after a put |
| LmdbSpec.TryPutNoLeak | cxx/lmdb.cpp:139-160 | replaying try_put's calls gives back the live transactions it started from |
| LmdbSpec.RetryRun | cxx/lmdb.cpp:127-132 | the map-full branch first hands the doubled size to the engine; if the engine refuses, the store is closed with no retry; otherwise the second attempt alone decides the result, and its failure is not recorded |
| LmdbSpec.RetryCallsBounded | cxx/lmdb.cpp:127-132 | the retry branch resizes exactly once and puts at most once |
| LmdbSpec.RetryNoLeak | cxx/lmdb.cpp:127-132 | the retry branch leaks no transaction |
| LmdbSpec.PutRun | cxx/lmdb.cpp:116-137 | put keeps the store valid |
| LmdbSpec.PutOutcomes | cxx/lmdb.cpp:116-137 | put leaves the handles and flags alone; a closed store fails fast with no call; the map size doubles exactly when the first attempt reports MAP_FULL; success changes nothing else; any other error is recorded and leaves the store open; a failed resize closes the store with no retry; the retry's result is put's result |
| LmdbSpec.PutCallsBounded | cxx/lmdb.cpp:116-137 | put makes at most two put attempts and at most one resize, and it resizes exactly when the first attempt reports MAP_FULL |
| LmdbSpec.PutNoLeak | cxx/lmdb.cpp:116-137 | neither attempt of put leaks a transaction |
| LmdbSpec.GetRun | cxx/lmdb.cpp:162-184 | get changes at most the last error and makes at most three calls; a closed store fails fast; a failed begin returns nothing and records nothing; a lookup returns its bytes on success, and any other status, not-found included, is recorded and gives no value |
| LmdbSpec.GetScope | cxx/lmdb.cpp:162-184 | get looks up at most once and never writes or commits; on an open store it looks up once whenever it has a transaction; a borrowed transaction is never begun or ended; an owned one that was begun is aborted exactly once |
| LmdbSpec.GetNoLeak | cxx/lmdb.cpp:162-184 | get leaks no transaction |
| LmdbSpec.BeginRun | cxx/lmdb.cpp:186-196 | a closed store hands out nothing and makes no call; a transaction is handed out exactly when the engine begins one; a failing begin closes the store |
| LmdbSpec.CommitRun | cxx/lmdb.cpp:199-204 | commit returns true exactly when the engine commits; a failing commit closes the store |
| LmdbSpec.BeginEndNoLeak | cxx/lmdb.cpp:186-204 | a transaction from begin, then committed or aborted by the caller, leaves the live transactions as they were |
| LmdbSpec.CloseRun | cxx/lmdb.cpp:106-114 | close releases both handles and leaves the store closed, whether or not it was open, and keeps the flags, map size and last error |
| LmdbSpec.ClosedStoreFailsFast | cxx/lmdb.cpp:118-121 | once a failure has closed the store, put, get and begin make no engine call, and put and get return false or nothing |
| Lmdb.TxnGuard.constructor | cxx/lmdb.cpp:22-30 | a given transaction is borrowed without any call; otherwise one begin is made with the store's environment and flags, and the guard owns the result; only a successful begin adds a live transaction |
| Lmdb.TxnGuard.Destroy | cxx/lmdb.cpp:32-39 | the destructor aborts the held transaction only when the guard owns it; a borrowed one is left alone |
| Lmdb.TxnGuard.Commit | cxx/lmdb.cpp:41-50 | an owned, held transaction is committed, its status is returned and the guard lets go of it; otherwise 0 is returned and no call is made |
| Lmdb.TxnGuard.HasTransaction | cxx/lmdb.cpp:53 | a borrowed guard holds the given transaction; an owned guard holds one only if its begin succeeded |
| Lmdb.TxnGuard.LastErrorCode | cxx/lmdb.cpp:55 | non-zero exactly when the guard's own begin failed |
| Lmdb.TxnGuard.Transaction | cxx/lmdb.cpp:56 | the borrowed transaction, or the one the guard began (or none once it is ended) |
| Lmdb.DB.constructor | cxx/lmdb.hpp:34-37 | a new store is closed, with no handles, no last error, flags 0 and a 1 GiB map size |
| Lmdb.DB.IsOpen | cxx/lmdb.hpp:31 | is_open reports the open flag, and an open store holds an environment |
| Lmdb.DB.Fail | cxx/lmdb.cpp:7-16 | the macros' failure branch leaves the store as `Failed` describes |
| Lmdb.DB.Open | cxx/lmdb.cpp:64-104 | open's new state and calls are those of OpenRun, with the flags translated as lines 66-77 do it (TranslateAsWritten); the only transaction it can leave live is the one for the table, when that open fails |
| Lmdb.DB.OpenEnvironment | cxx/lmdb.cpp:79-89 | the environment steps make the calls and the state of EnvRun |
| Lmdb.DB.OpenTable | cxx/lmdb.cpp:91-103 | the table steps make the calls and the state of TableRun |
| Lmdb.DB.Close | cxx/lmdb.cpp:106-114 | close's new state and calls are those of CloseRun |
| Lmdb.DB.TryPut | cxx/lmdb.cpp:139-160 | try_put returns the status and makes the calls of TryPutRun, and leaves the live transactions as they were |
| Lmdb.DB.Put | cxx/lmdb.cpp:116-137 | put's result, new state and calls are those of PutRun, and the live transactions are unchanged |
| Lmdb.DB.Retry | cxx/lmdb.cpp:127-132 | the map-full branch's result, new state and calls are those of RetryRun |
| Lmdb.DB.Get | cxx/lmdb.cpp:162-184 | get's result, new state and calls are those of GetRun, and the live transactions are unchanged |
| Lmdb.DB.Begin | cxx/lmdb.cpp:186-196 | begin's result, new state and call are those of BeginRun; a transaction it hands out is fresh and live |
| Lmdb.DB.Abort | cxx/lmdb.cpp:198 | abort makes one abort call and ends the transaction |
| Lmdb.DB.Commit | cxx/lmdb.cpp:199-204 | commit's result, new state and call are those of CommitRun; the transaction ends whether or not the commit succeeds |

## Findings

| source | as written | input that shows it | evidently intended | confidence | as-written member | corrected member |
|---|---|---|---|---|---|---|
| cxx/lmdb.cpp:71-77 | the tests for kNoLocking and kNoThreadLocalStorage read `m_flags`, which holds only the async bits at that point | `flags == kNoLocking`, for any non-zero kNoLocking that shares no bit with kAsync: as written the engine flags stay 0, so MDB_NOLOCK is never set | test the caller's `flags`, as line 67 does for kAsync | high; not executed | LmdbSpec.NoLockingIgnored and LmdbSpec.AsWrittenReadsOnlyAsync (over LmdbSpec.TranslateAsWritten) | LmdbSpec.TranslateHonoursOptions (over LmdbSpec.Translate; DB.Open keeps the as-written word) |

## Left out

- The LMDB engine itself (pages, B-trees, map files, locking). It is an oracle whose replies are arbitrary. The model proves the façade's behaviour for every possible reply.
- The constants of the LMDB C header (status codes and flag bits) are taken from LMDB's public `lmdb.h`, and the mdb_strerror texts from LMDB's `mdb.c`; neither file is part of this model.
- Mdb.StrError: only success, MDB_NOTFOUND and MDB_MAP_FULL get their own text; every other status, LMDB's own codes (MDB_KEYEXIST, MDB_TXN_FULL, MDB_BAD_TXN, ...) as well as operating-system errors, shares one placeholder text, so the model does not tell those messages apart.
- LmdbSpec.Doubled: the type of `m_map_size` is not declared in the header shown; it is assumed to be a 64-bit `size_t`, and the modulus 2^64 in Doubled and DoubledWraps rests on that assumption.
- The values of kAsync, kNoLocking and kNoThreadLocalStorage are declared in a header that is not part of this model. They are a parameter (`Options`) of `DB.Open`.
- `mkdir` at `cxx/lmdb.cpp:79`, and the file mode 0664 at line 88: file-system effects are not modelled.
- `std::string_view` lifetimes: get returns bytes as a value. The C++ view points into the map and dies with the transaction; that is not modelled.
- The threading meaning of MDB_NOTLS and MDB_NOLOCK: no concurrency is modelled.
- `MDB_dbi` is an `unsigned int`. The model keeps the table handle as an unbounded `nat`, as it is only ever issued by the engine.
- The DB destructor (`cxx/lmdb.hpp:20`) does nothing, so an open store is not closed when it is destroyed. There is nothing to model.
- The parent-transaction argument of `mdb_txn_begin` is always null in the façade, so nested transactions are not modelled.
