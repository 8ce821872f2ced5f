# Transaction propagation for SQLAlchemy sessions, in Dafny

This project models the transaction-propagation layer of the `db` package and proves properties of the model.

It has two engines and one enumeration:

- `sqlalchemy_transactional/async.py` is the newer engine. Two ambient slots hold the current sessionmaker and the
  current session. `enter_sessionmaker` and `enter_session` bind a slot for the length of a scope. Each refuses a
  slot that is already bound, and each resets the slot with its `ContextVar` token when the scope exits. The
  readers `current_sessionmaker` and `current_session` return the bound value or raise. The `transactional`
  decorator is used bare or with a mode, and it hands the call to `_transactional`. That boundary implements
  REQUIRED only. With no session bound, it opens a session from the current sessionmaker, binds it, begins a
  transaction and runs the work. It then commits or rolls back, unbinds and closes.
- `db/database.py` is the older single-mode wrapper. A `Database` keeps its own session slot. Its `transactional`
  wrapper joins a session that is already bound. Otherwise it opens one, binds it, begins, runs the work and
  resets the slot.
- `sqlalchemy_transactional/common.py` declares the four propagation modes. Its comments state the rule each mode
  is meant to follow.

## How the model is built

- `wrappers.dfy` holds `Option` and `Result`.
- `sessions.dfy` holds the opaque handles and the event trace. A `Sessionmaker` is an id. A `Session` is the
  sessionmaker that made it plus a serial number, so every call of the sessionmaker gives a new session. An
  `Event` is one of Open, Bind, Begin, Commit, Rollback, Unbind, Close, or Observe. Observe means the work read
  the current session.
- `common.dfy` holds `Propagation`, its string values, lookup by value, and `IntendedStrategy`. That function
  states the commented rule as a decision table. It is the documented intent, not the behaviour of async.py.
- `async_transactional.dfy` and `database.dfy` each give the engine in two forms:
  - functions over a `Context` value (the slots, the trace, and the count of sessions issued), in which `Exec`
    runs a unit of work and `Boundary` is the transactional wrapper;
  - a class whose methods change fields step by step. Each method's `ensures` equates its new state and result
    with those functions.
- A unit of work (`Work`) can return a value, raise, read the current session and go on, or await a decorated
  function and go on. An exception of the awaited call propagates. `Meaning` gives a work's outcome without
  reference to any context, and the lemmas tie `Exec` to it.
- Python exceptions become `Outcome.Failed`. The four `RuntimeError` messages of async.py and the one of
  database.py are reproduced by `Message`, and `StoreErrorMessages` and `NoSessionMessage` tie them to the
  readers and guards.

The model follows the code as it stands:

- common.py declares four modes.
- async.py implements REQUIRED only and raises `NotImplementedError` for the others.
- Its errors are `RuntimeError`s told apart by their messages.
- A nested REQUIRED call fails; see Findings.

`test_sqlalchemy_transactional_async.py` enters the sessionmaker scope through `tx.sessionmaker_context(sm)`.
In async.py that name is the `ContextVar`, and the scope is `enter_sessionmaker`. The scenario lemmas read the
test that way. The tests for MANDATORY, REQUIRES_NEW and NESTED expect behaviour that async.py does not have, so
they are not modelled.

## Model

| member | source | states |
|---|---|---|
| `Common.Value` | packages/db/src/sqlalchemy_transactional/common.py:6-15 | each member's value is a non-empty lower-case name (letters and underscores); `ValueLookupInverts` shows the four are distinct and looked up back |
| `Common.FromValue` | packages/db/src/sqlalchemy_transactional/common.py:4-15 | looking a member up by its string value gives a member whose value is that string |
| `Common.ExactlyFourModes` | packages/db/src/sqlalchemy_transactional/common.py:4-15 | there are exactly four modes, REQUIRED, MANDATORY, REQUIRES_NEW and NESTED, each listed once |
| `Common.ValueLookupInverts` | packages/db/src/sqlalchemy_transactional/common.py:6-15 | the string values are pairwise distinct: lookup by value gives `p` exactly when the string is `p`'s value, so it inverts mode-to-value |
| `Common.IntendedStrategy` | packages/db/src/sqlalchemy_transactional/common.py:5-15 | the commented rule: join exactly when a transaction is current and the mode is REQUIRED or MANDATORY; create exactly when none is current and the mode is not MANDATORY; suspend-and-create only for REQUIRES_NEW with one current; savepoint only for NESTED with one current; fail only for MANDATORY with none current |
| `AsyncTransactional.CurrentSessionmaker` | packages/db/src/sqlalchemy_transactional/async.py:33-38 | succeeds exactly when a sessionmaker is bound and returns it; otherwise fails with "Sessionmaker not set" |
| `AsyncTransactional.CurrentSession` | packages/db/src/sqlalchemy_transactional/async.py:58-63 | succeeds exactly when a session is bound and returns it; otherwise fails with "Session not set" |
| `AsyncTransactional.BindSessionmaker` | packages/db/src/sqlalchemy_transactional/async.py:19-26 | fails with "Sessionmaker already set" exactly when the slot is bound; otherwise binds the sessionmaker and keeps a token holding the previous value |
| `AsyncTransactional.BindSession` | packages/db/src/sqlalchemy_transactional/async.py:46-51 | fails with "Session already set" exactly when the slot is bound; otherwise binds the session, records Bind and keeps a token holding the previous value |
| `AsyncTransactional.StoreErrorMessages` | packages/db/src/sqlalchemy_transactional/async.py:23-63 | the readers and the two guards raise with exactly the messages "Sessionmaker not set", "Session not set", "Sessionmaker already set" and "Session already set" |
| `AsyncTransactional.RestoreSessionmaker` | packages/db/src/sqlalchemy_transactional/async.py:30 | `reset(token)` puts back the value the slot held before the token's `set`, and touches nothing else |
| `AsyncTransactional.RestoreSession` | packages/db/src/sqlalchemy_transactional/async.py:55 | `reset(token)` puts back the session slot's earlier value, records Unbind, and touches nothing else |
| `AsyncTransactional.SessionmakerTokenRoundTrip` | packages/db/src/sqlalchemy_transactional/async.py:23-30 | on a free slot, entering and leaving `enter_sessionmaker` gives back exactly the context it started from |
| `AsyncTransactional.SessionTokenRoundTrip` | packages/db/src/sqlalchemy_transactional/async.py:48-55 | on a free slot, entering and leaving `enter_session` gives back the context, with only Bind and Unbind recorded |
| `AsyncTransactional.NewSession` | packages/db/src/sqlalchemy_transactional/async.py:114 | `sessionmaker()` gives a session of that sessionmaker carrying the next serial of the issue count, which goes up by one; Open is recorded and neither slot changes |
| `AsyncTransactional.EffectiveMode` | packages/db/src/sqlalchemy_transactional/async.py:107-108 | the mode run is REQUIRED exactly when none or REQUIRED was passed; an explicit mode is run as given |
| `AsyncTransactional.Decorate` | packages/db/src/sqlalchemy_transactional/async.py:79-92 | the wrapper runs the decorated function with the given isolation level; it runs the mode passed to `transactional`, or REQUIRED when that argument was the function itself or `None` |
| `AsyncTransactional.Transactional` | packages/db/src/sqlalchemy_transactional/async.py:74-97 | a callable argument gives the wrapper at once, running as REQUIRED; a mode or `None` gives a decorator that keeps that mode and the isolation level |
| `AsyncTransactional.Apply` | packages/db/src/sqlalchemy_transactional/async.py:92-97 | applying the returned decorator gives a wrapper of that function with the decorator's mode and isolation level |
| `AsyncTransactional.SessionmakerScope` | packages/db/src/sqlalchemy_transactional/async.py:19-30 | whatever the body does and however it ends, both slots end as they began; on a free slot the body runs with `sm` bound and its outcome is passed on; entering with a sessionmaker bound fails with "Sessionmaker already set" and changes nothing |
| `AsyncTransactional.Exec` | packages/db/src/sqlalchemy_transactional/async.py:100-122 | running any unit of work leaves both slots as they were (the token resets), only extends the trace, and the count of issued sessions never goes down (that the serials opened are fresh is `SessionsIssuedOnce` and `InsideBoundSession`) |
| `AsyncTransactional.Boundary` | packages/db/src/sqlalchemy_transactional/async.py:100-122 | `_transactional` leaves both slots as they were, only extends the trace, and the count of issued sessions never goes down (freshness is `BoundaryClosesWhatItOpens`) |
| `AsyncTransactional.DispatchFixesMode` | packages/db/src/sqlalchemy_transactional/async.py:74-97 | bare `@transactional(f)`, `transactional()` and `transactional(None)` all run as REQUIRED; an explicit mode and isolation level are fixed when the function is decorated |
| `AsyncTransactional.IsolationLevelIgnored` | packages/db/src/sqlalchemy_transactional/async.py:100-117 | the isolation level passed to `_transactional` changes neither its result nor its effects |
| `AsyncTransactional.UnsupportedModeChangesNothing` | packages/db/src/sqlalchemy_transactional/async.py:107-122 | a mode other than REQUIRED or None raises `NotImplementedError` with the context untouched: no slot is read and no session is opened |
| `AsyncTransactional.RequiredWithoutSessionmaker` | packages/db/src/sqlalchemy_transactional/async.py:110-113 | REQUIRED with neither slot bound fails with "Sessionmaker not set" and opens no session |
| `AsyncTransactional.InsideBoundSession` | packages/db/src/sqlalchemy_transactional/async.py:111-120 | while a session is bound, a unit of work yields its context-free `Meaning`, opens no session, and its only events are reads of the bound session |
| `AsyncTransactional.FreshBoundarySteps` | packages/db/src/sqlalchemy_transactional/async.py:111-117 | REQUIRED with nothing bound runs the work with a new session bound after Open, Bind, Begin; then Commit if it returned or Rollback if it raised; then Unbind and Close; the slot ends unbound |
| `AsyncTransactional.RequiredOpensOneSession` | packages/db/src/sqlalchemy_transactional/async.py:111-117 | REQUIRED with no session bound opens exactly one new session; the trace is open, bind, begin, reads of that session, commit on return or rollback on exception, unbind, close; the work's result or exception is passed on unchanged; nothing is bound afterwards |
| `AsyncTransactional.BoundaryClosesWhatItOpens` | packages/db/src/sqlalchemy_transactional/async.py:110-122 | one `_transactional` call with no session bound closes exactly the sessions it opens, and those carry serials issued during the call |
| `AsyncTransactional.EverySessionClosed` | packages/db/src/sqlalchemy_transactional/async.py:114-117 | a unit of work run with no session bound closes exactly the sessions it opens, in the order it opened them |
| `AsyncTransactional.SessionsIssuedOnce` | packages/db/src/sqlalchemy_transactional/async.py:114 | the sessions such a work opens have strictly increasing serials in the range issued during the run, so none is opened twice |
| `AsyncTransactional.NestedRequiredRejected` | packages/db/src/sqlalchemy_transactional/async.py:118-120 | as written, REQUIRED with a session bound fails with "Session already set" from the guard of `enter_session`; the work never runs and nothing is opened, committed or closed, although the intended rule is to join |
| `AsyncTransactional.NestedRequiredJoins` | packages/db/src/sqlalchemy_transactional/async.py:118-120 | when the reuse branch joins, REQUIRED with a session bound yields the work's outcome, opens no session and only reads the bound session |
| `AsyncTransactional.JoiningRequiredFollowsIntent` | packages/db/src/sqlalchemy_transactional/common.py:5-6 | when joining, REQUIRED opens no session where the commented rule says join, and exactly one new session where it says create; in both cases it yields the work's outcome |
| `AsyncTransactional.RequiredCommitScenario` | packages/db/tests/test_sqlalchemy_transactional_async.py:49-93 | the sessionmaker is unset before and after its scope and is `sm` inside it; a bare `@transactional` function run inside the scope reads one new session that is committed, unbound and closed; afterwards "Session not set" |
| `AsyncTransactional.NestedRequiredScenario` | packages/db/src/sqlalchemy_transactional/async.py:110-120 | REQUIRED inside REQUIRED: as written the inner call raises "Session already set" and the outer session is rolled back; when joining, the inner call reads the outer session and the outer call commits |
| `AsyncTransactional.SessionmakerRebindAfterExit` | packages/db/src/sqlalchemy_transactional/async.py:23-30 | once a sessionmaker scope has exited, another sessionmaker can be entered |
| `AsyncTransactional.AsyncContext.constructor` | packages/db/src/sqlalchemy_transactional/async.py:14-43 | both slots start unbound, the trace is empty and no session has been opened |
| `AsyncTransactional.AsyncContext.EnterSessionmaker` | packages/db/src/sqlalchemy_transactional/async.py:19-26 | refuses a bound slot and changes nothing, or binds the sessionmaker and returns the token, as `BindSessionmaker` says |
| `AsyncTransactional.AsyncContext.ExitSessionmaker` | packages/db/src/sqlalchemy_transactional/async.py:29-30 | the slot holds again the value the token saved |
| `AsyncTransactional.AsyncContext.EnterSession` | packages/db/src/sqlalchemy_transactional/async.py:46-51 | refuses a bound slot and changes nothing, or binds the session and returns the token, as `BindSession` says |
| `AsyncTransactional.AsyncContext.ExitSession` | packages/db/src/sqlalchemy_transactional/async.py:54-55 | the slot holds again the value the token saved, and Unbind is recorded |
| `AsyncTransactional.AsyncContext.OpenSession` | packages/db/src/sqlalchemy_transactional/async.py:114 | calling the sessionmaker gives the session `NewSession` gives: the next serial of the issue count, which goes up by one, with Open recorded |
| `AsyncTransactional.AsyncContext.Run` | packages/db/src/sqlalchemy_transactional/async.py:117-120 | running a unit of work on the fields leaves the state and outcome that `Exec` gives |
| `AsyncTransactional.AsyncContext.RunTransactional` | packages/db/src/sqlalchemy_transactional/async.py:100-122 | `_transactional` on the fields leaves the state and outcome that `Boundary` gives for the code as written |
| `AsyncTransactional.AsyncContext.WithSessionmaker` | packages/db/src/sqlalchemy_transactional/async.py:19-30 | `async with enter_sessionmaker(sm)` on the fields leaves the state and outcome that `SessionmakerScope` gives |
| `Db.CurrentSession` | packages/db/src/db/database.py:19-23 | succeeds exactly when a session is bound and returns it; otherwise fails with "No active transaction. Use @transactional decorator." |
| `Db.NoSessionMessage` | packages/db/src/db/database.py:19-23 | with no session bound the error carries exactly "No active transaction. Use @transactional decorator." |
| `Db.Exec` | packages/db/src/db/database.py:25-39 | running any unit of work leaves the session slot as it was, only extends the trace, and the count of issued sessions never goes down (freshness is `Db.SessionsIssuedOnce` and `Db.InsideBoundSession`) |
| `Db.Boundary` | packages/db/src/db/database.py:25-39 | the wrapper leaves the slot as it was before the call, whichever way it exits |
| `Db.InsideBoundSession` | packages/db/src/db/database.py:28-29 | while a session is bound, a unit of work yields its context-free `Meaning`: every nested decorated call joins, nothing is opened, begun, rebound or closed, and every read sees the bound session |
| `Db.NestedCallJoins` | packages/db/src/db/database.py:28-29 | a decorated call made with a session bound runs the work directly: its outcome is the work's, no session is opened and the work sees the outer session |
| `Db.FreshBoundarySteps` | packages/db/src/db/database.py:31-37 | with nothing bound the work runs with a new session bound after Open, Bind, Begin; then Commit if it returned or Rollback if it raised; then Unbind and Close; the slot is reset to unbound |
| `Db.OpensOneSession` | packages/db/src/db/database.py:31-37 | with nothing bound exactly one new session is opened from the sessionmaker; the trace is open, bind, begin, reads of that session, commit only on return and rollback on exception, unbind, close; the result or exception is passed on unchanged |
| `Db.BoundaryClosesWhatItOpens` | packages/db/src/db/database.py:28-37 | one decorated call with nothing bound closes exactly the sessions it opens, and those carry serials issued during the call |
| `Db.EverySessionClosed` | packages/db/src/db/database.py:31-37 | a unit of work run with nothing bound closes exactly the sessions it opens, in the order it opened them |
| `Db.SessionsIssuedOnce` | packages/db/src/db/database.py:31 | the sessions such a work opens have strictly increasing serials, so none is opened twice |
| `Db.NestedCallsShareSession` | packages/db/src/db/database.py:28-37 | an outer decorated call whose work awaits an inner one opens a single session for both; when the inner work raises, that exception reaches the caller and the shared transaction is rolled back |
| `Db.Database.constructor` | packages/db/src/db/database.py:17 | a new `Database` has its sessionmaker and an unbound session slot |
| `Db.Database.GetCurrentSession` | packages/db/src/db/database.py:19-23 | returns what `CurrentSession` gives for the current slot and changes nothing |
| `Db.Database.Run` | packages/db/src/db/database.py:29-35 | running a unit of work on the fields leaves the state and outcome that `Exec` gives |
| `Db.Database.Transactional` | packages/db/src/db/database.py:25-39 | the wrapper on the fields leaves the state and outcome that `Boundary` gives |

## Left out

- Isolation levels: the level is carried to `_transactional` and never applied, so the model gives it no effect.
- SQL execution, engine and pool behaviour, savepoints, and failures of the storage itself are not modelled. The
  storage calls are open, begin, commit, rollback and close. In the model they always succeed and are only
  recorded as events.
- Truthiness of a bound value: a bound slot is `Some`. The guards `if sessionmaker_context.get()` (async.py:23),
  `if session_context.get()` (async.py:48) and `if self.session_context.get(None)` (database.py:28) treat every
  bound sessionmaker and session as truthy.
- Asynchronous scheduling, cancellation, and per-task isolation of `ContextVar`s are library behaviour. The model
  follows one sequential call chain. `ContextVar.reset` with a token from another context cannot happen there.
- Arguments, `*args`/`**kwargs` and return values other than an integer are not modelled. A unit of work cannot
  catch the exception of a call it awaits. It also cannot enter `enter_session` or `enter_sessionmaker` by itself.
  `SessionmakerScope` encloses the whole work.
- `@wraps` metadata copying.
- The engine and sessionmaker construction in `Database.__init__` (database.py:10-16) is library configuration.
  The constructor takes the sessionmaker as a parameter.
- MANDATORY, REQUIRES_NEW and NESTED as the tests expect them are not modelled as behaviour. async.py raises
  `NotImplementedError` for them. Their commented intent is stated by `Common.IntendedStrategy` only.
- `dev.py` (command-line tooling), the ORM models, the demo script in `db/__init__.py`, and the test fixtures are
  not part of this model.

## Findings

| source | as written | input that shows it | evidently intended | confidence | as-written member | corrected member |
|---|---|---|---|---|---|---|
| packages/db/src/sqlalchemy_transactional/async.py:118-120 | with a session already bound, REQUIRED enters `enter_session(session)` again; the guard at async.py:48-49 refuses any bound session and raises "Session already set", so the work never runs | a bare `@transactional` function awaited from inside another one (`NestedRequiredScenario`): the inner call fails and the outer transaction is rolled back | join the current transaction, as the comment on REQUIRED (common.py:5) and the separate reuse branch say: run the work in the bound session, without rebinding, committing or closing it | high; not executed | `AsyncTransactional.NestedRequiredRejected` | `AsyncTransactional.NestedRequiredJoins` |

Both readings are instances of `Boundary`, chosen by its `Reuse` argument. `Reenter` is the code as written. `Join`
is the corrected reading. The general lemmas hold for both: `InsideBoundSession`, `RequiredOpensOneSession`,
`EverySessionClosed` and `SessionsIssuedOnce`. `JoiningRequiredFollowsIntent` shows that the corrected reading
follows the commented rule. The class `AsyncContext` models the code as written, `Reenter`.
