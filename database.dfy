/**
 * The older, single-mode transaction wrapper of db/database.py. A
 * `Database` keeps its own session slot (`session_context`); its
 * `transactional` wrapper joins a bound session, or else opens one from
 * `self.sessionmaker`, binds it, begins, runs the work and resets the slot.
 *
 * As with AsyncTransactional, the behaviour is given as functions over a
 * `Context` value and class `Database` does the same on fields.
 */
module Db {
  import opened Wrappers
  import opened Sessions

  /** What a call can raise: the `RuntimeError` of `get_current_session`, or the work's own exception. */
  datatype Error = NoActiveTransaction | Raised(code: int)

  function Message(e: Error): string
  {
    match e
    case NoActiveTransaction => "No active transaction. Use @transactional decorator."
    case Raised(_) => ""
  }

  datatype Outcome = Returned(value: int) | Failed(error: Error)

  /**
   * A unit of work: it returns, raises, reads `get_current_session()` and
   * goes on, or awaits a function decorated with `db.transactional` and goes
   * on when that returns.
   */
  datatype Work =
    | Return(value: int)
    | Raise(code: int)
    | ReadSession(next: Work)
    | Invoke(body: Work, next: Work)

  /** The session slot of one `Database` in one call chain, the events so far, and how many sessions were opened. */
  datatype Context = Context(session: Option<Session>, trace: seq<Event>, issued: nat)

  function Recorded(c: Context, e: Event): Context
  {
    c.(trace := c.trace + [e])
  }

  /** `get_current_session()`: the bound session, or the "No active transaction" error. */
  function CurrentSession(c: Context): (r: Result<Session, Error>)
    ensures r.Success? <==> c.session.Some?
    ensures r.Success? ==> c.session == Some(r.value)
    ensures r.Failure? ==> r.error == NoActiveTransaction
  {
    match c.session
    case None => Failure(NoActiveTransaction)
    case Some(s) => Success(s)
  }

  /** `get_current_session()` outside any transactional call raises with exactly this message. */
  lemma NoSessionMessage(c: Context)
    ensures CurrentSession(c).Failure? ==> Message(CurrentSession(c).error) == "No active transaction. Use @transactional decorator."
  {
  }

  /** Running a unit of work; the slot ends as it began and the trace only grows. */
  function Exec(sm: Sessionmaker, c: Context, work: Work): (res: (Context, Outcome))
    ensures res.0.session == c.session
    ensures c.trace <= res.0.trace && c.issued <= res.0.issued
    decreases work, 0
  {
    match work
    case Return(v) => (c, Returned(v))
    case Raise(code) => (c, Failed(Raised(code)))
    case ReadSession(next) =>
      (match CurrentSession(c)
       case Failure(e) => (c, Failed(e))
       case Success(s) => Exec(sm, Recorded(c, Observe(s)), next))
    case Invoke(body, next) =>
      var (c1, o) := Boundary(sm, c, body);
      if o.Failed? then (c1, o) else Exec(sm, c1, next)
  }

  /**
   * The `wrapper` of `Database.transactional(func)`: with a session bound it
   * awaits the work directly; otherwise it opens a session from the
   * sessionmaker, sets the slot, begins, runs the work, commits or rolls
   * back, resets the slot with its token and closes the session.
   */
  function Boundary(sm: Sessionmaker, c: Context, body: Work): (res: (Context, Outcome))
    ensures res.0.session == c.session
    ensures c.trace <= res.0.trace && c.issued <= res.0.issued
    decreases body, 1
  {
    if c.session.Some? then Exec(sm, c, body)
    else
      var s := Session(sm, c.issued);
      var c1 := Recorded(c.(issued := c.issued + 1), Open(s));
      var t := Token(c1.session, s);
      var c2 := Recorded(c1.(session := Some(s)), Bind(s));
      var (c3, o) := Exec(sm, Recorded(c2, Begin(s)), body);
      var c4 := Recorded(c3, if o.Returned? then Commit(s) else Rollback(s));
      (Recorded(Recorded(c4.(session := t.previous), Unbind(s)), Close(s)), o)
  }

  /**
   * The outcome of a unit of work, independent of any context: what it
   * returns or raises when every decorated call it awaits joins.
   */
  function Meaning(work: Work): Outcome
  {
    match work
    case Return(v) => Returned(v)
    case Raise(code) => Failed(Raised(code))
    case ReadSession(next) => Meaning(next)
    case Invoke(body, next) =>
      var inner := Meaning(body);
      if inner.Failed? then inner else Meaning(next)
  }

  /**
   * While a session `s` is bound, a unit of work yields its `Meaning`: every
   * decorated call joins `s` (no session is opened, begun, rebound or
   * closed) and every read of the current session sees `s`.
   */
  lemma {:induction false} InsideBoundSession(sm: Sessionmaker, c: Context, work: Work)
    requires c.session.Some?
    ensures Exec(sm, c, work).1 == Meaning(work)
    ensures Exec(sm, c, work).0.issued == c.issued
    ensures OnlyObserves(Exec(sm, c, work).0.trace[|c.trace|..], c.session.value)
    decreases work
  {
    var s := c.session.value;
    match work
    case Return(_) =>
    case Raise(_) =>
    case ReadSession(next) =>
      var c1 := Recorded(c, Observe(s));
      InsideBoundSession(sm, c1, next);
      ObservesAcross(c.trace, c1.trace, Exec(sm, c1, next).0.trace, s);
    case Invoke(body, next) =>
      InsideBoundSession(sm, c, body);
      var (c1, o) := Boundary(sm, c, body);
      if o.Returned? {
        InsideBoundSession(sm, c1, next);
        ObservesAcross(c.trace, c1.trace, Exec(sm, c1, next).0.trace, s);
      }
  }

  /**
   * A decorated call made while `s` is bound runs the work directly: its
   * outcome is the work's, no session is opened and the work sees `s`.
   */
  lemma NestedCallJoins(sm: Sessionmaker, c: Context, body: Work)
    requires c.session.Some?
    ensures Boundary(sm, c, body).1 == Meaning(body)
    ensures Boundary(sm, c, body).0.issued == c.issued
    ensures OnlyObserves(Boundary(sm, c, body).0.trace[|c.trace|..], c.session.value)
  {
    InsideBoundSession(sm, c, body);
  }

  /** A decorated call with nothing bound, step by step: the work runs with the new session bound. */
  lemma FreshBoundarySteps(sm: Sessionmaker, c: Context, body: Work)
    requires c.session.None?
    ensures var s := Session(sm, c.issued);
            var r := Exec(sm, Context(Some(s), c.trace + [Open(s), Bind(s), Begin(s)], c.issued + 1), body);
            Boundary(sm, c, body)
              == (Context(None, r.0.trace + [if r.1.Returned? then Commit(s) else Rollback(s), Unbind(s), Close(s)], r.0.issued), r.1)
  {
    var s := Session(sm, c.issued);
    var c3 := Context(Some(s), c.trace + [Open(s), Bind(s), Begin(s)], c.issued + 1);
    assert Recorded(Recorded(Recorded(c.(issued := c.issued + 1), Open(s)).(session := Some(s)), Bind(s)), Begin(s)) == c3;
    var r := Exec(sm, c3, body);
    var end := if r.1.Returned? then Commit(s) else Rollback(s);
    assert Recorded(Recorded(Recorded(r.0, end).(session := None), Unbind(s)), Close(s)).trace
           == r.0.trace + [end, Unbind(s), Close(s)];
  }

  /**
   * A decorated call made with nothing bound opens exactly one new session
   * `s` from the sessionmaker and runs the work in it; the events are open,
   * bind, begin, the work's reads of `s`, commit when the work returned or
   * rollback when it raised, unbind, close. The result or exception is
   * passed on unchanged and the slot is unbound again afterwards.
   */
  lemma OpensOneSession(sm: Sessionmaker, c: Context, body: Work)
    requires c.session.None?
    ensures Boundary(sm, c, body).1 == Meaning(body)
    ensures Boundary(sm, c, body).0.session.None?
    ensures Boundary(sm, c, body).0.issued == c.issued + 1
    ensures exists inner :: OnlyObserves(inner, Session(sm, c.issued))
              && Boundary(sm, c, body).0.trace
                 == c.trace + Lifecycle(Session(sm, c.issued), inner, Boundary(sm, c, body).1.Returned?)
  {
    var s := Session(sm, c.issued);
    var c3 := Context(Some(s), c.trace + [Open(s), Bind(s), Begin(s)], c.issued + 1);
    FreshBoundarySteps(sm, c, body);
    InsideBoundSession(sm, c3, body);
    var r := Exec(sm, c3, body);
    var inner := r.0.trace[|c3.trace|..];
    assert r.0.trace == c.trace + [Open(s), Bind(s), Begin(s)] + inner;
    assert Boundary(sm, c, body).0.trace == c.trace + Lifecycle(s, inner, r.1.Returned?);
  }

  /** A single call with nothing bound closes what it opens, and what it opens has a fresh serial. */
  lemma BoundaryClosesWhatItOpens(sm: Sessionmaker, c: Context, body: Work)
    requires c.session.None?
    ensures Opens(Boundary(sm, c, body).0.trace[|c.trace|..]) == Closes(Boundary(sm, c, body).0.trace[|c.trace|..])
    ensures IssuedInOrder(Opens(Boundary(sm, c, body).0.trace[|c.trace|..]), c.issued, Boundary(sm, c, body).0.issued)
  {
    var (c1, o) := Boundary(sm, c, body);
    OpensOneSession(sm, c, body);
    var s := Session(sm, c.issued);
    var inner :| OnlyObserves(inner, s) && c1.trace == c.trace + Lifecycle(s, inner, o.Returned?);
    LifecycleOpensAndClosesOnce(s, inner, o.Returned?);
    assert c1.trace[|c.trace|..] == Lifecycle(s, inner, o.Returned?);
  }

  /** A unit of work run with nothing bound closes every session it opens, in the order it opened them. */
  lemma {:induction false} EverySessionClosed(sm: Sessionmaker, c: Context, work: Work)
    requires c.session.None?
    ensures Opens(Exec(sm, c, work).0.trace[|c.trace|..]) == Closes(Exec(sm, c, work).0.trace[|c.trace|..])
    decreases work
  {
    match work
    case Return(_) =>
    case Raise(_) =>
    case ReadSession(_) =>
    case Invoke(body, next) =>
      var (c1, o) := Boundary(sm, c, body);
      BoundaryClosesWhatItOpens(sm, c, body);
      if o.Returned? {
        EverySessionClosed(sm, c1, next);
        OpensClosesAcross(c.trace, c1.trace, Exec(sm, c1, next).0.trace);
      }
  }

  /** A unit of work run with nothing bound opens each session once, in the order the serials were issued. */
  lemma {:induction false} SessionsIssuedOnce(sm: Sessionmaker, c: Context, work: Work)
    requires c.session.None?
    ensures IssuedInOrder(Opens(Exec(sm, c, work).0.trace[|c.trace|..]), c.issued, Exec(sm, c, work).0.issued)
    decreases work
  {
    match work
    case Return(_) =>
    case Raise(_) =>
    case ReadSession(_) =>
    case Invoke(body, next) =>
      var (c1, o) := Boundary(sm, c, body);
      BoundaryClosesWhatItOpens(sm, c, body);
      if o.Returned? {
        var c2 := Exec(sm, c1, next).0;
        SessionsIssuedOnce(sm, c1, next);
        IssuedAcross(c.trace, c1.trace, c2.trace, c.issued, c1.issued, c2.issued);
      }
  }

  /**
   * An outer decorated call whose work first awaits an inner decorated
   * call: the two share the one session the outer call opens, and when the
   * inner work raises, its exception reaches the caller and that shared
   * transaction is rolled back.
   */
  lemma NestedCallsShareSession(sm: Sessionmaker, c: Context, inner: Work, next: Work)
    requires c.session.None?
    ensures var res := Boundary(sm, c, Invoke(inner, next));
            Opens(res.0.trace[|c.trace|..]) == [Session(sm, c.issued)]
            && (Meaning(inner).Failed? ==>
                  res.1 == Meaning(inner) && Rollback(Session(sm, c.issued)) in res.0.trace[|c.trace|..])
  {
    var work := Invoke(inner, next);
    var res := Boundary(sm, c, work);
    var s := Session(sm, c.issued);
    OpensOneSession(sm, c, work);
    var events :| OnlyObserves(events, s) && res.0.trace == c.trace + Lifecycle(s, events, res.1.Returned?);
    LifecycleOpensAndClosesOnce(s, events, res.1.Returned?);
    assert res.0.trace[|c.trace|..] == Lifecycle(s, events, res.1.Returned?);
    if Meaning(inner).Failed? {
      assert Meaning(work) == Meaning(inner);
      var l := Lifecycle(s, events, false);
      assert l[|l| - 3] == Rollback(s);
    }
  }

  /** The `Database` object, less its engine: the sessionmaker it was built with and its session slot. */
  class Database {
    const sessionmaker: Sessionmaker
    var sessionContext: Option<Session>
    var trace: seq<Event>
    var issued: nat

    function Snapshot(): Context
      reads this
    {
      Context(sessionContext, trace, issued)
    }

    /** A fresh `Database`: its `ContextVar("session")` has no value. */
    constructor (sm: Sessionmaker)
      ensures sessionmaker == sm && Snapshot() == Context(None, [], 0)
    {
      sessionmaker := sm;
      sessionContext, trace, issued := None, [], 0;
    }

    /** `get_current_session()`: a read that changes nothing. */
    method GetCurrentSession() returns (r: Result<Session, Error>)
      ensures r == CurrentSession(Snapshot())
    {
      var session := sessionContext;
      if session.None? {
        return Failure(NoActiveTransaction);
      }
      return Success(session.value);
    }

    /** Running a unit of work. */
    method Run(work: Work) returns (o: Outcome)
      modifies this
      ensures (Snapshot(), o) == Exec(sessionmaker, old(Snapshot()), work)
      decreases work, 0
    {
      match work
      case Return(v) =>
        o := Returned(v);
      case Raise(code) =>
        o := Failed(Raised(code));
      case ReadSession(next) =>
        var current := GetCurrentSession();
        if current.Failure? {
          return Failed(current.error);
        }
        trace := trace + [Observe(current.value)];
        o := Run(next);
      case Invoke(body, next) =>
        o := Transactional(body);
        if o.Returned? {
          o := Run(next);
        }
    }

    /** Awaiting the `wrapper` that `transactional(func)` returns. */
    method Transactional(body: Work) returns (o: Outcome)
      modifies this
      ensures (Snapshot(), o) == Boundary(sessionmaker, old(Snapshot()), body)
      decreases body, 1
    {
      if sessionContext.Some? {
        o := Run(body);
        return;
      }
      var s := Session(sessionmaker, issued);
      issued := issued + 1;
      trace := trace + [Open(s)];
      var token := Token(sessionContext, s);
      sessionContext := Some(s);
      trace := trace + [Bind(s)];
      trace := trace + [Begin(s)];
      o := Run(body);
      trace := trace + [if o.Returned? then Commit(s) else Rollback(s)];
      sessionContext := token.previous;
      trace := trace + [Unbind(s)];
      trace := trace + [Close(s)];
    }
  }
}
