/**
 * The transaction-propagation engine of sqlalchemy_transactional/async.py.
 *
 * Two ambient slots (the `ContextVar`s `sessionmaker_context` and
 * `session_context`) hold the current sessionmaker and the current session.
 * `enter_sessionmaker` and `enter_session` bind a slot for the length of a
 * scope, refusing a slot that is already bound, and reset it with their token
 * when the scope exits. `_transactional` implements REQUIRED only.
 *
 * The behaviour is given as functions over a `Context` value (the two slots,
 * the trace of session events, and a counter that makes each new session
 * distinct); class `AsyncContext` does the same step by step on fields and
 * is proved to agree with those functions.
 */
module AsyncTransactional {
  import opened Wrappers
  import opened Sessions
  import opened Common

  /** SQLAlchemy's isolation level names; `_transactional` receives one and never uses it. */
  type IsolationLevel = string

  /** What a call can raise: the four `RuntimeError`s, `NotImplementedError`, or the work's own exception. */
  datatype Error =
    | SessionmakerAlreadySet
    | SessionmakerNotSet
    | SessionAlreadySet
    | SessionNotSet
    | NotImplemented
    | Raised(code: int)

  /** The message a `RuntimeError` of this module carries. */
  function Message(e: Error): string
  {
    match e
    case SessionmakerAlreadySet => "Sessionmaker already set"
    case SessionmakerNotSet => "Sessionmaker not set"
    case SessionAlreadySet => "Session already set"
    case SessionNotSet => "Session not set"
    case NotImplemented => ""
    case Raised(_) => ""
  }

  /** How an awaited call ends: it returns a value or raises. */
  datatype Outcome = Returned(value: int) | Failed(error: Error)

  /**
   * A unit of work: it returns, raises, reads `current_session()` and goes on,
   * or awaits a `@transactional` function and goes on when that returns
   * (an exception of the awaited call propagates).
   */
  datatype Work =
    | Return(value: int)
    | Raise(code: int)
    | ReadSession(next: Work)
    | Invoke(fn: Wrapped, next: Work)

  /** The `wrapper` that `transactional` returns: the arguments it passes to `_transactional`. */
  datatype Wrapped = Wrapped(propagation: Option<Propagation>, isolation: Option<IsolationLevel>, body: Work)

  /**
   * What the REQUIRED boundary does when a session is already bound.
   * `Reenter` is the code as written (it enters `enter_session` again);
   * `Join` runs the work directly in the bound session, as the comment on
   * REQUIRED in common.py intends.
   */
  datatype Reuse = Reenter | Join

  /** The state of one call chain: both slots, the events so far, and how many sessions were issued. */
  datatype Context = Context(sessionmaker: Option<Sessionmaker>, session: Option<Session>, trace: seq<Event>, issued: nat)

  function Recorded(c: Context, e: Event): Context
  {
    c.(trace := c.trace + [e])
  }

  // ----- the context store -----

  /** `current_sessionmaker()`: the bound sessionmaker, or "Sessionmaker not set". */
  function CurrentSessionmaker(c: Context): (r: Result<Sessionmaker, Error>)
    ensures r.Success? <==> c.sessionmaker.Some?
    ensures r.Success? ==> c.sessionmaker == Some(r.value)
    ensures r.Failure? ==> r.error == SessionmakerNotSet
  {
    match c.sessionmaker
    case None => Failure(SessionmakerNotSet)
    case Some(sm) => Success(sm)
  }

  /** `current_session()`: the bound session, or "Session not set". */
  function CurrentSession(c: Context): (r: Result<Session, Error>)
    ensures r.Success? <==> c.session.Some?
    ensures r.Success? ==> c.session == Some(r.value)
    ensures r.Failure? ==> r.error == SessionNotSet
  {
    match c.session
    case None => Failure(SessionNotSet)
    case Some(s) => Success(s)
  }

  /** Entering `enter_sessionmaker(sm)`: refuse a bound slot, else bind `sm` and keep the token. */
  function BindSessionmaker(c: Context, sm: Sessionmaker): (r: Result<(Context, Token<Sessionmaker>), Error>)
    ensures r.Failure? <==> c.sessionmaker.Some?
    ensures r.Failure? ==> r.error == SessionmakerAlreadySet
    ensures r.Success? ==> r.value.0 == c.(sessionmaker := Some(sm)) && r.value.1 == Token(c.sessionmaker, sm)
  {
    if c.sessionmaker.Some? then Failure(SessionmakerAlreadySet)
    else Success((c.(sessionmaker := Some(sm)), Token(c.sessionmaker, sm)))
  }

  /** `sessionmaker_context.reset(token)`: the slot holds again what it held before the token's `set`. */
  function RestoreSessionmaker(c: Context, t: Token<Sessionmaker>): (r: Context)
    ensures r.sessionmaker == t.previous
    ensures r.session == c.session && r.trace == c.trace && r.issued == c.issued
  {
    c.(sessionmaker := t.previous)
  }

  /** Entering `enter_session(s)`: refuse a bound slot, else bind `s` and keep the token. */
  function BindSession(c: Context, s: Session): (r: Result<(Context, Token<Session>), Error>)
    ensures r.Failure? <==> c.session.Some?
    ensures r.Failure? ==> r.error == SessionAlreadySet
    ensures r.Success? ==> r.value.0 == Recorded(c.(session := Some(s)), Bind(s)) && r.value.1 == Token(c.session, s)
  {
    if c.session.Some? then Failure(SessionAlreadySet)
    else Success((Recorded(c.(session := Some(s)), Bind(s)), Token(c.session, s)))
  }

  /** `session_context.reset(token)` when the `enter_session` scope exits: the slot holds its earlier value again. */
  function RestoreSession(c: Context, t: Token<Session>): (r: Context)
    ensures r.session == t.previous
    ensures r.sessionmaker == c.sessionmaker && r.issued == c.issued
    ensures r.trace == c.trace + [Unbind(t.bound)]
  {
    Recorded(c.(session := t.previous), Unbind(t.bound))
  }

  /**
   * `sessionmaker()`: a new session of `sm`, carrying the next serial; the
   * count of issued sessions goes up by one and Open is recorded.
   */
  function NewSession(c: Context, sm: Sessionmaker): (r: (Context, Session))
    ensures r.1.maker == sm && r.1.serial == c.issued && r.0.issued == c.issued + 1
    ensures r.0.sessionmaker == c.sessionmaker && r.0.session == c.session
    ensures r.0.trace == c.trace + [Open(r.1)]
  {
    var s := Session(sm, c.issued);
    (Recorded(c.(issued := c.issued + 1), Open(s)), s)
  }

  /** The readers and the guards raise `RuntimeError`s carrying exactly these messages. */
  lemma StoreErrorMessages(c: Context, sm: Sessionmaker, s: Session)
    ensures CurrentSessionmaker(c).Failure? ==> Message(CurrentSessionmaker(c).error) == "Sessionmaker not set"
    ensures CurrentSession(c).Failure? ==> Message(CurrentSession(c).error) == "Session not set"
    ensures BindSessionmaker(c, sm).Failure? ==> Message(BindSessionmaker(c, sm).error) == "Sessionmaker already set"
    ensures BindSession(c, s).Failure? ==> Message(BindSession(c, s).error) == "Session already set"
  {
  }

  // ----- the transactional boundary -----

  /** The mode `_transactional` runs: `None` stands for REQUIRED. */
  function EffectiveMode(p: Option<Propagation>): (m: Propagation)
    ensures m == Required <==> p == None || p == Some(Required)
    ensures p.Some? ==> m == p.value
  {
    match p
    case None => Required
    case Some(m) => m
  }

  /**
   * Running a unit of work in context `c`. Whatever the work does, both
   * slots end as they began, the trace only grows and no session serial is
   * reused.
   */
  function Exec(c: Context, work: Work, reuse: Reuse): (res: (Context, Outcome))
    ensures res.0.sessionmaker == c.sessionmaker && res.0.session == c.session
    ensures c.trace <= res.0.trace && c.issued <= res.0.issued
    decreases work
  {
    match work
    case Return(v) => (c, Returned(v))
    case Raise(code) => (c, Failed(Raised(code)))
    case ReadSession(next) =>
      (match CurrentSession(c)
       case Failure(e) => (c, Failed(e))
       case Success(s) => Exec(Recorded(c, Observe(s)), next, reuse))
    case Invoke(w, next) =>
      var (c1, o) := Boundary(c, w, reuse);
      if o.Failed? then (c1, o) else Exec(c1, next, reuse)
  }

  /**
   * `_transactional(propagation, isolation_level, func, ...)`. A mode other
   * than REQUIRED raises `NotImplementedError`. With no session bound it
   * takes the current sessionmaker, opens a session, binds it, begins,
   * runs the work, commits or rolls back, unbinds and closes. With a session
   * bound the code as written enters `enter_session` again, whose guard
   * raises "Session already set".
   */
  function Boundary(c: Context, w: Wrapped, reuse: Reuse): (res: (Context, Outcome))
    ensures res.0.sessionmaker == c.sessionmaker && res.0.session == c.session
    ensures c.trace <= res.0.trace && c.issued <= res.0.issued
    decreases w
  {
    if EffectiveMode(w.propagation) != Required then (c, Failed(NotImplemented))
    else
      match c.session
      case None =>
        (match CurrentSessionmaker(c)
         case Failure(e) => (c, Failed(e))
         case Success(sm) =>
           var (c1, s) := NewSession(c, sm);
           // nothing is bound, so the guard of `enter_session` lets `s` through
           var (c2, t) := BindSession(c1, s).value;
           var (c3, o) := Exec(Recorded(c2, Begin(s)), w.body, reuse);
           var c4 := Recorded(c3, if o.Returned? then Commit(s) else Rollback(s));
           (Recorded(RestoreSession(c4, t), Close(s)), o))
      case Some(s) =>
        match reuse
        case Reenter =>
          // the guard of `enter_session` refuses the bound session: the work does not run
          (c, Failed(BindSession(c, s).error))
        case Join => Exec(c, w.body, reuse)
  }

  /** `async with enter_sessionmaker(sm): <body>`. */
  function SessionmakerScope(c: Context, sm: Sessionmaker, body: Work, reuse: Reuse): (res: (Context, Outcome))
    ensures res.0.sessionmaker == c.sessionmaker && res.0.session == c.session
    ensures c.sessionmaker.Some? ==> res == (c, Failed(SessionmakerAlreadySet))
    ensures c.sessionmaker.None? ==> res.1 == Exec(c.(sessionmaker := Some(sm)), body, reuse).1
  {
    match BindSessionmaker(c, sm)
    case Failure(e) => (c, Failed(e))
    case Success((c1, t)) =>
      var (c2, o) := Exec(c1, body, reuse);
      (RestoreSessionmaker(c2, t), o)
  }

  /** Entering and leaving `enter_sessionmaker` on a free slot gives back the context it started from. */
  lemma SessionmakerTokenRoundTrip(c: Context, sm: Sessionmaker)
    requires c.sessionmaker.None?
    ensures BindSessionmaker(c, sm).Success?
    ensures RestoreSessionmaker(BindSessionmaker(c, sm).value.0, BindSessionmaker(c, sm).value.1) == c
  {
  }

  /** Entering and leaving `enter_session` on a free slot gives back the context, with Bind and Unbind recorded. */
  lemma SessionTokenRoundTrip(c: Context, s: Session)
    requires c.session.None?
    ensures BindSession(c, s).Success?
    ensures RestoreSession(BindSession(c, s).value.0, BindSession(c, s).value.1)
            == c.(trace := c.trace + [Bind(s), Unbind(s)])
  {
  }

  // ----- the decorator -----

  /** The first argument of `transactional`: the decorated function itself, or a mode (possibly `None`). */
  datatype DecoratorArgument = Function(work: Work) | Mode(propagation: Option<Propagation>)

  /** What `transactional(...)` returns: the wrapper itself (bare form) or a decorator still to be applied. */
  datatype Decorated = Wrapper(wrapped: Wrapped) | Decorator(propagation: Option<Propagation>, isolation: Option<IsolationLevel>)

  /** The inner `decorator(func)`: the wrapper passes no mode when the argument was the function itself. */
  function Decorate(argument: DecoratorArgument, isolation: Option<IsolationLevel>, func: Work): (w: Wrapped)
    ensures w.body == func && w.isolation == isolation
    ensures EffectiveMode(w.propagation)
            == (if argument.Mode? && argument.propagation.Some? then argument.propagation.value else Required)
  {
    Wrapped(if argument.Function? then None else argument.propagation, isolation, func)
  }

  /** `transactional(func_or_propagation, isolation_level=...)`. */
  function Transactional(argument: DecoratorArgument, isolation: Option<IsolationLevel>): (d: Decorated)
    ensures d.Wrapper? <==> argument.Function?
    ensures d.Wrapper? ==> d.wrapped.body == argument.work && d.wrapped.isolation == isolation
                           && EffectiveMode(d.wrapped.propagation) == Required
    ensures d.Decorator? ==> d.propagation == argument.propagation && d.isolation == isolation
  {
    match argument
    case Function(f) => Wrapper(Decorate(argument, isolation, f))
    case Mode(p) => Decorator(p, isolation)
  }

  /** Applying the decorator returned by the parameterised form to a function. */
  function Apply(d: Decorated, func: Work): (w: Wrapped)
    requires d.Decorator?
    ensures w.body == func && w.isolation == d.isolation
    ensures EffectiveMode(w.propagation) == EffectiveMode(d.propagation)
  {
    Decorate(Mode(d.propagation), d.isolation, func)
  }

  /**
   * `@transactional`, `@transactional()` and `@transactional(None)` all run
   * as REQUIRED; `@transactional(m, isolation_level=i)` fixes `m` and `i`
   * when it decorates, whatever happens at call time.
   */
  lemma DispatchFixesMode(f: Work, m: Propagation, i: Option<IsolationLevel>)
    ensures Transactional(Function(f), i).Wrapper?
    ensures Transactional(Function(f), i).wrapped == Wrapped(None, i, f)
    ensures EffectiveMode(Transactional(Function(f), i).wrapped.propagation) == Required
    ensures Transactional(Mode(None), i).Decorator?
    ensures EffectiveMode(Apply(Transactional(Mode(None), i), f).propagation) == Required
    ensures Transactional(Mode(Some(m)), i).Decorator?
    ensures Apply(Transactional(Mode(Some(m)), i), f) == Wrapped(Some(m), i, f)
    ensures EffectiveMode(Apply(Transactional(Mode(Some(m)), i), f).propagation) == m
  {
  }

  /** `isolation_level` reaches `_transactional` and changes nothing there. */
  lemma IsolationLevelIgnored(c: Context, w: Wrapped, i: Option<IsolationLevel>, reuse: Reuse)
    ensures Boundary(c, w.(isolation := i), reuse) == Boundary(c, w, reuse)
  {
  }

  // ----- what a unit of work yields -----

  /**
   * The outcome of a unit of work that runs while a session is bound,
   * independent of the context: a nested REQUIRED call either fails with
   * "Session already set" (`Reenter`) or yields the outcome of its own work
   * (`Join`); any other mode fails with `NotImplementedError`.
   */
  function Meaning(work: Work, reuse: Reuse): Outcome
    decreases work
  {
    match work
    case Return(v) => Returned(v)
    case Raise(code) => Failed(Raised(code))
    case ReadSession(next) => Meaning(next, reuse)
    case Invoke(w, next) =>
      var inner :=
        if EffectiveMode(w.propagation) != Required then Failed(NotImplemented)
        else if reuse == Reenter then Failed(SessionAlreadySet)
        else Meaning(w.body, reuse);
      if inner.Failed? then inner else Meaning(next, reuse)
  }

  // ----- properties of the boundary -----

  /** A mode other than REQUIRED raises `NotImplementedError` before any slot is read or session opened. */
  lemma UnsupportedModeChangesNothing(c: Context, w: Wrapped, reuse: Reuse)
    requires EffectiveMode(w.propagation) != Required
    ensures Boundary(c, w, reuse) == (c, Failed(NotImplemented))
  {
  }

  /** REQUIRED with neither a session nor a sessionmaker bound raises "Sessionmaker not set" and opens nothing. */
  lemma RequiredWithoutSessionmaker(c: Context, w: Wrapped, reuse: Reuse)
    requires EffectiveMode(w.propagation) == Required
    requires c.session.None? && c.sessionmaker.None?
    ensures Boundary(c, w, reuse) == (c, Failed(SessionmakerNotSet))
  {
  }

  /**
   * While a session `s` is bound, a unit of work yields its `Meaning`, opens
   * no session, and its only events are reads of `s`.
   */
  lemma {:induction false} InsideBoundSession(c: Context, work: Work, reuse: Reuse)
    requires c.session.Some?
    ensures Exec(c, work, reuse).1 == Meaning(work, reuse)
    ensures Exec(c, work, reuse).0.issued == c.issued
    ensures OnlyObserves(Exec(c, work, reuse).0.trace[|c.trace|..], c.session.value)
    decreases work
  {
    var s := c.session.value;
    match work
    case Return(_) =>
    case Raise(_) =>
    case ReadSession(next) =>
      var c1 := Recorded(c, Observe(s));
      InsideBoundSession(c1, next, reuse);
      ObservesAcross(c.trace, c1.trace, Exec(c1, next, reuse).0.trace, s);
    case Invoke(w, next) =>
      var (c1, o) := Boundary(c, w, reuse);
      if EffectiveMode(w.propagation) == Required && reuse == Join {
        InsideBoundSession(c, w.body, reuse);
      }
      assert OnlyObserves(c1.trace[|c.trace|..], s);
      if o.Returned? {
        InsideBoundSession(c1, next, reuse);
        ObservesAcross(c.trace, c1.trace, Exec(c1, next, reuse).0.trace, s);
      }
  }

  /** The REQUIRED boundary with nothing bound, step by step: the work runs with the new session bound. */
  lemma FreshBoundarySteps(c: Context, w: Wrapped, reuse: Reuse)
    requires EffectiveMode(w.propagation) == Required
    requires c.session.None? && c.sessionmaker.Some?
    ensures var s := Session(c.sessionmaker.value, c.issued);
            var r := Exec(Context(c.sessionmaker, Some(s), c.trace + [Open(s), Bind(s), Begin(s)], c.issued + 1), w.body, reuse);
            Boundary(c, w, reuse)
              == (Context(c.sessionmaker, None, r.0.trace + [if r.1.Returned? then Commit(s) else Rollback(s), Unbind(s), Close(s)], r.0.issued), r.1)
  {
    var s := Session(c.sessionmaker.value, c.issued);
    var c2 := Context(c.sessionmaker, None, c.trace + [Open(s)], c.issued + 1);
    assert NewSession(c, c.sessionmaker.value) == (c2, s);
    var c3 := Context(c.sessionmaker, Some(s), c.trace + [Open(s), Bind(s)], c.issued + 1);
    assert BindSession(c2, s).value.0.trace == c3.trace;
    assert BindSession(c2, s).value == (c3, Token(None, s));
    var c4 := Recorded(c3, Begin(s));
    assert c4.trace == c.trace + [Open(s), Bind(s), Begin(s)];
    var r := Exec(c4, w.body, reuse);
    var end := if r.1.Returned? then Commit(s) else Rollback(s);
    assert Recorded(RestoreSession(Recorded(r.0, end), Token(None, s)), Close(s)).trace == r.0.trace + [end, Unbind(s), Close(s)];
  }

  /**
   * REQUIRED with no session bound and a sessionmaker `sm` bound opens
   * exactly one new session `s` and runs the work in it; the events are
   * open, bind, begin, the work's reads of `s`, commit when the work
   * returned or rollback when it raised, unbind, close. The work's result or
   * exception is passed on unchanged and no session is bound afterwards.
   */
  lemma RequiredOpensOneSession(c: Context, w: Wrapped, reuse: Reuse)
    requires EffectiveMode(w.propagation) == Required
    requires c.session.None? && c.sessionmaker.Some?
    ensures Boundary(c, w, reuse).1 == Meaning(w.body, reuse)
    ensures Boundary(c, w, reuse).0.session.None?
    ensures Boundary(c, w, reuse).0.issued == c.issued + 1
    ensures exists inner :: OnlyObserves(inner, Session(c.sessionmaker.value, c.issued))
              && Boundary(c, w, reuse).0.trace
                 == c.trace + Lifecycle(Session(c.sessionmaker.value, c.issued), inner, Boundary(c, w, reuse).1.Returned?)
  {
    var s := Session(c.sessionmaker.value, c.issued);
    var c3 := Context(c.sessionmaker, Some(s), c.trace + [Open(s), Bind(s), Begin(s)], c.issued + 1);
    FreshBoundarySteps(c, w, reuse);
    InsideBoundSession(c3, w.body, reuse);
    var (c4, o) := Exec(c3, w.body, reuse);
    var inner := c4.trace[|c3.trace|..];
    assert c4.trace == c3.trace + inner;
    assert Boundary(c, w, reuse).0.trace == c.trace + Lifecycle(s, inner, o.Returned?);
  }

  /** A single boundary entered with no session bound closes what it opens, and what it opens has a fresh serial. */
  lemma BoundaryClosesWhatItOpens(c: Context, w: Wrapped, reuse: Reuse)
    requires c.session.None?
    ensures Opens(Boundary(c, w, reuse).0.trace[|c.trace|..]) == Closes(Boundary(c, w, reuse).0.trace[|c.trace|..])
    ensures IssuedInOrder(Opens(Boundary(c, w, reuse).0.trace[|c.trace|..]), c.issued, Boundary(c, w, reuse).0.issued)
  {
    var (c1, o) := Boundary(c, w, reuse);
    if EffectiveMode(w.propagation) == Required && c.sessionmaker.Some? {
      RequiredOpensOneSession(c, w, reuse);
      var s := Session(c.sessionmaker.value, c.issued);
      var inner :| OnlyObserves(inner, s) && c1.trace == c.trace + Lifecycle(s, inner, o.Returned?);
      LifecycleOpensAndClosesOnce(s, inner, o.Returned?);
      assert c1.trace[|c.trace|..] == Lifecycle(s, inner, o.Returned?);
    } else {
      assert c1.trace[|c.trace|..] == [];
    }
  }

  /**
   * A unit of work run with no session bound closes every session it opens:
   * the sessions closed are the sessions opened, in the same order.
   */
  lemma {:induction false} EverySessionClosed(c: Context, work: Work, reuse: Reuse)
    requires c.session.None?
    ensures Opens(Exec(c, work, reuse).0.trace[|c.trace|..]) == Closes(Exec(c, work, reuse).0.trace[|c.trace|..])
    decreases work
  {
    match work
    case Return(_) =>
    case Raise(_) =>
    case ReadSession(_) =>
    case Invoke(w, next) =>
      var (c1, o) := Boundary(c, w, reuse);
      BoundaryClosesWhatItOpens(c, w, reuse);
      if o.Returned? {
        EverySessionClosed(c1, next, reuse);
        OpensClosesAcross(c.trace, c1.trace, Exec(c1, next, reuse).0.trace);
      }
  }

  /**
   * A unit of work run with no session bound opens each session once: the
   * sessions it opens were issued in order, each with a serial of its own.
   */
  lemma {:induction false} SessionsIssuedOnce(c: Context, work: Work, reuse: Reuse)
    requires c.session.None?
    ensures IssuedInOrder(Opens(Exec(c, work, reuse).0.trace[|c.trace|..]), c.issued, Exec(c, work, reuse).0.issued)
    decreases work
  {
    match work
    case Return(_) =>
    case Raise(_) =>
    case ReadSession(_) =>
    case Invoke(w, next) =>
      var (c1, o) := Boundary(c, w, reuse);
      BoundaryClosesWhatItOpens(c, w, reuse);
      if o.Returned? {
        var c2 := Exec(c1, next, reuse).0;
        SessionsIssuedOnce(c1, next, reuse);
        IssuedAcross(c.trace, c1.trace, c2.trace, c.issued, c1.issued, c2.issued);
      }
  }

  // ----- a nested REQUIRED call -----

  /**
   * As written, REQUIRED with a session already bound fails with "Session
   * already set": the work never runs and nothing is opened, committed or
   * closed, although the comment on REQUIRED asks to join the current
   * transaction.
   */
  lemma NestedRequiredRejected(c: Context, w: Wrapped)
    requires EffectiveMode(w.propagation) == Required && c.session.Some?
    ensures IntendedStrategy(Required, true) == JoinCurrent
    ensures Boundary(c, w, Reenter) == (c, Failed(SessionAlreadySet))
  {
  }

  /**
   * Joining instead, REQUIRED with a session `s` bound runs the work in `s`:
   * the work's outcome is passed on, no session is opened and the work's
   * only events are reads of `s`; commit and close are left to the boundary
   * that owns `s`.
   */
  lemma NestedRequiredJoins(c: Context, w: Wrapped)
    requires EffectiveMode(w.propagation) == Required && c.session.Some?
    ensures Boundary(c, w, Join).1 == Meaning(w.body, Join)
    ensures Boundary(c, w, Join).0.issued == c.issued
    ensures OnlyObserves(Boundary(c, w, Join).0.trace[|c.trace|..], c.session.value)
  {
    InsideBoundSession(c, w.body, Join);
  }

  /** Joining, REQUIRED does what the comment in common.py says: join a current transaction, else create one. */
  lemma JoiningRequiredFollowsIntent(c: Context, w: Wrapped)
    requires EffectiveMode(w.propagation) == Required && c.sessionmaker.Some?
    ensures Boundary(c, w, Join).1 == Meaning(w.body, Join)
    ensures IntendedStrategy(Required, c.session.Some?) == JoinCurrent
            ==> Opens(Boundary(c, w, Join).0.trace[|c.trace|..]) == []
    ensures IntendedStrategy(Required, c.session.Some?) == CreateNew
            ==> Opens(Boundary(c, w, Join).0.trace[|c.trace|..]) == [Session(c.sessionmaker.value, c.issued)]
  {
    var res := Boundary(c, w, Join);
    if c.session.Some? {
      NestedRequiredJoins(c, w);
      ObservationsOpenNothing(res.0.trace[|c.trace|..], c.session.value);
    } else {
      RequiredOpensOneSession(c, w, Join);
      var s := Session(c.sessionmaker.value, c.issued);
      var inner :| OnlyObserves(inner, s) && res.0.trace == c.trace + Lifecycle(s, inner, res.1.Returned?);
      LifecycleOpensAndClosesOnce(s, inner, res.1.Returned?);
      assert res.0.trace[|c.trace|..] == Lifecycle(s, inner, res.1.Returned?);
    }
  }

  // ----- scenarios of test_sqlalchemy_transactional_async.py -----

  /**
   * The sessionmaker scope binds and resets, and a bare `@transactional`
   * function that reads the current session runs in one new session that is
   * committed, unbound and closed; afterwards neither slot is bound.
   */
  lemma RequiredCommitScenario(sm: Sessionmaker)
    ensures var c0 := Context(None, None, [], 0);
            var s := Session(sm, 0);
            var insert := Transactional(Function(ReadSession(Return(0))), None).wrapped;
            var res := SessionmakerScope(c0, sm, Invoke(insert, Return(0)), Reenter);
            CurrentSessionmaker(c0) == Failure(SessionmakerNotSet)
            && CurrentSessionmaker(BindSessionmaker(c0, sm).value.0) == Success(sm)
            && res == (Context(None, None, Lifecycle(s, [Observe(s)], true), 1), Returned(0))
            && CurrentSessionmaker(res.0) == Failure(SessionmakerNotSet)
            && CurrentSession(res.0) == Failure(SessionNotSet)
  {
    var s := Session(sm, 0);
    var c1 := Context(Some(sm), None, [], 0);
    var insert := Transactional(Function(ReadSession(Return(0))), None).wrapped;
    var c4 := Context(Some(sm), Some(s), [Open(s), Bind(s), Begin(s)], 1);
    FreshBoundarySteps(c1, insert, Reenter);
    assert [] + [Open(s), Bind(s), Begin(s)] == c4.trace;
    assert Exec(c4, insert.body, Reenter) == (Recorded(c4, Observe(s)), Returned(0));
    assert Lifecycle(s, [Observe(s)], true) == [Open(s), Bind(s), Begin(s), Observe(s), Commit(s), Unbind(s), Close(s)];
  }

  /**
   * REQUIRED inside REQUIRED: as written the inner call raises "Session
   * already set", so the outer call rolls its session back; joining, the
   * inner call reads the outer session and the outer call commits.
   */
  lemma NestedRequiredScenario(sm: Sessionmaker)
    ensures var c0 := Context(None, None, [], 0);
            var s := Session(sm, 0);
            var inner := Wrapped(None, None, ReadSession(Return(1)));
            var outer := Wrapped(None, None, Invoke(inner, Return(0)));
            SessionmakerScope(c0, sm, Invoke(outer, Return(0)), Reenter)
              == (Context(None, None, Lifecycle(s, [], false), 1), Failed(SessionAlreadySet))
            && SessionmakerScope(c0, sm, Invoke(outer, Return(0)), Join)
              == (Context(None, None, Lifecycle(s, [Observe(s)], true), 1), Returned(0))
  {
    var s := Session(sm, 0);
    var c1 := Context(Some(sm), None, [], 0);
    var inner := Wrapped(None, None, ReadSession(Return(1)));
    var outer := Wrapped(None, None, Invoke(inner, Return(0)));
    var c4 := Context(Some(sm), Some(s), [Open(s), Bind(s), Begin(s)], 1);
    assert [] + [Open(s), Bind(s), Begin(s)] == c4.trace;
    FreshBoundarySteps(c1, outer, Reenter);
    assert Exec(c4, outer.body, Reenter) == (c4, Failed(SessionAlreadySet));
    assert Lifecycle(s, [], false) == [Open(s), Bind(s), Begin(s), Rollback(s), Unbind(s), Close(s)];
    assert c4.trace + [Rollback(s), Unbind(s), Close(s)] == Lifecycle(s, [], false);
    assert Boundary(c1, outer, Reenter) == (Context(Some(sm), None, Lifecycle(s, [], false), 1), Failed(SessionAlreadySet));
    FreshBoundarySteps(c1, outer, Join);
    assert Exec(c4, inner.body, Join) == (Recorded(c4, Observe(s)), Returned(1));
    assert Exec(c4, outer.body, Join) == (Recorded(c4, Observe(s)), Returned(0));
    assert Lifecycle(s, [Observe(s)], true) == [Open(s), Bind(s), Begin(s), Observe(s), Commit(s), Unbind(s), Close(s)];
    assert Boundary(c1, outer, Join) == (Context(Some(sm), None, Lifecycle(s, [Observe(s)], true), 1), Returned(0));
  }

  /** Once a sessionmaker scope has exited, a sessionmaker can be entered again. */
  lemma SessionmakerRebindAfterExit(c: Context, sm: Sessionmaker, other: Sessionmaker, body: Work, reuse: Reuse)
    requires c.sessionmaker.None?
    ensures BindSessionmaker(SessionmakerScope(c, sm, body, reuse).0, other).Success?
  {
  }

  // ----- the same engine, step by step on fields -----

  /**
   * The ambient state of one call chain: the two `ContextVar` slots, the
   * session events so far and the number of sessions opened.
   */
  class AsyncContext {
    var sessionmaker: Option<Sessionmaker>
    var session: Option<Session>
    var trace: seq<Event>
    var issued: nat

    function Snapshot(): Context
      reads this
    {
      Context(sessionmaker, session, trace, issued)
    }

    /** Both slots start at their default, `None`. */
    constructor ()
      ensures Snapshot() == Context(None, None, [], 0)
    {
      sessionmaker, session, trace, issued := None, None, [], 0;
    }

    method Record(e: Event)
      modifies this
      ensures Snapshot() == Recorded(old(Snapshot()), e)
    {
      trace := trace + [e];
    }

    /** Entering `enter_sessionmaker(sm)`; on failure nothing changes. */
    method EnterSessionmaker(sm: Sessionmaker) returns (r: Result<Token<Sessionmaker>, Error>)
      modifies this
      ensures r.Failure? ==> Snapshot() == old(Snapshot()) && BindSessionmaker(old(Snapshot()), sm) == Failure(r.error)
      ensures r.Success? ==> BindSessionmaker(old(Snapshot()), sm) == Success((Snapshot(), r.value))
    {
      if sessionmaker.Some? {
        return Failure(SessionmakerAlreadySet);
      }
      r := Success(Token(sessionmaker, sm));
      sessionmaker := Some(sm);
    }

    /** Leaving `enter_sessionmaker`: reset with the token. */
    method ExitSessionmaker(t: Token<Sessionmaker>)
      modifies this
      ensures Snapshot() == RestoreSessionmaker(old(Snapshot()), t)
    {
      sessionmaker := t.previous;
    }

    /** Entering `enter_session(s)`; on failure nothing changes. */
    method EnterSession(s: Session) returns (r: Result<Token<Session>, Error>)
      modifies this
      ensures r.Failure? ==> Snapshot() == old(Snapshot()) && BindSession(old(Snapshot()), s) == Failure(r.error)
      ensures r.Success? ==> BindSession(old(Snapshot()), s) == Success((Snapshot(), r.value))
    {
      if session.Some? {
        return Failure(SessionAlreadySet);
      }
      r := Success(Token(session, s));
      session := Some(s);
      trace := trace + [Bind(s)];
    }

    /** Leaving `enter_session`: reset with the token. */
    method ExitSession(t: Token<Session>)
      modifies this
      ensures Snapshot() == RestoreSession(old(Snapshot()), t)
    {
      session := t.previous;
      trace := trace + [Unbind(t.bound)];
    }

    /** Calling the sessionmaker. */
    method OpenSession(sm: Sessionmaker) returns (s: Session)
      modifies this
      ensures (Snapshot(), s) == NewSession(old(Snapshot()), sm)
    {
      s := Session(sm, issued);
      issued := issued + 1;
      trace := trace + [Open(s)];
    }

    /** Running a unit of work. */
    method Run(work: Work) returns (o: Outcome)
      modifies this
      ensures (Snapshot(), o) == Exec(old(Snapshot()), work, Reenter)
      decreases work
    {
      match work
      case Return(v) =>
        o := Returned(v);
      case Raise(code) =>
        o := Failed(Raised(code));
      case ReadSession(next) =>
        var current := CurrentSession(Snapshot());
        if current.Failure? {
          return Failed(current.error);
        }
        Record(Observe(current.value));
        o := Run(next);
      case Invoke(w, next) =>
        o := RunTransactional(w);
        if o.Returned? {
          o := Run(next);
        }
    }

    /** `_transactional`, as written. */
    method RunTransactional(w: Wrapped) returns (o: Outcome)
      modifies this
      ensures (Snapshot(), o) == Boundary(old(Snapshot()), w, Reenter)
      decreases w
    {
      if EffectiveMode(w.propagation) != Required {
        return Failed(NotImplemented);
      }
      var current := session;
      if current.None? {
        var maker := CurrentSessionmaker(Snapshot());
        if maker.Failure? {
          return Failed(maker.error);
        }
        var s := OpenSession(maker.value);
        var token := EnterSession(s);
        Record(Begin(s));
        o := Run(w.body);
        Record(if o.Returned? then Commit(s) else Rollback(s));
        ExitSession(token.value);
        Record(Close(s));
      } else {
        // the guard of `enter_session` refuses the bound session
        var entered := EnterSession(current.value);
        o := Failed(entered.error);
      }
    }

    /** `async with enter_sessionmaker(sm): <body>`. */
    method WithSessionmaker(sm: Sessionmaker, body: Work) returns (o: Outcome)
      modifies this
      ensures (Snapshot(), o) == SessionmakerScope(old(Snapshot()), sm, body, Reenter)
    {
      var token := EnterSessionmaker(sm);
      if token.Failure? {
        return Failed(token.error);
      }
      o := Run(body);
      ExitSessionmaker(token.value);
    }
  }
}
