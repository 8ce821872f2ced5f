/**
 * Opaque session handles and the lifecycle events that both transaction
 * layers (sqlalchemy_transactional/async.py and db/database.py) drive.
 * Sessions and sessionmakers are identities only: the SQL they run is not
 * part of this model.
 */
module Sessions {
  import opened Wrappers

  /** A session factory (an `async_sessionmaker`); only its identity matters. */
  datatype Sessionmaker = Sessionmaker(id: nat)

  /** A session produced by calling `maker`; `serial` tells apart the sessions of one call chain. */
  datatype Session = Session(maker: Sessionmaker, serial: nat)

  /** A `ContextVar` token: the value the variable held before `set`, and the value that `set` stored. */
  datatype Token<T> = Token(previous: Option<T>, bound: T)

  /** What happens to a session, in the order it happens. */
  datatype Event =
    | Open(session: Session)      // the sessionmaker is called and its session scope entered
    | Bind(session: Session)      // the session becomes the current one of the context
    | Begin(session: Session)     // `session.begin()` starts a transaction
    | Commit(session: Session)    // the `begin()` scope exits normally
    | Rollback(session: Session)  // the `begin()` scope exits by an exception
    | Unbind(session: Session)    // the context variable is reset with its token
    | Close(session: Session)     // the session scope exits and closes the session
    | Observe(session: Session)   // the unit of work reads the current session

  /** Every event of `t` is the unit of work reading `s`: no session is opened, begun, bound or closed. */
  predicate OnlyObserves(t: seq<Event>, s: Session)
  {
    forall i :: 0 <= i < |t| ==> t[i] == Observe(s)
  }

  /** The events of one boundary that owns `s`, around the events `inner` of the unit of work. */
  function Lifecycle(s: Session, inner: seq<Event>, committed: bool): seq<Event>
  {
    [Open(s), Bind(s), Begin(s)] + inner + [if committed then Commit(s) else Rollback(s), Unbind(s), Close(s)]
  }

  /** The sessions opened in `t`, in order. */
  function Opens(t: seq<Event>): seq<Session>
  {
    if t == [] then [] else (if t[0].Open? then [t[0].session] else []) + Opens(t[1..])
  }

  /** The sessions closed in `t`, in order. */
  function Closes(t: seq<Event>): seq<Session>
  {
    if t == [] then [] else (if t[0].Close? then [t[0].session] else []) + Closes(t[1..])
  }

  lemma {:induction false} OpensAppend(a: seq<Event>, b: seq<Event>)
    ensures Opens(a + b) == Opens(a) + Opens(b)
  {
    if a == [] {
      assert a + b == b;
    } else {
      assert (a + b)[0] == a[0];
      assert (a + b)[1..] == a[1..] + b;
      OpensAppend(a[1..], b);
    }
  }

  lemma {:induction false} ClosesAppend(a: seq<Event>, b: seq<Event>)
    ensures Closes(a + b) == Closes(a) + Closes(b)
  {
    if a == [] {
      assert a + b == b;
    } else {
      assert (a + b)[0] == a[0];
      assert (a + b)[1..] == a[1..] + b;
      ClosesAppend(a[1..], b);
    }
  }

  lemma OpensClosesAppend(a: seq<Event>, b: seq<Event>)
    ensures Opens(a + b) == Opens(a) + Opens(b)
    ensures Closes(a + b) == Closes(a) + Closes(b)
  {
    OpensAppend(a, b);
    ClosesAppend(a, b);
  }

  lemma {:induction false} ObservationsOpenNothing(t: seq<Event>, s: Session)
    requires OnlyObserves(t, s)
    ensures Opens(t) == [] && Closes(t) == []
  {
    if t != [] {
      ObservationsOpenNothing(t[1..], s);
    }
  }

  /** A boundary that owns `s` and whose work only reads it opens `s` once and closes it once. */
  lemma LifecycleOpensAndClosesOnce(s: Session, inner: seq<Event>, committed: bool)
    requires OnlyObserves(inner, s)
    ensures Opens(Lifecycle(s, inner, committed)) == [s]
    ensures Closes(Lifecycle(s, inner, committed)) == [s]
  {
    var head := [Open(s), Bind(s), Begin(s)];
    var tail := [if committed then Commit(s) else Rollback(s), Unbind(s), Close(s)];
    ObservationsOpenNothing(inner, s);
    OpensClosesAppend(head, inner);
    OpensClosesAppend(head + inner, tail);
    assert Opens(head) == [s] && Closes(head) == [] by {
      assert head[1..] == [Bind(s), Begin(s)] && head[1..][1..] == [Begin(s)] && head[1..][1..][1..] == [];
      assert Opens([Begin(s)]) == [] && Closes([Begin(s)]) == [];
      assert Opens([Bind(s), Begin(s)]) == [] && Closes([Bind(s), Begin(s)]) == [];
    }
    assert Opens(tail) == [] && Closes(tail) == [s] by {
      assert tail[1..] == [Unbind(s), Close(s)] && tail[1..][1..] == [Close(s)] && tail[1..][1..][1..] == [];
      assert Opens([Close(s)]) == [] && Closes([Close(s)]) == [s];
      assert Opens([Unbind(s), Close(s)]) == [] && Closes([Unbind(s), Close(s)]) == [s];
    }
    assert Lifecycle(s, inner, committed) == head + inner + tail;
  }

  /** The events added between two prefixes of a trace are the two stretches added one after the other. */
  lemma ObservesAcross(t0: seq<Event>, t1: seq<Event>, t2: seq<Event>, s: Session)
    requires t0 <= t1 <= t2
    requires OnlyObserves(t1[|t0|..], s) && OnlyObserves(t2[|t1|..], s)
    ensures OnlyObserves(t2[|t0|..], s)
  {
    forall i | 0 <= i < |t2[|t0|..]|
      ensures t2[|t0|..][i] == Observe(s)
    {
      if |t0| + i < |t1| {
        assert t2[|t0|..][i] == t1[|t0|..][i];
      } else {
        assert t2[|t0|..][i] == t2[|t1|..][|t0| + i - |t1|];
      }
    }
  }

  lemma OpensClosesAcross(t0: seq<Event>, t1: seq<Event>, t2: seq<Event>)
    requires t0 <= t1 <= t2
    requires Opens(t1[|t0|..]) == Closes(t1[|t0|..]) && Opens(t2[|t1|..]) == Closes(t2[|t1|..])
    ensures Opens(t2[|t0|..]) == Closes(t2[|t0|..])
  {
    assert t2[|t0|..] == t1[|t0|..] + t2[|t1|..];
    OpensClosesAppend(t1[|t0|..], t2[|t1|..]);
  }

  /** The sessions `ss` were issued in order, with serials in [lo, hi): no session occurs twice. */
  predicate IssuedInOrder(ss: seq<Session>, lo: nat, hi: nat)
  {
    (forall i :: 0 <= i < |ss| ==> lo <= ss[i].serial < hi)
    && (forall i, j :: 0 <= i < j < |ss| ==> ss[i].serial < ss[j].serial)
  }

  lemma IssuedInOrderAppend(a: seq<Session>, b: seq<Session>, lo: nat, mid: nat, hi: nat)
    requires lo <= mid <= hi
    requires IssuedInOrder(a, lo, mid) && IssuedInOrder(b, mid, hi)
    ensures IssuedInOrder(a + b, lo, hi)
  {
    forall i | 0 <= i < |a + b|
      ensures lo <= (a + b)[i].serial < hi
    {
      if i < |a| {
        assert (a + b)[i] == a[i];
      } else {
        assert (a + b)[i] == b[i - |a|];
      }
    }
    forall i, j | 0 <= i < j < |a + b|
      ensures (a + b)[i].serial < (a + b)[j].serial
    {
      if j < |a| {
        assert (a + b)[i] == a[i] && (a + b)[j] == a[j];
      } else if i < |a| {
        assert (a + b)[i] == a[i] && (a + b)[j] == b[j - |a|];
      } else {
        assert (a + b)[i] == b[i - |a|] && (a + b)[j] == b[j - |a|];
      }
    }
  }

  /** Runs that issue in order one after the other issue in order together. */
  lemma IssuedAcross(t0: seq<Event>, t1: seq<Event>, t2: seq<Event>, lo: nat, mid: nat, hi: nat)
    requires t0 <= t1 <= t2 && lo <= mid <= hi
    requires IssuedInOrder(Opens(t1[|t0|..]), lo, mid) && IssuedInOrder(Opens(t2[|t1|..]), mid, hi)
    ensures IssuedInOrder(Opens(t2[|t0|..]), lo, hi)
  {
    assert t2[|t0|..] == t1[|t0|..] + t2[|t1|..];
    OpensAppend(t1[|t0|..], t2[|t1|..]);
    IssuedInOrderAppend(Opens(t1[|t0|..]), Opens(t2[|t1|..]), lo, mid, hi);
  }
}
