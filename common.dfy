/**
 * The propagation modes of sqlalchemy_transactional/common.py: a `str`
 * enumeration of four members, each with a lower-case string value, and
 * the rule that the comments above the members state for each of them.
 */
module Common {
  import opened Wrappers

  /** The members of `Propagation`, in declaration order. */
  datatype Propagation = Required | Mandatory | RequiresNew | Nested

  /** All members of the enumeration, in declaration order. */
  const Modes: seq<Propagation> := [Required, Mandatory, RequiresNew, Nested]

  /** The string value of a member; as a `str` enumeration a member compares equal to this string. */
  function Value(p: Propagation): (r: string)
    ensures |r| > 0 && forall i :: 0 <= i < |r| ==> r[i] == '_' || 'a' <= r[i] <= 'z'
  {
    match p
    case Required => "required"
    case Mandatory => "mandatory"
    case RequiresNew => "requires_new"
    case Nested => "nested"
  }

  /** Lookup by value, `Propagation(s)`: the member whose value is `s`, if any. */
  function FromValue(s: string): (r: Option<Propagation>)
    ensures r.Some? ==> Value(r.value) == s
  {
    if s == "required" then Some(Required)
    else if s == "mandatory" then Some(Mandatory)
    else if s == "requires_new" then Some(RequiresNew)
    else if s == "nested" then Some(Nested)
    else None
  }

  /** There are exactly four members, each listed once. */
  lemma ExactlyFourModes(p: Propagation)
    ensures p in Modes
    ensures |Modes| == 4
    ensures forall i, j :: 0 <= i < j < |Modes| ==> Modes[i] != Modes[j]
  {
  }

  /** The values are pairwise distinct, so lookup by value inverts `Value`, in both directions. */
  lemma ValueLookupInverts(p: Propagation, s: string)
    ensures FromValue(s) == Some(p) <==> Value(p) == s
    ensures FromValue(Value(p)) == Some(p)
  {
  }

  /** The strategies the member comments name. */
  datatype Strategy =
    | JoinCurrent        // support (join) the current transaction
    | CreateNew          // create a new transaction
    | SuspendAndCreate   // suspend the current transaction and create a new one
    | Savepoint          // execute within a nested transaction of the current one
    | FailNoTransaction  // throw an exception: there is no current transaction

  /**
   * The rule the comments of common.py state, for a call made while a
   * transaction is (`hasCurrent`) or is not current. This is the documented
   * intent only; async.py implements REQUIRED alone (see AsyncTransactional).
   */
  function IntendedStrategy(p: Propagation, hasCurrent: bool): (s: Strategy)
    ensures s == JoinCurrent <==> hasCurrent && (p == Required || p == Mandatory)
    ensures s == CreateNew <==> !hasCurrent && p != Mandatory
    ensures s == SuspendAndCreate <==> hasCurrent && p == RequiresNew
    ensures s == Savepoint <==> hasCurrent && p == Nested
    ensures s == FailNoTransaction <==> !hasCurrent && p == Mandatory
  {
    match p
    case Required => if hasCurrent then JoinCurrent else CreateNew
    case Mandatory => if hasCurrent then JoinCurrent else FailNoTransaction
    case RequiresNew => if hasCurrent then SuspendAndCreate else CreateNew
    case Nested => if hasCurrent then Savepoint else CreateNew
  }
}
