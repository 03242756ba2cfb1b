/** Failure classification: internal/execution/failure.go. */
module Failure {
  import opened Prelude

  /** The gRPC status codes. */
  datatype Code =
    | OK | Canceled | Unknown | InvalidArgument | DeadlineExceeded | NotFound | AlreadyExists
    | PermissionDenied | ResourceExhausted | FailedPrecondition | Aborted | OutOfRange
    | Unimplemented | Internal | Unavailable | DataLoss | Unauthenticated

  /** A Go error as the tree that errors.Is and errors.As walk. */
  datatype Error =
    | InvalidEvent                   // the errInvalidEvent sentinel
    | OrderNotFound                  // the order.ErrOrderNotFound sentinel
    | Status(code: Code)             // an error that carries a gRPC status
    | Plain                          // any other error that wraps nothing
    | Wrap(inner: Error)             // fmt.Errorf with one %w
    | Join(causes: seq<Error>)       // fmt.Errorf with several %w

  datatype Kind = Permanent | Transient

  /** errors.Is for a sentinel, which is compared by identity. */
  predicate Is(e: Error, target: Error)
    decreases e, 0
  {
    e == target ||
    match e
    case Wrap(inner) => Is(inner, target)
    case Join(causes) => AnyIs(causes, target)
    case _ => false
  }

  predicate AnyIs(es: seq<Error>, target: Error)
    decreases es
  {
    es != [] && (Is(es[0], target) || AnyIs(es[1..], target))
  }

  /** errors.As for "carries a gRPC status": the first match, depth first. */
  function FirstStatus(e: Error): Option<Code>
    decreases e, 0
  {
    match e
    case Status(code) => Some(code)
    case Wrap(inner) => FirstStatus(inner)
    case Join(causes) => FirstStatusOf(causes)
    case _ => None
  }

  function FirstStatusOf(es: seq<Error>): Option<Code>
    decreases es
  {
    if es == [] then None
    else if FirstStatus(es[0]).Some? then FirstStatus(es[0])
    else FirstStatusOf(es[1..])
  }

  /** status.Code for an error that is not nil. */
  function StatusCode(e: Error): Code {
    match FirstStatus(e)
    case Some(code) => code
    case None => Unknown
  }

  function Classify(e: Error): Kind {
    if Is(e, InvalidEvent) || Is(e, OrderNotFound) then Permanent
    else match StatusCode(e)
      case NotFound => Permanent
      case InvalidArgument => Permanent
      case _ => Transient
  }

  // ---------------------------------------------------------------------
  // Reference definition: an error is only the sequence of its leaves.

  function Leaves(e: Error): seq<Error>
    decreases e, 0
  {
    match e
    case Wrap(inner) => Leaves(inner)
    case Join(causes) => LeavesOf(causes)
    case _ => [e]
  }

  function LeavesOf(es: seq<Error>): seq<Error>
    decreases es
  {
    if es == [] then [] else Leaves(es[0]) + LeavesOf(es[1..])
  }

  predicate PermanentCode(leaf: Error) {
    leaf == Status(NotFound) || leaf == Status(InvalidArgument)
  }

  /** The leaf at position i is the first one that carries a gRPC status. */
  predicate FirstStatusAt(leaves: seq<Error>, i: int) {
    0 <= i < |leaves| && leaves[i].Status? && forall j :: 0 <= j < i ==> !leaves[j].Status?
  }

  ghost predicate IsLeaf(e: Error) { !e.Wrap? && !e.Join? }

  lemma {:induction false} IsMeansLeaf(e: Error, target: Error)
    requires IsLeaf(target)
    ensures Is(e, target) <==> target in Leaves(e)
    decreases e, 0
  {
    match e
    case Wrap(inner) => IsMeansLeaf(inner, target);
    case Join(causes) => AnyIsMeansLeaf(causes, target);
    case _ =>
  }

  lemma {:induction false} AnyIsMeansLeaf(es: seq<Error>, target: Error)
    requires IsLeaf(target)
    ensures AnyIs(es, target) <==> target in LeavesOf(es)
    decreases es
  {
    if es != [] {
      IsMeansLeaf(es[0], target);
      AnyIsMeansLeaf(es[1..], target);
    }
  }

  /** What FirstStatus must be for a sequence of leaves. */
  ghost predicate IsFirstStatus(found: Option<Code>, leaves: seq<Error>) {
    match found
    case Some(code) => exists i :: FirstStatusAt(leaves, i) && leaves[i].code == code
    case None => forall i :: 0 <= i < |leaves| ==> !leaves[i].Status?
  }

  lemma IsFirstStatusConcat(x: Option<Code>, a: seq<Error>, y: Option<Code>, b: seq<Error>)
    requires IsFirstStatus(x, a) && IsFirstStatus(y, b)
    ensures IsFirstStatus(if x.Some? then x else y, a + b)
  {
    if x.Some? {
      var i :| FirstStatusAt(a, i) && a[i].code == x.value;
      assert FirstStatusAt(a + b, i);
    } else if y.Some? {
      var i :| FirstStatusAt(b, i) && b[i].code == y.value;
      assert FirstStatusAt(a + b, |a| + i);
    }
  }

  lemma {:induction false} FirstStatusIsFirstLeaf(e: Error)
    ensures IsFirstStatus(FirstStatus(e), Leaves(e))
    decreases e, 0
  {
    match e
    case Wrap(inner) => FirstStatusIsFirstLeaf(inner);
    case Join(causes) => FirstStatusOfIsFirstLeaf(causes);
    case Status(code) => assert FirstStatusAt(Leaves(e), 0);
    case _ =>
  }

  lemma {:induction false} FirstStatusOfIsFirstLeaf(es: seq<Error>)
    ensures IsFirstStatus(FirstStatusOf(es), LeavesOf(es))
    decreases es
  {
    if es != [] {
      FirstStatusIsFirstLeaf(es[0]);
      FirstStatusOfIsFirstLeaf(es[1..]);
      IsFirstStatusConcat(FirstStatus(es[0]), Leaves(es[0]), FirstStatusOf(es[1..]), LeavesOf(es[1..]));
    }
  }

  // ---------------------------------------------------------------------
  // Main results

  /** An error is permanent exactly when one of its leaves is a sentinel, or
      the first leaf with a gRPC status says NotFound or InvalidArgument. */
  lemma PermanentIff(e: Error)
    ensures Classify(e) == Permanent <==>
      (InvalidEvent in Leaves(e) || OrderNotFound in Leaves(e) ||
       exists i :: FirstStatusAt(Leaves(e), i) && Leaves(e)[i].code in {NotFound, InvalidArgument})
  {
    IsMeansLeaf(e, InvalidEvent);
    IsMeansLeaf(e, OrderNotFound);
    FirstStatusIsFirstLeaf(e);
    var leaves := Leaves(e);
    match FirstStatus(e)
    case None =>
    case Some(code) =>
      var i :| FirstStatusAt(leaves, i) && leaves[i].code == code;
      assert forall j :: FirstStatusAt(leaves, j) ==> j == i;
  }

  function WrapTimes(e: Error, n: nat): Error {
    if n == 0 then e else Wrap(WrapTimes(e, n - 1))
  }

  /** No number of %w wrappers hides or changes a failure, at any place in the
      tree: two trees with the same leaves belong to the same class. */
  lemma {:induction false} WrappingKeepsClass(e: Error, n: nat)
    ensures Classify(WrapTimes(e, n)) == Classify(e)
    ensures Leaves(WrapTimes(e, n)) == Leaves(e)
  {
    if n > 0 { WrappingKeepsClass(e, n - 1); }
  }

  lemma SameLeavesSameClass(a: Error, b: Error)
    requires Leaves(a) == Leaves(b)
    ensures Classify(a) == Classify(b)
  {
    PermanentIff(a);
    PermanentIff(b);
  }

  /** A sentinel makes the whole error permanent, wherever it hangs and
      whatever the gRPC statuses beside it say. */
  lemma SentinelWins(causes: seq<Error>, i: nat)
    requires i < |causes|
    requires Is(causes[i], InvalidEvent) || Is(causes[i], OrderNotFound)
    ensures Classify(Join(causes)) == Permanent
  {
    AnyIsAt(causes, i, if Is(causes[i], InvalidEvent) then InvalidEvent else OrderNotFound);
  }

  lemma {:induction false} AnyIsAt(es: seq<Error>, i: nat, target: Error)
    requires i < |es| && Is(es[i], target)
    ensures AnyIs(es, target)
  {
    if i > 0 { AnyIsAt(es[1..], i - 1, target); }
  }

  /** Order matters between two statuses: the first one decides. */
  lemma FirstOfTwoStatusesDecides(a: Code, b: Code)
    ensures Classify(Join([Status(a), Status(b)])) == Classify(Status(a))
  {
    var causes := [Status(a), Status(b)];
    assert causes[1..] == [Status(b)];
    assert LeavesOf([Status(b)]) == Leaves(Status(b)) + LeavesOf([]);
    assert LeavesOf(causes) == [Status(a), Status(b)];
    PermanentIff(Join(causes));
    PermanentIff(Status(a));
    assert FirstStatusAt(Leaves(Join(causes)), 0);
    assert FirstStatusAt(Leaves(Status(a)), 0);
  }
}
