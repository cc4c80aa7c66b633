/**
 * The COM lifetime rules the three callback classes share: an intrusive
 * reference count that starts at one, AddRef and Release, deletion when the
 * count reaches zero, and QueryInterface over the two interfaces each
 * callback implements.
 */
module RefCounting {
  import opened Wrappers

  /** Interface ids a caller may ask a callback object for. */
  datatype Iid =
    | IUnknown
    | IMixEffectBlockCallback
    | IInputCallback
    | ISwitcherCallback
    | OtherIid(guid: int)

  /** The HRESULTs the callbacks return. */
  datatype HResult = S_OK | E_POINTER | E_NOINTERFACE

  /**
   * The out-pointer argument of QueryInterface: NullOut when the pointer
   * itself is NULL; otherwise what it points at, None for NULL and Some(i)
   * for the object seen through interface i.
   */
  datatype OutSlot = NullOut | Out(ptr: Option<Iid>)

  /** A callback object's reference count and whether it still exists. */
  datatype RefState = RefState(count: int, alive: bool)

  /** The object exists exactly while it holds references. */
  predicate Consistent(s: RefState) {
    s.count >= 0 && (s.alive <==> s.count > 0)
  }

  /** Every callback object is constructed with one reference. */
  const Created: RefState := RefState(1, true)

  /** AddRef: one more reference. */
  function AddRefStep(s: RefState): RefState {
    RefState(s.count + 1, s.alive)
  }

  /** Release: one reference fewer; the object deletes itself when none is left. */
  function ReleaseStep(s: RefState): RefState {
    RefState(s.count - 1, s.count - 1 != 0)
  }

  /** A callback implements its own callback interface and IUnknown. */
  predicate Implements(own: Iid, iid: Iid) {
    iid == own || iid == IUnknown
  }

  datatype QueryResult = QueryResult(hr: HResult, ppv: OutSlot, state: RefState)

  /** QueryInterface on a callback implementing `own`. */
  function Query(own: Iid, s: RefState, iid: Iid, ppv: OutSlot): (r: QueryResult)
    ensures r.hr == E_POINTER <==> ppv.NullOut?
    ensures r.hr == E_POINTER ==> r.ppv == ppv && r.state == s
    ensures r.hr == S_OK <==> ppv.Out? && Implements(own, iid)
    // a caller gets an interface exactly on success, and it is the one asked for
    ensures r.hr == S_OK <==> r.ppv == Out(Some(iid))
    ensures r.hr == E_NOINTERFACE ==> r.ppv == Out(None)
    // the interface handed out carries a reference of its own
    ensures r.state == if r.hr == S_OK then AddRefStep(s) else s
  {
    if ppv.NullOut? then QueryResult(E_POINTER, ppv, s)
    else if iid == own then QueryResult(S_OK, Out(Some(iid)), AddRefStep(s))
    else if iid == IUnknown then QueryResult(S_OK, Out(Some(iid)), AddRefStep(s))
    else QueryResult(E_NOINTERFACE, Out(None), s)
  }

  /** Asking a live callback for IUnknown through a real out-pointer always succeeds. */
  lemma QueryIUnknownSucceeds(own: Iid, s: RefState, prior: Option<Iid>)
    ensures Query(own, s, IUnknown, Out(prior)).hr == S_OK
  {
  }

  /** One call of AddRef or Release. */
  datatype RefOp = AddRefOp | ReleaseOp

  function Step(s: RefState, op: RefOp): RefState {
    match op
    case AddRefOp => AddRefStep(s)
    case ReleaseOp => ReleaseStep(s)
  }

  function Delta(op: RefOp): int {
    if op == AddRefOp then 1 else -1
  }

  /** AddRefs minus Releases. */
  function Net(ops: seq<RefOp>): int
    decreases |ops|
  {
    if ops == [] then 0 else Delta(ops[0]) + Net(ops[1..])
  }

  /** One more call at the end of a sequence adds its own difference. */
  lemma {:induction false} NetAppend(ops: seq<RefOp>, op: RefOp)
    ensures Net(ops + [op]) == Net(ops) + Delta(op)
    decreases |ops|
  {
    if ops != [] {
      assert (ops + [op])[1..] == ops[1..] + [op];
      NetAppend(ops[1..], op);
    }
  }

  /**
   * The state after a sequence of calls, or None when a call reaches an
   * object that has already deleted itself.
   */
  function Apply(s: RefState, ops: seq<RefOp>): Option<RefState>
    decreases |ops|
  {
    if ops == [] then Some(s)
    else if !s.alive then None
    else Apply(Step(s, ops[0]), ops[1..])
  }

  /**
   * Any sequence of calls on a live object leaves the count at its start
   * plus AddRefs minus Releases, and the object exists exactly while that
   * count is positive.
   */
  lemma {:induction false} ApplyCount(s: RefState, ops: seq<RefOp>)
    requires Consistent(s)
    ensures Apply(s, ops).Some? ==> Apply(s, ops).value.count == s.count + Net(ops)
    ensures Apply(s, ops).Some? ==> Consistent(Apply(s, ops).value)
    decreases |ops|
  {
    if ops != [] && s.alive {
      var t := Step(s, ops[0]);
      assert Consistent(t);
      ApplyCount(t, ops[1..]);
    }
  }

  lemma {:induction false} NetOfPrefix(ops: seq<RefOp>, k: nat)
    requires 1 <= k <= |ops|
    ensures Net(ops[..k]) == Delta(ops[0]) + Net(ops[1..][..k - 1])
  {
    assert ops[..k][0] == ops[0];
    assert ops[..k][1..] == ops[1..][..k - 1];
  }

  /**
   * Deletion happens exactly when the count reaches zero: every call of a
   * sequence reaches a live object if and only if the running count is
   * positive before each call.
   */
  lemma {:induction false} ApplyLiveIff(s: RefState, ops: seq<RefOp>)
    requires Consistent(s)
    ensures Apply(s, ops).Some? <==> forall k :: 0 <= k < |ops| ==> s.count + Net(ops[..k]) > 0
    decreases |ops|
  {
    if ops == [] {
    } else if !s.alive {
      assert ops[..0] == [];
      assert s.count + Net(ops[..0]) == 0;
    } else {
      var t := Step(s, ops[0]);
      assert Consistent(t);
      ApplyLiveIff(t, ops[1..]);
      assert ops[..0] == [];
      forall k | 1 <= k <= |ops|
        ensures s.count + Net(ops[..k]) == t.count + Net(ops[1..][..k - 1])
      {
        NetOfPrefix(ops, k);
      }
      if Apply(s, ops).Some? {
        forall k | 0 <= k < |ops| ensures s.count + Net(ops[..k]) > 0 {
          if k > 0 {
            assert s.count + Net(ops[..k]) == t.count + Net(ops[1..][..k - 1]);
          }
        }
      } else {
        var j :| 0 <= j < |ops[1..]| && t.count + Net(ops[1..][..j]) <= 0;
        assert s.count + Net(ops[..j + 1]) <= 0;
      }
    }
  }

  /**
   * A new object released once more than it is AddRef'd, in any order that
   * never lets the count reach zero early, ends deleted.
   */
  lemma NewObjectLifetime(ops: seq<RefOp>)
    requires forall k :: 0 <= k < |ops| ==> 1 + Net(ops[..k]) > 0
    requires Net(ops) == -1
    ensures Apply(Created, ops).Some? && !Apply(Created, ops).value.alive
  {
    ApplyLiveIff(Created, ops);
    ApplyCount(Created, ops);
  }
}
