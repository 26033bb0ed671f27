/**
 * Sequences of manager calls on one table, and what holds after any such sequence: records are
 * never dropped, a call for one id never disturbs another id's record, a cached handle survives
 * every field setter, a handle is built at most once, and a field keeps the last value written.
 */
module ResourceTrace {
  import opened Results
  import opened ResourceTable

  /** A state-changing call on the manager. The getters and hasResource change nothing. */
  datatype Op =
    | SetResource(id: string, input: Value)
    | SetField(id: string, field: Field)
    | GetResource(id: string, driver: Driver)

  /**
   * The table after one call; a refused setResource leaves it unchanged. Each getResource
   * carries the driver it is answered by, so the network may behave differently from call to call.
   */
  function Step(t: Table, op: Op): Table {
    match op
    case SetResource(id, v) =>
      (match Decode(v)
       case Success(s) => Install(t, id, s)
       case Failure(_) => t)
    case SetField(id, f) => PutField(t, id, f)
    case GetResource(id, d) => Fetch(t, id, d).table
  }

  /** The table after the calls `ops`, in order. */
  function Run(t: Table, ops: seq<Op>): Table
    decreases |ops|
  {
    if ops == [] then t else Run(Step(t, ops[0]), ops[1..])
  }

  /** A setResource on `id` that is accepted, and so replaces or drops the cached handle. */
  predicate Resets(op: Op, id: string) {
    op.SetResource? && op.id == id && !op.input.Other?
  }

  /** A call that registers `id`: every field setter, and every accepted setResource. */
  predicate Registers(op: Op, id: string) {
    op.id == id && (op.SetField? || Resets(op, id))
  }

  /** A call that writes the field of kind `k` of `id`. */
  predicate Overwrites(op: Op, id: string, k: FieldKind) {
    && op.id == id
    && ((op.SetField? && Kind(op.field) == k)
        || (op.SetResource? && op.input.Array? && Touches(ConfigOf(op.input.entries), k)))
  }

  lemma SameConfigHolds(r: Record, r': Record, f: Field)
    requires SameConfig(r, r')
    ensures Holds(r, f) <==> Holds(r', f)
  {
  }

  /** There is no removal: once registered, an id stays registered whatever is called. */
  lemma {:induction false} RecordsPersist(t: Table, ops: seq<Op>, id: string)
    requires id in t
    ensures id in Run(t, ops)
    decreases |ops|
  {
    if ops != [] {
      RecordsPersist(Step(t, ops[0]), ops[1..], id);
    }
  }

  /** After any sequence containing a setter for `id`, hasResource(id) holds. */
  lemma {:induction false} SetterRegisters(t: Table, ops: seq<Op>, id: string, i: nat)
    requires i < |ops| && Registers(ops[i], id)
    ensures id in Run(t, ops)
    decreases |ops|
  {
    if i == 0 {
      RecordsPersist(Step(t, ops[0]), ops[1..], id);
    } else {
      SetterRegisters(Step(t, ops[0]), ops[1..], id, i - 1);
    }
  }

  /** Calls for other ids neither create, change nor remove the record of `id`. */
  lemma {:induction false} OthersUntouched(t: Table, ops: seq<Op>, id: string)
    requires forall i :: 0 <= i < |ops| ==> ops[i].id != id
    ensures id in Run(t, ops) <==> id in t
    ensures id in t ==> Run(t, ops)[id] == t[id]
    decreases |ops|
  {
    if ops != [] {
      OthersUntouched(Step(t, ops[0]), ops[1..], id);
    }
  }

  /** Without a call that registers `id`, an id without a record stays without one. */
  lemma {:induction false} NeverRegistered(t: Table, ops: seq<Op>, id: string)
    requires id !in t
    requires forall i :: 0 <= i < |ops| ==> !Registers(ops[i], id)
    ensures id !in Run(t, ops)
    decreases |ops|
  {
    if ops != [] {
      assert !Registers(ops[0], id);
      NeverRegistered(Step(t, ops[0]), ops[1..], id);
    }
  }

  /**
   * hasResource after any sequence of calls: the id has a record exactly when it had one at the
   * start or some call of the sequence registered it.
   */
  lemma RegisteredExactly(t: Table, ops: seq<Op>, id: string)
    ensures id in Run(t, ops) <==> id in t || exists i :: 0 <= i < |ops| && Registers(ops[i], id)
  {
    if i :| 0 <= i < |ops| && Registers(ops[i], id) {
      SetterRegisters(t, ops, id, i);
    } else if id in t {
      RecordsPersist(t, ops, id);
    } else {
      NeverRegistered(t, ops, id);
    }
  }

  /**
   * On a new manager, every getter and getResource for an id that no call has registered fails
   * with RuntimeException, because the id has no record. Refused setResource calls and failed
   * getResource calls on the id do not register it.
   */
  lemma UnregisteredIdUnknown(ops: seq<Op>, d: Driver, id: string)
    requires forall i :: 0 <= i < |ops| ==> !Registers(ops[i], id)
    ensures id !in Run(map[], ops)
    ensures Fetch(Run(map[], ops), id, d).result == Failure(UnknownResource(id))
  {
    NeverRegistered(map[], ops, id);
  }

  /** `setResource("foo", new stdClass())` and then `getResource("foo")` leave "foo" unknown. */
  lemma RefusedThenFetchedStaysUnknown(d: Driver, d': Driver)
    ensures "foo" !in Run(map[], [SetResource("foo", Other("stdClass")), GetResource("foo", d)])
    ensures Fetch(Run(map[], [SetResource("foo", Other("stdClass")), GetResource("foo", d)]), "foo", d').result
         == Failure(UnknownResource("foo"))
  {
    UnregisteredIdUnknown([SetResource("foo", Other("stdClass")), GetResource("foo", d)], d', "foo");
  }

  /**
   * A cached handle is sticky: field setters, getResource and calls for other ids keep it;
   * only an accepted setResource on the same id replaces or drops it.
   */
  lemma {:induction false} HandleSticky(t: Table, ops: seq<Op>, id: string, h: Collection)
    requires id in t && t[id].handle == Some(h)
    requires forall i :: 0 <= i < |ops| ==> !Resets(ops[i], id)
    ensures id in Run(t, ops) && Run(t, ops)[id].handle == Some(h)
    decreases |ops|
  {
    if ops != [] {
      assert !Resets(ops[0], id);
      HandleSticky(Step(t, ops[0]), ops[1..], id, h);
    }
  }

  /**
   * A handle is built at most once: after getResource succeeded, every later getResource for
   * the id returns that same object, whatever drivers the calls in between and the later call
   * are given and whatever fields are set in between, until an accepted setResource on the id.
   */
  lemma BuiltAtMostOnce(t: Table, id: string, d: Driver, ops: seq<Op>, d': Driver)
    requires Fetch(t, id, d).result.Success?
    requires forall i :: 0 <= i < |ops| ==> !Resets(ops[i], id)
    ensures Fetch(Run(Fetch(t, id, d).table, ops), id, d').result == Fetch(t, id, d).result
  {
    HandleSticky(Fetch(t, id, d).table, ops, id, Fetch(t, id, d).result.value);
  }

  /** A field holds its value through every call that does not write that field of that id. */
  lemma {:induction false} FieldKept(t: Table, ops: seq<Op>, id: string, f: Field)
    requires id in t && Holds(t[id], f)
    requires forall i :: 0 <= i < |ops| ==> !Overwrites(ops[i], id, Kind(f))
    ensures id in Run(t, ops) && Holds(Run(t, ops)[id], f)
    decreases |ops|
  {
    if ops != [] {
      var t' := Step(t, ops[0]);
      assert !Overwrites(ops[0], id, Kind(f));
      match ops[0] {
        case SetResource(j, v) =>
          if j == id && v.CollectionObject? {
            SameConfigHolds(t'[id], t[id], f);
          }
        case SetField(j, g) =>
        case GetResource(j, d) =>
          if j == id && Fetch(t, id, d).result.Success? {
            SameConfigHolds(t'[id], t[id], f);
          }
      }
      assert id in t' && Holds(t'[id], f);
      FieldKept(t', ops[1..], id, f);
    }
  }

  /** The last write wins: `setX(id, v)` and then any calls that do not write X of `id`; getX(id) gives `v`. */
  lemma LastWriteWins(t: Table, id: string, f: Field, ops: seq<Op>)
    requires forall i :: 0 <= i < |ops| ==> !Overwrites(ops[i], id, Kind(f))
    ensures id in Run(t, [SetField(id, f)] + ops)
    ensures Holds(Run(t, [SetField(id, f)] + ops)[id], f)
  {
    assert ([SetField(id, f)] + ops)[1..] == ops;
    FieldKept(PutField(t, id, f), ops, id, f);
  }
}
