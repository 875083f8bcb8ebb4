/** The operations a session remembers: created in order, finished in any order, and the
    oldest finished ones forgotten. */
module Operations {

  datatype Operation = Operation(id: nat, pending: bool)

  function FinishedCount(ops: seq<Operation>): (n: nat)
    ensures n > 0 ==> ops != []
  {
    if ops == [] then 0 else (if ops[0].pending then 0 else 1) + FinishedCount(ops[1..])
  }

  /** Without its oldest finished operation. */
  function DropOldest(ops: seq<Operation>): (r: seq<Operation>)
    requires FinishedCount(ops) > 0
    ensures |r| == |ops| - 1
  {
    if !ops[0].pending then ops[1..] else [ops[0]] + DropOldest(ops[1..])
  }

  ghost predicate InOrder(ops: seq<Operation>) {
    forall i, j :: 0 <= i < j < |ops| ==> ops[i].id < ops[j].id
  }

  /** Nothing is made up, every pending operation is kept, and order is kept. */
  ghost predicate Thinned(ops: seq<Operation>, r: seq<Operation>) {
    && (forall op :: op in r ==> op in ops)
    && (forall op :: op in ops && op.pending ==> op in r)
    && (InOrder(ops) ==> InOrder(r))
  }

  lemma {:induction false} DropMembers(ops: seq<Operation>)
    requires FinishedCount(ops) > 0
    ensures forall op :: op in DropOldest(ops) ==> op in ops
    ensures forall op :: op in ops && op.pending ==> op in DropOldest(ops)
  {
    var rest := ops[1..];
    assert ops == [ops[0]] + rest;
    if ops[0].pending { DropMembers(rest); }
  }

  lemma {:induction false} DropCounts(ops: seq<Operation>)
    requires FinishedCount(ops) > 0
    ensures FinishedCount(DropOldest(ops)) == FinishedCount(ops) - 1
  {
    if ops[0].pending {
      DropCounts(ops[1..]);
      assert DropOldest(ops)[1..] == DropOldest(ops[1..]);
    }
  }

  lemma OrderTail(ops: seq<Operation>)
    requires InOrder(ops) && ops != []
    ensures InOrder(ops[1..]) && forall op :: op in ops[1..] ==> ops[0].id < op.id
  {
    var rest := ops[1..];
    forall op | op in rest ensures ops[0].id < op.id {
      var i :| 0 <= i < |rest| && rest[i] == op;
      assert ops[i + 1] == op;
    }
  }

  lemma OrderCons(op: Operation, rest: seq<Operation>)
    requires InOrder(rest) && forall x :: x in rest ==> op.id < x.id
    ensures InOrder([op] + rest)
  {}

  lemma DropStep(ops: seq<Operation>)
    requires FinishedCount(ops) > 0
    ensures ops[0].pending ==> FinishedCount(ops[1..]) > 0 && DropOldest(ops) == [ops[0]] + DropOldest(ops[1..])
    ensures !ops[0].pending ==> DropOldest(ops) == ops[1..]
  {}

  lemma {:induction false} DropOrder(ops: seq<Operation>)
    requires FinishedCount(ops) > 0 && InOrder(ops)
    ensures InOrder(DropOldest(ops))
  {
    hide FinishedCount, DropOldest, InOrder;
    DropStep(ops);
    OrderTail(ops);
    if ops[0].pending {
      DropOrder(ops[1..]);
      DropMembers(ops[1..]);
      OrderCons(ops[0], DropOldest(ops[1..]));
    }
  }

  lemma DropThins(ops: seq<Operation>)
    requires FinishedCount(ops) > 0
    ensures Thinned(ops, DropOldest(ops)) && FinishedCount(DropOldest(ops)) == FinishedCount(ops) - 1
  {
    hide FinishedCount, DropOldest, InOrder;
    DropMembers(ops);
    DropCounts(ops);
    if InOrder(ops) { DropOrder(ops); }
  }

  /** The newest operation goes only when it is the only finished one. */
  lemma {:induction false} DropKeepsNewest(ops: seq<Operation>)
    requires FinishedCount(ops) > 1
    ensures DropOldest(ops) != [] && DropOldest(ops)[|ops| - 2] == ops[|ops| - 1]
  {
    if ops[0].pending {
      DropKeepsNewest(ops[1..]);
    } else {
      assert ops[1..] != [];
    }
  }

  /** `_evict`: forget the oldest finished operations beyond the retention bound. */
  method Evict(ops: seq<Operation>, retention: nat) returns (r: seq<Operation>)
    ensures Thinned(ops, r) && FinishedCount(r) <= retention
    ensures retention >= 1 && ops != [] ==> r != [] && r[|r| - 1] == ops[|ops| - 1]
    ensures FinishedCount(ops) <= retention ==> r == ops
  {
    r := ops;
    while FinishedCount(r) > retention
      invariant Thinned(ops, r)
      invariant retention >= 1 && ops != [] ==> r != [] && r[|r| - 1] == ops[|ops| - 1]
      invariant FinishedCount(ops) <= retention ==> r == ops
      decreases |r|
    {
      DropThins(r);
      if retention >= 1 { DropKeepsNewest(r); }
      r := DropOldest(r);
    }
  }

  /** With nothing retained no finished operation survives, a finished cleanup included. */
  lemma {:induction false} NothingRetained(ops: seq<Operation>)
    requires FinishedCount(ops) == 0
    ensures forall op :: op in ops ==> op.pending
  {
    if ops != [] {
      NothingRetained(ops[1..]);
      assert ops == [ops[0]] + ops[1..];
    }
  }
}
