/** JSON values and the two worklist checks that bound them. */
module Json {
  import Decimals
  import opened Ordered

  /** `Fraction` stands for any number that is not a 64-bit integer. */
  datatype Json =
    | Null
    | Bool(flag: bool)
    | Int(number: int)
    | Fraction
    | Str(text: string)
    | Arr(items: seq<Json>)
    | Obj(fields: map<string, Json>)

  const MAX_DEPTH := 96
  const MAX_NODES := 8_192

  /** Members in ascending key order. */
  function Members(fields: map<string, Json>): (vs: seq<Json>)
    ensures |vs| == |fields|
    ensures forall v :: v in vs ==> exists k :: k in fields && fields[k] == v
  {
    var names := Ascending(fields.Keys);
    assert forall i :: 0 <= i < |names| ==> names[i] in fields;
    seq(|names|, i requires 0 <= i < |names| => fields[names[i]])
  }

  function Children(v: Json): (vs: seq<Json>)
    ensures forall c :: c in vs ==> c < v
  {
    match v
    case Arr(items) => items
    case Obj(fields) => Members(fields)
    case _ => []
  }

  /** Scalars and containers each count as one node; object keys do not. */
  function Nodes(v: Json): (n: nat)
    ensures n >= 1
    decreases v, |Children(v)| + 1
  {
    1 + NodesBelow(v, Children(v))
  }

  function NodesBelow(parent: Json, vs: seq<Json>): (n: nat)
    requires forall c :: c in vs ==> c < parent
    decreases parent, |vs|
  {
    if vs == [] then 0
    else
      assert vs[0] in vs && forall c :: c in vs[1..] ==> c in vs;
      Nodes(vs[0]) + NodesBelow(parent, vs[1..])
  }

  /** Every number is a safe integer and no value lies deeper than `room`. */
  predicate Fits(v: Json, room: int)
    decreases v
  {
    && room >= 0
    && !v.Fraction?
    && (v.Int? ==> Decimals.Safe(v.number))
    && forall c :: c in Children(v) ==> Fits(c, room - 1)
  }

  predicate WithinBounds(v: Json) {
    Fits(v, MAX_DEPTH) && Nodes(v) <= MAX_NODES
  }

  // ---- the worklist ----

  datatype Task = Task(value: Json, depth: nat)

  function Pending(stack: seq<Task>): (n: nat)
    ensures n >= |stack|
  {
    if stack == [] then 0 else Nodes(stack[|stack| - 1].value) + Pending(stack[..|stack| - 1])
  }

  predicate AllFit(stack: seq<Task>) {
    forall t :: t in stack ==> Fits(t.value, MAX_DEPTH - t.depth)
  }

  function Tasks(vs: seq<Json>, depth: nat): (ts: seq<Task>)
    ensures |ts| == |vs| && forall i :: 0 <= i < |vs| ==> ts[i] == Task(vs[i], depth)
  {
    seq(|vs|, i requires 0 <= i < |vs| => Task(vs[i], depth))
  }

  lemma {:induction false} PendingAppend(a: seq<Task>, b: seq<Task>)
    ensures Pending(a + b) == Pending(a) + Pending(b)
  {
    if b == [] {
      assert a + b == a;
    } else {
      PendingAppend(a, b[..|b| - 1]);
      assert (a + b)[..|a + b| - 1] == a + b[..|b| - 1];
    }
  }

  lemma {:induction false} PendingTasks(parent: Json, vs: seq<Json>, depth: nat)
    requires forall c :: c in vs ==> c < parent
    ensures Pending(Tasks(vs, depth)) == NodesBelow(parent, vs)
  {
    if vs != [] {
      assert forall c :: c in vs[1..] ==> c in vs;
      PendingTasks(parent, vs[1..], depth);
      assert Tasks(vs, depth) == [Task(vs[0], depth)] + Tasks(vs[1..], depth);
      PendingAppend([Task(vs[0], depth)], Tasks(vs[1..], depth));
      assert Pending([Task(vs[0], depth)]) == Nodes(vs[0]) by {
        assert [Task(vs[0], depth)][..0] == [];
      }
    }
  }

  lemma AllFitAppend(a: seq<Task>, b: seq<Task>)
    ensures AllFit(a + b) <==> AllFit(a) && AllFit(b)
  {
    assert forall t :: t in a + b <==> t in a || t in b;
  }

  lemma AllFitTasks(vs: seq<Json>, depth: nat)
    ensures AllFit(Tasks(vs, depth)) <==> forall c :: c in vs ==> Fits(c, MAX_DEPTH - depth)
  {
    hide Fits;
    var ts := Tasks(vs, depth);
    assert forall i :: 0 <= i < |vs| ==> ts[i] in ts && ts[i].value == vs[i];
    assert forall t :: t in ts ==> t.depth == depth && t.value in vs;
  }

  predicate LocallyFits(v: Json, depth: nat) {
    depth <= MAX_DEPTH && !v.Fraction? && (v.Int? ==> Decimals.Safe(v.number))
  }

  lemma UnfoldPending(rest: seq<Task>, v: Json, depth: nat)
    ensures Pending(rest + [Task(v, depth)]) == 1 + Pending(rest + Tasks(Children(v), depth + 1))
  {
    hide Children, Tasks;
    PendingTasks(v, Children(v), depth + 1);
    PendingAppend(rest, Tasks(Children(v), depth + 1));
    assert (rest + [Task(v, depth)])[..|rest|] == rest;
  }

  lemma UnfoldFits(rest: seq<Task>, v: Json, depth: nat)
    ensures AllFit(rest + [Task(v, depth)]) <==> AllFit(rest + Tasks(Children(v), depth + 1)) && LocallyFits(v, depth)
  {
    hide Children, Tasks, AllFit;
    AllFitAppend(rest, [Task(v, depth)]);
    AllFitAppend(rest, Tasks(Children(v), depth + 1));
    AllFitTasks(Children(v), depth + 1);
    AllFitOne(v, depth);
  }

  lemma AllFitOne(v: Json, depth: nat)
    ensures AllFit([Task(v, depth)]) <==> Fits(v, MAX_DEPTH - depth)
  {
    hide Fits;
    assert Task(v, depth) in [Task(v, depth)];
  }

  /** The stack once its top value is replaced by its children. */
  function Opened(stack: seq<Task>): seq<Task>
    requires stack != []
  {
    var task := stack[|stack| - 1];
    stack[..|stack| - 1] + Tasks(Children(task.value), task.depth + 1)
  }

  /** Replacing a value by its children spends exactly one node. */
  lemma OpenSpends(stack: seq<Task>)
    requires stack != []
    ensures Pending(stack) == 1 + Pending(Opened(stack))
  {
    hide Children, Tasks, Pending;
    var rest, task := stack[..|stack| - 1], stack[|stack| - 1];
    UnfoldPending(rest, task.value, task.depth);
    assert stack == rest + [task];
    assert task == Task(task.value, task.depth);
  }

  /** It also keeps the verdict. */
  lemma OpenKeeps(stack: seq<Task>)
    requires stack != []
    ensures AllFit(stack) <==> AllFit(Opened(stack)) && LocallyFits(stack[|stack| - 1].value, stack[|stack| - 1].depth)
  {
    hide Children, Tasks, AllFit, LocallyFits;
    var rest, task := stack[..|stack| - 1], stack[|stack| - 1];
    UnfoldFits(rest, task.value, task.depth);
    assert stack == rest + [task];
    assert task == Task(task.value, task.depth);
  }

  lemma Start(value: Json)
    ensures Pending([Task(value, 0)]) == Nodes(value)
    ensures AllFit([Task(value, 0)]) <==> Fits(value, MAX_DEPTH)
    ensures Pending([]) == 0 && AllFit([])
  {
    assert [Task(value, 0)][..0] == [];
    AllFitOne(value, 0);
  }

  /** What the Rust worklist tests of one value before queueing its children. */
  method CheckOne(v: Json, depth: nat, nodes: nat, queued: nat) returns (ok: bool)
    ensures ok <==> LocallyFits(v, depth) && nodes <= MAX_NODES &&
                    (Children(v) != [] || v.Arr? || v.Obj? ==> |Children(v)| + queued + nodes <= MAX_NODES)
  {
    if depth > MAX_DEPTH || nodes > MAX_NODES {
      return false;
    }
    match v {
      case Arr(items) => ok := |items| + queued + nodes <= MAX_NODES;
      case Obj(fields) => ok := |fields| + queued + nodes <= MAX_NODES;
      case Int(n) => ok := Decimals.Safe(n);
      case Fraction => ok := false;
      case _ => ok := true;
    }
  }

  /** The Rust worklist: it also refuses as soon as the work queued must exceed the budget. */
  method CheckBounds(value: Json) returns (ok: bool)
    ensures ok <==> WithinBounds(value)
  {
    hide Fits, Nodes, AllFit, Pending, Children, LocallyFits;
    var stack, nodes := [Task(value, 0)], 0;
    Start(value);
    while stack != []
      invariant nodes + Pending(stack) == Nodes(value) && nodes <= MAX_NODES
      invariant AllFit(stack) <==> Fits(value, MAX_DEPTH)
      decreases Pending(stack)
    {
      var task := stack[|stack| - 1];
      OpenSpends(stack);
      OpenKeeps(stack);
      stack := stack[..|stack| - 1];
      nodes := nodes + 1;
      var fine := CheckOne(task.value, task.depth, nodes, |stack|);
      stack := stack + Tasks(Children(task.value), task.depth + 1);
      if !fine {
        return false;
      }
    }
    ok := true;
  }

  method CheckPopped(v: Json, depth: nat, count: nat) returns (ok: bool)
    ensures ok <==> LocallyFits(v, depth) && count <= MAX_NODES
  {
    if depth > MAX_DEPTH || count > MAX_NODES {
      return false;
    }
    match v {
      case Int(n) => ok := Decimals.Safe(n);
      case Fraction => ok := false;
      case _ => ok := true;
    }
  }

  /** The Python worklist, which only counts what it pops. */
  method JsonBounds(value: Json) returns (ok: bool)
    ensures ok <==> WithinBounds(value)
  {
    hide Fits, Nodes, AllFit, Pending, Children, LocallyFits;
    var stack, count := [Task(value, 0)], 0;
    Start(value);
    while stack != []
      invariant count + Pending(stack) == Nodes(value) && count <= MAX_NODES
      invariant AllFit(stack) <==> Fits(value, MAX_DEPTH)
      decreases Pending(stack)
    {
      var task := stack[|stack| - 1];
      OpenSpends(stack);
      OpenKeeps(stack);
      stack := stack[..|stack| - 1];
      count := count + 1;
      var fine := CheckPopped(task.value, task.depth, count);
      stack := stack + Tasks(Children(task.value), task.depth + 1);
      if !fine {
        return false;
      }
    }
    ok := true;
  }
}
