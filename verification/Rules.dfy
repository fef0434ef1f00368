/** The restricted rule evaluator of business objects: app/businessobjects/validator.py. */
module Rules {
  import opened Prelude

  /** Record and literal values; a date only comes from coercing a text or from a record that holds one. */
  datatype Value = Null | Bool(b: bool) | Num(r: real) | Text(s: string) | Date(day: int)

  datatype Op = Gt | GtE | Lt | LtE | Eq | NotEq | OtherOp

  datatype Link = Link(op: Op, right: Node)

  /** A parsed rule; Other is every node the evaluator does not support. */
  datatype Node =
    | Const(value: Value)
    | Name(id: string)
    | Compare(left: Node, links: seq<Link>)
    | All(operands: seq<Node>)
    | Any(operands: seq<Node>)
    | Not(operand: Node)
    | Other

  datatype Fault = RuleError | TypeError

  type Outcome = Result<Value, Fault>

  /** The submitted record, and datetime.fromisoformat(...).date() for the texts it accepts. */
  datatype Record = Record(fields: map<string, Value>, iso: string -> Option<int>) {
    function Field(id: string): Value {
      if id in fields then Coerce(fields[id]) else Null
    }

    /** _coerce. */
    function Coerce(value: Value): Value {
      if value.Text? && iso(value.s).Some? then Date(iso(value.s).value) else value
    }
  }

  predicate Truthy(v: Value) {
    match v
    case Null => false
    case Bool(b) => b
    case Num(r) => r != 0.0
    case Text(s) => s != ""
    case Date(_) => true
  }

  predicate Numeric(v: Value) {
    v.Num? || v.Bool?
  }

  /** Python's booleans are the integers 0 and 1. */
  function AsNumber(v: Value): real
    requires Numeric(v)
  {
    match v
    case Num(r) => r
    case Bool(b) => if b then 1.0 else 0.0
  }

  predicate Orderable(a: Value, b: Value) {
    (Numeric(a) && Numeric(b)) || (a.Text? && b.Text?) || (a.Date? && b.Date?)
  }

  predicate TextBelow(a: string, b: string) {
    b != [] && (a == [] || a[0] < b[0] || (a[0] == b[0] && TextBelow(a[1..], b[1..])))
  }

  predicate Below(a: Value, b: Value)
    requires Orderable(a, b)
  {
    if a.Text? then TextBelow(a.s, b.s)
    else if a.Date? then a.day < b.day
    else AsNumber(a) < AsNumber(b)
  }

  predicate Same(a: Value, b: Value) {
    if Numeric(a) && Numeric(b) then AsNumber(a) == AsNumber(b) else a == b
  }

  predicate Ordering(op: Op) {
    op in {Gt, GtE, Lt, LtE}
  }

  predicate Raises(op: Op, a: Value, b: Value) {
    Ordering(op) && !Orderable(a, b)
  }

  /** What a comparison says; false where Python has no answer. */
  predicate Holds(op: Op, a: Value, b: Value) {
    match op
    case Eq => Same(a, b)
    case NotEq => !Same(a, b)
    case OtherOp => false
    case Gt => Orderable(a, b) && Below(b, a)
    case Lt => Orderable(a, b) && Below(a, b)
    case GtE => Orderable(a, b) && !Below(a, b)
    case LtE => Orderable(a, b) && !Below(b, a)
  }

  // ---------------------------------------------------------------------------------------------
  // What a rule means, and everything that can go wrong in it
  // ---------------------------------------------------------------------------------------------

  function Operand(node: Node, i: nat): Node
    requires node.Compare? && i <= |node.links|
  {
    if i == 0 then node.left else node.links[i - 1].right
  }

  /** The first n comparisons of a chain. */
  predicate ChainHolds(rec: Record, node: Node, n: nat)
    requires node.Compare? && n <= |node.links|
    decreases node, n
  {
    n == 0
    || (ChainHolds(rec, node, n - 1)
        && Holds(node.links[n - 1].op, Denote(rec, Operand(node, n - 1)), Denote(rec, node.links[n - 1].right)))
  }

  function Denote(rec: Record, node: Node): Value
    decreases node
  {
    match node
    case Const(value) => value
    case Name(id) => rec.Field(id)
    case Compare(_, links) => Bool(ChainHolds(rec, node, |links|))
    case All(operands) => Bool(forall i | 0 <= i < |operands| :: Truthy(Denote(rec, operands[i])))
    case Any(operands) => Bool(exists i | 0 <= i < |operands| :: Truthy(Denote(rec, operands[i])))
    case Not(operand) => Bool(!Truthy(Denote(rec, operand)))
    case Other => Null
  }

  /** The comparison at link i has no answer, and the links before it do not make it irrelevant. */
  predicate LinkClashes(rec: Record, node: Node, i: nat)
    requires node.Compare? && i < |node.links|
  {
    && Raises(node.links[i].op, Denote(rec, Operand(node, i)), Denote(rec, node.links[i].right))
    && ChainHolds(rec, node, i)
  }

  /** Every fault in the tree, in evaluation order. */
  function Faults(rec: Record, node: Node): seq<Fault>
    decreases node
  {
    match node
    case Const(_) => []
    case Name(id) => if id in rec.fields then [] else [RuleError]
    case Compare(_, links) => ChainFaults(rec, node, |links|)
    case All(operands) => OperandFaults(rec, node, operands, |operands|)
    case Any(operands) => OperandFaults(rec, node, operands, |operands|)
    case Not(operand) => Faults(rec, operand)
    case Other => [RuleError]
  }

  /** The faults of the left operand and the first n links. */
  function ChainFaults(rec: Record, node: Node, n: nat): seq<Fault>
    requires node.Compare? && n <= |node.links|
    decreases node, n
  {
    if n == 0 then Faults(rec, node.left)
    else
      ChainFaults(rec, node, n - 1)
      + (if node.links[n - 1].op == OtherOp then [RuleError] else [])
      + Faults(rec, node.links[n - 1].right)
      + (if LinkClashes(rec, node, n - 1) then [TypeError] else [])
  }

  function OperandFaults(rec: Record, node: Node, operands: seq<Node>, n: nat): seq<Fault>
    requires n <= |operands| && (node == All(operands) || node == Any(operands))
    decreases node, n
  {
    if n == 0 then []
    else OperandFaults(rec, node, operands, n - 1) + Faults(rec, operands[n - 1])
  }

  /** The first fault, or the value when there is none. */
  function Meaning(rec: Record, node: Node): Outcome {
    var faults := Faults(rec, node);
    if faults == [] then Ok(Denote(rec, node)) else Err(faults[0])
  }

  // ---------------------------------------------------------------------------------------------
  // The evaluator
  // ---------------------------------------------------------------------------------------------

  lemma {:induction false} ChainFaultsGrow(rec: Record, node: Node, m: nat, n: nat)
    requires node.Compare? && m <= n <= |node.links|
    ensures ChainFaults(rec, node, m) <= ChainFaults(rec, node, n)
    decreases n
  {
    if m < n {
      ChainFaultsGrow(rec, node, m, n - 1);
    }
  }

  lemma {:induction false} OperandFaultsGrow(rec: Record, node: Node, operands: seq<Node>, m: nat, n: nat)
    requires m <= n <= |operands| && (node == All(operands) || node == Any(operands))
    ensures OperandFaults(rec, node, operands, m) <= OperandFaults(rec, node, operands, n)
    decreases n
  {
    if m < n {
      OperandFaultsGrow(rec, node, operands, m, n - 1);
    }
  }

  /** With no fault before link i, the first fault of the chain is the first one of that link, if it has any. */
  lemma FirstFaultOfLink(rec: Record, node: Node, i: nat)
    requires node.Compare? && i < |node.links| && ChainFaults(rec, node, i) == []
    ensures var link, faults := node.links[i], ChainFaults(rec, node, |node.links|);
      if link.op == OtherOp then faults != [] && faults[0] == RuleError
      else if Faults(rec, link.right) != [] then faults != [] && faults[0] == Faults(rec, link.right)[0]
      else if LinkClashes(rec, node, i) then faults != [] && faults[0] == TypeError
      else ChainFaults(rec, node, i + 1) == []
  {
    ChainFaultsGrow(rec, node, i + 1, |node.links|);
    var upTo, faults := ChainFaults(rec, node, i + 1), ChainFaults(rec, node, |node.links|);
    assert upTo != [] ==> faults[0] == upTo[0];
  }

  /** With no fault before operand i, the first fault of the operands is the first one of that operand, if any. */
  lemma FirstFaultOfOperand(rec: Record, node: Node, operands: seq<Node>, i: nat)
    requires node == All(operands) || node == Any(operands)
    requires i < |operands| && OperandFaults(rec, node, operands, i) == []
    ensures OperandFaults(rec, node, operands, i + 1) == Faults(rec, operands[i])
    ensures Faults(rec, operands[i]) != [] ==>
      var faults := OperandFaults(rec, node, operands, |operands|);
      faults != [] && faults[0] == Faults(rec, operands[i])[0]
  {
    OperandFaultsGrow(rec, node, operands, i + 1, |operands|);
  }

  /** _eval_node: stops at the first fault of the tree, and otherwise returns its meaning. */
  method EvalNode(rec: Record, node: Node) returns (out: Outcome)
    ensures out == Meaning(rec, node)
    decreases node
  {
    match node
    case Const(value) => out := Ok(value);
    case Name(id) =>
      if id !in rec.fields {
        return Err(RuleError);
      }
      out := Ok(rec.Coerce(rec.fields[id]));
    case Compare(_, _) => out := EvalChain(rec, node);
    case All(operands) =>
      var values := EvalOperands(rec, node, operands);
      if values.Err? {
        return Err(values.error);
      }
      out := Ok(Bool(forall i | 0 <= i < |values.value| :: Truthy(values.value[i])));
      assert forall i | 0 <= i < |operands| :: values.value[i] == Denote(rec, operands[i]);
    case Any(operands) =>
      var values := EvalOperands(rec, node, operands);
      if values.Err? {
        return Err(values.error);
      }
      out := Ok(Bool(exists i | 0 <= i < |values.value| :: Truthy(values.value[i])));
      assert forall i | 0 <= i < |operands| :: values.value[i] == Denote(rec, operands[i]);
    case Not(operand) =>
      out := EvalNode(rec, operand);
      if out.Ok? {
        out := Ok(Bool(!Truthy(out.value)));
      }
    case Other => out := Err(RuleError);
  }

  /** The comparison loop: every operand is evaluated, but no comparison is made after a false one. */
  method EvalChain(rec: Record, node: Node) returns (out: Outcome)
    requires node.Compare?
    ensures var faults := ChainFaults(rec, node, |node.links|);
      out == if faults == [] then Ok(Bool(ChainHolds(rec, node, |node.links|))) else Err(faults[0])
    decreases node, 2
  {
    out := EvalNode(rec, node.left);
    if out.Err? {
      ChainFaultsGrow(rec, node, 0, |node.links|);
      return;
    }
    out := EvalLinks(rec, node, out.value);
  }

  method EvalLinks(rec: Record, node: Node, first: Value) returns (out: Outcome)
    requires node.Compare? && Faults(rec, node.left) == [] && first == Denote(rec, node.left)
    ensures var faults := ChainFaults(rec, node, |node.links|);
      out == if faults == [] then Ok(Bool(ChainHolds(rec, node, |node.links|))) else Err(faults[0])
    decreases node, 1
  {
    var left, result := first, true;
    for i := 0 to |node.links|
      invariant ChainFaults(rec, node, i) == []
      invariant left == Denote(rec, Operand(node, i))
      invariant result == ChainHolds(rec, node, i)
    {
      var next := EvalLink(rec, node, i, left, result);
      if next.Err? {
        return Err(next.error);
      }
      left, result := next.value.0, next.value.1;
    }
    out := Ok(Bool(result));
  }

  /** One turn of the loop: the next left operand and result. */
  method EvalLink(rec: Record, node: Node, i: nat, left: Value, result: bool)
      returns (out: Result<(Value, bool), Fault>)
    requires node.Compare? && i < |node.links| && ChainFaults(rec, node, i) == []
    requires left == Denote(rec, Operand(node, i)) && result == ChainHolds(rec, node, i)
    ensures out.Ok? ==> ChainFaults(rec, node, i + 1) == []
    ensures out.Ok? ==> out.value == (Denote(rec, node.links[i].right), ChainHolds(rec, node, i + 1))
    ensures out.Err? ==>
      ChainFaults(rec, node, |node.links|) != [] && ChainFaults(rec, node, |node.links|)[0] == out.error
    decreases node, 0
  {
    var link := node.links[i];
    FirstFaultOfLink(rec, node, i);
    if link.op == OtherOp {
      return Err(RuleError);
    }
    var right := EvalNode(rec, link.right);
    if right.Err? {
      return Err(right.error);
    }
    if !result {
      return Ok((right.value, false));
    }
    if Raises(link.op, left, right.value) {
      return Err(TypeError);
    }
    out := Ok((right.value, Holds(link.op, left, right.value)));
  }

  /** The list built before all or any looks at it: no operand is skipped. */
  method EvalOperands(rec: Record, node: Node, operands: seq<Node>) returns (out: Result<seq<Value>, Fault>)
    requires node == All(operands) || node == Any(operands)
    ensures var faults := OperandFaults(rec, node, operands, |operands|);
      if out.Ok? then faults == [] else faults != [] && out.error == faults[0]
    ensures out.Ok? ==> |out.value| == |operands|
    ensures out.Ok? ==> forall i | 0 <= i < |operands| :: out.value[i] == Denote(rec, operands[i])
    decreases node, 0
  {
    var values := [];
    for i := 0 to |operands|
      invariant OperandFaults(rec, node, operands, i) == []
      invariant |values| == i && forall j | 0 <= j < i :: values[j] == Denote(rec, operands[j])
    {
      var value := EvalNode(rec, operands[i]);
      FirstFaultOfOperand(rec, node, operands, i);
      if value.Err? {
        return Err(value.error);
      }
      values := values + [value.value];
    }
    out := Ok(values);
  }
}
