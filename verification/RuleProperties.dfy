/** When a rule evaluates, when it raises, what it depends on, and what validate_record makes of it. */
module RuleProperties {
  import opened Prelude
  import opened Rules

  // ---------------------------------------------------------------------------------------------
  // Which rules raise
  // ---------------------------------------------------------------------------------------------

  /**
   The tree holds a fault somewhere: an unsupported node or operator or an unknown field (RuleError), or a comparison
   without an answer that is really made (TypeError).
   */
  predicate Contains(rec: Record, node: Node, fault: Fault)
    decreases node
  {
    match node
    case Const(_) => false
    case Name(id) => fault == RuleError && id !in rec.fields
    case Compare(left, links) =>
      Contains(rec, left, fault) || exists i | 0 <= i < |links| ::
        || (fault == RuleError && links[i].op == OtherOp)
        || Contains(rec, links[i].right, fault)
        || (fault == TypeError && LinkClashes(rec, node, i))
    case All(operands) => exists i | 0 <= i < |operands| :: Contains(rec, operands[i], fault)
    case Any(operands) => exists i | 0 <= i < |operands| :: Contains(rec, operands[i], fault)
    case Not(operand) => Contains(rec, operand, fault)
    case Other => fault == RuleError
  }

  lemma {:induction false} ChainContains(rec: Record, node: Node, n: nat, fault: Fault)
    requires node.Compare? && n <= |node.links|
    ensures fault in ChainFaults(rec, node, n)
       <==> Contains(rec, node.left, fault) || exists i | 0 <= i < n ::
        || (fault == RuleError && node.links[i].op == OtherOp)
        || Contains(rec, node.links[i].right, fault)
        || (fault == TypeError && LinkClashes(rec, node, i))
    decreases node, n
  {
    if n == 0 {
      FaultsAreContained(rec, node.left, fault);
    } else {
      ChainContains(rec, node, n - 1, fault);
      FaultsAreContained(rec, node.links[n - 1].right, fault);
      var link := node.links[n - 1];
      assert fault in ChainFaults(rec, node, n)
        <==> fault in ChainFaults(rec, node, n - 1) || (fault == RuleError && link.op == OtherOp)
             || Contains(rec, link.right, fault) || (fault == TypeError && LinkClashes(rec, node, n - 1));
    }
  }

  lemma {:induction false} OperandsContain(rec: Record, node: Node, operands: seq<Node>, n: nat, fault: Fault)
    requires n <= |operands| && (node == All(operands) || node == Any(operands))
    ensures fault in OperandFaults(rec, node, operands, n)
       <==> exists i | 0 <= i < n :: Contains(rec, operands[i], fault)
    decreases node, n
  {
    if n > 0 {
      OperandsContain(rec, node, operands, n - 1, fault);
      FaultsAreContained(rec, operands[n - 1], fault);
    }
  }

  /** The faults met in evaluation order are exactly those the tree holds. */
  lemma {:induction false} FaultsAreContained(rec: Record, node: Node, fault: Fault)
    ensures fault in Faults(rec, node) <==> Contains(rec, node, fault)
    decreases node
  {
    match node
    case Const(_) =>
    case Name(_) =>
    case Compare(_, links) => ChainContains(rec, node, |links|, fault);
    case All(operands) => OperandsContain(rec, node, operands, |operands|, fault);
    case Any(operands) => OperandsContain(rec, node, operands, |operands|, fault);
    case Not(operand) => FaultsAreContained(rec, operand, fault);
    case Other =>
  }

  /**
   A rule evaluates exactly when it holds no fault. Without a clash it raises RuleEvaluationError exactly when it
   holds an unsupported part or an unknown field, even where Python would not have looked; without those it raises
   TypeError exactly when some comparison that is made has no answer.
   */
  lemma RaisesIff(rec: Record, node: Node)
    ensures Meaning(rec, node).Ok? <==> !Contains(rec, node, RuleError) && !Contains(rec, node, TypeError)
    ensures Meaning(rec, node).Ok? ==> Meaning(rec, node).value == Denote(rec, node)
    ensures !Contains(rec, node, TypeError) ==>
              (Meaning(rec, node) == Err(RuleError) <==> Contains(rec, node, RuleError))
    ensures !Contains(rec, node, RuleError) ==>
              (Meaning(rec, node) == Err(TypeError) <==> Contains(rec, node, TypeError))
  {
    FaultsAreContained(rec, node, RuleError);
    FaultsAreContained(rec, node, TypeError);
    var faults := Faults(rec, node);
    assert faults != [] ==> faults[0] in faults;
    assert faults != [] ==> faults[0] == RuleError || faults[0] == TypeError;
  }

  /** No fault anywhere in the tree. */
  predicate Clean(rec: Record, node: Node) {
    !Contains(rec, node, RuleError) && !Contains(rec, node, TypeError)
  }

  /** Everything before the comparison at link n can be evaluated. */
  predicate Evaluable(rec: Record, node: Node, n: nat)
    requires node.Compare? && n <= |node.links|
  {
    Clean(rec, node.left) && forall j | 0 <= j < n :: node.links[j].op != OtherOp && Clean(rec, node.links[j].right)
  }

  /**
   Reading the tree from left to right, a comparison without an answer comes before any unsupported part and any
   unknown field.
   */
  predicate ClashFirst(rec: Record, node: Node)
    decreases node
  {
    match node
    case Compare(left, links) =>
      || ClashFirst(rec, left)
      || exists i | 0 <= i < |links| ::
           && Evaluable(rec, node, i)
           && links[i].op != OtherOp
           && (ClashFirst(rec, links[i].right) || (Clean(rec, links[i].right) && LinkClashes(rec, node, i)))
    case All(operands) =>
      exists i | 0 <= i < |operands| ::
        ClashFirst(rec, operands[i]) && forall j | 0 <= j < i :: Clean(rec, operands[j])
    case Any(operands) =>
      exists i | 0 <= i < |operands| ::
        ClashFirst(rec, operands[i]) && forall j | 0 <= j < i :: Clean(rec, operands[j])
    case Not(operand) => ClashFirst(rec, operand)
    case _ => false
  }

  lemma CleanIff(rec: Record, node: Node)
    ensures Clean(rec, node) <==> Faults(rec, node) == []
  {
    RaisesIff(rec, node);
  }

  /** The first fault of the chain is a clash at link i, or one in its right operand. */
  predicate ClashAt(rec: Record, node: Node, i: nat)
    requires node.Compare? && i < |node.links|
  {
    var link := node.links[i];
    && Evaluable(rec, node, i)
    && link.op != OtherOp
    && (ClashFirst(rec, link.right) || (Clean(rec, link.right) && LinkClashes(rec, node, i)))
  }

  predicate ChainClashFirst(rec: Record, node: Node, n: nat)
    requires node.Compare? && n <= |node.links|
  {
    ClashFirst(rec, node.left) || exists i | 0 <= i < n :: ClashAt(rec, node, i)
  }

  lemma ClashFirstOfChain(rec: Record, node: Node)
    requires node.Compare?
    ensures ClashFirst(rec, node) <==> ChainClashFirst(rec, node, |node.links|)
  {
    var links := node.links;
    if ClashFirst(rec, node) && !ClashFirst(rec, node.left) {
      var i :| 0 <= i < |links| && Evaluable(rec, node, i) && links[i].op != OtherOp
               && (ClashFirst(rec, links[i].right) || (Clean(rec, links[i].right) && LinkClashes(rec, node, i)));
      assert ClashAt(rec, node, i);
    }
    if ChainClashFirst(rec, node, |links|) && !ClashFirst(rec, node.left) {
      var i :| 0 <= i < |links| && ClashAt(rec, node, i);
      assert Evaluable(rec, node, i);
    }
  }

  /** One more link after a faultless chain. */
  lemma NextLinkClashes(rec: Record, node: Node, n: nat)
    requires node.Compare? && n < |node.links| && ChainFaults(rec, node, n) == [] && Evaluable(rec, node, n)
    requires Meaning(rec, node.links[n].right) == Err(TypeError) <==> ClashFirst(rec, node.links[n].right)
    ensures var faults := ChainFaults(rec, node, n + 1);
      && (faults == [] ==> Evaluable(rec, node, n + 1))
      && (faults != [] && faults[0] == TypeError <==> ClashAt(rec, node, n))
      && (Evaluable(rec, node, n + 1) ==> faults == [] || faults[0] == TypeError)
  {
    CleanIff(rec, node.links[n].right);
  }

  lemma {:induction false} ChainClashesFirst(rec: Record, node: Node, n: nat)
    requires node.Compare? && n <= |node.links|
    ensures var faults := ChainFaults(rec, node, n);
      && (faults == [] ==> Evaluable(rec, node, n))
      && (faults != [] && faults[0] == TypeError <==> ChainClashFirst(rec, node, n))
      && (Evaluable(rec, node, n) ==> faults == [] || faults[0] == TypeError)
    decreases node, n
  {
    if n == 0 {
      TypeErrorIff(rec, node.left);
      CleanIff(rec, node.left);
    } else {
      ChainClashesFirst(rec, node, n - 1);
      var before := ChainFaults(rec, node, n - 1);
      if before == [] {
        TypeErrorIff(rec, node.links[n - 1].right);
        NextLinkClashes(rec, node, n - 1);
      } else {
        ChainFaultsGrow(rec, node, n - 1, n);
        assert ChainFaults(rec, node, n)[0] == before[0];
      }
    }
  }

  lemma {:induction false} OperandsClashFirst(rec: Record, node: Node, operands: seq<Node>, n: nat)
    requires n <= |operands| && (node == All(operands) || node == Any(operands))
    ensures var faults := OperandFaults(rec, node, operands, n);
      && (faults == [] <==> forall j | 0 <= j < n :: Clean(rec, operands[j]))
      && (faults != [] && faults[0] == TypeError <==>
            exists i | 0 <= i < n :: ClashFirst(rec, operands[i]) && forall j | 0 <= j < i :: Clean(rec, operands[j]))
    decreases node, n
  {
    if n > 0 {
      OperandsClashFirst(rec, node, operands, n - 1);
      TypeErrorIff(rec, operands[n - 1]);
      CleanIff(rec, operands[n - 1]);
    }
  }

  /** Which exception a rule raises, whatever it holds: TypeError exactly when a clash comes first. */
  lemma {:induction false} TypeErrorIff(rec: Record, node: Node)
    ensures Meaning(rec, node) == Err(TypeError) <==> ClashFirst(rec, node)
    ensures Meaning(rec, node) == Err(RuleError) <==> !ClashFirst(rec, node) && !Clean(rec, node)
    decreases node
  {
    CleanIff(rec, node);
    match node
    case Compare(_, links) =>
      ChainClashesFirst(rec, node, |links|);
      ClashFirstOfChain(rec, node);
    case All(operands) => OperandsClashFirst(rec, node, operands, |operands|);
    case Any(operands) => OperandsClashFirst(rec, node, operands, |operands|);
    case Not(operand) => TypeErrorIff(rec, operand);
    case _ =>
  }

  predicate LinkHolds(rec: Record, node: Node, i: nat)
    requires node.Compare? && i < |node.links|
  {
    Holds(node.links[i].op, Denote(rec, Operand(node, i)), Denote(rec, node.links[i].right))
  }

  lemma OneMoreLink(rec: Record, node: Node, n: nat)
    requires node.Compare? && n < |node.links|
    ensures ChainHolds(rec, node, n + 1) == (ChainHolds(rec, node, n) && LinkHolds(rec, node, n))
  {
  }

  /** a < b < c is a < b and b < c, whatever the operators and however long the chain. */
  lemma ChainIsConjunction(rec: Record, node: Node)
    requires node.Compare?
    ensures Denote(rec, node) == Bool(ChainHolds(rec, node, |node.links|))
    ensures ChainHolds(rec, node, |node.links|) <==> forall i | 0 <= i < |node.links| :: LinkHolds(rec, node, i)
  {
    var n: nat := 0;
    while n < |node.links|
      invariant n <= |node.links|
      invariant ChainHolds(rec, node, n) <==> forall i | 0 <= i < n :: LinkHolds(rec, node, i)
    {
      OneMoreLink(rec, node, n);
      n := n + 1;
    }
  }

  /** Literals are not coerced: a date field ordered against a text literal raises, and equals none. */
  lemma DateFieldAgainstLiteral(rec: Record, id: string, op: Op, literal: string)
    requires id in rec.fields && rec.Field(id).Date? && op != OtherOp
    ensures Meaning(rec, Compare(Name(id), [Link(op, Const(Text(literal)))]))
      == if Ordering(op) then Err(TypeError) else Ok(Bool(op == NotEq))
  {
    var node := Compare(Name(id), [Link(op, Const(Text(literal)))]);
    assert ChainFaults(rec, node, 0) == [];
    assert ChainHolds(rec, node, 0);
    assert Denote(rec, Operand(node, 0)) == rec.Field(id);
    assert Denote(rec, node.links[0].right) == Text(literal);
    assert LinkClashes(rec, node, 0) == Ordering(op);
    assert ChainFaults(rec, node, 1) == if Ordering(op) then [TypeError] else [];
    assert ChainHolds(rec, node, 1) == Holds(op, rec.Field(id), Text(literal));
  }

  // ---------------------------------------------------------------------------------------------
  // What each form of a rule evaluates to
  // ---------------------------------------------------------------------------------------------

  /** Python's truth: everything but None, False, 0 and the empty text. */
  lemma TruthOf(rec: Record, v: Value)
    ensures Meaning(rec, Const(v)) == Ok(v)
    ensures Meaning(rec, Not(Const(v))) == Ok(Bool(v == Null || v == Bool(false) || v == Num(0.0) || v == Text("")))
  {
  }

  /** A missing field raises; a text that is an ISO date is read as one, everything else as it is. */
  lemma FieldMeans(rec: Record, id: string)
    ensures id !in rec.fields ==> Meaning(rec, Name(id)) == Err(RuleError)
    ensures id in rec.fields ==>
      var v := rec.fields[id];
      Meaning(rec, Name(id)) == Ok(if v.Text? && rec.iso(v.s).Some? then Date(rec.iso(v.s).value) else v)
  {
  }

  lemma NoOperandFault(rec: Record, node: Node, operands: seq<Node>, n: nat)
    requires n <= |operands| && (node == All(operands) || node == Any(operands))
    requires forall i | 0 <= i < n :: Meaning(rec, operands[i]).Ok?
    ensures OperandFaults(rec, node, operands, n) == []
  {
    forall i | 0 <= i < n
      ensures Clean(rec, operands[i])
    {
      RaisesIff(rec, operands[i]);
    }
    OperandsClashFirst(rec, node, operands, n);
  }

  /** `and` is true when every operand is, `or` when some operand is. */
  lemma ConnectivesMean(rec: Record, operands: seq<Node>)
    requires forall i | 0 <= i < |operands| :: Meaning(rec, operands[i]).Ok?
    ensures Meaning(rec, All(operands))
         == Ok(Bool(forall i | 0 <= i < |operands| :: Truthy(Meaning(rec, operands[i]).value)))
    ensures Meaning(rec, Any(operands))
         == Ok(Bool(exists i | 0 <= i < |operands| :: Truthy(Meaning(rec, operands[i]).value)))
  {
    var all, any := All(operands), Any(operands);
    NoOperandFault(rec, all, operands, |operands|);
    NoOperandFault(rec, any, operands, |operands|);
    assert Faults(rec, all) == [] && Faults(rec, any) == [];
    assert Meaning(rec, all) == Ok(Denote(rec, all)) && Meaning(rec, any) == Ok(Denote(rec, any));
    forall i | 0 <= i < |operands|
      ensures Denote(rec, operands[i]) == Meaning(rec, operands[i]).value
    {
    }
  }

  /** `not` is true exactly when its operand is false, and raises what its operand raises. */
  lemma NotMeans(rec: Record, operand: Node)
    ensures Meaning(rec, Not(operand)) == match Meaning(rec, operand)
      case Ok(v) => Ok(Bool(v == Null || v == Bool(false) || v == Num(0.0) || v == Text("")))
      case Err(fault) => Err(fault)
  {
  }

  /** The first operand that raises is what the connective raises, though a value before it has decided the result. */
  lemma ConnectivesRaise(rec: Record, operands: seq<Node>, i: nat)
    requires i < |operands| && Meaning(rec, operands[i]).Err?
    requires forall j | 0 <= j < i :: Meaning(rec, operands[j]).Ok?
    ensures Meaning(rec, All(operands)) == Meaning(rec, operands[i])
    ensures Meaning(rec, Any(operands)) == Meaning(rec, operands[i])
  {
    NoOperandFault(rec, All(operands), operands, i);
    NoOperandFault(rec, Any(operands), operands, i);
    FirstFaultOfOperand(rec, All(operands), operands, i);
    FirstFaultOfOperand(rec, Any(operands), operands, i);
  }

  /** The first n + 1 operands of the chain evaluate. */
  predicate OperandsEvaluate(rec: Record, node: Node, n: nat)
    requires node.Compare? && n <= |node.links|
  {
    forall i | 0 <= i <= n :: Meaning(rec, Operand(node, i)).Ok?
  }

  /** The comparison at link i, made on the values of the operands beside it. */
  predicate SidesHold(rec: Record, node: Node, i: nat)
    requires node.Compare? && i < |node.links| && OperandsEvaluate(rec, node, i + 1)
  {
    Holds(node.links[i].op, Meaning(rec, Operand(node, i)).value, Meaning(rec, Operand(node, i + 1)).value)
  }

  /** It is a supported operator, and equality or between values of one kind. */
  predicate SidesAnswer(rec: Record, node: Node, i: nat)
    requires node.Compare? && i < |node.links| && OperandsEvaluate(rec, node, i + 1)
  {
    && node.links[i].op != OtherOp
    && (|| node.links[i].op in {Eq, NotEq}
        || Orderable(Meaning(rec, Operand(node, i)).value, Meaning(rec, Operand(node, i + 1)).value))
  }

  predicate Answered(rec: Record, node: Node, n: nat)
    requires node.Compare? && n <= |node.links|
  {
    OperandsEvaluate(rec, node, n) && forall i | 0 <= i < n :: SidesAnswer(rec, node, i)
  }

  /** One more link that evaluates and has an answer. */
  lemma OneMoreAnswered(rec: Record, node: Node, n: nat)
    requires node.Compare? && n < |node.links| && OperandsEvaluate(rec, node, n + 1) && SidesAnswer(rec, node, n)
    requires ChainFaults(rec, node, n) == []
    ensures ChainFaults(rec, node, n + 1) == []
    ensures ChainHolds(rec, node, n + 1) == (ChainHolds(rec, node, n) && SidesHold(rec, node, n))
  {
    var left, right := Operand(node, n), node.links[n].right;
    assert Operand(node, n + 1) == right;
    assert Meaning(rec, left).Ok? && Meaning(rec, right).Ok?;
    NextLink(rec, node, n, Meaning(rec, left).value, Meaning(rec, right).value);
  }

  lemma NextLink(rec: Record, node: Node, n: nat, left: Value, right: Value)
    requires node.Compare? && n < |node.links| && ChainFaults(rec, node, n) == [] && node.links[n].op != OtherOp
    requires Meaning(rec, Operand(node, n)) == Ok(left) && Meaning(rec, node.links[n].right) == Ok(right)
    requires node.links[n].op in {Eq, NotEq} || Orderable(left, right)
    ensures ChainFaults(rec, node, n + 1) == []
    ensures ChainHolds(rec, node, n + 1) == (ChainHolds(rec, node, n) && Holds(node.links[n].op, left, right))
  {
    assert Denote(rec, Operand(node, n)) == left && Denote(rec, node.links[n].right) == right;
    assert !Raises(node.links[n].op, left, right);
    assert Faults(rec, node.links[n].right) == [];
  }

  lemma {:induction false} AnsweredPrefix(rec: Record, node: Node, n: nat)
    requires node.Compare? && n <= |node.links| && Answered(rec, node, n)
    ensures ChainFaults(rec, node, n) == []
    ensures ChainHolds(rec, node, n) <==> forall i | 0 <= i < n :: SidesHold(rec, node, i)
    decreases n
  {
    if n == 0 {
      assert Operand(node, 0) == node.left;
    } else {
      assert forall i | 0 <= i < n - 1 :: SidesAnswer(rec, node, i);
      AnsweredPrefix(rec, node, n - 1);
      OneMoreAnswered(rec, node, n - 1);
    }
  }

  lemma LeftRaises(rec: Record, node: Node)
    requires node.Compare? && Meaning(rec, node.left).Err?
    ensures Meaning(rec, node) == Meaning(rec, node.left)
  {
    ChainFaultsGrow(rec, node, 0, |node.links|);
  }

  /** A chain whose operands evaluate and whose comparisons have answers says whether all of them hold. */
  lemma ComparisonsMean(rec: Record, node: Node)
    requires node.Compare? && Answered(rec, node, |node.links|)
    ensures Meaning(rec, node) == Ok(Bool(forall i | 0 <= i < |node.links| :: SidesHold(rec, node, i)))
  {
    AnsweredPrefix(rec, node, |node.links|);
  }

  /** A link after a false comparison. */
  lemma DeadLink(rec: Record, node: Node, n: nat)
    requires node.Compare? && n < |node.links| && ChainFaults(rec, node, n) == [] && !ChainHolds(rec, node, n)
    requires node.links[n].op != OtherOp && Meaning(rec, node.links[n].right).Ok?
    ensures ChainFaults(rec, node, n + 1) == [] && !ChainHolds(rec, node, n + 1)
  {
  }

  lemma {:induction false} DeadLinks(rec: Record, node: Node, n: nat)
    requires node.Compare? && n <= |node.links| && ChainFaults(rec, node, n) == [] && !ChainHolds(rec, node, n)
    requires forall j | n <= j < |node.links| :: node.links[j].op != OtherOp && Meaning(rec, node.links[j].right).Ok?
    ensures ChainFaults(rec, node, |node.links|) == [] && !ChainHolds(rec, node, |node.links|)
    decreases |node.links| - n
  {
    if n < |node.links| {
      DeadLink(rec, node, n);
      DeadLinks(rec, node, n + 1);
    }
  }

  /** Once a comparison is false the later ones are not made, but their operators and operands are still looked at. */
  lemma FalseComparisonEnds(rec: Record, node: Node, i: nat)
    requires node.Compare? && i < |node.links| && Answered(rec, node, i + 1) && !SidesHold(rec, node, i)
    requires forall j | i < j < |node.links| :: node.links[j].op != OtherOp && Meaning(rec, node.links[j].right).Ok?
    ensures Meaning(rec, node) == Ok(Bool(false))
  {
    AnsweredPrefix(rec, node, i + 1);
    assert !ChainHolds(rec, node, i + 1);
    DeadLinks(rec, node, i + 1);
    assert Faults(rec, node) == [] && Denote(rec, node) == Bool(false);
  }

  /** After links that have answers, the first thing to go wrong at link i is what the chain raises. */
  lemma ComparisonsRaise(rec: Record, node: Node, i: nat)
    requires node.Compare? && i < |node.links| && Answered(rec, node, i)
    ensures node.links[i].op == OtherOp ==> Meaning(rec, node) == Err(RuleError)
    ensures node.links[i].op != OtherOp && Meaning(rec, node.links[i].right).Err? ==>
              Meaning(rec, node) == Meaning(rec, node.links[i].right)
    ensures node.links[i].op != OtherOp && OperandsEvaluate(rec, node, i + 1) && !SidesAnswer(rec, node, i)
            && (forall j | 0 <= j < i :: SidesHold(rec, node, j)) ==>
              Meaning(rec, node) == Err(TypeError)
  {
    AnsweredPrefix(rec, node, i);
    FirstFaultOfLink(rec, node, i);
    assert Operand(node, i + 1) == node.links[i].right;
    assert Meaning(rec, Operand(node, i)).Ok?;
  }

  // ---------------------------------------------------------------------------------------------
  // Laws of the comparisons
  // ---------------------------------------------------------------------------------------------

  lemma {:induction false} TextOrder(a: string, b: string)
    ensures TextBelow(a, b) || TextBelow(b, a) || a == b
    ensures !(TextBelow(a, b) && TextBelow(b, a)) && (a == b ==> !TextBelow(a, b))
  {
    if a != [] && b != [] && a[0] == b[0] {
      TextOrder(a[1..], b[1..]);
      assert a == [a[0]] + a[1..] && b == [b[0]] + b[1..];
    }
  }

  /** Dictionary order: a proper prefix comes first, otherwise the first character that differs decides. */
  ghost predicate ComesBefore(a: string, b: string) {
    || (|a| < |b| && a <= b)
    || exists k | 0 <= k < |a| && k < |b| :: a[..k] == b[..k] && a[k] < b[k]
  }

  /** A first character that both texts share decides nothing. */
  lemma SharedFirst(c: char, a: string, b: string)
    ensures ComesBefore([c] + a, [c] + b) <==> ComesBefore(a, b)
  {
    var ca, cb := [c] + a, [c] + b;
    assert a == ca[1..] && b == cb[1..];
    if k :| 0 <= k < |a| && k < |b| && a[..k] == b[..k] && a[k] < b[k] {
      assert ca[..k + 1] == [c] + a[..k] == cb[..k + 1];
      assert ca[k + 1] < cb[k + 1];
    }
    if k :| 0 <= k < |ca| && k < |cb| && ca[..k] == cb[..k] && ca[k] < cb[k] {
      assert a[..k - 1] == ca[..k][1..] && b[..k - 1] == cb[..k][1..];
      assert a[k - 1] < b[k - 1];
    }
  }

  lemma {:induction false} TextBelowIff(a: string, b: string)
    ensures TextBelow(a, b) <==> ComesBefore(a, b)
  {
    if a != [] && b != [] && a[0] == b[0] {
      TextBelowIff(a[1..], b[1..]);
      SharedFirst(a[0], a[1..], b[1..]);
      assert a == [a[0]] + a[1..] && b == [b[0]] + b[1..];
    } else if a != [] && b != [] {
      assert a[..0] == b[..0];
      forall k | 0 < k < |a| && k < |b|
        ensures a[..k] != b[..k]
      {
        assert a[..k][0] != b[..k][0];
      }
    }
  }

  /**
   The six operators agree with one another: converses, complements, and one total order on each kind of value, under
   which a boolean is the number 0 or 1.
   */
  lemma OperatorsAgree(a: Value, b: Value)
    ensures Holds(NotEq, a, b) == !Holds(Eq, a, b) && Holds(Eq, a, b) == Holds(Eq, b, a)
    ensures Holds(Gt, a, b) == Holds(Lt, b, a) && Holds(GtE, a, b) == Holds(LtE, b, a)
    ensures Orderable(a, b) ==> Holds(LtE, a, b) == !Holds(Gt, a, b)
    ensures Orderable(a, b) ==> Holds(LtE, a, b) == (Holds(Lt, a, b) || Holds(Eq, a, b))
    ensures !(Holds(Lt, a, b) && Holds(Eq, a, b))
    ensures a.Num? && b.Num? ==> Holds(Lt, a, b) == (a.r < b.r) && Holds(Eq, a, b) == (a.r == b.r)
    ensures a.Date? && b.Date? ==> Holds(Lt, a, b) == (a.day < b.day) && Holds(Eq, a, b) == (a.day == b.day)
    ensures a.Text? && b.Text? ==> Holds(Lt, a, b) == ComesBefore(a.s, b.s) && Holds(Eq, a, b) == (a.s == b.s)
    ensures a.Bool? ==> var n := Num(if a.b then 1.0 else 0.0); forall op :: Holds(op, a, b) == Holds(op, n, b)
    ensures a == Null ==> !Orderable(a, b) && Holds(Eq, a, b) == (b == Null)
    ensures (a.Text? && !b.Text?) || (a.Date? && !b.Date?) ==> !Orderable(a, b) && !Holds(Eq, a, b)
    ensures Orderable(a, b) == Orderable(b, a)
  {
    if a.Text? && b.Text? {
      TextOrder(a.s, b.s);
      TextBelowIff(a.s, b.s);
    }
  }

  // ---------------------------------------------------------------------------------------------
  // Laws of the connectives
  // ---------------------------------------------------------------------------------------------

  function Negated(operands: seq<Node>): seq<Node> {
    seq(|operands|, i requires 0 <= i < |operands| => Not(operands[i]))
  }

  lemma {:induction false} NegatedFaults(rec: Record, operands: seq<Node>, n: nat)
    requires n <= |operands|
    ensures OperandFaults(rec, All(operands), operands, n)
      == OperandFaults(rec, Any(Negated(operands)), Negated(operands), n)
    decreases n
  {
    if n > 0 {
      NegatedFaults(rec, operands, n - 1);
    }
  }

  /** Because no operand is ever skipped, De Morgan's law holds of exceptions too. */
  lemma DeMorgan(rec: Record, operands: seq<Node>)
    ensures Meaning(rec, Not(All(operands))) == Meaning(rec, Any(Negated(operands)))
  {
    var negated := Negated(operands);
    var all, any := All(operands), Any(negated);
    NegatedFaults(rec, operands, |operands|);
    assert Faults(rec, Not(all)) == Faults(rec, all) == Faults(rec, any);
    assert forall i | 0 <= i < |operands| :: Denote(rec, negated[i]) == Bool(!Truthy(Denote(rec, operands[i])));
    if Denote(rec, any).b {
      var i :| 0 <= i < |negated| && Truthy(Denote(rec, negated[i]));
      assert !Truthy(Denote(rec, operands[i]));
    } else {
      forall i | 0 <= i < |operands|
        ensures Truthy(Denote(rec, operands[i]))
      {
        assert !Truthy(Denote(rec, negated[i]));
      }
      assert Denote(rec, all) == Bool(true);
    }
    assert Denote(rec, Not(all)) == Denote(rec, any);
  }

  // ---------------------------------------------------------------------------------------------
  // Which fields matter
  // ---------------------------------------------------------------------------------------------

  predicate Names(node: Node, id: string)
    decreases node
  {
    match node
    case Const(_) => false
    case Name(name) => name == id
    case Compare(left, links) => Names(left, id) || exists i | 0 <= i < |links| :: Names(links[i].right, id)
    case All(operands) => exists i | 0 <= i < |operands| :: Names(operands[i], id)
    case Any(operands) => exists i | 0 <= i < |operands| :: Names(operands[i], id)
    case Not(operand) => Names(operand, id)
    case Other => false
  }

  /** The two records give the rule's fields the same values, and miss the same ones. */
  ghost predicate AgreeOn(a: Record, b: Record, node: Node) {
    && a.iso == b.iso
    && forall id | Names(node, id) :: (id in a.fields <==> id in b.fields) && a.Field(id) == b.Field(id)
  }

  lemma {:induction false} ChainDependsOn(a: Record, b: Record, node: Node, n: nat)
    requires node.Compare? && n <= |node.links| && AgreeOn(a, b, node)
    ensures ChainFaults(a, node, n) == ChainFaults(b, node, n) && ChainHolds(a, node, n) == ChainHolds(b, node, n)
    ensures Denote(a, Operand(node, n)) == Denote(b, Operand(node, n))
    decreases node, n
  {
    if n == 0 {
      assert AgreeOn(a, b, node.left);
      DependsOnlyOnNames(a, b, node.left);
    } else {
      ChainDependsOn(a, b, node, n - 1);
      assert AgreeOn(a, b, node.links[n - 1].right);
      DependsOnlyOnNames(a, b, node.links[n - 1].right);
    }
  }

  lemma {:induction false} OperandsDependOn(a: Record, b: Record, node: Node, operands: seq<Node>, n: nat)
    requires n <= |operands| && (node == All(operands) || node == Any(operands)) && AgreeOn(a, b, node)
    ensures OperandFaults(a, node, operands, n) == OperandFaults(b, node, operands, n)
    ensures forall i | 0 <= i < n :: Denote(a, operands[i]) == Denote(b, operands[i])
    decreases node, n
  {
    if n > 0 {
      OperandsDependOn(a, b, node, operands, n - 1);
      assert AgreeOn(a, b, operands[n - 1]);
      DependsOnlyOnNames(a, b, operands[n - 1]);
    }
  }

  /** A rule's value and its faults depend on the fields it names and on no others. */
  lemma {:induction false} DependsOnlyOnNames(a: Record, b: Record, node: Node)
    requires AgreeOn(a, b, node)
    ensures Faults(a, node) == Faults(b, node) && Denote(a, node) == Denote(b, node)
    ensures Meaning(a, node) == Meaning(b, node)
    decreases node
  {
    match node
    case Const(_) =>
    case Name(id) => assert Names(node, id);
    case Compare(_, links) => ChainDependsOn(a, b, node, |links|);
    case All(operands) => OperandsDependOn(a, b, node, operands, |operands|);
    case Any(operands) => OperandsDependOn(a, b, node, operands, |operands|);
    case Not(operand) =>
      assert AgreeOn(a, b, operand);
      DependsOnlyOnNames(a, b, operand);
    case Other =>
  }

  // ---------------------------------------------------------------------------------------------
  // validate_record
  // ---------------------------------------------------------------------------------------------

  datatype FieldDef = FieldDef(name: string, required: bool)

  datatype RuleDef = RuleDef(rule: Option<string>, message: Option<string>)

  datatype Violation =
    | MissingField(name: string)
    | Failed(rule: string, message: Option<string>)
    | NotEvaluable(rule: string)

  /** ast.parse; None for a syntax error. */
  type Parser = string -> Option<Node>

  /** `record.get(name) in (None, "")`. */
  predicate Filled(rec: Record, name: string) {
    name in rec.fields && rec.fields[name] != Null && rec.fields[name] != Text("")
  }

  predicate Active(def: RuleDef) {
    def.rule.Some? && def.rule.value != ""
  }

  function RuleMeaning(rec: Record, parse: Parser, rule: string): Outcome {
    match parse(rule)
    case None => Err(RuleError)
    case Some(tree) => match Meaning(rec, tree)
      case Ok(value) => Ok(Bool(Truthy(value)))
      case Err(fault) => Err(fault)
  }

  method EvaluateRule(rec: Record, parse: Parser, rule: string) returns (out: Outcome)
    ensures out == RuleMeaning(rec, parse, rule)
  {
    var tree := parse(rule);
    if tree.None? {
      return Err(RuleError);
    }
    out := EvalNode(rec, tree.value);
    if out.Ok? {
      out := Ok(Bool(Truthy(out.value)));
    }
  }

  function FieldViolations(rec: Record, fields: seq<FieldDef>, n: nat): seq<Violation>
    requires n <= |fields|
  {
    if n == 0 then []
    else
      FieldViolations(rec, fields, n - 1)
      + (if fields[n - 1].required && !Filled(rec, fields[n - 1].name) then [MissingField(fields[n - 1].name)] else [])
  }

  /** What validate_record has reported after n rules, or the TypeError that it does not catch. */
  function Report(rec: Record, parse: Parser, fields: seq<FieldDef>, rules: seq<RuleDef>, n: nat)
    : Result<seq<Violation>, Fault>
    requires n <= |rules|
  {
    if n == 0 then Ok(FieldViolations(rec, fields, |fields|))
    else
      var before, def := Report(rec, parse, fields, rules, n - 1), rules[n - 1];
      if before.Err? || !Active(def) then before
      else
        match RuleMeaning(rec, parse, def.rule.value)
        case Ok(value) => if Truthy(value) then before else Ok(before.value + [Failed(def.rule.value, def.message)])
        case Err(RuleError) => Ok(before.value + [NotEvaluable(def.rule.value)])
        case Err(TypeError) => Err(TypeError)
  }

  /** The rule compares what cannot be compared before it does anything else wrong. */
  predicate RuleClashes(rec: Record, parse: Parser, def: RuleDef) {
    Active(def) && parse(def.rule.value).Some? && ClashFirst(rec, parse(def.rule.value).value)
  }

  /** An empty rule holds; any other parses, can be evaluated, and is true. */
  predicate RuleHolds(rec: Record, parse: Parser, def: RuleDef) {
    Active(def) ==>
      var tree := parse(def.rule.value);
      tree.Some? && Clean(rec, tree.value) && Truthy(Denote(rec, tree.value))
  }

  lemma {:induction false} NoFieldViolationsIff(rec: Record, fields: seq<FieldDef>, n: nat)
    requires n <= |fields|
    ensures FieldViolations(rec, fields, n) == []
       <==> forall i | 0 <= i < n :: fields[i].required ==> Filled(rec, fields[i].name)
    decreases n
  {
    if n > 0 {
      NoFieldViolationsIff(rec, fields, n - 1);
    }
  }

  lemma RuleMeaningIff(rec: Record, parse: Parser, def: RuleDef)
    requires Active(def)
    ensures RuleMeaning(rec, parse, def.rule.value) == Err(TypeError) <==> RuleClashes(rec, parse, def)
    ensures RuleMeaning(rec, parse, def.rule.value) == Ok(Bool(true)) <==> RuleHolds(rec, parse, def)
    ensures RuleMeaning(rec, parse, def.rule.value).Ok? ==> RuleMeaning(rec, parse, def.rule.value).value.Bool?
  {
    var tree := parse(def.rule.value);
    if tree.Some? {
      TypeErrorIff(rec, tree.value);
      RaisesIff(rec, tree.value);
    }
  }

  lemma {:induction false} ReportIff(rec: Record, parse: Parser, fields: seq<FieldDef>, rules: seq<RuleDef>, n: nat)
    requires n <= |rules|
    ensures var report := Report(rec, parse, fields, rules, n);
      && (report.Err? <==> exists i | 0 <= i < n :: RuleClashes(rec, parse, rules[i]))
      && (report == Ok([]) <==> FieldViolations(rec, fields, |fields|) == []
                                && forall i | 0 <= i < n :: RuleHolds(rec, parse, rules[i]))
    decreases n
  {
    if n > 0 {
      ReportIff(rec, parse, fields, rules, n - 1);
      if Active(rules[n - 1]) {
        RuleMeaningIff(rec, parse, rules[n - 1]);
      }
    }
  }

  /**
   Validation raises exactly when, in some rule, a comparison without an answer comes before any unsupported part and
   any unknown field; otherwise it reports nothing exactly when every required field is filled and every rule holds.
   */
  lemma ValidIff(rec: Record, parse: Parser, fields: seq<FieldDef>, rules: seq<RuleDef>)
    ensures var report := Report(rec, parse, fields, rules, |rules|);
      && (report.Err? <==> exists i | 0 <= i < |rules| :: RuleClashes(rec, parse, rules[i]))
      && (report == Ok([]) <==>
            && (forall i | 0 <= i < |fields| :: fields[i].required ==> Filled(rec, fields[i].name))
            && (forall i | 0 <= i < |rules| :: RuleHolds(rec, parse, rules[i])))
  {
    ReportIff(rec, parse, fields, rules, |rules|);
    NoFieldViolationsIff(rec, fields, |fields|);
  }

  /** A record with a due date and the rule `due > "x"`: validation raises instead of reporting a violation. */
  lemma ValidationCanRaise()
    ensures exists rec: Record, parse: Parser, rules: seq<RuleDef> :: Report(rec, parse, [], rules, |rules|).Err?
  {
    var rec := Record(map["due" := Date(0)], s => None);
    var tree := Compare(Name("due"), [Link(Gt, Const(Text("x")))]);
    var parse: Parser := s => Some(tree);
    var rules := [RuleDef(Some("r"), None)];
    DateFieldAgainstLiteral(rec, "due", Gt, "x");
    TypeErrorIff(rec, tree);
    assert RuleClashes(rec, parse, rules[0]);
    ReportIff(rec, parse, [], rules, 1);
  }

  /** A required field is missing when it is absent, None or empty; False and 0 are present. */
  lemma MissingIff(rec: Record, def: FieldDef)
    ensures FieldViolations(rec, [def], 1)
         == if def.required && (def.name !in rec.fields || rec.fields[def.name] in {Null, Text("")})
            then [MissingField(def.name)] else []
  {
    assert FieldViolations(rec, [def], 0) == [];
  }

  /**
   What one more rule adds to the report: its message when it evaluates to something false, and the other message when
   it does not parse or raises RuleEvaluationError. A TypeError ends the validation.
   */
  lemma RuleAdds(rec: Record, parse: Parser, fields: seq<FieldDef>, rules: seq<RuleDef>, n: nat)
    requires n < |rules| && Report(rec, parse, fields, rules, n).Ok?
    requires rules[n].rule.Some? && rules[n].rule.value != ""
    ensures var tree, before := parse(rules[n].rule.value), Report(rec, parse, fields, rules, n).value;
      var evaluated: Outcome := if tree.None? then Err(RuleError) else Meaning(rec, tree.value);
      Report(rec, parse, fields, rules, n + 1) == match evaluated
         case Err(RuleError) => Ok(before + [NotEvaluable(rules[n].rule.value)])
         case Err(TypeError) => Err(TypeError)
         case Ok(v) =>
           if v in {Null, Bool(false), Num(0.0), Text("")}
           then Ok(before + [Failed(rules[n].rule.value, rules[n].message)])
           else Ok(before)
  {
    var tree := parse(rules[n].rule.value);
    if tree.Some? && Meaning(rec, tree.value).Ok? {
      var v := Meaning(rec, tree.value).value;
      assert Truthy(v) <==> v !in {Null, Bool(false), Num(0.0), Text("")};
    }
  }

  lemma {:induction false} RaisedForGood(rec: Record, parse: Parser, fields: seq<FieldDef>, rules: seq<RuleDef>, m: nat,
                                         n: nat)
    requires m <= n <= |rules| && Report(rec, parse, fields, rules, m).Err?
    ensures Report(rec, parse, fields, rules, n) == Report(rec, parse, fields, rules, m)
    decreases n
  {
    if m < n {
      RaisedForGood(rec, parse, fields, rules, m, n - 1);
    }
  }

  /** validate_record. */
  method ValidateRecord(rec: Record, parse: Parser, fields: seq<FieldDef>, rules: seq<RuleDef>)
    returns (out: Result<seq<Violation>, Fault>)
    ensures out == Report(rec, parse, fields, rules, |rules|)
  {
    var violations := [];
    for i := 0 to |fields|
      invariant violations == FieldViolations(rec, fields, i)
    {
      var field := fields[i];
      if field.required && !(field.name in rec.fields && rec.fields[field.name] != Null
                             && rec.fields[field.name] != Text("")) {
        violations := violations + [MissingField(field.name)];
      }
    }
    for i := 0 to |rules|
      invariant Report(rec, parse, fields, rules, i) == Ok(violations)
    {
      var def := rules[i];
      if def.rule.Some? && def.rule.value != "" {
        var result := EvaluateRule(rec, parse, def.rule.value);
        if result == Err(TypeError) {
          RaisedForGood(rec, parse, fields, rules, i + 1, |rules|);
          return Err(TypeError);
        } else if result.Err? {
          violations := violations + [NotEvaluable(def.rule.value)];
        } else if !Truthy(result.value) {
          violations := violations + [Failed(def.rule.value, def.message)];
        }
      }
    }
    out := Ok(violations);
  }
}
