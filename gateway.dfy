/** The host as the router adapters see it: the external operations they
    issue (configuration-database commands, file writes and removals,
    process runs), the host's replies, and the rule that the first failing
    operation ends a lifecycle step. */
module Gateway {
  import Template

  datatype Option<T> = None | Some(value: T)

  /** One external operation. `UciAddList(k, v)` is the single argument
      `k=v` of `uci add_list`. `WriteTemplate` writes the file holding
      `Template.Execute(tmpl, data)` with permission bits `perm`. */
  datatype Op =
    | UciGet(key: string)
    | UciDelete(key: string)
    | UciAddList(key: string, value: string)
    | UciCommit
    | WriteTemplate(path: string, tmpl: seq<Template.Node>, data: Template.Data, perm: nat)
    | Remove(path: string)
    | Exec(argv: seq<string>)

  /** Operations that change the configuration database. */
  predicate Mutates(op: Op) {
    op.UciDelete? || op.UciAddList? || op.UciCommit?
  }

  /** The host's answer: success with trimmed output, the configuration
      database's distinguished "entry not found", or any other failure. */
  datatype Reply = Ok(out: string) | NotFound | Failed

  /** The host's behaviour: the reply to an operation issued when `n`
      operations had been issued before it. For one run of a deterministic
      caller this is as general as a reply that depends on the whole history. */
  type Oracle = (nat, Op) -> Reply

  /** What a lifecycle step returns: nothing, or the error of the operation
      that ended it. */
  datatype Status = Success | Failure(cause: Op)

  /** An operation of a plan; the reply to an unchecked one is ignored. */
  datatype Step = Step(op: Op, checked: bool)

  /** Every operation issued so far, in order, and what the lifecycle step
      returned. */
  datatype Outcome = Outcome(trace: seq<Op>, status: Status)

  /** A step issued at position `n` lets its plan go on. */
  predicate Clears(answer: Oracle, n: nat, s: Step) {
    !s.checked || answer(n, s.op).Ok?
  }

  /** The operations of a plan, in order. */
  function Ops(plan: seq<Step>): (ops: seq<Op>)
    ensures |ops| == |plan|
  {
    if plan == [] then [] else [plan[0].op] + Ops(plan[1..])
  }

  function Checked(ops: seq<Op>): (steps: seq<Step>)
    ensures |steps| == |ops|
  {
    if ops == [] then [] else [Step(ops[0], true)] + Checked(ops[1..])
  }

  lemma CheckedPair(a: Op, b: Op)
    ensures Checked([a, b]) == [Step(a, true), Step(b, true)]
  {
    assert [a, b][1..] == [b];
  }

  /** Issues the steps of `plan` in order after the operations `trace`,
      stopping after the first checked step whose reply is not `Ok` and
      returning its error. */
  function Play(trace: seq<Op>, plan: seq<Step>, answer: Oracle): (r: Outcome)
    ensures |trace| <= |r.trace| <= |trace| + |plan|
    ensures r.status.Success? ==> |r.trace| == |trace| + |plan|
    decreases |plan|
  {
    if plan == [] then Outcome(trace, Success)
    else
      var issued := trace + [plan[0].op];
      if !Clears(answer, |trace|, plan[0]) then Outcome(issued, Failure(plan[0].op))
      else Play(issued, plan[1..], answer)
  }

  /** The last step of a plan decides how it ends. */
  lemma PlayLast(trace: seq<Op>, step: Step, answer: Oracle)
    ensures Play(trace, [step], answer) ==
      Outcome(trace + [step.op], if Clears(answer, |trace|, step) then Success else Failure(step.op))
  {
    assert [step][1..] == [];
  }

  /** An unchecked step followed by a checked one: both are issued, and the
      second alone decides how the plan ends. */
  lemma UncheckedThenChecked(trace: seq<Op>, a: Op, b: Op, answer: Oracle)
    ensures Play(trace, [Step(a, false), Step(b, true)], answer) ==
      Outcome(trace + [a, b], if answer(|trace| + 1, b).Ok? then Success else Failure(b))
  {
    assert [Step(a, false), Step(b, true)][1..] == [Step(b, true)];
    PlayLast(trace + [a], Step(b, true), answer);
    assert trace + [a] + [b] == trace + [a, b];
  }

  /** The rest of a plan from step `i` on: step `i` is issued, and it either
      ends the plan or lets the steps after it go on. */
  lemma PlayFrom(trace: seq<Op>, plan: seq<Step>, i: nat, answer: Oracle)
    requires i < |plan|
    ensures Play(trace, plan[i..], answer) ==
      if Clears(answer, |trace|, plan[i]) then Play(trace + [plan[i].op], plan[i + 1..], answer)
      else Outcome(trace + [plan[i].op], Failure(plan[i].op))
  {
    assert plan[i..][0] == plan[i] && plan[i..][1..] == plan[i + 1..];
  }

  /** A plan that went through is followed by the next plan as if the two
      were one. */
  lemma {:induction false} PlayAppendPassed(trace: seq<Op>, p: seq<Step>, q: seq<Step>, answer: Oracle)
    requires Play(trace, p, answer).status.Success?
    ensures Play(trace, p + q, answer) == Play(Play(trace, p, answer).trace, q, answer)
    decreases |p|
  {
    if p == [] {
      assert p + q == q;
    } else {
      assert (p + q)[0] == p[0] && (p + q)[1..] == p[1..] + q;
      PlayAppendPassed(trace + [p[0].op], p[1..], q, answer);
    }
  }

  /** A plan that failed is not continued by whatever follows it. */
  lemma {:induction false} PlayAppendFailed(trace: seq<Op>, p: seq<Step>, q: seq<Step>, answer: Oracle)
    requires Play(trace, p, answer).status.Failure?
    ensures Play(trace, p + q, answer) == Play(trace, p, answer)
    decreases |p|
  {
    assert (p + q)[0] == p[0] && (p + q)[1..] == p[1..] + q;
    if Clears(answer, |trace|, p[0]) {
      PlayAppendFailed(trace + [p[0].op], p[1..], q, answer);
    }
  }

  /** What a plan issues is the start of its operations, after what was
      issued before. */
  lemma {:induction false} PlayIssuesPrefix(trace: seq<Op>, plan: seq<Step>, answer: Oracle)
    ensures var r := Play(trace, plan, answer);
      r.trace == trace + Ops(plan)[..|r.trace| - |trace|]
    decreases |plan|
  {
    if plan != [] {
      var issued := trace + [plan[0].op];
      var r := Play(trace, plan, answer);
      if Clears(answer, |trace|, plan[0]) {
        PlayIssuesPrefix(issued, plan[1..], answer);
        var m := |r.trace| - |issued|;
        assert Ops(plan)[..m + 1] == [plan[0].op] + Ops(plan[1..])[..m];
      } else {
        assert Ops(plan)[..1] == [plan[0].op];
      }
    }
  }

  /** A plan stops only at a failing checked step: every step before the
      last one issued let the plan go on, and a failure is the error of the
      last step issued, a checked one whose reply was not `Ok`. */
  lemma {:induction false} PlayStops(trace: seq<Op>, plan: seq<Step>, answer: Oracle)
    ensures var r := Play(trace, plan, answer);
      r.status.Failure? ==>
        var j := |r.trace| - |trace| - 1;
        0 <= j < |plan| && plan[j].checked && r.status.cause == plan[j].op &&
        !answer(|trace| + j, plan[j].op).Ok?
    ensures var r := Play(trace, plan, answer);
      var passed := if r.status.Failure? then |r.trace| - |trace| - 1 else |r.trace| - |trace|;
      forall j :: 0 <= j < passed ==> Clears(answer, |trace| + j, plan[j])
    decreases |plan|
  {
    if plan != [] && Clears(answer, |trace|, plan[0]) {
      var issued := trace + [plan[0].op];
      PlayStops(issued, plan[1..], answer);
      var r := Play(trace, plan, answer);
      var passed := if r.status.Failure? then |r.trace| - |trace| - 1 else |r.trace| - |trace|;
      forall j | 0 <= j < passed
        ensures Clears(answer, |trace| + j, plan[j])
      {
        if j > 0 {
          assert plan[j] == plan[1..][j - 1];
        }
      }
    }
  }

  /** A failure is the error of the last operation issued. */
  lemma {:induction false} PlayFailureIsLast(trace: seq<Op>, plan: seq<Step>, answer: Oracle)
    ensures var r := Play(trace, plan, answer);
      r.status.Failure? ==> |r.trace| > 0 && r.status.cause == r.trace[|r.trace| - 1]
    decreases |plan|
  {
    if plan != [] && Clears(answer, |trace|, plan[0]) {
      PlayFailureIsLast(trace + [plan[0].op], plan[1..], answer);
    }
  }

  /** A plan succeeds exactly when it issued all its steps and the last one
      let it go on. */
  lemma PlaySucceeds(trace: seq<Op>, plan: seq<Step>, answer: Oracle)
    requires plan != []
    ensures var r := Play(trace, plan, answer);
      r.status.Success? <==>
        |r.trace| == |trace| + |plan| && Clears(answer, |trace| + |plan| - 1, plan[|plan| - 1])
  {
    PlayStops(trace, plan, answer);
  }

  lemma {:induction false} OpsAppend(p: seq<Step>, q: seq<Step>)
    ensures Ops(p + q) == Ops(p) + Ops(q)
    decreases |p|
  {
    if p == [] {
      assert p + q == q;
    } else {
      assert (p + q)[0] == p[0] && (p + q)[1..] == p[1..] + q;
      OpsAppend(p[1..], q);
    }
  }

  lemma {:induction false} OpsChecked(ops: seq<Op>)
    ensures Ops(Checked(ops)) == ops
    decreases |ops|
  {
    if ops != [] {
      OpsChecked(ops[1..]);
    }
  }

  /** The external world: every operation issued so far, in order, and the
      host's behaviour. */
  class Host {
    var trace: seq<Op>
    const answer: Oracle

    constructor (answer: Oracle)
      ensures trace == [] && this.answer == answer
    {
      trace := [];
      this.answer := answer;
    }

    /** Runs one operation and returns the host's reply. */
    method Issue(op: Op) returns (reply: Reply)
      modifies this
      ensures trace == old(trace) + [op]
      ensures reply == answer(|old(trace)|, op)
    {
      reply := answer(|trace|, op);
      trace := trace + [op];
    }
  }
}
