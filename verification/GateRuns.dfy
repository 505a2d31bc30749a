/** What the credit gate decided stays decided, and its requests block their orders, in every
    interleaving. */
module GateRuns {
  import opened Wrappers
  import opened StockPool
  import opened Tables
  import opened StockOrchestration
  import opened BillCompletion
  import opened BillEffects
  import opened Dispatch
  import opened Runs
  import opened GateProofs
  import opened Isolation
  import opened Interleaving

  /** Bills are stored under their ids, and calls and edits in progress hold bills that exist. */
  ghost predicate Loaded(w: World) {
    && IdsMatch(w.db)
    && (forall pid <- w.processes :: w.processes[pid].Process? ==> w.processes[pid].bill.id in w.db.bills)
    && (forall e <- w.drafts :: w.drafts[e].id in w.db.bills)
  }

  predicate Undecided(db: Db, i: nat) {
    i < |db.approvals| && db.approvals[i].status == Requested
  }

  function RemovedBy(w: World, e: Event): set<Id> {
    match e
    case Serving(r) => Removed(w.db, r)
    case CommitsDeletion(d) =>
      if d in w.drafts && !w.drafts[d].status.Closed? && !w.drafts[d].status.Voided? then {w.drafts[d].id} else {}
    case _ => {}
  }

  lemma StockOnlyKeeps(db: Db, d: Db, i: nat)
    requires IdsMatch(db) && StockOnly(db, d)
    ensures ApprovalKept(db, d, i) && Keeps(db, d, {})
  {
  }

  lemma CommitKeeps(db: Db, call: StockCall, c: Copies, i: nat)
    requires IdsMatch(db)
    ensures ApprovalKept(db, ExecOn(db, call, c), i) && Keeps(db, ExecOn(db, call, c), {})
  {
    ExecOnFrame(db, call, c);
    StockOnlyKeeps(db, ExecOn(db, call, c), i);
  }

  lemma AdvanceOnKeeps(db: Db, p: Process, c: Copies, i: nat)
    requires IdsMatch(db) && (p.Process? ==> p.bill.id in db.bills)
    ensures ApprovalKept(db, AdvanceOn(db, p, c).0, i) && Keeps(db, AdvanceOn(db, p, c).0, {})
    ensures AdvanceOn(db, p, c).1.Process? ==> p.Process? && AdvanceOn(db, p, c).1.bill == p.bill
  {
    AdvanceOnFrame(db, p, c);
    if p.Process? && p.stage.Deduct? {
      StockOnlyKeeps(db, AdvanceOn(db, p, c).0, i);
    } else {
      AdvanceKeeps(db, p, i);
    }
  }

  // ---- decisions ----

  predicate SameRequest(a: Approval, b: Approval) {
    a.(status := Requested) == b.(status := Requested)
  }

  /** Decisions in progress hold copies of requests that exist. */
  ghost predicate LooksFit(w: World) {
    forall d <- w.looks ::
      w.looks[d].index < |w.db.approvals| && SameRequest(w.looks[d].copy, w.db.approvals[w.looks[d].index])
  }

  function Outcome(approves: bool): ApprovalStatus {
    if approves then Approved else Rejected
  }

  /** The event changes request `i`: it decides it, or commits a decision read while it was pending. */
  predicate Changes(w: World, e: Event, i: nat)
    requires i < |w.db.approvals|
  {
    match e
    case Serving(r) => r.Decide? && r.approval == i && w.db.approvals[i].status.Requested? && !r.decision.Requested?
    case CommitsDecision(d, approves) =>
      && d in w.looks && w.looks[d].index == i && w.looks[d].copy.status.Requested?
      && w.db.approvals[i].status != Outcome(approves)
    case _ => false
  }

  lemma ServeChangesIff(db: Db, r: Request, i: nat)
    requires IdsMatch(db) && i < |db.approvals|
    ensures i < |Serve(db, r).approvals|
    ensures Serve(db, r).approvals[i] == db.approvals[i] <==>
            !(r.Decide? && r.approval == i && db.approvals[i].status.Requested? && !r.decision.Requested?)
    ensures SameRequest(Serve(db, r).approvals[i], db.approvals[i])
  {
    if !(r.Decide? && r.approval == i) {
      ServeKeeps(db, r, i);
    }
  }

  lemma ServeKeepsRest(db: Db, r: Request)
    requires IdsMatch(db)
    ensures Keeps(db, Serve(db, r), Removed(db, r))
  {
    ServeKeeps(db, r, |db.approvals|);
  }

  lemma DecidedKeeps(db: Db, look: Look, approves: bool)
    requires IdsMatch(db)
    ensures Keeps(db, Decided(db, look, approves), {})
  {
  }

  lemma CommitChangesIff(db: Db, look: Look, approves: bool, i: nat)
    requires i < |db.approvals| && look.index < |db.approvals| && SameRequest(look.copy, db.approvals[look.index])
    ensures var d := Decided(db, look, approves);
            && i < |d.approvals| && SameRequest(d.approvals[i], db.approvals[i])
            && (d.approvals[i] == db.approvals[i] <==>
                  !(look.index == i && look.copy.status.Requested? && db.approvals[i].status != Outcome(approves)))
  {
  }

  lemma BillEventKeepsApproval(w: World, e: Event, i: nat)
    requires e.CommitsEdit? || e.CommitsDeletion?
    ensures ApprovalKept(w.db, Step(w, e).db, i)
  {
  }

  /** Only requests and committed decisions touch approvals that exist. */
  lemma OthersKeepApproval(w: World, e: Event, i: nat)
    requires Loaded(w) && !e.Serving? && !e.CommitsDecision?
    ensures ApprovalKept(w.db, Step(w, e).db, i)
  {
    if !EventWrites(e) {
      ReadsLeaveTables(w, e);
    } else {
      match e
      case Steps(pid) => if pid in w.processes { AdvanceKeeps(w.db, w.processes[pid], i); }
      case CommitsAdjustment(s, op) => if s in w.snapshots { StockKeeps(w.db, CommitAdjust(op, w.snapshots[s]), i); }
      case CommitsStock(tx, call) => CommitKeeps(w.db, call, CopiesOf(w, tx), i);
      case StepsOn(pid, tx) => if pid in w.processes { AdvanceOnKeeps(w.db, w.processes[pid], CopiesOf(w, tx), i); }
      case _ => BillEventKeepsApproval(w, e, i);
    }
  }

  /** A step leaves request `i` as it is exactly unless it changes it, and never more than its status. */
  lemma StepChangesIff(w: World, e: Event, i: nat)
    requires Loaded(w) && LooksFit(w) && i < |w.db.approvals|
    ensures i < |Step(w, e).db.approvals| && SameRequest(Step(w, e).db.approvals[i], w.db.approvals[i])
    ensures Step(w, e).db.approvals[i] == w.db.approvals[i] <==> !Changes(w, e, i)
  {
    if e.Serving? {
      ServeChangesIff(w.db, e.request, i);
    } else if e.CommitsDecision? {
      if e.decision in w.looks { CommitChangesIff(w.db, w.looks[e.decision], e.approves, i); }
    } else {
      OthersKeepApproval(w, e, i);
    }
  }

  lemma RewrittenKeeps(db: Db, bill: Bill)
    requires IdsMatch(db)
    ensures Keeps(db, db.(bills := db.bills[bill.id := bill]), {})
  {
  }

  lemma StockEventKeeps(w: World, e: Event)
    requires Loaded(w) && TouchesStock(e)
    ensures Keeps(w.db, Step(w, e).db, RemovedBy(w, e))
  {
    match e
    case Serving(r) => ServeKeepsRest(w.db, r);
    case Steps(pid) => if pid in w.processes { AdvanceKeeps(w.db, w.processes[pid], 0); }
    case CommitsAdjustment(s, op) => if s in w.snapshots { StockKeeps(w.db, CommitAdjust(op, w.snapshots[s]), 0); }
    case CommitsStock(tx, call) => CommitKeeps(w.db, call, CopiesOf(w, tx), 0);
    case StepsOn(pid, tx) => if pid in w.processes { AdvanceOnKeeps(w.db, w.processes[pid], CopiesOf(w, tx), 0); }
  }

  lemma WriteKeeps(w: World, e: Event)
    requires Loaded(w) && (e.CommitsDecision? || e.CommitsEdit?)
    ensures Keeps(w.db, Step(w, e).db, RemovedBy(w, e))
  {
    if e.CommitsDecision? {
      if e.decision in w.looks { DecidedKeeps(w.db, w.looks[e.decision], e.approves); }
    } else if e.edit in w.drafts {
      RewrittenKeeps(w.db, Rewritten(w.drafts[e.edit], e.edited, e.target));
    }
  }

  lemma DeletionCommitKeeps(w: World, e: Event)
    requires Loaded(w) && e.CommitsDeletion?
    ensures Keeps(w.db, Step(w, e).db, RemovedBy(w, e))
  {
  }

  lemma ReadKeeps(w: World, e: Event)
    requires Loaded(w) && !TouchesStock(e) && !e.CommitsDecision? && !e.CommitsEdit? && !e.CommitsDeletion?
    ensures Step(w, e).db == w.db && RemovedBy(w, e) == {}
  {
    ReadsLeaveTables(w, e);
  }

  lemma StepKeeps(w: World, e: Event)
    requires Loaded(w)
    ensures Keeps(w.db, Step(w, e).db, RemovedBy(w, e))
  {
    if TouchesStock(e) {
      StockEventKeeps(w, e);
    } else if e.CommitsDecision? || e.CommitsEdit? {
      WriteKeeps(w, e);
    } else if e.CommitsDeletion? {
      DeletionCommitKeeps(w, e);
    } else {
      ReadKeeps(w, e);
    }
  }

  lemma StepProcess(w: World, e: Event, pid: nat)
    requires Loaded(w) && pid in Step(w, e).processes
    ensures var p := Step(w, e).processes[pid];
            p.Process? ==>
              || p.bill.id in w.db.bills
              || (pid in w.processes && w.processes[pid].Process? && w.processes[pid].bill == p.bill)
  {
    if e.Steps? && e.pid == pid {
      AdvanceKeepsProcess(w.db, w.processes[pid]);
    } else if e.StepsOn? && e.pid == pid {
      AdvanceOnFrame(w.db, w.processes[pid], CopiesOf(w, e.tx));
      AdvanceKeepsProcess(w.db, w.processes[pid]);
    } else if pid in w.processes {
      OtherCall(w, e, pid);
    } else {
      NewCall(w, e, pid);
    }
  }

  lemma StepDraft(w: World, e: Event, draft: nat)
    requires Loaded(w) && draft in Step(w, e).drafts
    ensures Step(w, e).drafts[draft].id in w.db.bills
  {
    DraftRead(w, e, draft);
  }

  lemma StepLooks(w: World, e: Event)
    requires Loaded(w) && LooksFit(w)
    ensures LooksFit(Step(w, e))
  {
    forall d <- Step(w, e).looks
      ensures var look := Step(w, e).looks[d];
              look.index < |Step(w, e).db.approvals| && SameRequest(look.copy, Step(w, e).db.approvals[look.index])
    {
      LookFits(w, e, d);
    }
  }

  lemma LookFits(w: World, e: Event, d: nat)
    requires Loaded(w) && LooksFit(w) && d in Step(w, e).looks
    ensures var look := Step(w, e).looks[d];
            look.index < |Step(w, e).db.approvals| && SameRequest(look.copy, Step(w, e).db.approvals[look.index])
  {
    if !(e.ReadsApproval? && e.decision == d && e.approval < |w.db.approvals|) {
      OtherLook(w, e, d);
      StepChangesIff(w, e, w.looks[d].index);
    }
  }

  lemma StepLoaded(w: World, e: Event)
    requires Loaded(w) && LooksFit(w)
    ensures Loaded(Step(w, e)) && LooksFit(Step(w, e))
  {
    StepKeeps(w, e);
    StepLooks(w, e);
    forall pid <- Step(w, e).processes
      ensures Step(w, e).processes[pid].Process? ==> Step(w, e).processes[pid].bill.id in Step(w, e).db.bills
    {
      StepProcess(w, e, pid);
    }
    forall draft <- Step(w, e).drafts ensures Step(w, e).drafts[draft].id in Step(w, e).db.bills {
      StepDraft(w, e, draft);
    }
  }

  /** The bills a run deletes. */
  function RemovedIn(w: World, es: seq<Event>): set<Id>
    decreases |es|
  {
    if es == [] then {} else RemovedBy(w, es[0]) + RemovedIn(Step(w, es[0]), es[1..])
  }

  lemma {:induction false} RunKeeps(w: World, es: seq<Event>)
    requires Loaded(w) && LooksFit(w)
    ensures Keeps(w.db, StepAll(w, es).db, RemovedIn(w, es))
    decreases |es|
  {
    if es != [] {
      StepKeeps(w, es[0]);
      StepLoaded(w, es[0]);
      RunKeeps(Step(w, es[0]), es[1..]);
    }
  }

  predicate NoneChanges(w: World, es: seq<Event>, i: nat)
    decreases |es|
  {
    es == [] || (i < |w.db.approvals| && !Changes(w, es[0], i) && NoneChanges(Step(w, es[0]), es[1..], i))
  }

  /** The request is the same in every state of the run. */
  predicate KeptThroughout(w: World, es: seq<Event>, i: nat)
    decreases |es|
  {
    es == [] || (ApprovalKept(w.db, Step(w, es[0]).db, i) && KeptThroughout(Step(w, es[0]), es[1..], i))
  }

  lemma {:induction false} KeptIffNoneChanges(w: World, es: seq<Event>, i: nat)
    requires Loaded(w) && LooksFit(w) && i < |w.db.approvals|
    ensures KeptThroughout(w, es, i) <==> NoneChanges(w, es, i)
    ensures KeptThroughout(w, es, i) ==> ApprovalKept(w.db, StepAll(w, es).db, i)
    decreases |es|
  {
    if es != [] {
      StepChangesIff(w, es[0], i);
      StepLoaded(w, es[0]);
      KeptIffNoneChanges(Step(w, es[0]), es[1..], i);
    }
  }

  /** The event commits, with another outcome, a decision that was read before `i` was decided. */
  predicate Overwrites(w: World, e: Event, i: nat) {
    && e.CommitsDecision? && e.decision in w.looks && w.looks[e.decision].index == i < |w.db.approvals|
    && w.looks[e.decision].copy.status.Requested? && !w.db.approvals[i].status.Requested?
    && w.db.approvals[i].status != Outcome(e.approves)
  }

  predicate NoneOverwrites(w: World, es: seq<Event>, i: nat)
    decreases |es|
  {
    es == [] || (!Overwrites(w, es[0], i) && NoneOverwrites(Step(w, es[0]), es[1..], i))
  }

  /** Over every interleaving a decided request keeps its decision in all states exactly when no other
      decision is committed on a read that is outdated. */
  lemma {:induction false} ApprovalStays(w: World, es: seq<Event>, i: nat)
    requires Loaded(w) && LooksFit(w) && i < |w.db.approvals| && !w.db.approvals[i].status.Requested?
    ensures KeptThroughout(w, es, i) <==> NoneOverwrites(w, es, i)
    ensures KeptThroughout(w, es, i) ==> ApprovalKept(w.db, StepAll(w, es).db, i)
    decreases |es|
  {
    if es != [] {
      StepChangesIff(w, es[0], i);
      StepLoaded(w, es[0]);
      if !Overwrites(w, es[0], i) {
        ApprovalStays(Step(w, es[0]), es[1..], i);
      }
    }
  }

  predicate Blocked(evaluation: Evaluation) {
    && !evaluation.canDispatch && !evaluation.canFulfill
    && evaluation.creditApprovalPending && evaluation.blockReason == Some(CreditPending)
  }

  /** Once the gate has thrown for an order's bill, each of the bill's undecided requests, the one just
      filed among them, blocks dispatch and fulfilment in every run that does not decide it, whatever
      is paid, synced or sold meanwhile, exactly unless the run deletes the bill: then no query finds
      it any more, and the order goes out unpaid. */
  lemma ThrownGateBlocksOrder(w: World, bill: Bill, user: Id, es: seq<Event>, order: Id, i: nat)
    requires Loaded(w) && LooksFit(w) && AssertCreditLimitForBill(w.db, bill, user).1.Failure?
    requires AssertCreditLimitForBill(w.db, bill, user).1.error.LimitExceeded?
    requires order in w.db.orders && order in w.db.billOfOrder && w.db.billOfOrder[order] == bill.id
    requires bill.id in w.db.bills && bill.id !in w.db.deletedBills
    ensures var w1, filed := Step(w, Serving(GateRequest(bill, user))), |w.db.approvals|;
            && Undecided(w1.db, filed) && w1.db.approvals[filed].bill == bill.id
            && (Undecided(w1.db, i) && w1.db.approvals[i].bill == bill.id && NoneChanges(w1, es, i) ==>
                  var evaluation := EvaluateOrder(StepAll(w1, es).db, order);
                  if bill.id in RemovedIn(w1, es) then evaluation.canDispatch && evaluation.canFulfill
                  else Blocked(evaluation))
  {
    var w1 := Step(w, Serving(GateRequest(bill, user)));
    GateFilesOneRequest(w.db, bill, user);
    StepKeeps(w, Serving(GateRequest(bill, user)));
    StepLoaded(w, Serving(GateRequest(bill, user)));
    if Undecided(w1.db, i) && w1.db.approvals[i].bill == bill.id && NoneChanges(w1, es, i) {
      KeptIffNoneChanges(w1, es, i);
      RunKeeps(w1, es);
      PendingBlocksUnlessDeleted(StepAll(w1, es).db, bill.id, i, order);
    }
  }

  lemma PendingBlocksUnlessDeleted(db: Db, bill: Id, i: nat, order: Id)
    requires Undecided(db, i) && db.approvals[i].bill == bill && IdsMatch(db)
    requires order in db.orders && order in db.billOfOrder && db.billOfOrder[order] == bill && bill in db.bills
    ensures var evaluation := EvaluateOrder(db, order);
            if bill in db.deletedBills then evaluation.canDispatch && evaluation.canFulfill else Blocked(evaluation)
  {
    assert HasApproval(db, bill, Requested);
  }

  predicate GateFiles(db: Db, bill: Bill, user: Id) {
    AssertCreditLimitForBill(db, bill, user).1.Failure? && AssertCreditLimitForBill(db, bill, user).1.error.LimitExceeded?
  }

  /** After an approval the gate never sends the bill for approval again, as long as the approval is
      not overwritten. */
  lemma ApprovedBillPassesGate(w: World, i: nat, es: seq<Event>, bill: Bill, user: Id)
    requires Loaded(w) && LooksFit(w) && i < |w.db.approvals| && NoneOverwrites(w, es, i)
    requires w.db.approvals[i].status == Approved && w.db.approvals[i].bill == bill.id
    ensures var db := StepAll(w, es).db; AssertCreditLimitForBill(db, bill, user).0 == db && !GateFiles(db, bill, user)
  {
    ApprovalStays(w, es, i);
    var db := StepAll(w, es).db;
    assert db.approvals[i] == w.db.approvals[i];
    assert HasApproval(db, bill.id, Approved);
  }

  // ---- two decisions at once ----

  lemma StepTwice(w: World, a: Event, b: Event)
    ensures StepAll(w, [a, b]) == Step(Step(w, a), b)
  {
    assert [a, b][1..] == [b] && [b][1..] == [];
    assert StepAll(Step(w, a), [b]) == StepAll(Step(Step(w, a), b), []);
  }

  /** Only request `i` stands between the bill and a new request. */
  predicate HangsOn(db: Db, bill: Bill, i: nat) {
    && bill.saleType.Credit? && bill.customer.Some? && bill.customer.value in db.customers
    && i < |db.approvals| && db.approvals[i].bill == bill.id
    && (var customer := db.customers[bill.customer.value];
        && customer.limit.Some? && customer.balance + bill.total > customer.limit.value
        && !Exempt(db, bill, customer))
    && forall j :: 0 <= j < |db.approvals| && j != i ==>
         !(db.approvals[j].bill == bill.id && db.approvals[j].status.Approved?)
  }

  lemma HangingGate(db: Db, bill: Bill, i: nat, user: Id)
    requires HangsOn(db, bill, i)
    ensures GateFiles(db, bill, user) <==> !db.approvals[i].status.Approved?
  {
    if db.approvals[i].status.Approved? {
      assert HasApproval(db, bill.id, Approved);
    }
  }

  lemma HangsStill(db: Db, bill: Bill, i: nat, status: ApprovalStatus)
    requires HangsOn(db, bill, i)
    ensures HangsOn(db.(approvals := db.approvals[i := db.approvals[i].(status := status)]), bill, i)
  {
  }

  lemma CommitSaves(w: World, d: nat, copy: Approval, i: nat, approves: bool)
    requires d in w.looks && w.looks[d] == Look(i, copy) && i < |w.db.approvals| && copy.status.Requested?
    ensures var w1 := Step(w, CommitsDecision(d, approves));
            && w1.db == w.db.(approvals := w.db.approvals[i := copy.(status := Outcome(approves))])
            && w1.looks == w.looks - {d}
  {
  }

  lemma BothRead(w: World, i: nat)
    requires Undecided(w.db, i)
    ensures var read, look := StepAll(w, [ReadsApproval(1, i), ReadsApproval(2, i)]), Look(i, w.db.approvals[i]);
            read.db == w.db && 1 in read.looks && read.looks[1] == look && 2 in read.looks && read.looks[2] == look
  {
    StepTwice(w, ReadsApproval(1, i), ReadsApproval(2, i));
  }

  /** Both handlers read the pending request; the approval is saved, and the gate passes; then the
      rejection is saved over it, and the gate files a second request. */
  lemma OverlappingDecisionsOverwrite(w: World, i: nat, bill: Bill, user: Id)
    requires HangsOn(w.db, bill, i) && Undecided(w.db, i)
    ensures var read := StepAll(w, [ReadsApproval(1, i), ReadsApproval(2, i)]);
            var approved := Step(read, CommitsDecision(1, true));
            var rejected := Step(approved, CommitsDecision(2, false));
            && HangsOn(approved.db, bill, i) && approved.db.approvals[i].status == Approved
            && !GateFiles(approved.db, bill, user)
            && HangsOn(rejected.db, bill, i) && rejected.db.approvals[i].status == Rejected
            && GateFiles(rejected.db, bill, user) && Overwrites(approved, CommitsDecision(2, false), i)
  {
    BothRead(w, i);
    var read := StepAll(w, [ReadsApproval(1, i), ReadsApproval(2, i)]);
    var approved := Step(read, CommitsDecision(1, true));
    var rejected := Step(approved, CommitsDecision(2, false));
    CommitSaves(read, 1, w.db.approvals[i], i, true);
    CommitSaves(approved, 2, w.db.approvals[i], i, false);
    assert rejected.db == w.db.(approvals := w.db.approvals[i := w.db.approvals[i].(status := Rejected)]);
    HangsStill(w.db, bill, i, Approved);
    HangsStill(w.db, bill, i, Rejected);
    HangingGate(approved.db, bill, i, user);
    HangingGate(rejected.db, bill, i, user);
  }
}
