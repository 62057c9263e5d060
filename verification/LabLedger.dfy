/** The Lab escrow tables and the reconciliation rules over them.

    A task may be bound to a coin hold; a settled or refunded hold has journal entries
    saying who received the money, a v2 hold also has a receipt, and every credit to a
    user account shows up as a positive user transaction.  `AnomalyBag` is the bag of
    findings the reconciliation reports for a snapshot. */
module LabLedger {
  import opened Bags

  // ---------------------------------------------------------------- rows

  datatype TaskStatus =
    | Draft | Funded | Assigned | Running | Review | Rejected
    | Completed | Failed | Expired | Cancelled
    | UnknownTaskStatus(text: string)

  datatype HoldStatus = Held | Settled | Refunded | UnknownHoldStatus(text: string)

  datatype Version = V1 | V2 | OtherVersion(text: string)

  datatype Action = Settle | Refund | OtherAction(text: string)

  /** A recipient key: `treasury:<slug>`, `sink`, or a user id. */
  datatype Recipient = Treasury(slug: string) | Sink | User(id: string)

  datatype Task = Task(
    id: string, status: TaskStatus, holdId: Option<string>, issuer: Option<string>,
    acceptedRun: Option<string>)

  datatype Hold = Hold(
    id: string, status: HoldStatus, amount: int, reason: Option<string>, owner: Option<string>,
    version: Version)

  datatype Entry = Entry(
    id: string, holdId: string, action: Action, recipient: Recipient, amount: int,
    operationKey: string, reason: Option<string>)

  /** `amount` is None when the column holds no integer. */
  datatype Transaction = Transaction(
    id: string, user: Option<string>, amount: Option<int>, reason: Option<string>)

  datatype TreasuryRow = TreasuryRow(slug: string, balance: int)

  datatype Receipt = Receipt(id: string, holdId: string, amount: int, journalCount: int)

  datatype Command = Command(id: string, operation: string, taskId: string, holdId: string, failed: bool)

  datatype Snapshot = Snapshot(
    tasks: seq<Task>, holds: seq<Hold>, entries: seq<Entry>, transactions: seq<Transaction>,
    treasuries: seq<TreasuryRow>, receipts: seq<Receipt>, commands: seq<Command>)

  // ---------------------------------------------------------------- findings

  datatype Anomaly =
    | TaskMissingHoldBinding(taskId: string, taskStatus: TaskStatus)
    | TaskReferencesMissingHold(taskId: string, holdId: string)
    | TaskHoldReasonConflict(taskId: string, holdId: string, holdReason: Option<string>)
    | TaskHoldOwnerConflict(taskId: string, holdId: string, issuer: string, owner: Option<string>)
    | HoldReasonInvalid(holdId: string, holdReason: Option<string>)
    | HoldReferencesMissingTask(holdId: string, taskId: string)
    | HoldTaskLinkConflict(holdId: string, taskId: string, taskHoldId: Option<string>)
    | JournalReferencesMissingHold(entryId: string, holdId: string)
    | ReceiptReferencesMissingHold(receiptId: string, holdId: string)
    | FailedCommandHasHeldEscrow(commandId: string, operation: string, taskId: string, holdId: string)
    | DuplicateOperationKey(operationKey: string, count: nat)
    | DuplicateTerminalRecipient(holdId: string, action: Action, recipient: Recipient, count: nat)
    | HoldLinkedToMultipleTasks(holdId: string, taskIds: multiset<string>)
    | TaskLinkedToMultipleHolds(taskId: string, holdIds: multiset<string>)
    | HeldHoldHasTerminalTask(holdId: string, taskId: string, taskStatus: TaskStatus)
    | SettledHoldTaskConflict(holdId: string, task: Option<Task>)
    | RefundedHoldTaskConflict(holdId: string, task: Option<Task>)
    | NonterminalHoldHasJournal(holdId: string, v2: bool, entryCount: nat)
    | NonterminalHoldHasReceipt(holdId: string, receiptCount: nat)
    | MissingJournal(holdId: string, status: HoldStatus)
    | MissingReceipt(holdId: string, status: HoldStatus)
    | MultipleReceipts(holdId: string, receiptIds: multiset<string>)
    | ReceiptAmountMismatch(holdId: string, holdAmount: int, receiptAmount: int)
    | ReceiptJournalCountMismatch(holdId: string, declaredCount: int, entryCount: nat)
    | TerminalActionConflict(holdId: string, status: HoldStatus, actions: set<Action>)
    | ConservationMismatch(holdId: string, holdAmount: int, journalTotal: int)
    | JournalEntryMissingReason(holdId: string, entryId: string)
    | MissingTreasuryAccount(holdId: string, recipient: Recipient)
    | UserTransactionMismatch(
        account: Account, holds: set<string>, expectedAmount: int, actualAmount: int,
        expectedCount: nat, actualCount: nat)
    | UnexpectedUserTransaction(account: Account, actual: Bucket)

  function When(condition: bool, finding: Anomaly): (r: multiset<Anomaly>) {
    if condition then multiset{finding} else multiset{}
  }

  // ---------------------------------------------------------------- user postings

  /** The key under which user credits are compared: who, and for which reason. */
  datatype Account = Account(user: string, reason: string)

  /** One amount booked on an account; `ref` is a hold id or a transaction id. */
  datatype Posting = Posting(account: Account, amount: int, ref: string)

  datatype Bucket = Bucket(amount: int, count: nat, refs: multiset<string>)

  function AccountOf(p: Posting): Account { p.account }

  function PostedAmount(p: Posting): int { p.amount }

  function RefBag(p: Posting): multiset<string> { multiset{p.ref} }

  /** What an account received in total. */
  function BucketOf(ps: seq<Posting>, k: Account): Bucket {
    var mine := Where(ps, Labelled(AccountOf, k));
    Bucket(Total(mine, PostedAmount), |mine|, Collect(mine, RefBag))
  }

  /** A bucket with one more posting on it. */
  function AddTo(b: Bucket, p: Posting): Bucket {
    Bucket(b.amount + p.amount, b.count + 1, b.refs + multiset{p.ref})
  }

  lemma BucketOneMore(ps: seq<Posting>, p: Posting, k: Account)
    ensures p.account != k ==> BucketOf(ps + [p], k) == BucketOf(ps, k)
    ensures p.account == k ==> BucketOf(ps + [p], k) == AddTo(BucketOf(ps, k), p)
  {
    var mine := Where(ps, Labelled(AccountOf, k));
    WhereOneMore(ps, p, Labelled(AccountOf, k), PostedAmount);
    if p.account == k {
      assert (mine + [p])[..|mine + [p]| - 1] == mine;
      assert Collect(mine + [p], RefBag) == Collect(mine, RefBag) + multiset{p.ref};
    }
  }

  const LAB_TASK := "lab_task:"

  /** The task a hold belongs to, read from its reason (`lab_task:<id>`, id not empty). */
  function HoldTaskId(reason: Option<string>): Option<string> {
    if reason.Some? && LAB_TASK <= reason.value && |reason.value| > |LAB_TASK|
    then Some(reason.value[|LAB_TASK|..])
    else None
  }

  /** Writing a task id into a reason and reading it back, both ways. */
  lemma HoldTaskIdRoundTrip(reason: Option<string>, id: string)
    ensures HoldTaskId(reason) == Some(id) <==> id != "" && reason == Some(LAB_TASK + id)
  {
    if reason.Some? && LAB_TASK <= reason.value {
      assert reason.value == LAB_TASK + reason.value[|LAB_TASK|..];
    }
    assert (LAB_TASK + id)[|LAB_TASK|..] == id;
  }

  const TERMINAL_REASON_PREFIXES: seq<string> := [
    "lab_reward:", "lab_treasury:", "lab_fee:", "lab_accept:", "lab_auto_release:",
    "lab_arbitrate_settle:", "lab_cancel:", "lab_fail:", "lab_expire:", "lab_arbitrate_refund:"]

  predicate IsTerminalReason(reason: string) {
    exists i :: 0 <= i < |TERMINAL_REASON_PREFIXES| && TERMINAL_REASON_PREFIXES[i] <= reason
  }

  /** Only positive amounts with a user and a reason count as user postings. */
  function TransactionPosting(t: Transaction): seq<Posting> {
    if t.amount.Some? && t.amount.value > 0 && t.reason.Some? && t.user.Some?
    then [Posting(Account(t.user.value, t.reason.value), t.amount.value, t.id)]
    else []
  }

  function ActualPostings(s: Snapshot): seq<Posting> {
    Concat(s.transactions, TransactionPosting)
  }

  // ---------------------------------------------------------------- keys and groups

  function TaskKey(t: Task): string { t.id }
  function HoldKey(h: Hold): string { h.id }
  function TaskHold(t: Task): Option<string> { t.holdId }
  function HoldTask(h: Hold): Option<string> { HoldTaskId(h.reason) }
  function EntryHold(e: Entry): Option<string> { Some(e.holdId) }
  function ReceiptHold(r: Receipt): Option<string> { Some(r.holdId) }
  function OperationOf(e: Entry): Option<string> { Some(e.operationKey) }
  function TerminalKeyOf(e: Entry): Option<TerminalKey> { Some(TerminalKey(e.holdId, e.action, e.recipient)) }

  datatype TerminalKey = TerminalKey(holdId: string, action: Action, recipient: Recipient)

  /** The keys a row contributes to a dictionary: none or one. */
  function Refs<K(!new), V(!new)>(key: V -> Option<K>): V -> seq<K> {
    (v: V) => if key(v).Some? then [key(v).value] else []
  }

  /** The keys of the dictionary filled from `rows`, in insertion order. */
  function GroupKeys<K(==, !new), V(!new)>(rows: seq<V>, key: V -> Option<K>): seq<K> {
    Distinct(Concat(rows, Refs(key)))
  }

  /** The rows filed under one key of that dictionary. */
  function Group<K(==, !new), V(!new)>(rows: seq<V>, key: V -> Option<K>, k: K): seq<V> {
    Where(rows, Labelled(key, Some(k)))
  }

  function TaskIdBag(t: Task): multiset<string> { multiset{t.id} }
  function HoldIdBag(h: Hold): multiset<string> { multiset{h.id} }
  function ReceiptIdBag(r: Receipt): multiset<string> { multiset{r.id} }
  function EntryAmount(e: Entry): int { e.amount }
  function Slugs(s: Snapshot): set<string> { set t | t in s.treasuries :: t.slug }

  predicate IsTerminalTask(status: TaskStatus) {
    status in {Completed, Failed, Expired, Cancelled}
  }

  predicate IsRefundedTask(status: TaskStatus) {
    status in {Failed, Expired, Cancelled}
  }

  predicate IsTerminalHold(status: HoldStatus) {
    status == Settled || status == Refunded
  }

  // ---------------------------------------------------------------- row rules

  function TaskAnomalies(holds: map<string, Hold>, t: Task): multiset<Anomaly> {
    match t.holdId
    case None => When(t.status != Draft, TaskMissingHoldBinding(t.id, t.status))
    case Some(h) =>
      if h !in holds then multiset{TaskReferencesMissingHold(t.id, h)}
      else
        When(holds[h].reason != Some(LAB_TASK + t.id), TaskHoldReasonConflict(t.id, h, holds[h].reason))
        + (if t.issuer.Some? && t.issuer.value != "" && holds[h].owner != t.issuer
           then multiset{TaskHoldOwnerConflict(t.id, h, t.issuer.value, holds[h].owner)} else multiset{})
  }

  function HoldLinkAnomalies(tasks: map<string, Task>, h: Hold): multiset<Anomaly> {
    match HoldTaskId(h.reason)
    case None => multiset{HoldReasonInvalid(h.id, h.reason)}
    case Some(t) =>
      if t !in tasks then multiset{HoldReferencesMissingTask(h.id, t)}
      else When(tasks[t].holdId != Some(h.id), HoldTaskLinkConflict(h.id, t, tasks[t].holdId))
  }

  function EntryLinkAnomalies(holds: map<string, Hold>, e: Entry): multiset<Anomaly> {
    When(e.holdId !in holds, JournalReferencesMissingHold(e.id, e.holdId))
  }

  function ReceiptLinkAnomalies(holds: map<string, Hold>, r: Receipt): multiset<Anomaly> {
    When(r.holdId !in holds, ReceiptReferencesMissingHold(r.id, r.holdId))
  }

  predicate CommandStuck(tasks: map<string, Task>, holds: map<string, Hold>, c: Command) {
    c.failed && c.taskId in tasks && c.holdId in holds
    && !IsTerminalTask(tasks[c.taskId].status) && holds[c.holdId].status == Held
  }

  function CommandAnomalies(tasks: map<string, Task>, holds: map<string, Hold>, c: Command): multiset<Anomaly> {
    When(CommandStuck(tasks, holds, c), FailedCommandHasHeldEscrow(c.id, c.operation, c.taskId, c.holdId))
  }

  function OperationAnomalies(k: string, sharing: seq<Entry>): multiset<Anomaly> {
    When(|sharing| > 1, DuplicateOperationKey(k, |sharing|))
  }

  function RecipientAnomalies(k: TerminalKey, sharing: seq<Entry>): multiset<Anomaly> {
    When(|sharing| > 1, DuplicateTerminalRecipient(k.holdId, k.action, k.recipient, |sharing|))
  }

  function MultipleTaskAnomalies(k: string, linked: seq<Task>): multiset<Anomaly> {
    When(|linked| > 1, HoldLinkedToMultipleTasks(k, Collect(linked, TaskIdBag)))
  }

  function MultipleHoldAnomalies(k: string, linked: seq<Hold>): multiset<Anomaly> {
    When(|linked| > 1, TaskLinkedToMultipleHolds(k, Collect(linked, HoldIdBag)))
  }

  // ---------------------------------------------------------------- the review of one hold

  function SoleTask(linked: seq<Task>): Option<Task> {
    if |linked| == 1 then Some(linked[0]) else None
  }

  function StatusAnomalies(id: string, hold: Hold, task: Option<Task>): multiset<Anomaly> {
    (if hold.status == Held && task.Some? && IsTerminalTask(task.value.status)
     then multiset{HeldHoldHasTerminalTask(id, task.value.id, task.value.status)} else multiset{})
    + When(hold.status == Settled && !(task.Some? && task.value.status == Completed),
           SettledHoldTaskConflict(id, task))
    + When(hold.status == Refunded && !(task.Some? && IsRefundedTask(task.value.status)),
           RefundedHoldTaskConflict(id, task))
  }

  function HeldAnomalies(id: string, hold: Hold, entries: seq<Entry>, receipts: seq<Receipt>): multiset<Anomaly> {
    When(hold.status == Held && entries != [], NonterminalHoldHasJournal(id, hold.version == V2, |entries|))
    + When(hold.status == Held && receipts != [], NonterminalHoldHasReceipt(id, |receipts|))
  }

  function ReceiptAnomalies(id: string, hold: Hold, entries: seq<Entry>, receipts: seq<Receipt>): multiset<Anomaly> {
    if receipts == [] then multiset{MissingReceipt(id, hold.status)}
    else if |receipts| > 1 then multiset{MultipleReceipts(id, Collect(receipts, ReceiptIdBag))}
    else
      When(receipts[0].amount != hold.amount, ReceiptAmountMismatch(id, hold.amount, receipts[0].amount))
      + When(receipts[0].journalCount != |entries|,
             ReceiptJournalCountMismatch(id, receipts[0].journalCount, |entries|))
  }

  function V2Anomalies(id: string, hold: Hold, entries: seq<Entry>, receipts: seq<Receipt>): multiset<Anomaly> {
    if hold.version == V2
    then When(entries == [], MissingJournal(id, hold.status)) + ReceiptAnomalies(id, hold, entries, receipts)
    else multiset{}
  }

  function ExpectedAction(status: HoldStatus): Action {
    if status == Settled then Settle else Refund
  }

  function Actions(entries: seq<Entry>): set<Action> {
    set e | e in entries :: e.action
  }

  function HasReason(e: Entry): bool { e.reason.Some? && e.reason.value != "" }

  function EntryAnomalies(id: string, slugs: set<string>): Entry -> multiset<Anomaly> {
    (e: Entry) =>
      if !HasReason(e) then multiset{JournalEntryMissingReason(id, e.id)}
      else When(e.recipient.Treasury? && e.recipient.slug !in slugs, MissingTreasuryAccount(id, e.recipient))
  }

  /** The user posting a journal entry calls for: treasury and sink shares call for none. */
  function EntryPosting(id: string): Entry -> seq<Posting> {
    (e: Entry) =>
      if HasReason(e) && e.recipient.User?
      then [Posting(Account(e.recipient.id, e.reason.value), e.amount, id)] else []
  }

  function JournalAnomalies(id: string, hold: Hold, entries: seq<Entry>, slugs: set<string>): multiset<Anomaly> {
    if entries == [] then multiset{}
    else
      When(Actions(entries) != {ExpectedAction(hold.status)},
           TerminalActionConflict(id, hold.status, Actions(entries)))
      + When(Total(entries, EntryAmount) != hold.amount,
             ConservationMismatch(id, hold.amount, Total(entries, EntryAmount)))
      + Collect(entries, EntryAnomalies(id, slugs))
  }

  function HoldAnomalies(
    id: string, hold: Hold, linked: seq<Task>, entries: seq<Entry>, receipts: seq<Receipt>, slugs: set<string>)
    : multiset<Anomaly>
  {
    StatusAnomalies(id, hold, SoleTask(linked))
    + HeldAnomalies(id, hold, entries, receipts)
    + if !IsTerminalHold(hold.status) then multiset{}
      else V2Anomalies(id, hold, entries, receipts) + JournalAnomalies(id, hold, entries, slugs)
  }

  function HoldPostings(id: string, hold: Hold, entries: seq<Entry>): seq<Posting> {
    if IsTerminalHold(hold.status) then Concat(entries, EntryPosting(id)) else []
  }

  // ---------------------------------------------------------------- the rules on a snapshot

  function TaskIndex(s: Snapshot): map<string, Task> { Index(s.tasks, TaskKey) }
  function HoldIndex(s: Snapshot): map<string, Hold> { Index(s.holds, HoldKey) }
  function HoldIds(s: Snapshot): seq<string> { Distinct(Map(s.holds, HoldKey)) }

  function TaskRule(holds: map<string, Hold>): Task -> multiset<Anomaly> {
    (t: Task) => TaskAnomalies(holds, t)
  }
  function HoldLinkRule(tasks: map<string, Task>): Hold -> multiset<Anomaly> {
    (h: Hold) => HoldLinkAnomalies(tasks, h)
  }
  function EntryLinkRule(holds: map<string, Hold>): Entry -> multiset<Anomaly> {
    (e: Entry) => EntryLinkAnomalies(holds, e)
  }
  function ReceiptLinkRule(holds: map<string, Hold>): Receipt -> multiset<Anomaly> {
    (r: Receipt) => ReceiptLinkAnomalies(holds, r)
  }
  function CommandRule(tasks: map<string, Task>, holds: map<string, Hold>): Command -> multiset<Anomaly> {
    (c: Command) => CommandAnomalies(tasks, holds, c)
  }
  function OperationRule(entries: seq<Entry>): string -> multiset<Anomaly> {
    (k: string) => OperationAnomalies(k, Group(entries, OperationOf, k))
  }
  function RecipientRule(entries: seq<Entry>): TerminalKey -> multiset<Anomaly> {
    (k: TerminalKey) => RecipientAnomalies(k, Group(entries, TerminalKeyOf, k))
  }
  function MultipleTaskRule(tasks: seq<Task>): string -> multiset<Anomaly> {
    (k: string) => MultipleTaskAnomalies(k, Group(tasks, TaskHold, k))
  }
  function MultipleHoldRule(holds: seq<Hold>): string -> multiset<Anomaly> {
    (k: string) => MultipleHoldAnomalies(k, Group(holds, HoldTask, k))
  }
  function HoldRule(s: Snapshot): string -> multiset<Anomaly> {
    (k: string) =>
      if k !in HoldIndex(s) then multiset{}
      else HoldAnomalies(k, HoldIndex(s)[k], Group(s.tasks, TaskHold, k), Group(s.entries, EntryHold, k),
                         Group(s.receipts, ReceiptHold, k), Slugs(s))
  }
  function PostingRule(s: Snapshot): string -> seq<Posting> {
    (k: string) =>
      if k !in HoldIndex(s) then []
      else HoldPostings(k, HoldIndex(s)[k], Group(s.entries, EntryHold, k))
  }

  /** The user postings the journal calls for, hold by hold. */
  function ExpectedPostings(s: Snapshot): seq<Posting> {
    Concat(HoldIds(s), PostingRule(s))
  }

  function Accounts(ps: seq<Posting>): seq<Account> {
    Distinct(Map(ps, AccountOf))
  }

  function RefSet(refs: multiset<string>): set<string> {
    set r | r in refs
  }

  function MismatchRule(expected: seq<Posting>, actual: seq<Posting>): Account -> multiset<Anomaly> {
    (k: Account) =>
      var want, got := BucketOf(expected, k), BucketOf(actual, k);
      When(got.amount != want.amount || got.count != want.count,
           UserTransactionMismatch(k, RefSet(want.refs), want.amount, got.amount, want.count, got.count))
  }

  function UnexpectedRule(expected: seq<Posting>, actual: seq<Posting>): Account -> multiset<Anomaly> {
    (k: Account) =>
      When(IsTerminalReason(k.reason) && k !in Accounts(expected),
           UnexpectedUserTransaction(k, BucketOf(actual, k)))
  }

  function RowAnomalies(s: Snapshot): multiset<Anomaly> {
    Collect(s.tasks, TaskRule(HoldIndex(s)))
    + Collect(s.holds, HoldLinkRule(TaskIndex(s)))
    + Collect(s.entries, EntryLinkRule(HoldIndex(s)))
    + Collect(s.receipts, ReceiptLinkRule(HoldIndex(s)))
    + Collect(s.commands, CommandRule(TaskIndex(s), HoldIndex(s)))
  }

  function KeyAnomalies(s: Snapshot): multiset<Anomaly> {
    Collect(GroupKeys(s.entries, OperationOf), OperationRule(s.entries))
    + Collect(GroupKeys(s.entries, TerminalKeyOf), RecipientRule(s.entries))
    + Collect(GroupKeys(s.tasks, TaskHold), MultipleTaskRule(s.tasks))
    + Collect(GroupKeys(s.holds, HoldTask), MultipleHoldRule(s.holds))
  }

  function AccountAnomalies(expected: seq<Posting>, actual: seq<Posting>): multiset<Anomaly> {
    Collect(Accounts(expected), MismatchRule(expected, actual))
    + Collect(Accounts(actual), UnexpectedRule(expected, actual))
  }

  /** Everything the reconciliation reports. */
  function AnomalyBag(s: Snapshot): multiset<Anomaly> {
    RowAnomalies(s)
    + KeyAnomalies(s)
    + Collect(HoldIds(s), HoldRule(s))
    + AccountAnomalies(ExpectedPostings(s), ActualPostings(s))
  }
}
