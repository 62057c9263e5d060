/** What each finding of the reconciliation says about the tables, row by row.

    `Reported` reads a finding back into rows: which rows, with which columns, it stands for.
    A finding is reported exactly when the tables hold such rows. */
module LabFindings {
  import opened Bags
  import opened LabLedger

  // ---------------------------------------------------------------- the rows behind a key

  /** The row that stands for its id: a later row with the same id replaces an earlier one. */
  ghost predicate HoldRow(s: Snapshot, h: Hold) {
    exists i :: 0 <= i < |s.holds| && s.holds[i] == h && forall j :: i < j < |s.holds| ==> s.holds[j].id != h.id
  }

  ghost predicate TaskRow(s: Snapshot, t: Task) {
    exists i :: 0 <= i < |s.tasks| && s.tasks[i] == t && forall j :: i < j < |s.tasks| ==> s.tasks[j].id != t.id
  }

  ghost predicate NoHold(s: Snapshot, id: string) { forall h :: h in s.holds ==> h.id != id }

  ghost predicate NoTask(s: Snapshot, id: string) { forall t :: t in s.tasks ==> t.id != id }

  function TasksOf(s: Snapshot, id: string): seq<Task> { Where(s.tasks, (t: Task) => t.holdId == Some(id)) }

  function EntriesOf(s: Snapshot, id: string): seq<Entry> { Where(s.entries, (e: Entry) => e.holdId == id) }

  function ReceiptsOf(s: Snapshot, id: string): seq<Receipt> { Where(s.receipts, (r: Receipt) => r.holdId == id) }

  /** The holds whose reason names a task. */
  function HoldsFor(s: Snapshot, id: string): seq<Hold> {
    Where(s.holds, (h: Hold) => id != "" && h.reason == Some("lab_task:" + id))
  }

  function EntriesUnder(s: Snapshot, key: string): seq<Entry> {
    Where(s.entries, (e: Entry) => e.operationKey == key)
  }

  function EntriesPaying(s: Snapshot, id: string, action: Action, recipient: Recipient): seq<Entry> {
    Where(s.entries, (e: Entry) => e.holdId == id && e.action == action && e.recipient == recipient)
  }

  // ---------------------------------------------------------------- what a finding stands for

  ghost predicate RowReported(s: Snapshot, a: Anomaly) {
    match a
    case TaskMissingHoldBinding(id, status) =>
      status != Draft && exists t :: t in s.tasks && t.id == id && t.status == status && t.holdId == None
    case TaskReferencesMissingHold(id, k) =>
      NoHold(s, k) && exists t :: t in s.tasks && t.id == id && t.holdId == Some(k)
    case TaskHoldReasonConflict(id, k, reason) =>
      reason != Some("lab_task:" + id)
      && (exists t :: t in s.tasks && t.id == id && t.holdId == Some(k))
      && exists h :: HoldRow(s, h) && h.id == k && h.reason == reason
    case TaskHoldOwnerConflict(id, k, issuer, owner) =>
      issuer != "" && owner != Some(issuer)
      && (exists t :: t in s.tasks && t.id == id && t.holdId == Some(k) && t.issuer == Some(issuer))
      && exists h :: HoldRow(s, h) && h.id == k && h.owner == owner
    case HoldReasonInvalid(k, reason) =>
      (forall id :: reason == Some("lab_task:" + id) ==> id == "")
      && exists h :: h in s.holds && h.id == k && h.reason == reason
    case HoldReferencesMissingTask(k, id) =>
      id != "" && NoTask(s, id) && exists h :: h in s.holds && h.id == k && h.reason == Some("lab_task:" + id)
    case HoldTaskLinkConflict(k, id, other) =>
      id != "" && other != Some(k)
      && (exists h :: h in s.holds && h.id == k && h.reason == Some("lab_task:" + id))
      && exists t :: TaskRow(s, t) && t.id == id && t.holdId == other
    case JournalReferencesMissingHold(id, k) =>
      NoHold(s, k) && exists e :: e in s.entries && e.id == id && e.holdId == k
    case ReceiptReferencesMissingHold(id, k) =>
      NoHold(s, k) && exists r :: r in s.receipts && r.id == id && r.holdId == k
    case FailedCommandHasHeldEscrow(id, operation, taskId, k) =>
      Command(id, operation, taskId, k, true) in s.commands
      && (exists t :: TaskRow(s, t) && t.id == taskId
            && t.status != Completed && t.status != Failed && t.status != Expired && t.status != Cancelled)
      && exists h :: HoldRow(s, h) && h.id == k && h.status == Held
    case _ => false
  }

  ghost predicate KeyReported(s: Snapshot, a: Anomaly) {
    match a
    case DuplicateOperationKey(key, n) => n == |EntriesUnder(s, key)| && n > 1
    case DuplicateTerminalRecipient(k, action, recipient, n) =>
      n == |EntriesPaying(s, k, action, recipient)| && n > 1
    case HoldLinkedToMultipleTasks(k, ids) =>
      |TasksOf(s, k)| > 1 && ids == multiset(Map(TasksOf(s, k), (t: Task) => t.id))
    case TaskLinkedToMultipleHolds(id, ids) =>
      |HoldsFor(s, id)| > 1 && ids == multiset(Map(HoldsFor(s, id), (h: Hold) => h.id))
    case _ => false
  }

  /** A hold against the one task linked to it, or none. */
  ghost predicate StatusReported(h: Hold, linked: seq<Task>, a: Anomaly) {
    match a
    case HeldHoldHasTerminalTask(k, id, status) =>
      k == h.id && h.status == Held && |linked| == 1 && id == linked[0].id && status == linked[0].status
      && (status == Completed || status == Failed || status == Expired || status == Cancelled)
    case SettledHoldTaskConflict(k, task) =>
      k == h.id && h.status == Settled
      && if |linked| == 1 then task == Some(linked[0]) && linked[0].status != Completed else task == None
    case RefundedHoldTaskConflict(k, task) =>
      k == h.id && h.status == Refunded
      && if |linked| == 1
         then task == Some(linked[0]) && linked[0].status != Failed && linked[0].status != Expired
              && linked[0].status != Cancelled
         else task == None
    case _ => false
  }

  /** A hold that should have no journal yet, and one that should have a receipt. */
  ghost predicate ReceiptReported(h: Hold, entries: seq<Entry>, receipts: seq<Receipt>, a: Anomaly) {
    match a
    case NonterminalHoldHasJournal(k, v2, n) =>
      k == h.id && h.status == Held && (v2 <==> h.version == V2) && n == |entries| && n > 0
    case NonterminalHoldHasReceipt(k, n) =>
      k == h.id && h.status == Held && n == |receipts| && n > 0
    case MissingJournal(k, status) => k == h.id && status == h.status && Closed(h) && h.version == V2 && entries == []
    case MissingReceipt(k, status) => k == h.id && status == h.status && Closed(h) && h.version == V2 && receipts == []
    case MultipleReceipts(k, ids) =>
      k == h.id && Closed(h) && h.version == V2 && |receipts| > 1
      && ids == multiset(Map(receipts, (r: Receipt) => r.id))
    case ReceiptAmountMismatch(k, held, written) =>
      k == h.id && Closed(h) && h.version == V2 && |receipts| == 1
      && held == h.amount && written == receipts[0].amount && held != written
    case ReceiptJournalCountMismatch(k, declared, n) =>
      k == h.id && Closed(h) && h.version == V2 && |receipts| == 1
      && declared == receipts[0].journalCount && n == |entries| && declared != n
    case _ => false
  }

  ghost predicate Closed(h: Hold) { h.status == Settled || h.status == Refunded }

  /** The journal of a closed hold. */
  ghost predicate JournalReported(s: Snapshot, h: Hold, entries: seq<Entry>, a: Anomaly) {
    match a
    case TerminalActionConflict(k, status, actions) =>
      && k == h.id && status == h.status && entries != [] && actions == (set e | e in entries :: e.action)
      && (|| (status == Settled && exists e :: e in entries && e.action != Settle)
          || (status == Refunded && exists e :: e in entries && e.action != Refund))
    case ConservationMismatch(k, held, booked) =>
      k == h.id && Closed(h) && entries != []
      && held == h.amount && booked == Total(entries, (e: Entry) => e.amount) && held != booked
    case JournalEntryMissingReason(k, id) =>
      k == h.id && Closed(h)
      && exists e :: e in entries && e.id == id && (e.reason == None || e.reason == Some(""))
    case MissingTreasuryAccount(k, recipient) =>
      k == h.id && Closed(h) && recipient.Treasury? && (forall t :: t in s.treasuries ==> t.slug != recipient.slug)
      && exists e :: e in entries && e.recipient == recipient && e.reason.Some? && e.reason != Some("")
    case _ => false
  }

  ghost predicate HoldReported(s: Snapshot, h: Hold, a: Anomaly) {
    || StatusReported(h, TasksOf(s, h.id), a)
    || ReceiptReported(h, EntriesOf(s, h.id), ReceiptsOf(s, h.id), a)
    || JournalReported(s, h, EntriesOf(s, h.id), a)
  }

  /** The journal entries that credit a user for a reason: those of closed holds. */
  ghost function Credits(s: Snapshot, k: Account): seq<Entry> { Where(s.entries, Crediting(s, k)) }

  ghost function Crediting(s: Snapshot, k: Account): Entry -> bool {
    (e: Entry) =>
      && e.recipient == User(k.user) && e.reason == Some(k.reason) && k.reason != ""
      && exists h :: HoldRow(s, h) && h.id == e.holdId && Closed(h)
  }

  /** The transactions that paid a user for a reason. */
  function Payments(s: Snapshot, k: Account): seq<Transaction> { Where(s.transactions, Paying(k)) }

  function Paying(k: Account): Transaction -> bool {
    (t: Transaction) => t.user == Some(k.user) && t.reason == Some(k.reason) && Paid(t) > 0
  }

  function TransactionId(t: Transaction): string { t.id }

  function Paid(t: Transaction): int { if t.amount.Some? then t.amount.value else 0 }

  ghost predicate EndsATask(reason: string) {
    || "lab_reward:" <= reason || "lab_treasury:" <= reason || "lab_fee:" <= reason || "lab_accept:" <= reason
    || "lab_auto_release:" <= reason || "lab_arbitrate_settle:" <= reason || "lab_cancel:" <= reason
    || "lab_fail:" <= reason || "lab_expire:" <= reason || "lab_arbitrate_refund:" <= reason
  }

  ghost predicate AccountReported(s: Snapshot, a: Anomaly) {
    match a
    case UserTransactionMismatch(k, holds, expected, actual, expectedCount, actualCount) =>
      var credits, payments := Credits(s, k), Payments(s, k);
      && credits != [] && holds == (set e | e in credits :: e.holdId)
      && expected == Total(credits, (e: Entry) => e.amount) && expectedCount == |credits|
      && actual == Total(payments, Paid) && actualCount == |payments|
      && (expected != actual || expectedCount != actualCount)
    case UnexpectedUserTransaction(k, actual) =>
      var payments := Payments(s, k);
      && payments != [] && Credits(s, k) == [] && EndsATask(k.reason)
      && actual == Bucket(Total(payments, Paid), |payments|, multiset(Map(payments, TransactionId)))
    case _ => false
  }

  /** A finding that the tables call for. */
  ghost predicate Reported(s: Snapshot, a: Anomaly) {
    || RowReported(s, a)
    || KeyReported(s, a)
    || (exists h :: HoldRow(s, h) && HoldReported(s, h, a))
    || AccountReported(s, a)
  }

  // ---------------------------------------------------------------- the dictionaries

  /** No later row has the key of this one. */
  ghost predicate IsLast<K(!new), V(!new)>(rows: seq<V>, key: V -> K, v: V) {
    exists i :: 0 <= i < |rows| && rows[i] == v && forall j :: i < j < |rows| ==> key(rows[j]) != key(v)
  }

  lemma LastOneMore<K(!new), V(!new)>(front: seq<V>, last: V, key: V -> K, v: V)
    ensures IsLast(front + [last], key, v) <==> if key(last) == key(v) then last == v else IsLast(front, key, v)
  {
    var rows, n := front + [last], |front|;
    assert rows[n] == last && forall i :: 0 <= i < n ==> rows[i] == front[i];
    if key(last) != key(v) && IsLast(front, key, v) {
      var i :| 0 <= i < n && front[i] == v && forall j :: i < j < n ==> key(front[j]) != key(v);
      assert rows[i] == v;
    }
  }

  lemma {:induction false} IndexIsLast<K(!new), V(!new)>(rows: seq<V>, key: V -> K, v: V)
    ensures key(v) in Index(rows, key) && Index(rows, key)[key(v)] == v <==> IsLast(rows, key, v)
  {
    if rows != [] {
      var front, last := rows[..|rows| - 1], rows[|rows| - 1];
      IndexIsLast(front, key, v);
      LastOneMore(front, last, key, v);
      assert rows == front + [last];
      hide IsLast;
    }
  }

  lemma HoldLookup(s: Snapshot, h: Hold)
    ensures HoldRow(s, h) <==> h.id in HoldIndex(s) && HoldIndex(s)[h.id] == h
  {
    IndexIsLast(s.holds, HoldKey, h);
  }

  lemma TaskLookup(s: Snapshot, t: Task)
    ensures TaskRow(s, t) <==> t.id in TaskIndex(s) && TaskIndex(s)[t.id] == t
  {
    IndexIsLast(s.tasks, TaskKey, t);
  }

  /** Looking a hold up by its id. */
  lemma HoldAt(s: Snapshot, k: string)
    ensures k in HoldIndex(s) <==> !NoHold(s, k)
    ensures k in HoldIndex(s) ==> HoldRow(s, HoldIndex(s)[k]) && HoldIndex(s)[k].id == k
    ensures forall h :: HoldRow(s, h) && h.id == k ==> k in HoldIndex(s) && h == HoldIndex(s)[k]
  {
    if k in HoldIndex(s) {
      HoldLookup(s, HoldIndex(s)[k]);
    }
    forall h | HoldRow(s, h) && h.id == k ensures k in HoldIndex(s) && h == HoldIndex(s)[k] {
      HoldLookup(s, h);
    }
  }

  lemma TaskAt(s: Snapshot, k: string)
    ensures k in TaskIndex(s) <==> !NoTask(s, k)
    ensures k in TaskIndex(s) ==> TaskRow(s, TaskIndex(s)[k]) && TaskIndex(s)[k].id == k
    ensures forall t :: TaskRow(s, t) && t.id == k ==> k in TaskIndex(s) && t == TaskIndex(s)[k]
  {
    if k in TaskIndex(s) {
      TaskLookup(s, TaskIndex(s)[k]);
    }
    forall t | TaskRow(s, t) && t.id == k ensures k in TaskIndex(s) && t == TaskIndex(s)[k] {
      TaskLookup(s, t);
    }
  }

  lemma GroupsAreRows(s: Snapshot, k: string)
    ensures Group(s.tasks, TaskHold, k) == TasksOf(s, k)
    ensures Group(s.entries, EntryHold, k) == EntriesOf(s, k)
    ensures Group(s.receipts, ReceiptHold, k) == ReceiptsOf(s, k)
  {
    WhereSame(s.tasks, Labelled(TaskHold, Some(k)), (t: Task) => t.holdId == Some(k));
    WhereSame(s.entries, Labelled(EntryHold, Some(k)), (e: Entry) => e.holdId == k);
    WhereSame(s.receipts, Labelled(ReceiptHold, Some(k)), (r: Receipt) => r.holdId == k);
  }

  // ---------------------------------------------------------------- rows

  /** What one task row is reported for. */
  ghost predicate TaskReported(s: Snapshot, t: Task, a: Anomaly) {
    match a
    case TaskMissingHoldBinding(id, status) => t.holdId == None && id == t.id && status == t.status && status != Draft
    case TaskReferencesMissingHold(id, k) => t.holdId == Some(k) && id == t.id && NoHold(s, k)
    case TaskHoldReasonConflict(id, k, reason) =>
      t.holdId == Some(k) && id == t.id && reason != Some("lab_task:" + id)
      && exists h :: HoldRow(s, h) && h.id == k && h.reason == reason
    case TaskHoldOwnerConflict(id, k, issuer, owner) =>
      t.holdId == Some(k) && id == t.id && t.issuer == Some(issuer) && issuer != "" && owner != Some(issuer)
      && exists h :: HoldRow(s, h) && h.id == k && h.owner == owner
    case _ => false
  }

  lemma OneHold(s: Snapshot, k: string, reason: Option<string>, owner: Option<string>)
    requires k in HoldIndex(s)
    ensures (exists h :: HoldRow(s, h) && h.id == k && h.reason == reason) <==> reason == HoldIndex(s)[k].reason
    ensures (exists h :: HoldRow(s, h) && h.id == k && h.owner == owner) <==> owner == HoldIndex(s)[k].owner
  {
    HoldAt(s, k);
    hide HoldIndex, HoldRow;
  }

  lemma ReasonConflictReported(s: Snapshot, t: Task, a: Anomaly)
    requires t.holdId.Some? && t.holdId.value in HoldIndex(s) && a.TaskHoldReasonConflict?
    ensures a in TaskAnomalies(HoldIndex(s), t) <==> TaskReported(s, t, a)
  {
    hide HoldIndex, HoldRow;
    OneHold(s, t.holdId.value, a.holdReason, None);
  }

  lemma OwnerConflictReported(s: Snapshot, t: Task, a: Anomaly)
    requires t.holdId.Some? && t.holdId.value in HoldIndex(s) && a.TaskHoldOwnerConflict?
    ensures a in TaskAnomalies(HoldIndex(s), t) <==> TaskReported(s, t, a)
  {
    hide HoldIndex, HoldRow;
    OneHold(s, t.holdId.value, None, a.owner);
  }

  lemma NothingElseReported(s: Snapshot, t: Task, a: Anomaly)
    requires t.holdId.Some? && t.holdId.value in HoldIndex(s) && !a.TaskHoldReasonConflict? && !a.TaskHoldOwnerConflict?
    ensures a !in TaskAnomalies(HoldIndex(s), t) && !TaskReported(s, t, a)
  {
    HoldAt(s, t.holdId.value);
    hide HoldIndex, HoldRow, NoHold;
  }

  lemma TaskRowReported(s: Snapshot, t: Task, a: Anomaly)
    ensures a in TaskRule(HoldIndex(s))(t) <==> TaskReported(s, t, a)
  {
    if t.holdId.Some? && t.holdId.value in HoldIndex(s) {
      if a.TaskHoldReasonConflict? {
        ReasonConflictReported(s, t, a);
      } else if a.TaskHoldOwnerConflict? {
        OwnerConflictReported(s, t, a);
      } else {
        NothingElseReported(s, t, a);
      }
    } else if t.holdId.Some? {
      HoldAt(s, t.holdId.value);
    }
    hide HoldIndex, NoHold, HoldRow;
  }

  ghost predicate HoldLinkReported(s: Snapshot, h: Hold, a: Anomaly) {
    match a
    case HoldReasonInvalid(k, reason) =>
      k == h.id && reason == h.reason && forall id :: reason == Some("lab_task:" + id) ==> id == ""
    case HoldReferencesMissingTask(k, id) =>
      k == h.id && id != "" && h.reason == Some("lab_task:" + id) && NoTask(s, id)
    case HoldTaskLinkConflict(k, id, other) =>
      k == h.id && id != "" && h.reason == Some("lab_task:" + id) && other != Some(k)
      && exists t :: TaskRow(s, t) && t.id == id && t.holdId == other
    case _ => false
  }

  lemma NamedTask(reason: Option<string>)
    ensures HoldTaskId(reason) == None <==> forall id :: reason == Some("lab_task:" + id) ==> id == ""
    ensures forall id :: HoldTaskId(reason) == Some(id) <==> id != "" && reason == Some("lab_task:" + id)
  {
    forall id ensures HoldTaskId(reason) == Some(id) <==> id != "" && reason == Some("lab_task:" + id) {
      HoldTaskIdRoundTrip(reason, id);
    }
    if HoldTaskId(reason).Some? {
      assert reason == Some("lab_task:" + HoldTaskId(reason).value);
    }
  }

  lemma HoldLinkRowReported(s: Snapshot, h: Hold, a: Anomaly)
    ensures a in HoldLinkRule(TaskIndex(s))(h) <==> HoldLinkReported(s, h, a)
  {
    NamedTask(h.reason);
    if HoldTaskId(h.reason).Some? {
      TaskAt(s, HoldTaskId(h.reason).value);
    }
    hide TaskIndex, NoTask, TaskRow, HoldTaskId;
  }

  ghost predicate CommandReported(s: Snapshot, c: Command, a: Anomaly) {
    && a == FailedCommandHasHeldEscrow(c.id, c.operation, c.taskId, c.holdId) && c.failed
    && (exists t :: TaskRow(s, t) && t.id == c.taskId
          && t.status != Completed && t.status != Failed && t.status != Expired && t.status != Cancelled)
    && exists h :: HoldRow(s, h) && h.id == c.holdId && h.status == Held
  }

  lemma CommandRowReported(s: Snapshot, c: Command, a: Anomaly)
    ensures a in CommandRule(TaskIndex(s), HoldIndex(s))(c) <==> CommandReported(s, c, a)
  {
    HoldAt(s, c.holdId);
    TaskAt(s, c.taskId);
    hide HoldIndex, TaskIndex, HoldRow, TaskRow, NoHold, NoTask;
  }

  lemma TasksReported(s: Snapshot, a: Anomaly)
    ensures a in Collect(s.tasks, TaskRule(HoldIndex(s))) <==> exists t :: t in s.tasks && TaskReported(s, t, a)
  {
    CollectMember(s.tasks, TaskRule(HoldIndex(s)), a);
    forall t ensures a in TaskRule(HoldIndex(s))(t) <==> TaskReported(s, t, a) {
      TaskRowReported(s, t, a);
    }
  }

  lemma HoldLinksReported(s: Snapshot, a: Anomaly)
    ensures a in Collect(s.holds, HoldLinkRule(TaskIndex(s))) <==> exists h :: h in s.holds && HoldLinkReported(s, h, a)
  {
    CollectMember(s.holds, HoldLinkRule(TaskIndex(s)), a);
    forall h ensures a in HoldLinkRule(TaskIndex(s))(h) <==> HoldLinkReported(s, h, a) {
      HoldLinkRowReported(s, h, a);
    }
  }

  lemma StrayEntriesReported(s: Snapshot, a: Anomaly)
    ensures a in Collect(s.entries, EntryLinkRule(HoldIndex(s)))
       <==> exists e :: e in s.entries && a == JournalReferencesMissingHold(e.id, e.holdId) && NoHold(s, e.holdId)
  {
    CollectMember(s.entries, EntryLinkRule(HoldIndex(s)), a);
    forall k ensures k in HoldIndex(s) <==> !NoHold(s, k) {
      HoldAt(s, k);
    }
    hide HoldIndex, NoHold;
  }

  lemma StrayReceiptsReported(s: Snapshot, a: Anomaly)
    ensures a in Collect(s.receipts, ReceiptLinkRule(HoldIndex(s)))
       <==> exists r :: r in s.receipts && a == ReceiptReferencesMissingHold(r.id, r.holdId) && NoHold(s, r.holdId)
  {
    CollectMember(s.receipts, ReceiptLinkRule(HoldIndex(s)), a);
    forall k ensures k in HoldIndex(s) <==> !NoHold(s, k) {
      HoldAt(s, k);
    }
    hide HoldIndex, NoHold;
  }

  lemma CommandsReported(s: Snapshot, a: Anomaly)
    ensures a in Collect(s.commands, CommandRule(TaskIndex(s), HoldIndex(s)))
       <==> exists c :: c in s.commands && CommandReported(s, c, a)
  {
    CollectMember(s.commands, CommandRule(TaskIndex(s), HoldIndex(s)), a);
    forall c ensures a in CommandRule(TaskIndex(s), HoldIndex(s))(c) <==> CommandReported(s, c, a) {
      CommandRowReported(s, c, a);
    }
  }

  lemma FailedCommandReported(s: Snapshot, a: Anomaly)
    ensures (exists c :: c in s.commands && CommandReported(s, c, a))
       <==> a.FailedCommandHasHeldEscrow? && RowReported(s, a)
  {
    hide TaskRow, HoldRow;
    if c :| c in s.commands && CommandReported(s, c, a) {
      assert c == Command(c.id, c.operation, c.taskId, c.holdId, true);
    }
    if a.FailedCommandHasHeldEscrow? && RowReported(s, a) {
      assert CommandReported(s, Command(a.commandId, a.operation, a.taskId, a.holdId, true), a);
    }
  }

  lemma RowsReported(s: Snapshot, a: Anomaly)
    ensures a in RowAnomalies(s) <==> RowReported(s, a)
  {
    TasksReported(s, a);
    HoldLinksReported(s, a);
    StrayEntriesReported(s, a);
    StrayReceiptsReported(s, a);
    CommandsReported(s, a);
    FailedCommandReported(s, a);
    hide TaskIndex, HoldIndex, TaskRow, HoldRow, NoTask, NoHold, Collect, TaskRule, HoldLinkRule, EntryLinkRule,
      ReceiptLinkRule, CommandRule, CommandReported;
  }

  // ---------------------------------------------------------------- keys

  lemma KeyNamed<K(!new), V(!new)>(rows: seq<V>, key: V -> Option<K>, k: K)
    ensures k in GroupKeys(rows, key) <==> Group(rows, key, k) != []
  {
    ConcatMember(rows, Refs(key), k);
    if Group(rows, key, k) != [] {
      var v := Group(rows, key, k)[0];
      assert v in Group(rows, key, k);
      assert Labelled(key, Some(k))(v) && k in Refs(key)(v);
    }
    if v :| v in rows && k in Refs(key)(v) {
      WhereMember(rows, Labelled(key, Some(k)), v);
    }
  }

  /** A finding that only the key `k` can give. */
  lemma FoundUnder<K(!new), V(!new)>(
    rows: seq<V>, key: V -> Option<K>, rule: K -> multiset<Anomaly>, a: Anomaly, k: K)
    requires forall other :: other != k ==> a !in rule(other)
    requires a in rule(k) ==> Group(rows, key, k) != []
    ensures a in Collect(GroupKeys(rows, key), rule) <==> a in rule(k)
  {
    CollectMember(GroupKeys(rows, key), rule, a);
    KeyNamed(rows, key, k);
  }

  lemma FoundNowhere<K(!new)>(keys: seq<K>, rule: K -> multiset<Anomaly>, a: Anomaly)
    requires forall k :: a !in rule(k)
    ensures a !in Collect(keys, rule)
  {
    CollectMember(keys, rule, a);
  }

  lemma OperationsReported(s: Snapshot, a: Anomaly)
    ensures a in Collect(GroupKeys(s.entries, OperationOf), OperationRule(s.entries))
       <==> a.DuplicateOperationKey? && KeyReported(s, a)
  {
    hide Group, GroupKeys, Collect;
    if a.DuplicateOperationKey? {
      var k := a.operationKey;
      UnderIsGroup(s, k);
      FoundUnder(s.entries, OperationOf, OperationRule(s.entries), a, k);
    } else {
      FoundNowhere(GroupKeys(s.entries, OperationOf), OperationRule(s.entries), a);
    }
  }

  lemma UnderIsGroup(s: Snapshot, k: string)
    ensures Group(s.entries, OperationOf, k) == EntriesUnder(s, k)
  {
    var rows, same := Labelled(OperationOf, Some(k)), (e: Entry) => e.operationKey == k;
    forall e ensures rows(e) == same(e) {
      assert OperationOf(e) == Some(e.operationKey);
    }
    WhereSame(s.entries, rows, same);
  }

  lemma RecipientsReported(s: Snapshot, a: Anomaly)
    ensures a in Collect(GroupKeys(s.entries, TerminalKeyOf), RecipientRule(s.entries))
       <==> a.DuplicateTerminalRecipient? && KeyReported(s, a)
  {
    hide Group, GroupKeys, Collect;
    if a.DuplicateTerminalRecipient? {
      var k := TerminalKey(a.holdId, a.action, a.recipient);
      PayingIsGroup(s, k);
      forall other | other != k ensures a !in RecipientRule(s.entries)(other) {
      }
      FoundUnder(s.entries, TerminalKeyOf, RecipientRule(s.entries), a, k);
    } else {
      FoundNowhere(GroupKeys(s.entries, TerminalKeyOf), RecipientRule(s.entries), a);
    }
  }

  lemma PayingIsGroup(s: Snapshot, k: TerminalKey)
    ensures Group(s.entries, TerminalKeyOf, k) == EntriesPaying(s, k.holdId, k.action, k.recipient)
  {
    WhereSame(s.entries, Labelled(TerminalKeyOf, Some(k)),
              (e: Entry) => e.holdId == k.holdId && e.action == k.action && e.recipient == k.recipient);
  }

  lemma MultipleTasksReported(s: Snapshot, a: Anomaly)
    ensures a in Collect(GroupKeys(s.tasks, TaskHold), MultipleTaskRule(s.tasks))
       <==> a.HoldLinkedToMultipleTasks? && KeyReported(s, a)
  {
    hide Group, GroupKeys, Collect, TasksOf;
    if a.HoldLinkedToMultipleTasks? {
      var k := a.holdId;
      GroupsAreRows(s, k);
      CollectOfMap(TasksOf(s, k), (t: Task) => t.id, TaskIdBag);
      FoundUnder(s.tasks, TaskHold, MultipleTaskRule(s.tasks), a, k);
    } else {
      FoundNowhere(GroupKeys(s.tasks, TaskHold), MultipleTaskRule(s.tasks), a);
    }
  }

  lemma MultipleHoldsReported(s: Snapshot, a: Anomaly)
    ensures a in Collect(GroupKeys(s.holds, HoldTask), MultipleHoldRule(s.holds))
       <==> a.TaskLinkedToMultipleHolds? && KeyReported(s, a)
  {
    hide Group, GroupKeys, Collect, HoldsFor;
    if a.TaskLinkedToMultipleHolds? {
      var k := a.taskId;
      NamingIsGroup(s, k);
      CollectOfMap(HoldsFor(s, k), (h: Hold) => h.id, HoldIdBag);
      FoundUnder(s.holds, HoldTask, MultipleHoldRule(s.holds), a, k);
    } else {
      FoundNowhere(GroupKeys(s.holds, HoldTask), MultipleHoldRule(s.holds), a);
    }
  }

  lemma NamingIsGroup(s: Snapshot, k: string)
    ensures Group(s.holds, HoldTask, k) == HoldsFor(s, k)
  {
    forall h: Hold ensures HoldTask(h) == Some(k) <==> k != "" && h.reason == Some("lab_task:" + k) {
      HoldTaskIdRoundTrip(h.reason, k);
      assert LAB_TASK + k == "lab_task:" + k;
    }
    WhereSame(s.holds, Labelled(HoldTask, Some(k)), (h: Hold) => k != "" && h.reason == Some("lab_task:" + k));
  }

  lemma KeysReported(s: Snapshot, a: Anomaly)
    ensures a in KeyAnomalies(s) <==> KeyReported(s, a)
  {
    OperationsReported(s, a);
    RecipientsReported(s, a);
    MultipleTasksReported(s, a);
    MultipleHoldsReported(s, a);
    hide Collect, GroupKeys, OperationRule, RecipientRule, MultipleTaskRule, MultipleHoldRule, EntriesUnder,
      EntriesPaying, TasksOf, HoldsFor;
  }

  // ---------------------------------------------------------------- holds

  lemma HeldStatusReported(h: Hold, linked: seq<Task>, a: Anomaly)
    requires |linked| == 1 && h.status != Settled && h.status != Refunded
    ensures a in StatusAnomalies(h.id, h, Some(linked[0])) <==> StatusReported(h, linked, a)
  {
  }

  lemma SettledStatusReported(h: Hold, linked: seq<Task>, a: Anomaly)
    requires |linked| == 1 && h.status == Settled
    ensures a in StatusAnomalies(h.id, h, Some(linked[0])) <==> StatusReported(h, linked, a)
  {
  }

  lemma RefundedStatusReported(h: Hold, linked: seq<Task>, a: Anomaly)
    requires |linked| == 1 && h.status == Refunded
    ensures a in StatusAnomalies(h.id, h, Some(linked[0])) <==> StatusReported(h, linked, a)
  {
  }

  lemma UnlinkedStatusReported(h: Hold, linked: seq<Task>, a: Anomaly)
    requires |linked| != 1
    ensures a in StatusAnomalies(h.id, h, None) <==> StatusReported(h, linked, a)
  {
  }

  lemma StatusesReported(h: Hold, linked: seq<Task>, a: Anomaly)
    ensures a in StatusAnomalies(h.id, h, SoleTask(linked)) <==> StatusReported(h, linked, a)
  {
    hide StatusAnomalies, StatusReported;
    if |linked| == 1 {
      if h.status == Settled {
        SettledStatusReported(h, linked, a);
      } else if h.status == Refunded {
        RefundedStatusReported(h, linked, a);
      } else {
        HeldStatusReported(h, linked, a);
      }
    } else {
      UnlinkedStatusReported(h, linked, a);
    }
  }

  lemma JournalMissing(h: Hold, entries: seq<Entry>, receipts: seq<Receipt>, a: Anomaly)
    requires Closed(h) && h.version == V2
    ensures a in When(entries == [], MissingJournal(h.id, h.status))
       <==> a.MissingJournal? && ReceiptReported(h, entries, receipts, a)
  {
  }

  lemma OneReceipt(h: Hold, entries: seq<Entry>, receipts: seq<Receipt>, a: Anomaly)
    requires Closed(h) && h.version == V2 && |receipts| == 1
    ensures a in ReceiptAnomalies(h.id, h, entries, receipts)
       <==> !a.MissingJournal? && ReceiptReported(h, entries, receipts, a)
  {
  }

  lemma NoReceipt(h: Hold, entries: seq<Entry>, receipts: seq<Receipt>, a: Anomaly)
    requires Closed(h) && h.version == V2 && receipts == []
    ensures a in ReceiptAnomalies(h.id, h, entries, receipts)
       <==> !a.MissingJournal? && ReceiptReported(h, entries, receipts, a)
  {
  }

  lemma ManyReceipts(h: Hold, entries: seq<Entry>, receipts: seq<Receipt>, a: Anomaly)
    requires Closed(h) && h.version == V2 && |receipts| > 1
    ensures a in ReceiptAnomalies(h.id, h, entries, receipts)
       <==> !a.MissingJournal? && ReceiptReported(h, entries, receipts, a)
  {
    CollectOfMap(receipts, (r: Receipt) => r.id, ReceiptIdBag);
    hide Collect, Map;
  }

  lemma ReceiptsReported(h: Hold, entries: seq<Entry>, receipts: seq<Receipt>, a: Anomaly)
    requires Closed(h) && h.version == V2
    ensures a in V2Anomalies(h.id, h, entries, receipts) <==> ReceiptReported(h, entries, receipts, a)
  {
    JournalMissing(h, entries, receipts, a);
    if |receipts| == 1 {
      OneReceipt(h, entries, receipts, a);
    } else if receipts == [] {
      NoReceipt(h, entries, receipts, a);
    } else {
      ManyReceipts(h, entries, receipts, a);
    }
    hide When, ReceiptAnomalies, ReceiptReported;
  }

  lemma HeldReported(h: Hold, entries: seq<Entry>, receipts: seq<Receipt>, a: Anomaly)
    requires !(Closed(h) && h.version == V2)
    ensures a in HeldAnomalies(h.id, h, entries, receipts) <==> ReceiptReported(h, entries, receipts, a)
  {
  }

  lemma EntriesReported(s: Snapshot, h: Hold, entries: seq<Entry>, a: Anomaly)
    requires Closed(h)
    ensures a in Collect(entries, EntryAnomalies(h.id, Slugs(s)))
       <==> (a.JournalEntryMissingReason? || a.MissingTreasuryAccount?) && JournalReported(s, h, entries, a)
  {
    CollectMember(entries, EntryAnomalies(h.id, Slugs(s)), a);
    hide Collect;
  }

  lemma ActionsReported(h: Hold, entries: seq<Entry>)
    requires Closed(h) && entries != []
    ensures Actions(entries) != {ExpectedAction(h.status)}
       <==> || (h.status == Settled && exists e :: e in entries && e.action != Settle)
            || (h.status == Refunded && exists e :: e in entries && e.action != Refund)
  {
    assert entries[0] in entries;
    if x :| x in Actions(entries) && x != ExpectedAction(h.status) {
      var e :| e in entries && e.action == x;
    }
    forall e | e in entries ensures e.action in Actions(entries) {
    }
  }

  lemma TotalsReported(s: Snapshot, h: Hold, entries: seq<Entry>, a: Anomaly)
    requires Closed(h) && entries != []
    ensures a in When(Actions(entries) != {ExpectedAction(h.status)},
                      TerminalActionConflict(h.id, h.status, Actions(entries)))
                 + When(Total(entries, EntryAmount) != h.amount,
                        ConservationMismatch(h.id, h.amount, Total(entries, EntryAmount)))
       <==> (a.TerminalActionConflict? || a.ConservationMismatch?) && JournalReported(s, h, entries, a)
  {
    ActionsReported(h, entries);
    TotalSame(entries, EntryAmount, (e: Entry) => e.amount);
    hide Total, ExpectedAction;
  }

  lemma JournalsReported(s: Snapshot, h: Hold, entries: seq<Entry>, a: Anomaly)
    requires Closed(h)
    ensures a in JournalAnomalies(h.id, h, entries, Slugs(s)) <==> JournalReported(s, h, entries, a)
  {
    if entries != [] {
      EntriesReported(s, h, entries, a);
      TotalsReported(s, h, entries, a);
    }
    hide Collect, Actions, Total, Slugs, ExpectedAction, When;
  }

  lemma ClosedReported(s: Snapshot, h: Hold, linked: seq<Task>, entries: seq<Entry>, receipts: seq<Receipt>, a: Anomaly)
    requires Closed(h)
    ensures a in HoldAnomalies(h.id, h, linked, entries, receipts, Slugs(s))
       <==> || StatusReported(h, linked, a) || ReceiptReported(h, entries, receipts, a)
            || JournalReported(s, h, entries, a)
  {
    StatusesReported(h, linked, a);
    JournalsReported(s, h, entries, a);
    NotHeld(h, entries, receipts);
    if h.version == V2 {
      ReceiptsReported(h, entries, receipts, a);
    } else {
      HeldReported(h, entries, receipts, a);
    }
    hide Slugs, StatusReported, ReceiptReported, JournalReported, StatusAnomalies, HeldAnomalies, JournalAnomalies,
      ReceiptAnomalies;
  }

  lemma OpenReported(s: Snapshot, h: Hold, linked: seq<Task>, entries: seq<Entry>, receipts: seq<Receipt>, a: Anomaly)
    requires !Closed(h)
    ensures a in HoldAnomalies(h.id, h, linked, entries, receipts, Slugs(s))
       <==> || StatusReported(h, linked, a) || ReceiptReported(h, entries, receipts, a)
            || JournalReported(s, h, entries, a)
  {
    StatusesReported(h, linked, a);
    NoJournal(s, h, entries, a);
    HeldReported(h, entries, receipts, a);
    hide Slugs, StatusReported, ReceiptReported, JournalReported, StatusAnomalies, HeldAnomalies, JournalAnomalies;
  }

  lemma OneHoldReported(s: Snapshot, h: Hold, a: Anomaly)
    requires HoldRow(s, h)
    ensures a in HoldRule(s)(h.id) <==> HoldReported(s, h, a)
  {
    HoldLookup(s, h);
    GroupsAreRows(s, h.id);
    hide HoldIndex, Group, Slugs, StatusReported, ReceiptReported, JournalReported, HoldAnomalies, TasksOf, EntriesOf,
      ReceiptsOf, HoldRow;
    if Closed(h) {
      ClosedReported(s, h, TasksOf(s, h.id), EntriesOf(s, h.id), ReceiptsOf(s, h.id), a);
    } else {
      OpenReported(s, h, TasksOf(s, h.id), EntriesOf(s, h.id), ReceiptsOf(s, h.id), a);
    }
  }

  lemma NotHeld(h: Hold, entries: seq<Entry>, receipts: seq<Receipt>)
    requires Closed(h)
    ensures HeldAnomalies(h.id, h, entries, receipts) == multiset{}
  {
  }

  lemma NoJournal(s: Snapshot, h: Hold, entries: seq<Entry>, a: Anomaly)
    requires !Closed(h)
    ensures !JournalReported(s, h, entries, a)
  {
  }

  lemma HoldsReported(s: Snapshot, a: Anomaly)
    ensures a in Collect(HoldIds(s), HoldRule(s)) <==> exists h :: HoldRow(s, h) && HoldReported(s, h, a)
  {
    CollectMember(HoldIds(s), HoldRule(s), a);
    if a in Collect(HoldIds(s), HoldRule(s)) {
      var k :| k in HoldIds(s) && a in HoldRule(s)(k);
      HoldAt(s, k);
      OneHoldReported(s, HoldIndex(s)[k], a);
    }
    if h :| HoldRow(s, h) && HoldReported(s, h, a) {
      OneHoldReported(s, h, a);
      HoldIdListed(s, h);
    }
  }

  lemma HoldIdListed(s: Snapshot, h: Hold)
    requires HoldRow(s, h)
    ensures h.id in HoldIds(s)
  {
    var i :| 0 <= i < |s.holds| && s.holds[i] == h;
    assert Map(s.holds, HoldKey)[i] == h.id;
  }

  // ---------------------------------------------------------------- accounts

  /** What an account received, by transactions. */
  lemma {:induction false} Received(transactions: seq<Transaction>, k: Account)
    ensures var payments := Where(transactions, Paying(k));
            BucketOf(Concat(transactions, TransactionPosting), k)
            == Bucket(Total(payments, Paid), |payments|, multiset(Map(payments, TransactionId)))
  {
    if transactions != [] {
      var front, t := transactions[..|transactions| - 1], transactions[|transactions| - 1];
      Received(front, k);
      BooksOne(Concat(front, TransactionPosting), t, k);
      assert Concat(transactions, TransactionPosting) == Concat(front, TransactionPosting) + TransactionPosting(t);
      hide BucketOf, Paying, Concat;
      PaidOne(Where(front, Paying(k)), t);
    }
  }

  lemma PaidOne(payments: seq<Transaction>, t: Transaction)
    ensures Total(payments + [t], Paid) == Total(payments, Paid) + Paid(t)
    ensures multiset(Map(payments + [t], TransactionId)) == multiset(Map(payments, TransactionId)) + multiset{t.id}
  {
    assert (payments + [t])[..|payments|] == payments;
    assert Map(payments + [t], TransactionId) == Map(payments, TransactionId) + [t.id];
  }

  lemma BooksOne(ps: seq<Posting>, t: Transaction, k: Account)
    ensures var before := BucketOf(ps, k);
            BucketOf(ps + TransactionPosting(t), k)
            == if Paying(k)(t) then Bucket(before.amount + Paid(t), before.count + 1, before.refs + multiset{t.id})
               else before
  {
    hide BucketOf;
    if TransactionPosting(t) == [] {
      assert ps + [] == ps;
    } else {
      BucketOneMore(ps, TransactionPosting(t)[0], k);
    }
  }

  /** Whether a posting is on an account, as a number. */
  function OnAccount(k: Account, f: Posting -> int): Posting -> int {
    (p: Posting) => if p.account == k then f(p) else 0
  }

  function Worth(k: Account, amount: Entry -> int): Entry -> int {
    (e: Entry) => if e.recipient == User(k.user) && e.reason == Some(k.reason) && k.reason != "" then amount(e) else 0
  }

  lemma PostingWorth(id: string, e: Entry, k: Account, f: Posting -> int, amount: Entry -> int)
    requires forall account :: f(Posting(account, e.amount, id)) == amount(e)
    ensures Total(EntryPosting(id)(e), OnAccount(k, f)) == Worth(k, amount)(e)
  {
    var ps := EntryPosting(id)(e);
    if ps != [] {
      assert ps[..0] == [];
      assert Total(ps, OnAccount(k, f)) == Total(ps[..0], OnAccount(k, f)) + OnAccount(k, f)(ps[0]);
    }
  }

  /** What one hold posts on an account is worth its entries that credit it. */
  lemma HoldWorth(s: Snapshot, id: string, k: Account, f: Posting -> int, amount: Entry -> int)
    requires id in HoldIndex(s)
    requires forall account, e: Entry, ref :: f(Posting(account, e.amount, ref)) == amount(e)
    ensures Total(PostingRule(s)(id), OnAccount(k, f))
         == Total(Where(Credits(s, k), Labelled(EntryHold, Some(id))), amount)
  {
    HoldAt(s, id);
    var h, mine := HoldIndex(s)[id], Group(s.entries, EntryHold, id);
    WhereSwap(s.entries, Crediting(s, k), Labelled(EntryHold, Some(id)));
    hide HoldIndex, HoldRow;
    if Closed(h) {
      forall e | e in mine ensures Worth(k, amount)(e) == if Crediting(s, k)(e) then amount(e) else 0 {
      }
      forall e | e in mine ensures Worth(k, amount)(e) == Total(EntryPosting(id)(e), OnAccount(k, f)) {
        PostingWorth(id, e, k, f, amount);
      }
      ConcatTotal(mine, EntryPosting(id), OnAccount(k, f), Worth(k, amount));
      WhereTotal(mine, Crediting(s, k), amount, Worth(k, amount));
    } else {
      WhereNone(mine, Crediting(s, k));
    }
  }

  function Called(id: string): Option<string> { Some(id) }

  /** What the journal calls for on an account, summed hold by hold, is worth its credits. */
  lemma CreditsWorth(s: Snapshot, k: Account, f: Posting -> int, amount: Entry -> int)
    requires forall account, e: Entry, ref :: f(Posting(account, e.amount, ref)) == amount(e)
    ensures Total(Where(ExpectedPostings(s), Labelled(AccountOf, k)), f) == Total(Credits(s, k), amount)
  {
    var ids := HoldIds(s);
    var group := (id: string) => Total(PostingRule(s)(id), OnAccount(k, f));
    WhereTotal(ExpectedPostings(s), Labelled(AccountOf, k), f, OnAccount(k, f));
    ConcatTotal(ids, PostingRule(s), OnAccount(k, f), group);
    DistinctUnique(Map(s.holds, HoldKey));
    forall e | e in Credits(s, k) ensures exists id :: id in ids && Called(id) == EntryHold(e) {
      var h :| HoldRow(s, h) && h.id == e.holdId;
      HoldIdListed(s, h);
      assert Called(h.id) == EntryHold(e);
    }
    forall id | id in ids ensures group(id) == Total(Where(Credits(s, k), Labelled(EntryHold, Called(id))), amount) {
      HoldAt(s, id);
      ListedIsHold(s, id);
      HoldWorth(s, id, k, f, amount);
    }
    hide HoldIds, PostingRule, Credits, OnAccount;
    PartitionTotal(ids, Called, Credits(s, k), EntryHold, amount, group);
  }

  lemma ListedIsHold(s: Snapshot, id: string)
    requires id in HoldIds(s)
    ensures id in HoldIndex(s)
  {
    var j :| 0 <= j < |s.holds| && Map(s.holds, HoldKey)[j] == id;
    assert s.holds[j] in s.holds;
  }

  lemma {:induction false} TotalCounts<A(!new)>(rows: seq<A>, one: A -> int)
    requires forall a :: one(a) == 1
    ensures Total(rows, one) == |rows|
  {
    if rows != [] {
      TotalCounts(rows[..|rows| - 1], one);
    }
  }

  /** Which holds the postings on an account come from. */
  lemma CreditingHolds(s: Snapshot, k: Account, id: string)
    ensures id in BucketOf(ExpectedPostings(s), k).refs <==> exists e :: e in Credits(s, k) && e.holdId == id
  {
    hide ExpectedPostings, Crediting, Collect, Where, Total;
    var mine := Where(ExpectedPostings(s), Labelled(AccountOf, k));
    CollectMember(mine, RefBag, id);
    if p :| p in mine && id in RefBag(p) {
      WhereMember(ExpectedPostings(s), Labelled(AccountOf, k), p);
      var e := PostedFor(s, p);
      WhereMember(s.entries, Crediting(s, k), e);
    }
    if e :| e in Credits(s, k) && e.holdId == id {
      var p := Posting(k, e.amount, id);
      CreditIsPosted(s, k, e);
      WhereMember(ExpectedPostings(s), Labelled(AccountOf, k), p);
      assert id in RefBag(p);
    }
  }

  lemma PostedFor(s: Snapshot, p: Posting) returns (e: Entry)
    requires p in ExpectedPostings(s)
    ensures e in s.entries && Crediting(s, p.account)(e) && e.holdId == p.ref
  {
    ConcatMember(HoldIds(s), PostingRule(s), p);
    var id :| id in HoldIds(s) && p in PostingRule(s)(id);
    ListedIsHold(s, id);
    HoldAt(s, id);
    hide HoldIds, HoldRow, HoldIndex, ExpectedPostings, Concat;
    e := PostedBy(s, id, p);
  }

  lemma PostedBy(s: Snapshot, id: string, p: Posting) returns (e: Entry)
    requires id in HoldIndex(s) && HoldRow(s, HoldIndex(s)[id]) && HoldIndex(s)[id].id == id
    requires p in PostingRule(s)(id)
    ensures e in s.entries && Crediting(s, p.account)(e) && e.holdId == p.ref
  {
    hide HoldIndex, HoldRow, Concat;
    var h, mine := HoldIndex(s)[id], Group(s.entries, EntryHold, id);
    assert Closed(h) && p in Concat(mine, EntryPosting(id));
    ConcatMember(mine, EntryPosting(id), p);
    e :| e in mine && p in EntryPosting(id)(e);
    WhereMember(s.entries, Labelled(EntryHold, Some(id)), e);
    hide Where, Group;
    assert e.holdId == id && e.recipient.User? && HasReason(e);
    assert p == Posting(Account(e.recipient.id, e.reason.value), e.amount, id);
    assert HoldRow(s, h) && h.id == e.holdId && Closed(h);
  }

  lemma CreditIsPosted(s: Snapshot, k: Account, e: Entry)
    requires e in Credits(s, k)
    ensures Posting(k, e.amount, e.holdId) in ExpectedPostings(s)
  {
    var h :| HoldRow(s, h) && h.id == e.holdId && Closed(h);
    HoldLookup(s, h);
    HoldIdListed(s, h);
    assert e.recipient == User(k.user) && e.reason == Some(k.reason) && k.reason != "";
    hide HoldRow, HoldIndex, HoldIds, Credits, Crediting;
    CreditByHold(s, h, k, e);
    ConcatMember(HoldIds(s), PostingRule(s), Posting(k, e.amount, e.holdId));
  }

  lemma CreditByHold(s: Snapshot, h: Hold, k: Account, e: Entry)
    requires h.id in HoldIndex(s) && HoldIndex(s)[h.id] == h && Closed(h)
    requires e in s.entries && e.holdId == h.id
    requires e.recipient == User(k.user) && e.reason == Some(k.reason) && k.reason != ""
    ensures Posting(k, e.amount, e.holdId) in PostingRule(s)(h.id)
  {
    hide HoldIndex;
    WhereMember(s.entries, Labelled(EntryHold, Some(h.id)), e);
    assert EntryPosting(h.id)(e) == [Posting(k, e.amount, h.id)];
    ConcatMember(Group(s.entries, EntryHold, h.id), EntryPosting(h.id), Posting(k, e.amount, e.holdId));
  }

  /** The bucket the journal calls for on an account. */
  lemma Expected(s: Snapshot, k: Account)
    ensures var want, credits := BucketOf(ExpectedPostings(s), k), Credits(s, k);
            && want.amount == Total(credits, (e: Entry) => e.amount) && want.count == |credits|
            && RefSet(want.refs) == set e | e in credits :: e.holdId
  {
    var mine := Where(ExpectedPostings(s), Labelled(AccountOf, k));
    CreditsWorth(s, k, PostedAmount, (e: Entry) => e.amount);
    var onePosting, oneEntry := (p: Posting) => 1, (e: Entry) => 1;
    CreditsWorth(s, k, onePosting, oneEntry);
    TotalCounts(mine, onePosting);
    TotalCounts(Credits(s, k), oneEntry);
    forall id ensures id in RefSet(BucketOf(ExpectedPostings(s), k).refs)
                 <==> id in (set e | e in Credits(s, k) :: e.holdId)
    {
      CreditingHolds(s, k, id);
    }
  }

  lemma AccountListed(ps: seq<Posting>, k: Account)
    ensures k in Accounts(ps) <==> BucketOf(ps, k).count > 0
  {
    var mine := Where(ps, Labelled(AccountOf, k));
    if k in Accounts(ps) {
      var i :| 0 <= i < |ps| && Map(ps, AccountOf)[i] == k;
      WhereMember(ps, Labelled(AccountOf, k), ps[i]);
    }
    if |mine| > 0 {
      assert mine[0] in mine;
      var i :| 0 <= i < |ps| && ps[i] == mine[0];
      assert Map(ps, AccountOf)[i] == k;
    }
  }

  lemma ReceivedOn(s: Snapshot, k: Account)
    ensures var payments := Payments(s, k);
            BucketOf(ActualPostings(s), k)
            == Bucket(Total(payments, Paid), |payments|, multiset(Map(payments, TransactionId)))
  {
    Received(s.transactions, k);
  }

  /** A finding that only the account `k` can give. */
  lemma FoundAt(keys: seq<Account>, rule: Account -> multiset<Anomaly>, a: Anomaly, k: Account)
    requires forall other :: other != k ==> a !in rule(other)
    ensures a in Collect(keys, rule) <==> k in keys && a in rule(k)
  {
    CollectMember(keys, rule, a);
  }

  lemma MismatchesReported(s: Snapshot, a: Anomaly)
    ensures a in Collect(Accounts(ExpectedPostings(s)), MismatchRule(ExpectedPostings(s), ActualPostings(s)))
       <==> a.UserTransactionMismatch? && AccountReported(s, a)
  {
    hide Accounts, ExpectedPostings, BucketOf, Collect, RefSet, Credits, Payments, ActualPostings, Total, Map;
    var want, got := ExpectedPostings(s), ActualPostings(s);
    if a.UserTransactionMismatch? {
      FoundAt(Accounts(want), MismatchRule(want, got), a, a.account);
      Expected(s, a.account);
      ReceivedOn(s, a.account);
      AccountListed(want, a.account);
    } else {
      FoundNowhere(Accounts(want), MismatchRule(want, got), a);
    }
  }

  lemma UnexpectedReported(s: Snapshot, a: Anomaly)
    ensures a in Collect(Accounts(ActualPostings(s)), UnexpectedRule(ExpectedPostings(s), ActualPostings(s)))
       <==> a.UnexpectedUserTransaction? && AccountReported(s, a)
  {
    hide Accounts, ExpectedPostings, BucketOf, Collect, RefSet, Credits, Payments, ActualPostings, Total, Map,
      IsTerminalReason, EndsATask;
    var want, got := ExpectedPostings(s), ActualPostings(s);
    if a.UnexpectedUserTransaction? {
      FoundAt(Accounts(got), UnexpectedRule(want, got), a, a.account);
      Expected(s, a.account);
      ReceivedOn(s, a.account);
      AccountListed(want, a.account);
      AccountListed(got, a.account);
      EndsIff(a.account.reason);
    } else {
      FoundNowhere(Accounts(got), UnexpectedRule(want, got), a);
    }
  }

  lemma EndsIff(reason: string)
    ensures IsTerminalReason(reason) <==> EndsATask(reason)
  {
    var p := TERMINAL_REASON_PREFIXES;
    assert p[0] == "lab_reward:" && p[1] == "lab_treasury:" && p[2] == "lab_fee:" && p[3] == "lab_accept:";
    assert p[4] == "lab_auto_release:" && p[5] == "lab_arbitrate_settle:" && p[6] == "lab_cancel:";
    assert p[7] == "lab_fail:" && p[8] == "lab_expire:" && p[9] == "lab_arbitrate_refund:" && |p| == 10;
  }

  /** A finding is reported exactly when the tables call for it. */
  lemma ReportedIff(s: Snapshot, a: Anomaly)
    ensures a in AnomalyBag(s) <==> Reported(s, a)
  {
    RowsReported(s, a);
    KeysReported(s, a);
    HoldsReported(s, a);
    MismatchesReported(s, a);
    UnexpectedReported(s, a);
    hide RowAnomalies, KeyAnomalies, RowReported, KeyReported, HoldReported, HoldRow, HoldIds, HoldRule, Collect,
      ExpectedPostings, ActualPostings, Credits, Payments;
  }

  lemma FoundIsReported(s: Snapshot, found: seq<Anomaly>)
    requires multiset(found) == AnomalyBag(s)
    ensures forall a :: a in found <==> Reported(s, a)
  {
    hide AnomalyBag, Reported;
    forall a ensures a in found <==> Reported(s, a) {
      ReportedIff(s, a);
      assert a in found <==> a in multiset(found);
    }
  }

  /** One entry that refunds a settled hold, or settles a refunded one, is reported. */
  lemma WrongActionReported(s: Snapshot, h: Hold, e: Entry)
    requires HoldRow(s, h) && e in s.entries && e.holdId == h.id
    requires (h.status == Settled && e.action != Settle) || (h.status == Refunded && e.action != Refund)
    ensures exists a :: a in AnomalyBag(s) && a.TerminalActionConflict? && a.holdId == h.id && e.action in a.actions
  {
    var entries := EntriesOf(s, h.id);
    WhereMember(s.entries, (e: Entry) => e.holdId == h.id, e);
    var a := TerminalActionConflict(h.id, h.status, set e | e in entries :: e.action);
    assert JournalReported(s, h, entries, a);
    assert HoldReported(s, h, a) && e.action in a.actions;
    hide JournalReported, HoldReported, AnomalyBag, HoldRow, EntriesOf;
    ReportedIff(s, a);
  }
}
