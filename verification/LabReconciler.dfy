/** The reconciliation script: loops over the escrow tables that append findings.

    Each loop is proved to produce the bag of findings its rule in `LabLedger` calls for;
    `AnalyzeSnapshot` puts them together. */
module LabReconciler {
  import opened Bags
  import opened LabLedger
  import opened LabFindings

  // ---------------------------------------------------------------- dictionaries of rows

  /** A dictionary of row lists together with its key order. */
  datatype Groups<K(==), V> = Groups(order: seq<K>, at: map<K, seq<V>>)

  /** Reading a list, empty when the key was never seen. */
  function Filed<K(==), V>(groups: Groups<K, V>, k: K): seq<V> {
    if k in groups.at then groups.at[k] else []
  }

  ghost predicate Grouped<K(!new), V(!new)>(groups: Groups<K, V>, rows: seq<V>, key: V -> Option<K>) {
    && groups.order == GroupKeys(rows, key)
    && (forall k :: k in groups.at <==> k in groups.order)
    && forall k :: Filed(groups, k) == Group(rows, key, k)
  }

  /** Files rows under their keys, the way a `defaultdict(list)` is filled. */
  method GroupRows<K(==, !new), V(!new)>(rows: seq<V>, key: V -> Option<K>) returns (groups: Groups<K, V>)
    ensures Grouped(groups, rows, key)
  {
    groups := Groups([], map[]);
    for i := 0 to |rows|
      invariant Grouped(groups, rows[..i], key)
    {
      ghost var before := groups;
      if key(rows[i]).Some? {
        var k := key(rows[i]).value;
        var order := if k in groups.at then groups.order else groups.order + [k];
        groups := Groups(order, groups.at[k := Filed(groups, k) + [rows[i]]]);
      }
      GroupedOneMore(before, groups, rows, i, key);
    }
    TakeAll(rows);
  }

  lemma GroupedOneMore<K(!new), V(!new)>(
    before: Groups<K, V>, after: Groups<K, V>, rows: seq<V>, i: nat, key: V -> Option<K>)
    requires i < |rows| && Grouped(before, rows[..i], key)
    requires if key(rows[i]).None? then after == before
             else
               var k := key(rows[i]).value;
               && after.order == (if k in before.at then before.order else before.order + [k])
               && after.at == before.at[k := Filed(before, k) + [rows[i]]]
    ensures Grouped(after, rows[..i + 1], key)
  {
    KeysOneMore(rows, i, key);
    forall k ensures Filed(after, k) == Group(rows[..i + 1], key, k) {
      GroupOneMore(rows, i, key, k);
      assert Filed(before, k) == Group(rows[..i], key, k);
    }
  }

  lemma GroupOneMore<K(!new), V(!new)>(rows: seq<V>, i: nat, key: V -> Option<K>, k: K)
    requires i < |rows|
    ensures Group(rows[..i + 1], key, k)
         == if key(rows[i]) == Some(k) then Group(rows[..i], key, k) + [rows[i]] else Group(rows[..i], key, k)
  {
    TakeOne(rows, i);
  }

  lemma KeysOneMore<K(!new), V(!new)>(rows: seq<V>, i: nat, key: V -> Option<K>)
    requires i < |rows|
    ensures GroupKeys(rows[..i + 1], key)
         == if key(rows[i]).Some? && key(rows[i]).value !in GroupKeys(rows[..i], key)
            then GroupKeys(rows[..i], key) + [key(rows[i]).value] else GroupKeys(rows[..i], key)
  {
    ConcatOneMore(rows, i, Refs(key));
    var before := Concat(rows[..i], Refs(key));
    if key(rows[i]).Some? {
      var all := before + [key(rows[i]).value];
      assert all[..|all| - 1] == before;
    } else {
      assert before + [] == before;
    }
  }

  // ---------------------------------------------------------------- row checks

  method CheckTask(task: Task, holdsById: map<string, Hold>) returns (found: seq<Anomaly>)
    ensures multiset(found) == TaskAnomalies(holdsById, task)
  {
    found := [];
    if task.holdId.None? {
      if task.status != Draft {
        found := [TaskMissingHoldBinding(task.id, task.status)];
      }
      return;
    }
    var key := task.holdId.value;
    if key !in holdsById {
      return [TaskReferencesMissingHold(task.id, key)];
    }
    var hold := holdsById[key];
    if hold.reason != Some(LAB_TASK + task.id) {
      found := [TaskHoldReasonConflict(task.id, key, hold.reason)];
    }
    if task.issuer.Some? && task.issuer.value != "" && hold.owner != task.issuer {
      found := found + [TaskHoldOwnerConflict(task.id, key, task.issuer.value, hold.owner)];
    }
  }

  method CheckTasks(tasks: seq<Task>, holdsById: map<string, Hold>) returns (anomalies: seq<Anomaly>)
    ensures multiset(anomalies) == Collect(tasks, TaskRule(holdsById))
  {
    anomalies := [];
    for i := 0 to |tasks|
      invariant multiset(anomalies) == Collect(tasks[..i], TaskRule(holdsById))
    {
      var found := CheckTask(tasks[i], holdsById);
      CollectOneMore(tasks, i, TaskRule(holdsById));
      anomalies := anomalies + found;
    }
    TakeAll(tasks);
  }

  method CheckHoldLink(hold: Hold, tasksById: map<string, Task>) returns (found: seq<Anomaly>)
    ensures multiset(found) == HoldLinkAnomalies(tasksById, hold)
  {
    var taskId := HoldTaskId(hold.reason);
    if taskId.None? {
      return [HoldReasonInvalid(hold.id, hold.reason)];
    }
    if taskId.value !in tasksById {
      return [HoldReferencesMissingTask(hold.id, taskId.value)];
    }
    var task := tasksById[taskId.value];
    if task.holdId != Some(hold.id) {
      return [HoldTaskLinkConflict(hold.id, taskId.value, task.holdId)];
    }
    return [];
  }

  method CheckHoldLinks(holds: seq<Hold>, tasksById: map<string, Task>) returns (anomalies: seq<Anomaly>)
    ensures multiset(anomalies) == Collect(holds, HoldLinkRule(tasksById))
  {
    anomalies := [];
    for i := 0 to |holds|
      invariant multiset(anomalies) == Collect(holds[..i], HoldLinkRule(tasksById))
    {
      var found := CheckHoldLink(holds[i], tasksById);
      CollectOneMore(holds, i, HoldLinkRule(tasksById));
      anomalies := anomalies + found;
    }
    TakeAll(holds);
  }

  method CheckEntries(entries: seq<Entry>, holdsById: map<string, Hold>) returns (anomalies: seq<Anomaly>)
    ensures multiset(anomalies) == Collect(entries, EntryLinkRule(holdsById))
  {
    anomalies := [];
    for i := 0 to |entries|
      invariant multiset(anomalies) == Collect(entries[..i], EntryLinkRule(holdsById))
    {
      CollectOneMore(entries, i, EntryLinkRule(holdsById));
      if entries[i].holdId !in holdsById {
        anomalies := anomalies + [JournalReferencesMissingHold(entries[i].id, entries[i].holdId)];
      }
    }
    TakeAll(entries);
  }

  method CheckReceipts(receipts: seq<Receipt>, holdsById: map<string, Hold>) returns (anomalies: seq<Anomaly>)
    ensures multiset(anomalies) == Collect(receipts, ReceiptLinkRule(holdsById))
  {
    anomalies := [];
    for i := 0 to |receipts|
      invariant multiset(anomalies) == Collect(receipts[..i], ReceiptLinkRule(holdsById))
    {
      CollectOneMore(receipts, i, ReceiptLinkRule(holdsById));
      if receipts[i].holdId !in holdsById {
        anomalies := anomalies + [ReceiptReferencesMissingHold(receipts[i].id, receipts[i].holdId)];
      }
    }
    TakeAll(receipts);
  }

  method CheckCommands(commands: seq<Command>, tasksById: map<string, Task>, holdsById: map<string, Hold>)
    returns (anomalies: seq<Anomaly>)
    ensures multiset(anomalies) == Collect(commands, CommandRule(tasksById, holdsById))
  {
    anomalies := [];
    for i := 0 to |commands|
      invariant multiset(anomalies) == Collect(commands[..i], CommandRule(tasksById, holdsById))
    {
      CollectOneMore(commands, i, CommandRule(tasksById, holdsById));
      var command := commands[i];
      if !command.failed {
        continue;
      }
      if command.taskId in tasksById && command.holdId in holdsById
         && !IsTerminalTask(tasksById[command.taskId].status) && holdsById[command.holdId].status == Held
      {
        anomalies := anomalies
          + [FailedCommandHasHeldEscrow(command.id, command.operation, command.taskId, command.holdId)];
      }
    }
    TakeAll(commands);
  }

  // ---------------------------------------------------------------- key checks

  method CheckOperations(entries: seq<Entry>) returns (anomalies: seq<Anomaly>)
    ensures multiset(anomalies) == Collect(GroupKeys(entries, OperationOf), OperationRule(entries))
  {
    var groups := GroupRows(entries, OperationOf);
    var order := groups.order;
    anomalies := [];
    for i := 0 to |order|
      invariant multiset(anomalies) == Collect(order[..i], OperationRule(entries))
    {
      CollectOneMore(order, i, OperationRule(entries));
      if |Filed(groups, order[i])| > 1 {
        anomalies := anomalies + [DuplicateOperationKey(order[i], |Filed(groups, order[i])|)];
      }
    }
    TakeAll(order);
  }

  method CheckRecipients(entries: seq<Entry>) returns (anomalies: seq<Anomaly>)
    ensures multiset(anomalies) == Collect(GroupKeys(entries, TerminalKeyOf), RecipientRule(entries))
  {
    var groups := GroupRows(entries, TerminalKeyOf);
    var order := groups.order;
    anomalies := [];
    for i := 0 to |order|
      invariant multiset(anomalies) == Collect(order[..i], RecipientRule(entries))
    {
      CollectOneMore(order, i, RecipientRule(entries));
      var k := order[i];
      if |Filed(groups, k)| > 1 {
        anomalies := anomalies + [DuplicateTerminalRecipient(k.holdId, k.action, k.recipient, |Filed(groups, k)|)];
      }
    }
    TakeAll(order);
  }

  method CheckMultipleTasks(tasks: seq<Task>, groups: Groups<string, Task>) returns (anomalies: seq<Anomaly>)
    requires Grouped(groups, tasks, TaskHold)
    ensures multiset(anomalies) == Collect(GroupKeys(tasks, TaskHold), MultipleTaskRule(tasks))
  {
    var order := groups.order;
    anomalies := [];
    for i := 0 to |order|
      invariant multiset(anomalies) == Collect(order[..i], MultipleTaskRule(tasks))
    {
      CollectOneMore(order, i, MultipleTaskRule(tasks));
      var linked := Filed(groups, order[i]);
      if |linked| > 1 {
        anomalies := anomalies + [HoldLinkedToMultipleTasks(order[i], Collect(linked, TaskIdBag))];
      }
    }
    TakeAll(order);
  }

  method CheckMultipleHolds(holds: seq<Hold>) returns (anomalies: seq<Anomaly>)
    ensures multiset(anomalies) == Collect(GroupKeys(holds, HoldTask), MultipleHoldRule(holds))
  {
    var groups := GroupRows(holds, HoldTask);
    var order := groups.order;
    anomalies := [];
    for i := 0 to |order|
      invariant multiset(anomalies) == Collect(order[..i], MultipleHoldRule(holds))
    {
      CollectOneMore(order, i, MultipleHoldRule(holds));
      var linked := Filed(groups, order[i]);
      if |linked| > 1 {
        anomalies := anomalies + [TaskLinkedToMultipleHolds(order[i], Collect(linked, HoldIdBag))];
      }
    }
    TakeAll(order);
  }

  // ---------------------------------------------------------------- account buckets

  /** The dictionary of per-account buckets, with its key order. */
  datatype Buckets = Buckets(order: seq<Account>, at: map<Account, Bucket>)

  const NO_BUCKETS := Buckets([], map[])

  /** Book one posting: the account's bucket is created on first use. */
  function Book(b: Buckets, p: Posting): Buckets {
    var k := p.account;
    Buckets(
      if k in b.at then b.order else b.order + [k],
      b.at[k := AddTo(if k in b.at then b.at[k] else Bucket(0, 0, multiset{}), p)])
  }

  /** The dictionary holds exactly the totals of the postings booked so far. */
  ghost predicate Books(b: Buckets, ps: seq<Posting>) {
    && b.order == Accounts(ps)
    && (forall k :: k in b.at <==> k in b.order)
    && forall k :: k in b.at ==> b.at[k] == BucketOf(ps, k)
  }

  lemma BookOne(b: Buckets, ps: seq<Posting>, p: Posting)
    requires Books(b, ps)
    ensures Books(Book(b, p), ps + [p])
  {
    AccountsOneMore(ps, p);
    forall k | k in Book(b, p).at ensures Book(b, p).at[k] == BucketOf(ps + [p], k) {
      BucketOneMore(ps, p, k);
      if k !in b.at {
        NoPostings(ps, k);
      }
    }
  }

  lemma NothingBooked()
    ensures Books(NO_BUCKETS, [])
  {
  }

  lemma AccountsOneMore(ps: seq<Posting>, p: Posting)
    ensures Accounts(ps + [p]) == if p.account in Accounts(ps) then Accounts(ps) else Accounts(ps) + [p.account]
  {
    var keys := Map(ps, AccountOf) + [p.account];
    assert Map(ps + [p], AccountOf) == keys;
    assert keys[..|keys| - 1] == Map(ps, AccountOf);
  }

  lemma NoPostings(ps: seq<Posting>, k: Account)
    requires k !in Accounts(ps)
    ensures BucketOf(ps, k) == Bucket(0, 0, multiset{})
  {
    forall p | p in ps ensures p.account != k {
      var i :| 0 <= i < |ps| && ps[i] == p;
      assert Map(ps, AccountOf)[i] in Map(ps, AccountOf);
    }
    WhereNone(ps, Labelled(AccountOf, k));
  }

  method CollectTransactions(transactions: seq<Transaction>) returns (actual: Buckets)
    ensures Books(actual, Concat(transactions, TransactionPosting))
  {
    actual := NO_BUCKETS;
    for i := 0 to |transactions|
      invariant Books(actual, Concat(transactions[..i], TransactionPosting))
    {
      TakeOne(transactions, i);
      var t := transactions[i];
      ghost var before := Concat(transactions[..i], TransactionPosting);
      if t.amount.None? || t.amount.value <= 0 {
        assert TransactionPosting(t) == [] && before + [] == before;
        continue;
      }
      if t.reason.None? || t.user.None? {
        assert TransactionPosting(t) == [] && before + [] == before;
        continue;
      }
      var posting := Posting(Account(t.user.value, t.reason.value), t.amount.value, t.id);
      BookOne(actual, before, posting);
      actual := Book(actual, posting);
    }
    TakeAll(transactions);
  }

  // ---------------------------------------------------------------- the review of the holds

  method CheckStatus(id: string, hold: Hold, linked: seq<Task>) returns (found: seq<Anomaly>)
    ensures multiset(found) == StatusAnomalies(id, hold, SoleTask(linked))
  {
    found := [];
    var task := if |linked| == 1 then Some(linked[0]) else None;
    if hold.status == Held && task.Some? && IsTerminalTask(task.value.status) {
      found := [HeldHoldHasTerminalTask(id, task.value.id, task.value.status)];
    }
    if hold.status == Settled && (task.None? || task.value.status != Completed) {
      found := found + [SettledHoldTaskConflict(id, task)];
    }
    if hold.status == Refunded && (task.None? || !IsRefundedTask(task.value.status)) {
      found := found + [RefundedHoldTaskConflict(id, task)];
    }
  }

  method CheckHeld(id: string, hold: Hold, entries: seq<Entry>, receipts: seq<Receipt>) returns (found: seq<Anomaly>)
    ensures multiset(found) == HeldAnomalies(id, hold, entries, receipts)
  {
    found := [];
    if hold.status == Held && entries != [] {
      found := [NonterminalHoldHasJournal(id, hold.version == V2, |entries|)];
    }
    if hold.status == Held && receipts != [] {
      found := found + [NonterminalHoldHasReceipt(id, |receipts|)];
    }
  }

  method CheckReceipt(id: string, hold: Hold, entries: seq<Entry>, receipts: seq<Receipt>)
    returns (found: seq<Anomaly>)
    ensures multiset(found) == ReceiptAnomalies(id, hold, entries, receipts)
  {
    if receipts == [] {
      return [MissingReceipt(id, hold.status)];
    }
    if |receipts| > 1 {
      return [MultipleReceipts(id, Collect(receipts, ReceiptIdBag))];
    }
    found := [];
    var receipt := receipts[0];
    if receipt.amount != hold.amount {
      found := [ReceiptAmountMismatch(id, hold.amount, receipt.amount)];
    }
    if receipt.journalCount != |entries| {
      found := found + [ReceiptJournalCountMismatch(id, receipt.journalCount, |entries|)];
    }
  }

  method CheckV2(id: string, hold: Hold, entries: seq<Entry>, receipts: seq<Receipt>) returns (found: seq<Anomaly>)
    ensures multiset(found) == V2Anomalies(id, hold, entries, receipts)
  {
    found := [];
    if hold.version == V2 {
      if entries == [] {
        found := [MissingJournal(id, hold.status)];
      }
      var more := CheckReceipt(id, hold, entries, receipts);
      found := found + more;
    }
  }

  method CheckEntry(id: string, entry: Entry, slugs: set<string>, booked: Buckets, ghost before: seq<Posting>)
    returns (found: seq<Anomaly>, expected: Buckets)
    requires Books(booked, before)
    ensures multiset(found) == EntryAnomalies(id, slugs)(entry)
    ensures Books(expected, before + EntryPosting(id)(entry))
  {
    found, expected := [], booked;
    assert before + [] == before;
    if entry.reason.None? || entry.reason.value == "" {
      found := [JournalEntryMissingReason(id, entry.id)];
      return;
    }
    if entry.recipient.Treasury? {
      if entry.recipient.slug !in slugs {
        found := [MissingTreasuryAccount(id, entry.recipient)];
      }
      return;
    }
    if entry.recipient.Sink? {
      return;
    }
    var posting := Posting(Account(entry.recipient.id, entry.reason.value), entry.amount, id);
    BookOne(booked, before, posting);
    expected := Book(booked, posting);
  }

  method CheckTotals(id: string, hold: Hold, entries: seq<Entry>) returns (found: seq<Anomaly>)
    ensures multiset(found)
         == When(Actions(entries) != {ExpectedAction(hold.status)},
                 TerminalActionConflict(id, hold.status, Actions(entries)))
            + When(Total(entries, EntryAmount) != hold.amount,
                   ConservationMismatch(id, hold.amount, Total(entries, EntryAmount)))
  {
    found := [];
    if Actions(entries) != {ExpectedAction(hold.status)} {
      found := [TerminalActionConflict(id, hold.status, Actions(entries))];
    }
    if Total(entries, EntryAmount) != hold.amount {
      found := found + [ConservationMismatch(id, hold.amount, Total(entries, EntryAmount))];
    }
  }

  /** Walks one terminal hold's journal and books the user credits it calls for. */
  method WalkJournal(
    id: string, entries: seq<Entry>, slugs: set<string>, booked: Buckets, ghost before: seq<Posting>)
    returns (anomalies: seq<Anomaly>, expected: Buckets)
    requires Books(booked, before)
    ensures multiset(anomalies) == Collect(entries, EntryAnomalies(id, slugs))
    ensures Books(expected, before + Concat(entries, EntryPosting(id)))
  {
    hide Books, EntryAnomalies, EntryPosting;
    anomalies, expected := [], booked;
    assert before + [] == before;
    for i := 0 to |entries|
      invariant multiset(anomalies) == Collect(entries[..i], EntryAnomalies(id, slugs))
      invariant Books(expected, before + Concat(entries[..i], EntryPosting(id)))
    {
      ghost var so := before + Concat(entries[..i], EntryPosting(id));
      CollectOneMore(entries, i, EntryAnomalies(id, slugs));
      ConcatOneMore(entries, i, EntryPosting(id));
      assert before + Concat(entries[..i + 1], EntryPosting(id)) == so + EntryPosting(id)(entries[i]);
      var found, more := CheckEntry(id, entries[i], slugs, expected, so);
      anomalies, expected := anomalies + found, more;
    }
    TakeAll(entries);
  }

  method ReviewHold(
    id: string, hold: Hold, linked: seq<Task>, entries: seq<Entry>, receipts: seq<Receipt>, slugs: set<string>,
    booked: Buckets, ghost before: seq<Posting>)
    returns (anomalies: seq<Anomaly>, expected: Buckets)
    requires Books(booked, before)
    ensures multiset(anomalies) == HoldAnomalies(id, hold, linked, entries, receipts, slugs)
    ensures Books(expected, before + HoldPostings(id, hold, entries))
  {
    hide StatusAnomalies, HeldAnomalies, V2Anomalies, EntryAnomalies, Collect, Total, Books;
    var ofStatus := CheckStatus(id, hold, linked);
    var ofHeld := CheckHeld(id, hold, entries, receipts);
    anomalies, expected := ofStatus + ofHeld, booked;
    if !IsTerminalHold(hold.status) {
      assert before + [] == before;
      return;
    }
    var ofReceipt := CheckV2(id, hold, entries, receipts);
    if entries == [] {
      assert before + [] == before;
      anomalies := anomalies + ofReceipt;
      return;
    }
    var ofTotals := CheckTotals(id, hold, entries);
    var ofJournal, more := WalkJournal(id, entries, slugs, booked, before);
    anomalies, expected := anomalies + (ofReceipt + (ofTotals + ofJournal)), more;
  }

  method ReviewHolds(
    s: Snapshot, holdsById: map<string, Hold>, tasksByHold: Groups<string, Task>,
    entriesByHold: Groups<string, Entry>, receiptsByHold: Groups<string, Receipt>)
    returns (anomalies: seq<Anomaly>, expected: Buckets)
    requires holdsById == HoldIndex(s)
    requires Grouped(tasksByHold, s.tasks, TaskHold)
    requires Grouped(entriesByHold, s.entries, EntryHold)
    requires Grouped(receiptsByHold, s.receipts, ReceiptHold)
    ensures multiset(anomalies) == Collect(HoldIds(s), HoldRule(s))
    ensures Books(expected, ExpectedPostings(s))
  {
    hide Books, HoldIds, HoldRule, PostingRule, HoldIndex, Grouped, HoldAnomalies, HoldPostings, Group, Filed, Slugs;
    anomalies, expected := [], NO_BUCKETS;
    NothingBooked();
    var order := HoldIds(s);
    for i := 0 to |order|
      invariant multiset(anomalies) == Collect(order[..i], HoldRule(s))
      invariant Books(expected, Concat(order[..i], PostingRule(s)))
    {
      CollectOneMore(order, i, HoldRule(s));
      ConcatOneMore(order, i, PostingRule(s));
      var id := order[i];
      HoldIdKnown(s, id);
      FiledIsGroup(tasksByHold, s.tasks, TaskHold, id);
      FiledIsGroup(entriesByHold, s.entries, EntryHold, id);
      FiledIsGroup(receiptsByHold, s.receipts, ReceiptHold, id);
      var found, booked := ReviewHold(
        id, holdsById[id], Filed(tasksByHold, id), Filed(entriesByHold, id), Filed(receiptsByHold, id), Slugs(s),
        expected, Concat(order[..i], PostingRule(s)));
      anomalies, expected := anomalies + found, booked;
    }
    TakeAll(order);
  }

  lemma FiledIsGroup<K(!new), V(!new)>(groups: Groups<K, V>, rows: seq<V>, key: V -> Option<K>, k: K)
    requires Grouped(groups, rows, key)
    ensures Filed(groups, k) == Group(rows, key, k)
  {
  }

  lemma HoldIdKnown(s: Snapshot, id: string)
    requires id in HoldIds(s)
    ensures id in HoldIndex(s)
    ensures HoldRule(s)(id)
         == HoldAnomalies(id, HoldIndex(s)[id], Group(s.tasks, TaskHold, id), Group(s.entries, EntryHold, id),
                          Group(s.receipts, ReceiptHold, id), Slugs(s))
    ensures PostingRule(s)(id) == HoldPostings(id, HoldIndex(s)[id], Group(s.entries, EntryHold, id))
  {
    var j :| 0 <= j < |s.holds| && Map(s.holds, HoldKey)[j] == id;
    assert s.holds[j] in s.holds;
  }

  // ---------------------------------------------------------------- account checks

  lemma ReadOrder(b: Buckets, ps: seq<Posting>)
    requires Books(b, ps)
    ensures b.order == Accounts(ps)
    ensures forall k :: k in b.at <==> k in b.order
  {
  }

  lemma ReadBucket(b: Buckets, ps: seq<Posting>, k: Account)
    requires Books(b, ps)
    ensures k in b.at <==> k in Accounts(ps)
    ensures BucketOf(ps, k) == if k in b.at then b.at[k] else Bucket(0, 0, multiset{})
  {
    if k !in b.at {
      NoPostings(ps, k);
    }
  }

  method CheckExpected(expected: Buckets, actual: Buckets, ghost want: seq<Posting>, ghost got: seq<Posting>)
    returns (anomalies: seq<Anomaly>)
    requires Books(expected, want) && Books(actual, got)
    ensures multiset(anomalies) == Collect(Accounts(want), MismatchRule(want, got))
  {
    hide Books, BucketOf, Accounts, RefSet;
    ReadOrder(expected, want);
    anomalies := [];
    for i := 0 to |expected.order|
      invariant multiset(anomalies) == Collect(expected.order[..i], MismatchRule(want, got))
    {
      CollectOneMore(expected.order, i, MismatchRule(want, got));
      var k := expected.order[i];
      ReadBucket(expected, want, k);
      ReadBucket(actual, got, k);
      var bucket := expected.at[k];
      var amount := if k in actual.at then actual.at[k].amount else 0;
      var count := if k in actual.at then actual.at[k].count else 0;
      if amount != bucket.amount || count != bucket.count {
        anomalies := anomalies
          + [UserTransactionMismatch(k, RefSet(bucket.refs), bucket.amount, amount, bucket.count, count)];
      }
    }
    TakeAll(expected.order);
  }

  method CheckUnexpected(expected: Buckets, actual: Buckets, ghost want: seq<Posting>, ghost got: seq<Posting>)
    returns (anomalies: seq<Anomaly>)
    requires Books(expected, want) && Books(actual, got)
    ensures multiset(anomalies) == Collect(Accounts(got), UnexpectedRule(want, got))
  {
    hide Books, BucketOf, Accounts;
    ReadOrder(actual, got);
    anomalies := [];
    for i := 0 to |actual.order|
      invariant multiset(anomalies) == Collect(actual.order[..i], UnexpectedRule(want, got))
    {
      CollectOneMore(actual.order, i, UnexpectedRule(want, got));
      var k := actual.order[i];
      ReadBucket(actual, got, k);
      ReadBucket(expected, want, k);
      if !IsTerminalReason(k.reason) || k in expected.at {
        continue;
      }
      anomalies := anomalies + [UnexpectedUserTransaction(k, actual.at[k])];
    }
    TakeAll(actual.order);
  }

  // ---------------------------------------------------------------- the whole analysis

  method AnalyzeSnapshot(s: Snapshot) returns (anomalies: seq<Anomaly>)
    ensures multiset(anomalies) == AnomalyBag(s)
    ensures forall a :: a in anomalies <==> Reported(s, a)
  {
    anomalies := ApplyRules(s);
    FoundIsReported(s, anomalies);
  }

  method ApplyRules(s: Snapshot) returns (anomalies: seq<Anomaly>)
    ensures multiset(anomalies) == AnomalyBag(s)
  {
    var tasksById, holdsById := TaskIndex(s), HoldIndex(s);
    var tasksByHold := GroupRows(s.tasks, TaskHold);
    var entriesByHold := GroupRows(s.entries, EntryHold);
    var receiptsByHold := GroupRows(s.receipts, ReceiptHold);

    var ofTasks := CheckTasks(s.tasks, holdsById);
    var ofHolds := CheckHoldLinks(s.holds, tasksById);
    var ofEntries := CheckEntries(s.entries, holdsById);
    var ofReceipts := CheckReceipts(s.receipts, holdsById);
    var ofCommands := CheckCommands(s.commands, tasksById, holdsById);
    var actual := CollectTransactions(s.transactions);
    var ofOperations := CheckOperations(s.entries);
    var ofRecipients := CheckRecipients(s.entries);
    var ofMultipleTasks := CheckMultipleTasks(s.tasks, tasksByHold);
    var ofMultipleHolds := CheckMultipleHolds(s.holds);
    var ofReview, expected := ReviewHolds(s, holdsById, tasksByHold, entriesByHold, receiptsByHold);
    var ofExpected := CheckExpected(expected, actual, ExpectedPostings(s), ActualPostings(s));
    var ofUnexpected := CheckUnexpected(expected, actual, ExpectedPostings(s), ActualPostings(s));

    var rows := ofTasks + ofHolds + ofEntries + ofReceipts + ofCommands;
    var keys := ofOperations + ofRecipients + ofMultipleTasks + ofMultipleHolds;
    anomalies := rows + keys + ofReview + (ofExpected + ofUnexpected);
  }
}
