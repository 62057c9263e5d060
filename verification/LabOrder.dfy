/** The reconciliation does not depend on row order.

    The analysis fills dictionaries row by row and picks single elements out of lists, yet
    with unique task and hold ids it reports the same bag of findings for every order in
    which the tables may be read. */
module LabOrder {
  import opened Bags
  import opened LabLedger
  import LabBalance

  ghost predicate Reordered(s: Snapshot, s': Snapshot) {
    && multiset(s.tasks) == multiset(s'.tasks)
    && multiset(s.holds) == multiset(s'.holds)
    && multiset(s.entries) == multiset(s'.entries)
    && multiset(s.transactions) == multiset(s'.transactions)
    && multiset(s.treasuries) == multiset(s'.treasuries)
    && multiset(s.receipts) == multiset(s'.receipts)
    && multiset(s.commands) == multiset(s'.commands)
  }

  // ---------------------------------------------------------------- dictionaries and groups

  lemma IndexesAgree(s: Snapshot, s': Snapshot)
    requires Reordered(s, s') && LabBalance.UniqueIds(s)
    ensures TaskIndex(s) == TaskIndex(s') && HoldIndex(s) == HoldIndex(s') && Slugs(s) == Slugs(s')
    ensures LabBalance.UniqueIds(s')
  {
    UniquePermuted(s.tasks, s'.tasks, TaskKey);
    UniquePermuted(s.holds, s'.holds, HoldKey);
    IndexPermuted(s.tasks, s'.tasks, TaskKey);
    IndexPermuted(s.holds, s'.holds, HoldKey);
    BagLength(s.treasuries, s'.treasuries);
  }

  lemma GroupsAgree<K(!new), V(!new)>(rows: seq<V>, rows': seq<V>, key: V -> Option<K>, k: K)
    requires multiset(rows) == multiset(rows')
    ensures multiset(Group(rows, key, k)) == multiset(Group(rows', key, k))
    ensures |Group(rows, key, k)| == |Group(rows', key, k)|
  {
    WherePermuted(rows, rows', Labelled(key, Some(k)));
  }

  lemma KeysAgree<K(!new), V(!new)>(rows: seq<V>, rows': seq<V>, key: V -> Option<K>)
    requires multiset(rows) == multiset(rows')
    ensures multiset(GroupKeys(rows, key)) == multiset(GroupKeys(rows', key))
  {
    BagLength(rows, rows');
    forall k ensures k in Concat(rows, Refs(key)) <==> k in Concat(rows', Refs(key)) {
      ConcatMember(rows, Refs(key), k);
      ConcatMember(rows', Refs(key), k);
    }
    DistinctPermuted(Concat(rows, Refs(key)), Concat(rows', Refs(key)));
  }

  /** Rules that agree key by key, collected over the same bag of keys, find the same. */
  lemma CollectAgrees<K(!new), B(!new)>(keys: seq<K>, keys': seq<K>, rule: K -> multiset<B>, rule': K -> multiset<B>)
    requires multiset(keys) == multiset(keys')
    requires forall k :: k in keys ==> rule(k) == rule'(k)
    ensures Collect(keys, rule) == Collect(keys', rule')
  {
    CollectSame(keys, rule, rule');
    CollectPermuted(keys, keys', rule');
  }

  // ---------------------------------------------------------------- rows and keys

  lemma RowsAgree(s: Snapshot, s': Snapshot)
    requires Reordered(s, s') && LabBalance.UniqueIds(s)
    ensures RowAnomalies(s) == RowAnomalies(s')
  {
    IndexesAgree(s, s');
    hide TaskIndex, HoldIndex, TaskRule, HoldLinkRule, EntryLinkRule, ReceiptLinkRule, CommandRule, Collect;
    CollectPermuted(s.tasks, s'.tasks, TaskRule(HoldIndex(s)));
    CollectPermuted(s.holds, s'.holds, HoldLinkRule(TaskIndex(s)));
    CollectPermuted(s.entries, s'.entries, EntryLinkRule(HoldIndex(s)));
    CollectPermuted(s.receipts, s'.receipts, ReceiptLinkRule(HoldIndex(s)));
    CollectPermuted(s.commands, s'.commands, CommandRule(TaskIndex(s), HoldIndex(s)));
  }

  lemma EntryKeysAgree(entries: seq<Entry>, entries': seq<Entry>)
    requires multiset(entries) == multiset(entries')
    ensures Collect(GroupKeys(entries, OperationOf), OperationRule(entries))
         == Collect(GroupKeys(entries', OperationOf), OperationRule(entries'))
    ensures Collect(GroupKeys(entries, TerminalKeyOf), RecipientRule(entries))
         == Collect(GroupKeys(entries', TerminalKeyOf), RecipientRule(entries'))
  {
    hide GroupKeys, Group, Collect;
    KeysAgree(entries, entries', OperationOf);
    KeysAgree(entries, entries', TerminalKeyOf);
    forall k ensures OperationRule(entries)(k) == OperationRule(entries')(k) {
      GroupsAgree(entries, entries', OperationOf, k);
    }
    forall k ensures RecipientRule(entries)(k) == RecipientRule(entries')(k) {
      GroupsAgree(entries, entries', TerminalKeyOf, k);
    }
    CollectAgrees(GroupKeys(entries, OperationOf), GroupKeys(entries', OperationOf),
                  OperationRule(entries), OperationRule(entries'));
    CollectAgrees(GroupKeys(entries, TerminalKeyOf), GroupKeys(entries', TerminalKeyOf),
                  RecipientRule(entries), RecipientRule(entries'));
  }

  lemma TaskKeysAgree(tasks: seq<Task>, tasks': seq<Task>)
    requires multiset(tasks) == multiset(tasks')
    ensures Collect(GroupKeys(tasks, TaskHold), MultipleTaskRule(tasks))
         == Collect(GroupKeys(tasks', TaskHold), MultipleTaskRule(tasks'))
  {
    hide GroupKeys, Group, Collect;
    KeysAgree(tasks, tasks', TaskHold);
    forall k ensures MultipleTaskRule(tasks)(k) == MultipleTaskRule(tasks')(k) {
      GroupsAgree(tasks, tasks', TaskHold, k);
      CollectPermuted(Group(tasks, TaskHold, k), Group(tasks', TaskHold, k), TaskIdBag);
    }
    CollectAgrees(GroupKeys(tasks, TaskHold), GroupKeys(tasks', TaskHold), MultipleTaskRule(tasks),
                  MultipleTaskRule(tasks'));
  }

  lemma HoldKeysAgree(holds: seq<Hold>, holds': seq<Hold>)
    requires multiset(holds) == multiset(holds')
    ensures Collect(GroupKeys(holds, HoldTask), MultipleHoldRule(holds))
         == Collect(GroupKeys(holds', HoldTask), MultipleHoldRule(holds'))
  {
    hide GroupKeys, Group, Collect;
    KeysAgree(holds, holds', HoldTask);
    forall k ensures MultipleHoldRule(holds)(k) == MultipleHoldRule(holds')(k) {
      GroupsAgree(holds, holds', HoldTask, k);
      CollectPermuted(Group(holds, HoldTask, k), Group(holds', HoldTask, k), HoldIdBag);
    }
    CollectAgrees(GroupKeys(holds, HoldTask), GroupKeys(holds', HoldTask), MultipleHoldRule(holds),
                  MultipleHoldRule(holds'));
  }

  lemma KeyAnomaliesAgree(s: Snapshot, s': Snapshot)
    requires Reordered(s, s')
    ensures KeyAnomalies(s) == KeyAnomalies(s')
  {
    EntryKeysAgree(s.entries, s'.entries);
    TaskKeysAgree(s.tasks, s'.tasks);
    HoldKeysAgree(s.holds, s'.holds);
  }

  // ---------------------------------------------------------------- the review of one hold

  lemma SoleAgrees<A(!new)>(rows: seq<A>, rows': seq<A>)
    requires multiset(rows) == multiset(rows') && |rows| == 1
    ensures rows == rows'
  {
    BagLength(rows, rows');
    assert rows[0] in rows;
  }

  lemma TotalsAgree(id: string, hold: Hold, entries: seq<Entry>, entries': seq<Entry>, slugs: set<string>)
    requires multiset(entries) == multiset(entries')
    ensures JournalAnomalies(id, hold, entries, slugs) == JournalAnomalies(id, hold, entries', slugs)
  {
    BagLength(entries, entries');
    TotalPermuted(entries, entries', EntryAmount);
    CollectPermuted(entries, entries', EntryAnomalies(id, slugs));
    assert Actions(entries) == Actions(entries');
  }

  lemma ReceiptsAgree(
    id: string, hold: Hold, entries: seq<Entry>, entries': seq<Entry>, receipts: seq<Receipt>, receipts': seq<Receipt>)
    requires |entries| == |entries'| && multiset(receipts) == multiset(receipts')
    ensures ReceiptAnomalies(id, hold, entries, receipts) == ReceiptAnomalies(id, hold, entries', receipts')
  {
    BagLength(receipts, receipts');
    CollectPermuted(receipts, receipts', ReceiptIdBag);
    if |receipts| == 1 {
      SoleAgrees(receipts, receipts');
    }
  }

  lemma CountsAgree(
    id: string, hold: Hold, entries: seq<Entry>, entries': seq<Entry>, receipts: seq<Receipt>, receipts': seq<Receipt>)
    requires |entries| == |entries'| && multiset(receipts) == multiset(receipts')
    ensures V2Anomalies(id, hold, entries, receipts) == V2Anomalies(id, hold, entries', receipts')
    ensures HeldAnomalies(id, hold, entries, receipts) == HeldAnomalies(id, hold, entries', receipts')
  {
    BagLength(receipts, receipts');
    ReceiptsAgree(id, hold, entries, entries', receipts, receipts');
    hide ReceiptAnomalies, When;
    assert (entries == []) == (entries' == []) && (receipts == []) == (receipts' == []);
  }

  lemma HoldAnomaliesAgree(
    id: string, hold: Hold, linked: seq<Task>, linked': seq<Task>, entries: seq<Entry>, entries': seq<Entry>,
    receipts: seq<Receipt>, receipts': seq<Receipt>, slugs: set<string>)
    requires multiset(linked) == multiset(linked') && multiset(entries) == multiset(entries')
    requires multiset(receipts) == multiset(receipts')
    ensures HoldAnomalies(id, hold, linked, entries, receipts, slugs)
         == HoldAnomalies(id, hold, linked', entries', receipts', slugs)
  {
    BagLength(linked, linked');
    BagLength(entries, entries');
    hide StatusAnomalies, V2Anomalies, HeldAnomalies, JournalAnomalies;
    if |linked| == 1 {
      SoleAgrees(linked, linked');
    }
    CountsAgree(id, hold, entries, entries', receipts, receipts');
    TotalsAgree(id, hold, entries, entries', slugs);
  }

  lemma HoldRulesAgree(s: Snapshot, s': Snapshot, k: string)
    requires Reordered(s, s') && LabBalance.UniqueIds(s)
    ensures HoldRule(s)(k) == HoldRule(s')(k)
    ensures multiset(PostingRule(s)(k)) == multiset(PostingRule(s')(k))
  {
    IndexesAgree(s, s');
    hide HoldIndex, Group, HoldAnomalies, Slugs;
    GroupsAgree(s.tasks, s'.tasks, TaskHold, k);
    GroupsAgree(s.entries, s'.entries, EntryHold, k);
    GroupsAgree(s.receipts, s'.receipts, ReceiptHold, k);
    if k in HoldIndex(s) {
      HoldAnomaliesAgree(
        k, HoldIndex(s)[k], Group(s.tasks, TaskHold, k), Group(s'.tasks, TaskHold, k),
        Group(s.entries, EntryHold, k), Group(s'.entries, EntryHold, k),
        Group(s.receipts, ReceiptHold, k), Group(s'.receipts, ReceiptHold, k), Slugs(s));
      PostingsOfHoldAgree(k, Group(s.entries, EntryHold, k), Group(s'.entries, EntryHold, k));
    }
  }

  lemma PostingsOfHoldAgree(id: string, entries: seq<Entry>, entries': seq<Entry>)
    requires multiset(entries) == multiset(entries')
    ensures multiset(Concat(entries, EntryPosting(id))) == multiset(Concat(entries', EntryPosting(id)))
  {
    var bag := (e: Entry) => multiset(EntryPosting(id)(e));
    ConcatBag(entries, EntryPosting(id), bag);
    ConcatBag(entries', EntryPosting(id), bag);
    CollectPermuted(entries, entries', bag);
  }

  lemma HoldIdsAgree(s: Snapshot, s': Snapshot)
    requires Reordered(s, s')
    ensures multiset(HoldIds(s)) == multiset(HoldIds(s'))
  {
    BagLength(s.holds, s'.holds);
    var ids, ids' := Map(s.holds, HoldKey), Map(s'.holds, HoldKey);
    forall k ensures k in ids <==> k in ids' {
      if k in ids {
        var i :| 0 <= i < |ids| && ids[i] == k;
        assert s.holds[i] in s'.holds;
        var j :| 0 <= j < |s'.holds| && s'.holds[j] == s.holds[i];
        assert ids'[j] == k;
      }
      if k in ids' {
        var i :| 0 <= i < |ids'| && ids'[i] == k;
        assert s'.holds[i] in s.holds;
        var j :| 0 <= j < |s.holds| && s.holds[j] == s'.holds[i];
        assert ids[j] == k;
      }
    }
    DistinctPermuted(ids, ids');
  }

  lemma ReviewsAgree(s: Snapshot, s': Snapshot)
    requires Reordered(s, s') && LabBalance.UniqueIds(s)
    ensures Collect(HoldIds(s), HoldRule(s)) == Collect(HoldIds(s'), HoldRule(s'))
    ensures multiset(ExpectedPostings(s)) == multiset(ExpectedPostings(s'))
  {
    HoldIdsAgree(s, s');
    forall k ensures HoldRule(s)(k) == HoldRule(s')(k) && multiset(PostingRule(s)(k)) == multiset(PostingRule(s')(k)) {
      HoldRulesAgree(s, s', k);
    }
    hide HoldIds, HoldRule, PostingRule, Reordered;
    CollectAgrees(HoldIds(s), HoldIds(s'), HoldRule(s), HoldRule(s'));
    var bag := (k: string) => multiset(PostingRule(s)(k));
    var bag' := (k: string) => multiset(PostingRule(s')(k));
    ConcatBag(HoldIds(s), PostingRule(s), bag);
    ConcatBag(HoldIds(s'), PostingRule(s'), bag');
    CollectAgrees(HoldIds(s), HoldIds(s'), bag, bag');
  }

  // ---------------------------------------------------------------- accounts

  lemma ActualAgrees(s: Snapshot, s': Snapshot)
    requires Reordered(s, s')
    ensures multiset(ActualPostings(s)) == multiset(ActualPostings(s'))
  {
    var bag := (t: Transaction) => multiset(TransactionPosting(t));
    ConcatBag(s.transactions, TransactionPosting, bag);
    ConcatBag(s'.transactions, TransactionPosting, bag);
    CollectPermuted(s.transactions, s'.transactions, bag);
  }

  lemma BucketsAgree(ps: seq<Posting>, ps': seq<Posting>, k: Account)
    requires multiset(ps) == multiset(ps')
    ensures BucketOf(ps, k) == BucketOf(ps', k)
  {
    var mine, mine' := Where(ps, Labelled(AccountOf, k)), Where(ps', Labelled(AccountOf, k));
    WherePermuted(ps, ps', Labelled(AccountOf, k));
    TotalPermuted(mine, mine', PostedAmount);
    CollectPermuted(mine, mine', RefBag);
  }

  lemma AccountListsAgree(ps: seq<Posting>, ps': seq<Posting>)
    requires multiset(ps) == multiset(ps')
    ensures multiset(Accounts(ps)) == multiset(Accounts(ps'))
    ensures forall k :: k in Accounts(ps) <==> k in Accounts(ps')
  {
    BagLength(ps, ps');
    var keys, keys' := Map(ps, AccountOf), Map(ps', AccountOf);
    forall k ensures k in keys <==> k in keys' {
      if k in keys {
        var i :| 0 <= i < |keys| && keys[i] == k;
        assert ps[i] in ps';
        var j :| 0 <= j < |ps'| && ps'[j] == ps[i];
        assert keys'[j] == k;
      }
      if k in keys' {
        var i :| 0 <= i < |keys'| && keys'[i] == k;
        assert ps'[i] in ps;
        var j :| 0 <= j < |ps| && ps[j] == ps'[i];
        assert keys[j] == k;
      }
    }
    DistinctPermuted(keys, keys');
  }

  lemma MismatchesAgree(expected: seq<Posting>, expected': seq<Posting>, actual: seq<Posting>, actual': seq<Posting>)
    requires multiset(expected) == multiset(expected') && multiset(actual) == multiset(actual')
    ensures Collect(Accounts(expected), MismatchRule(expected, actual))
         == Collect(Accounts(expected'), MismatchRule(expected', actual'))
  {
    AccountListsAgree(expected, expected');
    hide BucketOf, Accounts, RefSet, Collect, When;
    forall k ensures MismatchRule(expected, actual)(k) == MismatchRule(expected', actual')(k) {
      BucketsAgree(expected, expected', k);
      BucketsAgree(actual, actual', k);
    }
    CollectAgrees(Accounts(expected), Accounts(expected'), MismatchRule(expected, actual),
                  MismatchRule(expected', actual'));
  }

  lemma UnexpectedAgree(expected: seq<Posting>, expected': seq<Posting>, actual: seq<Posting>, actual': seq<Posting>)
    requires multiset(expected) == multiset(expected') && multiset(actual) == multiset(actual')
    ensures Collect(Accounts(actual), UnexpectedRule(expected, actual))
         == Collect(Accounts(actual'), UnexpectedRule(expected', actual'))
  {
    AccountListsAgree(expected, expected');
    AccountListsAgree(actual, actual');
    hide BucketOf, Accounts, IsTerminalReason, Collect, When;
    forall k ensures UnexpectedRule(expected, actual)(k) == UnexpectedRule(expected', actual')(k) {
      BucketsAgree(actual, actual', k);
    }
    CollectAgrees(Accounts(actual), Accounts(actual'), UnexpectedRule(expected, actual),
                  UnexpectedRule(expected', actual'));
  }

  lemma AccountAnomaliesAgree(
    expected: seq<Posting>, expected': seq<Posting>, actual: seq<Posting>, actual': seq<Posting>)
    requires multiset(expected) == multiset(expected') && multiset(actual) == multiset(actual')
    ensures AccountAnomalies(expected, actual) == AccountAnomalies(expected', actual')
  {
    MismatchesAgree(expected, expected', actual, actual');
    UnexpectedAgree(expected, expected', actual, actual');
  }

  /** Reading the tables in any other order reports the same findings. */
  lemma OrderDoesNotMatter(s: Snapshot, s': Snapshot)
    requires Reordered(s, s') && LabBalance.UniqueIds(s)
    ensures AnomalyBag(s) == AnomalyBag(s')
  {
    RowsAgree(s, s');
    KeyAnomaliesAgree(s, s');
    ReviewsAgree(s, s');
    ActualAgrees(s, s');
    AccountAnomaliesAgree(ExpectedPostings(s), ExpectedPostings(s'), ActualPostings(s), ActualPostings(s'));
  }
}
