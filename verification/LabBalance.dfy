/** What a reconciliation without findings guarantees.

    `Consistent` describes a sound ledger row by row; the analysis reports nothing exactly
    for consistent ledgers.  From it follow the one-to-one linkage of tasks and holds and
    the conservation of money between holds, journal, treasuries and user transactions. */
module LabBalance {
  import opened Bags
  import opened LabLedger

  // ---------------------------------------------------------------- a sound ledger

  ghost predicate TaskBound(s: Snapshot, t: Task) {
    match t.holdId
    case None => t.status == Draft
    case Some(k) =>
      && k in HoldIndex(s)
      && HoldIndex(s)[k].reason == Some(LAB_TASK + t.id)
      && (t.issuer.Some? && t.issuer.value != "" ==> HoldIndex(s)[k].owner == t.issuer)
  }

  ghost predicate HoldBound(s: Snapshot, h: Hold) {
    exists id :: id in TaskIndex(s) && HoldTaskId(h.reason) == Some(id) && TaskIndex(s)[id].holdId == Some(h.id)
  }

  /** No two rows carry the same key; rows without a key do not count. */
  ghost predicate NoSharedKey<K(!new), V(!new)>(rows: seq<V>, key: V -> Option<K>) {
    forall i, j :: 0 <= i < j < |rows| && key(rows[i]).Some? ==> key(rows[i]) != key(rows[j])
  }

  ghost predicate StatusAgrees(h: Hold, linked: seq<Task>) {
    && (h.status == Held && |linked| == 1 ==> !IsTerminalTask(linked[0].status))
    && (h.status == Settled ==> |linked| == 1 && linked[0].status == Completed)
    && (h.status == Refunded ==> |linked| == 1 && IsRefundedTask(linked[0].status))
  }

  ghost predicate JournalAgrees(h: Hold, entries: seq<Entry>, receipts: seq<Receipt>, slugs: set<string>) {
    && (h.status == Held ==> entries == [] && receipts == [])
    && (IsTerminalHold(h.status) && h.version == V2 ==>
        entries != [] && |receipts| == 1
        && receipts[0].amount == h.amount && receipts[0].journalCount == |entries|)
    && (IsTerminalHold(h.status) && entries != [] ==>
        && (forall e :: e in entries ==> e.action == if h.status == Settled then Settle else Refund)
        && Total(entries, EntryAmount) == h.amount
        && forall e :: e in entries ==> HasReason(e) && (e.recipient.Treasury? ==> e.recipient.slug in slugs))
  }

  ghost predicate HoldReviewed(s: Snapshot, k: string)
    requires k in HoldIndex(s)
  {
    && StatusAgrees(HoldIndex(s)[k], Group(s.tasks, TaskHold, k))
    && JournalAgrees(HoldIndex(s)[k], Group(s.entries, EntryHold, k), Group(s.receipts, ReceiptHold, k), Slugs(s))
  }

  ghost predicate AccountsAgree(expected: seq<Posting>, actual: seq<Posting>) {
    && (forall k :: k in Accounts(expected) ==>
          BucketOf(actual, k).amount == BucketOf(expected, k).amount
          && BucketOf(actual, k).count == BucketOf(expected, k).count)
    && (forall k :: k in Accounts(actual) && IsTerminalReason(k.reason) ==> k in Accounts(expected))
  }

  ghost predicate RowsConsistent(s: Snapshot) {
    && (forall t :: t in s.tasks ==> TaskBound(s, t))
    && (forall h :: h in s.holds ==> HoldBound(s, h))
    && (forall e :: e in s.entries ==> e.holdId in HoldIndex(s))
    && (forall r :: r in s.receipts ==> r.holdId in HoldIndex(s))
    && (forall c :: c in s.commands ==> !CommandStuck(TaskIndex(s), HoldIndex(s), c))
  }

  ghost predicate KeysConsistent(s: Snapshot) {
    && NoSharedKey(s.entries, OperationOf)
    && NoSharedKey(s.entries, TerminalKeyOf)
    && NoSharedKey(s.tasks, TaskHold)
    && NoSharedKey(s.holds, HoldTask)
  }

  ghost predicate Consistent(s: Snapshot) {
    && RowsConsistent(s)
    && KeysConsistent(s)
    && (forall k :: k in HoldIndex(s) ==> HoldReviewed(s, k))
    && AccountsAgree(ExpectedPostings(s), ActualPostings(s))
  }

  // ---------------------------------------------------------------- nothing reported <==> sound

  lemma TasksCleanIff(s: Snapshot)
    ensures Collect(s.tasks, TaskRule(HoldIndex(s))) == multiset{} <==> forall t :: t in s.tasks ==> TaskBound(s, t)
  {
    CollectEmpty(s.tasks, TaskRule(HoldIndex(s)));
    forall t ensures TaskRule(HoldIndex(s))(t) == multiset{} <==> TaskBound(s, t) {
    }
  }

  lemma HoldLinksCleanIff(s: Snapshot)
    ensures Collect(s.holds, HoldLinkRule(TaskIndex(s))) == multiset{}
       <==> forall h :: h in s.holds ==> HoldBound(s, h)
  {
    CollectEmpty(s.holds, HoldLinkRule(TaskIndex(s)));
    forall h ensures HoldLinkRule(TaskIndex(s))(h) == multiset{} <==> HoldBound(s, h) {
    }
  }

  lemma LinksCleanIff(s: Snapshot)
    ensures Collect(s.entries, EntryLinkRule(HoldIndex(s))) == multiset{}
       <==> forall e :: e in s.entries ==> e.holdId in HoldIndex(s)
    ensures Collect(s.receipts, ReceiptLinkRule(HoldIndex(s))) == multiset{}
       <==> forall r :: r in s.receipts ==> r.holdId in HoldIndex(s)
    ensures Collect(s.commands, CommandRule(TaskIndex(s), HoldIndex(s))) == multiset{}
       <==> forall c :: c in s.commands ==> !CommandStuck(TaskIndex(s), HoldIndex(s), c)
  {
    hide TaskIndex, HoldIndex, CommandStuck;
    CollectEmpty(s.entries, EntryLinkRule(HoldIndex(s)));
    CollectEmpty(s.receipts, ReceiptLinkRule(HoldIndex(s)));
    CollectEmpty(s.commands, CommandRule(TaskIndex(s), HoldIndex(s)));
  }

  lemma RowsCleanIff(s: Snapshot)
    ensures RowAnomalies(s) == multiset{} <==> RowsConsistent(s)
  {
    hide TaskIndex, HoldIndex, CommandStuck, Collect, TaskRule, HoldLinkRule, EntryLinkRule, ReceiptLinkRule,
      CommandRule, TaskBound, HoldBound;
    TasksCleanIff(s);
    HoldLinksCleanIff(s);
    LinksCleanIff(s);
  }

  /** Every group has at most one row exactly when no two rows share a key. */
  lemma {:induction false} GroupsSingleIff<K(!new), V(!new)>(rows: seq<V>, key: V -> Option<K>)
    ensures (forall k :: k in GroupKeys(rows, key) ==> |Group(rows, key, k)| <= 1) <==> NoSharedKey(rows, key)
  {
    if !NoSharedKey(rows, key) {
      var i, j :| 0 <= i < j < |rows| && key(rows[i]).Some? && key(rows[i]) == key(rows[j]);
      var k := key(rows[i]).value;
      ConcatMember(rows, Refs(key), k);
      assert k in Refs(key)(rows[i]);
      PairInGroup(rows, key, k, i, j);
    } else {
      forall k ensures |Group(rows, key, k)| <= 1 {
        GroupSmall(rows, key, k);
      }
    }
  }

  lemma {:induction false} GroupSmall<K(!new), V(!new)>(rows: seq<V>, key: V -> Option<K>, k: K)
    requires NoSharedKey(rows, key)
    ensures |Group(rows, key, k)| <= 1
    ensures forall v :: v in rows && key(v) == Some(k) ==> Group(rows, key, k) == [v]
  {
    if rows != [] {
      var front, last := rows[..|rows| - 1], rows[|rows| - 1];
      assert rows == front + [last];
      GroupSmall(front, key, k);
      if key(last) == Some(k) {
        forall v | v in front ensures key(v) != Some(k) {
          var i :| 0 <= i < |front| && front[i] == v;
          assert rows[i] == v;
        }
        WhereNone(front, Labelled(key, Some(k)));
      }
    }
  }

  lemma {:induction false} PairInGroup<K(!new), V(!new)>(rows: seq<V>, key: V -> Option<K>, k: K, i: nat, j: nat)
    requires i < j < |rows| && key(rows[i]) == key(rows[j]) == Some(k)
    ensures |Group(rows, key, k)| >= 2
  {
    var front, last := rows[..|rows| - 1], rows[|rows| - 1];
    if j < |rows| - 1 {
      PairInGroup(front, key, k, i, j);
    } else {
      assert front[i] in front;
      WhereMember(front, Labelled(key, Some(k)), front[i]);
      assert Where(front, Labelled(key, Some(k))) != [];
    }
  }

  lemma EntryKeysCleanIff(s: Snapshot)
    ensures Collect(GroupKeys(s.entries, OperationOf), OperationRule(s.entries)) == multiset{}
       <==> NoSharedKey(s.entries, OperationOf)
    ensures Collect(GroupKeys(s.entries, TerminalKeyOf), RecipientRule(s.entries)) == multiset{}
       <==> NoSharedKey(s.entries, TerminalKeyOf)
  {
    hide NoSharedKey, GroupKeys, Group;
    CollectEmpty(GroupKeys(s.entries, OperationOf), OperationRule(s.entries));
    CollectEmpty(GroupKeys(s.entries, TerminalKeyOf), RecipientRule(s.entries));
    GroupsSingleIff(s.entries, OperationOf);
    GroupsSingleIff(s.entries, TerminalKeyOf);
  }

  lemma TaskLinksCleanIff(tasks: seq<Task>)
    ensures Collect(GroupKeys(tasks, TaskHold), MultipleTaskRule(tasks)) == multiset{} <==> NoSharedKey(tasks, TaskHold)
  {
    GroupsSingleIff(tasks, TaskHold);
    hide NoSharedKey, GroupKeys, Group;
    CollectEmpty(GroupKeys(tasks, TaskHold), MultipleTaskRule(tasks));
  }

  lemma HoldReasonsCleanIff(holds: seq<Hold>)
    ensures Collect(GroupKeys(holds, HoldTask), MultipleHoldRule(holds)) == multiset{} <==> NoSharedKey(holds, HoldTask)
  {
    GroupsSingleIff(holds, HoldTask);
    hide NoSharedKey, GroupKeys, Group;
    CollectEmpty(GroupKeys(holds, HoldTask), MultipleHoldRule(holds));
  }

  lemma KeysCleanIff(s: Snapshot)
    ensures KeyAnomalies(s) == multiset{} <==> KeysConsistent(s)
  {
    hide NoSharedKey, GroupKeys, Collect, OperationRule, RecipientRule, MultipleTaskRule, MultipleHoldRule;
    EntryKeysCleanIff(s);
    TaskLinksCleanIff(s.tasks);
    HoldReasonsCleanIff(s.holds);
  }

  lemma StatusCleanIff(k: string, h: Hold, linked: seq<Task>)
    ensures StatusAnomalies(k, h, SoleTask(linked)) == multiset{} <==> StatusAgrees(h, linked)
  {
  }

  lemma ActionsAgreeIff(h: Hold, entries: seq<Entry>)
    requires entries != []
    ensures Actions(entries) == {ExpectedAction(h.status)}
       <==> forall e :: e in entries ==> e.action == if h.status == Settled then Settle else Refund
  {
    assert entries[0] in entries;
    forall e | e in entries ensures e.action in Actions(entries) {
    }
  }

  lemma JournalCleanIff(
    k: string, h: Hold, linked: seq<Task>, entries: seq<Entry>, receipts: seq<Receipt>, slugs: set<string>)
    ensures HoldAnomalies(k, h, linked, entries, receipts, slugs) == multiset{}
       <==> StatusAgrees(h, linked) && JournalAgrees(h, entries, receipts, slugs)
  {
    StatusCleanIff(k, h, linked);
    if entries != [] {
      ActionsAgreeIff(h, entries);
    }
    hide StatusAgrees, StatusAnomalies, Total, Actions, ExpectedAction;
    CollectEmpty(entries, EntryAnomalies(k, slugs));
    forall e ensures EntryAnomalies(k, slugs)(e) == multiset{}
                <==> HasReason(e) && (e.recipient.Treasury? ==> e.recipient.slug in slugs)
    {
    }
  }

  lemma HoldsCleanIff(s: Snapshot)
    ensures Collect(HoldIds(s), HoldRule(s)) == multiset{} <==> forall k :: k in HoldIndex(s) ==> HoldReviewed(s, k)
  {
    CollectEmpty(HoldIds(s), HoldRule(s));
    forall k ensures k in HoldIds(s) <==> k in HoldIndex(s) {
    }
    forall k | k in HoldIndex(s) ensures HoldRule(s)(k) == multiset{} <==> HoldReviewed(s, k) {
      JournalCleanIff(k, HoldIndex(s)[k], Group(s.tasks, TaskHold, k), Group(s.entries, EntryHold, k),
                      Group(s.receipts, ReceiptHold, k), Slugs(s));
    }
  }

  lemma MismatchesCleanIff(expected: seq<Posting>, actual: seq<Posting>)
    ensures Collect(Accounts(expected), MismatchRule(expected, actual)) == multiset{}
       <==> forall k :: k in Accounts(expected) ==>
              BucketOf(actual, k).amount == BucketOf(expected, k).amount
              && BucketOf(actual, k).count == BucketOf(expected, k).count
  {
    hide Accounts, BucketOf, RefSet;
    CollectEmpty(Accounts(expected), MismatchRule(expected, actual));
  }

  lemma UnexpectedCleanIff(expected: seq<Posting>, actual: seq<Posting>)
    ensures Collect(Accounts(actual), UnexpectedRule(expected, actual)) == multiset{}
       <==> forall k :: k in Accounts(actual) && IsTerminalReason(k.reason) ==> k in Accounts(expected)
  {
    hide Accounts, BucketOf, IsTerminalReason;
    CollectEmpty(Accounts(actual), UnexpectedRule(expected, actual));
  }

  lemma AccountsCleanIff(expected: seq<Posting>, actual: seq<Posting>)
    ensures AccountAnomalies(expected, actual) == multiset{} <==> AccountsAgree(expected, actual)
  {
    MismatchesCleanIff(expected, actual);
    UnexpectedCleanIff(expected, actual);
    hide Accounts, BucketOf, IsTerminalReason, Collect, MismatchRule, UnexpectedRule;
  }

  /** The analysis reports nothing exactly when the ledger is sound. */
  lemma CleanIffConsistent(s: Snapshot)
    ensures AnomalyBag(s) == multiset{} <==> Consistent(s)
  {
    RowsCleanIff(s);
    KeysCleanIff(s);
    HoldsCleanIff(s);
    AccountsCleanIff(ExpectedPostings(s), ActualPostings(s));
  }

  // ---------------------------------------------------------------- tasks and holds pair off

  ghost predicate UniqueIds(s: Snapshot) {
    UniqueKeys(s.tasks, TaskKey) && UniqueKeys(s.holds, HoldKey)
  }

  ghost predicate KnownStatuses(s: Snapshot) {
    forall h :: h in s.holds ==> h.status in {Held, Settled, Refunded}
  }

  /** The two rows name each other. */
  ghost predicate Linked(t: Task, h: Hold) {
    t.holdId == Some(h.id) && HoldTaskId(h.reason) == Some(t.id)
  }

  ghost predicate StatusesMatch(t: Task, h: Hold) {
    && (h.status == Settled <==> t.status == Completed)
    && (h.status == Refunded <==> IsRefundedTask(t.status))
    && (h.status == Held <==> !IsTerminalTask(t.status))
  }

  function HasHold(t: Task): bool { t.holdId.Some? }

  lemma {:induction false} TotalOnes<A(!new)>(rows: seq<A>, one: A -> int)
    requires forall a :: one(a) == 1
    ensures Total(rows, one) == |rows|
  {
    if rows != [] {
      TotalOnes(rows[..|rows| - 1], one);
    }
  }

  lemma HoldOfTask(s: Snapshot, t: Task) returns (h: Hold)
    requires Consistent(s) && UniqueIds(s) && t in s.tasks && t.holdId.Some?
    ensures h in s.holds && Linked(t, h)
  {
    assert TaskBound(s, t);
    h := HoldIndex(s)[t.holdId.value];
    assert HoldBound(s, h);
    HoldTaskIdRoundTrip(h.reason, t.id);
    var id :| id in TaskIndex(s) && HoldTaskId(h.reason) == Some(id);
    HoldTaskIdRoundTrip(h.reason, id);
    assert (LAB_TASK + id)[|LAB_TASK|..] == id && (LAB_TASK + t.id)[|LAB_TASK|..] == t.id;
  }

  lemma TaskOfHold(s: Snapshot, h: Hold) returns (t: Task)
    requires Consistent(s) && UniqueIds(s) && h in s.holds
    ensures t in s.tasks && Linked(t, h)
  {
    assert HoldBound(s, h);
    var id :| id in TaskIndex(s) && HoldTaskId(h.reason) == Some(id) && TaskIndex(s)[id].holdId == Some(h.id);
    t := TaskIndex(s)[id];
  }

  lemma HoldFacts(s: Snapshot, h: Hold)
    requires Consistent(s) && UniqueIds(s) && h in s.holds
    ensures h.id in HoldIndex(s) && HoldIndex(s)[h.id] == h
    ensures StatusAgrees(h, Group(s.tasks, TaskHold, h.id))
    ensures JournalAgrees(h, Group(s.entries, EntryHold, h.id), Group(s.receipts, ReceiptHold, h.id), Slugs(s))
  {
    assert HoldReviewed(s, h.id);
  }

  lemma LinkedStatuses(s: Snapshot, t: Task, h: Hold)
    requires Consistent(s) && UniqueIds(s) && KnownStatuses(s)
    requires t in s.tasks && h in s.holds && Linked(t, h)
    ensures StatusesMatch(t, h)
  {
    HoldFacts(s, h);
    hide HoldReviewed, AccountsAgree, RowsConsistent, UniqueKeys;
    assert NoSharedKey(s.tasks, TaskHold) && h.status in {Held, Settled, Refunded};
    hide Consistent, UniqueIds, KnownStatuses, JournalAgrees, NoSharedKey, Group, HoldIndex;
    GroupSmall(s.tasks, TaskHold, h.id);
  }

  /** Holds and the tasks that carry a hold id are in one-to-one correspondence, and each
      pair agrees on whether the money is held, settled or refunded. */
  lemma TasksAndHoldsPairOff(s: Snapshot)
    requires Consistent(s) && UniqueIds(s) && KnownStatuses(s)
    ensures forall t :: t in s.tasks && HasHold(t) ==> exists h :: h in s.holds && Linked(t, h) && StatusesMatch(t, h)
    ensures forall h :: h in s.holds ==> exists t :: t in s.tasks && Linked(t, h) && StatusesMatch(t, h)
    ensures forall t, t', h, h' :: t in s.tasks && t' in s.tasks && h in s.holds && h' in s.holds ==>
              Linked(t, h) && Linked(t', h') ==> (t == t' <==> h == h')
    ensures |Where(s.tasks, HasHold)| == |s.holds|
  {
    forall t | t in s.tasks && HasHold(t)
      ensures exists h :: h in s.holds && Linked(t, h) && StatusesMatch(t, h)
    {
      var h := HoldOfTask(s, t);
      LinkedStatuses(s, t, h);
    }
    forall h | h in s.holds
      ensures exists t :: t in s.tasks && Linked(t, h) && StatusesMatch(t, h)
    {
      var t := TaskOfHold(s, h);
      LinkedStatuses(s, t, h);
    }
    forall t, t', h, h' | t in s.tasks && t' in s.tasks && h in s.holds && h' in s.holds
                          && Linked(t, h) && Linked(t', h')
      ensures t == t' <==> h == h'
    {
    }
    LinkedCount(s);
  }

  function HoldRef(h: Hold): Option<string> { Some(h.id) }

  lemma LinkedCount(s: Snapshot)
    requires Consistent(s) && UniqueIds(s)
    ensures |Where(s.tasks, HasHold)| == |s.holds|
  {
    var bound := Where(s.tasks, HasHold);
    var one, group := (t: Task) => 1, (h: Hold) => 1;
    forall t | t in bound ensures exists h :: h in s.holds && HoldRef(h) == TaskHold(t) {
      var h := HoldOfTask(s, t);
    }
    forall h | h in s.holds ensures group(h) == Total(Where(bound, Labelled(TaskHold, HoldRef(h))), one) {
      var t := TaskOfHold(s, h);
      WhereMember(s.tasks, HasHold, t);
      FilterKeepsApart(s.tasks);
      GroupSmall(bound, TaskHold, h.id);
      TotalOnes(Where(bound, Labelled(TaskHold, HoldRef(h))), one);
    }
    PartitionTotal(s.holds, HoldRef, bound, TaskHold, one, group);
    TotalOnes(bound, one);
    TotalOnes(s.holds, group);
  }

  lemma {:induction false} FilterKeepsApart(tasks: seq<Task>)
    requires NoSharedKey(tasks, TaskHold)
    ensures NoSharedKey(Where(tasks, HasHold), TaskHold)
  {
    if tasks != [] {
      var front, last := tasks[..|tasks| - 1], tasks[|tasks| - 1];
      assert tasks == front + [last];
      FilterKeepsApart(front);
      forall t | t in front && t.holdId.Some? ensures t.holdId != last.holdId {
        var i :| 0 <= i < |front| && front[i] == t;
        assert tasks[i] == t;
      }
    }
  }

  lemma SharedHoldIsConflict(s: Snapshot)
    requires UniqueIds(s) && !NoSharedKey(s.tasks, TaskHold)
    ensures exists t :: t in s.tasks && t.holdId.Some?
              && (t.holdId.value !in HoldIndex(s) || HoldIndex(s)[t.holdId.value].reason != Some(LAB_TASK + t.id))
  {
    var i, j :| 0 <= i < j < |s.tasks| && TaskHold(s.tasks[i]).Some? && TaskHold(s.tasks[i]) == TaskHold(s.tasks[j]);
    var t, t' := s.tasks[i], s.tasks[j];
    assert t in s.tasks && t' in s.tasks && TaskKey(t) != TaskKey(t');
    assert (LAB_TASK + t.id)[|LAB_TASK|..] == t.id && (LAB_TASK + t'.id)[|LAB_TASK|..] == t'.id;
  }

  /** A multiple-link finding never stands alone: with unique ids, some task row then names
      a missing hold or a hold whose reason names another task, and likewise for holds. */
  lemma MultipleLinksAreRowConflicts(s: Snapshot)
    requires UniqueIds(s)
    ensures Collect(GroupKeys(s.tasks, TaskHold), MultipleTaskRule(s.tasks)) != multiset{} ==>
            exists t :: t in s.tasks && t.holdId.Some?
              && (t.holdId.value !in HoldIndex(s) || HoldIndex(s)[t.holdId.value].reason != Some(LAB_TASK + t.id))
    ensures Collect(GroupKeys(s.holds, HoldTask), MultipleHoldRule(s.holds)) != multiset{} ==>
            exists h :: h in s.holds && HoldTaskId(h.reason).Some?
              && (HoldTaskId(h.reason).value !in TaskIndex(s)
                  || TaskIndex(s)[HoldTaskId(h.reason).value].holdId != Some(h.id))
  {
    TaskLinksCleanIff(s.tasks);
    HoldReasonsCleanIff(s.holds);
    if !NoSharedKey(s.tasks, TaskHold) {
      SharedHoldIsConflict(s);
    }
  }

  // ---------------------------------------------------------------- money is conserved

  /** The summary line: what settled and refunded holds of one version are worth. */
  function TerminalAmount(s: Snapshot, v: Version): int {
    Total(Where(s.holds, TerminalOfVersion(v)), HoldAmount)
  }

  /** The summary line: what the journal books on holds of one version. */
  function JournalAmount(s: Snapshot, v: Version): int {
    Total(Where(s.entries, EntryOfVersion(s, v)), EntryAmount)
  }

  function HoldAmount(h: Hold): int { h.amount }

  function TerminalOfVersion(v: Version): Hold -> bool {
    (h: Hold) => IsTerminalHold(h.status) && h.version == v
  }

  function EntryOfVersion(s: Snapshot, v: Version): Entry -> bool {
    (e: Entry) => e.holdId in HoldIndex(s) && HoldIndex(s)[e.holdId].version == v
  }

  /** Regrouping the journal by hold: an amount read off each entry can be summed hold by hold. */
  lemma JournalByHold(s: Snapshot, g: Entry -> int, group: Hold -> int)
    requires Consistent(s) && UniqueIds(s)
    requires forall h :: h in s.holds ==> group(h) == Total(Group(s.entries, EntryHold, h.id), g)
    ensures Total(s.holds, group) == Total(s.entries, g)
  {
    forall e | e in s.entries ensures exists h :: h in s.holds && HoldRef(h) == EntryHold(e) {
      assert HoldIndex(s)[e.holdId] in s.holds;
    }
    forall h | h in s.holds ensures group(h) == Total(Where(s.entries, Labelled(EntryHold, HoldRef(h))), g) {
    }
    PartitionTotal(s.holds, HoldRef, s.entries, EntryHold, g, group);
  }

  /** On one reviewed hold the v2 part of the journal is worth the v2 part of the hold. */
  lemma HoldJournalTotal(h: Hold, mine: seq<Entry>, receipts: seq<Receipt>, slugs: set<string>, g: Entry -> int)
    requires JournalAgrees(h, mine, receipts, slugs) && h.status in {Held, Settled, Refunded}
    requires forall e :: e in mine ==> g(e) == if h.version == V2 then e.amount else 0
    ensures Total(mine, g) == if TerminalOfVersion(V2)(h) then h.amount else 0
  {
    if h.version == V2 {
      TotalSame(mine, g, EntryAmount);
    } else {
      TotalZero(mine, g);
    }
  }

  lemma EntryVersion(s: Snapshot, h: Hold, e: Entry)
    requires h.id in HoldIndex(s) && HoldIndex(s)[h.id] == h && e in Group(s.entries, EntryHold, h.id)
    ensures EntryOfVersion(s, V2)(e) == (h.version == V2)
  {
    assert Labelled(EntryHold, Some(h.id))(e);
  }

  lemma VersionTotalsAgree(s: Snapshot)
    requires Consistent(s) && UniqueIds(s) && KnownStatuses(s)
    ensures TerminalAmount(s, V2) == JournalAmount(s, V2)
  {
    var g := (e: Entry) => if EntryOfVersion(s, V2)(e) then e.amount else 0;
    var group := (h: Hold) => if TerminalOfVersion(V2)(h) then h.amount else 0;
    forall h | h in s.holds ensures group(h) == Total(Group(s.entries, EntryHold, h.id), g) {
      HoldFacts(s, h);
      hide Consistent, UniqueIds, HoldIndex, EntryOfVersion, TerminalOfVersion, Group, JournalAgrees, StatusAgrees;
      forall e | e in Group(s.entries, EntryHold, h.id) ensures g(e) == if h.version == V2 then e.amount else 0 {
        EntryVersion(s, h, e);
      }
      HoldJournalTotal(h, Group(s.entries, EntryHold, h.id), Group(s.receipts, ReceiptHold, h.id), Slugs(s), g);
    }
    hide Consistent, UniqueIds, KnownStatuses, EntryOfVersion, TerminalOfVersion;
    JournalByHold(s, g, group);
    WhereTotal(s.entries, EntryOfVersion(s, V2), EntryAmount, g);
    WhereTotal(s.holds, TerminalOfVersion(V2), HoldAmount, group);
  }

  function SinkShare(e: Entry): int { if e.recipient.Sink? then e.amount else 0 }
  function TreasuryShare(e: Entry): int { if e.recipient.Treasury? then e.amount else 0 }
  function UserShare(e: Entry): int { if e.recipient.User? then e.amount else 0 }

  lemma SharesAddUp(entries: seq<Entry>)
    ensures Total(entries, EntryAmount)
         == Total(entries, SinkShare) + Total(entries, TreasuryShare) + Total(entries, UserShare)
  {
    var rest := (e: Entry) => SinkShare(e) + TreasuryShare(e);
    TotalAdds(entries, SinkShare, TreasuryShare, rest);
    TotalAdds(entries, rest, UserShare, EntryAmount);
  }

  /** Every entry of a sound ledger belongs to a terminal hold and carries a reason. */
  lemma EntriesAreTerminal(s: Snapshot, e: Entry)
    requires Consistent(s) && KnownStatuses(s) && e in s.entries
    ensures IsTerminalHold(HoldIndex(s)[e.holdId].status) && HasReason(e)
    ensures e.recipient.Treasury? ==> e.recipient.slug in Slugs(s)
  {
    assert HoldReviewed(s, e.holdId);
    WhereMember(s.entries, Labelled(EntryHold, Some(e.holdId)), e);
    assert HoldIndex(s)[e.holdId] in s.holds;
  }

  lemma ExpectedIsUserShare(s: Snapshot)
    requires Consistent(s) && UniqueIds(s) && KnownStatuses(s)
    ensures Total(ExpectedPostings(s), PostedAmount) == Total(s.entries, UserShare)
  {
    var byId := (k: string) => Total(PostingRule(s)(k), PostedAmount);
    var group := (h: Hold) => byId(h.id);
    ConcatTotal(HoldIds(s), PostingRule(s), PostedAmount, byId);
    var ids := Map(s.holds, HoldKey);
    DistinctOfUnique(ids);
    TotalOfMap(s.holds, HoldKey, byId, group);
    forall h | h in s.holds ensures group(h) == Total(Group(s.entries, EntryHold, h.id), UserShare) {
      HoldPostingTotal(s, h);
    }
    JournalByHold(s, UserShare, group);
  }

  lemma {:induction false} TotalOfMap<A(!new), B(!new)>(rows: seq<A>, f: A -> B, g: B -> int, h: A -> int)
    requires forall a :: a in rows ==> h(a) == g(f(a))
    ensures Total(Map(rows, f), g) == Total(rows, h)
  {
    if rows != [] {
      var front := rows[..|rows| - 1];
      assert rows == front + [rows[|rows| - 1]];
      assert Map(rows, f)[..|rows| - 1] == Map(front, f);
      TotalOfMap(front, f, g, h);
    }
  }

  lemma HoldPostingTotal(s: Snapshot, h: Hold)
    requires Consistent(s) && UniqueIds(s) && KnownStatuses(s) && h in s.holds
    ensures Total(PostingRule(s)(h.id), PostedAmount) == Total(Group(s.entries, EntryHold, h.id), UserShare)
  {
    var mine := Group(s.entries, EntryHold, h.id);
    HoldFacts(s, h);
    assert h.status in {Held, Settled, Refunded};
    hide HoldIndex, StatusAgrees;
    if IsTerminalHold(h.status) {
      hide UniqueIds, JournalAgrees;
      forall e | e in mine ensures UserShare(e) == Total(EntryPosting(h.id)(e), PostedAmount) {
        EntriesAreTerminal(s, e);
        PostingAmount(h.id, e);
      }
      hide Consistent, KnownStatuses;
      ConcatTotal(mine, EntryPosting(h.id), PostedAmount, UserShare);
    }
  }

  lemma PostingAmount(id: string, e: Entry)
    requires HasReason(e)
    ensures Total(EntryPosting(id)(e), PostedAmount) == UserShare(e)
  {
    var ps := EntryPosting(id)(e);
    if ps != [] {
      assert ps[..0] == [];
      assert Total(ps, PostedAmount) == Total(ps[..|ps| - 1], PostedAmount) + PostedAmount(ps[|ps| - 1]);
    }
  }

  /** Postings on accounts the journal credits. */
  function OnAccounts(accounts: seq<Account>): Posting -> bool {
    (p: Posting) => p.account in accounts
  }

  function Itself(k: Account): Account { k }

  lemma AccountsUnique(ps: seq<Posting>)
    ensures UniqueKeys(Accounts(ps), Itself)
  {
    DistinctUnique(Map(ps, AccountOf));
  }

  /** Summing per account over a list of accounts covers the postings on those accounts. */
  lemma TotalByAccount(accounts: seq<Account>, ps: seq<Posting>, f: Posting -> int, at: Account -> int)
    requires UniqueKeys(accounts, Itself)
    requires forall k :: k in accounts ==> at(k) == Total(Where(ps, Labelled(AccountOf, k)), f)
    ensures Total(accounts, at) == Total(Where(ps, OnAccounts(accounts)), f)
  {
    var matching := Where(ps, OnAccounts(accounts));
    forall k | k in accounts ensures at(k) == Total(Where(matching, Labelled(AccountOf, Itself(k))), f) {
      forall p | Labelled(AccountOf, k)(p) ensures OnAccounts(accounts)(p) {
      }
      NarrowTwice(ps, OnAccounts(accounts), Labelled(AccountOf, k));
    }
    forall p | p in matching ensures exists k :: k in accounts && Itself(k) == AccountOf(p) {
      assert Itself(p.account) == AccountOf(p);
    }
    PartitionTotal(accounts, Itself, matching, AccountOf, f, at);
  }

  lemma AllOnOwnAccounts(ps: seq<Posting>)
    ensures Where(ps, OnAccounts(Accounts(ps))) == ps
  {
    forall p | p in ps ensures OnAccounts(Accounts(ps))(p) {
    }
    WhereAll(ps, OnAccounts(Accounts(ps)));
  }

  lemma AmountsAgreeInTotal(expected: seq<Posting>, actual: seq<Posting>)
    requires AccountsAgree(expected, actual)
    ensures Total(expected, PostedAmount) == Total(Where(actual, OnAccounts(Accounts(expected))), PostedAmount)
  {
    var amount := (k: Account) => BucketOf(expected, k).amount;
    AccountsUnique(expected);
    TotalByAccount(Accounts(expected), expected, PostedAmount, amount);
    TotalByAccount(Accounts(expected), actual, PostedAmount, amount);
    AllOnOwnAccounts(expected);
  }

  lemma CountsAgreeInTotal(expected: seq<Posting>, actual: seq<Posting>)
    requires AccountsAgree(expected, actual)
    ensures |expected| == |Where(actual, OnAccounts(Accounts(expected)))|
  {
    var count := (k: Account) => BucketOf(expected, k).count;
    var one := (p: Posting) => 1;
    AccountsUnique(expected);
    forall k | k in Accounts(expected)
      ensures count(k) == Total(Where(expected, Labelled(AccountOf, k)), one)
      ensures count(k) == Total(Where(actual, Labelled(AccountOf, k)), one)
    {
      TotalOnes(Where(expected, Labelled(AccountOf, k)), one);
      TotalOnes(Where(actual, Labelled(AccountOf, k)), one);
    }
    TotalByAccount(Accounts(expected), expected, one, count);
    TotalByAccount(Accounts(expected), actual, one, count);
    AllOnOwnAccounts(expected);
    TotalOnes(expected, one);
    TotalOnes(Where(actual, OnAccounts(Accounts(expected))), one);
  }

  lemma {:induction false} NarrowTwice<A(!new)>(rows: seq<A>, wide: A -> bool, narrow: A -> bool)
    requires forall a :: narrow(a) ==> wide(a)
    ensures Where(Where(rows, wide), narrow) == Where(rows, narrow)
  {
    if rows != [] {
      var front, last := rows[..|rows| - 1], rows[|rows| - 1];
      NarrowTwice(front, wide, narrow);
      if wide(last) {
        assert (Where(front, wide) + [last])[..|Where(front, wide) + [last]| - 1] == Where(front, wide);
      }
    }
  }

  lemma HoldOfEntry(s: Snapshot, e: Entry) returns (h: Hold)
    requires Consistent(s) && e in s.entries
    ensures h in s.holds && h.id == e.holdId
  {
    assert e.holdId in HoldIndex(s);
    h := HoldIndex(s)[e.holdId];
  }

  /** Every entry of a sound ledger does what its hold says was done. */
  lemma EntryDoesAsItsHold(s: Snapshot, e: Entry, h: Hold)
    requires Consistent(s) && UniqueIds(s) && KnownStatuses(s)
    requires e in s.entries && h in s.holds && h.id == e.holdId
    ensures (h.status == Settled && e.action == Settle) || (h.status == Refunded && e.action == Refund)
  {
    HoldFacts(s, h);
    EntriesAreTerminal(s, e);
    hide Consistent, UniqueIds, KnownStatuses, HoldIndex, StatusAgrees;
    WhereMember(s.entries, Labelled(EntryHold, Some(h.id)), e);
    assert e in Group(s.entries, EntryHold, h.id);
    hide Where, Group;
  }

  /** A reconciliation without findings means that no money was lost or invented: every entry
      settles a settled hold or refunds a refunded one;
      v2 holds are worth what their journal says; the whole journal is the sum of what went
      to the sink, to known treasuries and to users; the users' part equals the recorded
      transactions on those accounts, in amount and in number; and no other transaction
      claims to come from the end of a task. */
  lemma MoneyIsConserved(s: Snapshot)
    requires AnomalyBag(s) == multiset{} && UniqueIds(s) && KnownStatuses(s)
    ensures forall e :: e in s.entries ==>
              exists h :: h in s.holds && h.id == e.holdId
                && ((h.status == Settled && e.action == Settle) || (h.status == Refunded && e.action == Refund))
    ensures TerminalAmount(s, V2) == JournalAmount(s, V2)
    ensures Total(s.entries, EntryAmount)
         == Total(s.entries, SinkShare) + Total(s.entries, TreasuryShare) + Total(ExpectedPostings(s), PostedAmount)
    ensures forall e :: e in s.entries && e.recipient.Treasury? ==> e.recipient.slug in Slugs(s)
    ensures var matching := Where(ActualPostings(s), OnAccounts(Accounts(ExpectedPostings(s))));
            Total(ExpectedPostings(s), PostedAmount) == Total(matching, PostedAmount)
            && |ExpectedPostings(s)| == |matching|
    ensures forall p :: p in ActualPostings(s) && IsTerminalReason(p.account.reason) ==>
              OnAccounts(Accounts(ExpectedPostings(s)))(p)
  {
    CleanIffConsistent(s);
    var expected, actual := ExpectedPostings(s), ActualPostings(s);
    assert AccountsAgree(expected, actual);
    hide AnomalyBag, Consistent, AccountsAgree, ExpectedPostings, ActualPostings, UniqueIds, KnownStatuses, HoldIndex,
      Accounts, IsTerminalReason, Total, Where;
    forall e | e in s.entries
      ensures exists h :: h in s.holds && h.id == e.holdId
                && ((h.status == Settled && e.action == Settle) || (h.status == Refunded && e.action == Refund))
    {
      var h := HoldOfEntry(s, e);
      EntryDoesAsItsHold(s, e, h);
    }
    VersionTotalsAgree(s);
    SharesAddUp(s.entries);
    ExpectedIsUserShare(s);
    AmountsAgreeInTotal(expected, actual);
    CountsAgreeInTotal(expected, actual);
    forall e | e in s.entries && e.recipient.Treasury? ensures e.recipient.slug in Slugs(s) {
      EntriesAreTerminal(s, e);
    }
    forall p | p in actual && IsTerminalReason(p.account.reason) ensures OnAccounts(Accounts(expected))(p) {
    }
  }
}
