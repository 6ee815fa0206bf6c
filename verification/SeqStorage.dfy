/** The sorted storage behind the store sync (seq_storage.nim): insertion, pruning, and the
    reconciliation of an item set with a peer's. */
module SeqStorage {
  import opened Options
  import opened SyncOrder
  import opened TopicTables

  // ----- Insertion -----

  /** An element goes in at index k, unless it is there already. */
  function InsertedAt(es: seq<SyncID>, k: nat, x: SyncID): seq<SyncID>
    requires k <= |es|
  {
    if k < |es| && es[k] == x then es else es[..k] + [x] + es[k..]
  }

  function Inserted(es: seq<SyncID>, x: SyncID): seq<SyncID> {
    InsertedAt(es, LowerBound(es, x), x)
  }

  function Elements(es: seq<SyncID>): set<SyncID> {
    set x | x in es
  }

  lemma InsertedAtElements(es: seq<SyncID>, k: nat, x: SyncID)
    requires k <= |es|
    ensures Elements(InsertedAt(es, k, x)) == Elements(es) + {x}
  {
    var after := InsertedAt(es, k, x);
    assert x in after by { assert after[k] == x; }
    forall y | y in es ensures y in after {
      var i :| 0 <= i < |es| && es[i] == y;
      assert after == es || after[if i < k then i else i + 1] == y;
    }
  }

  /** Insertion keeps a sorted storage sorted and adds exactly the element. */
  lemma InsertKeepsSorted(es: seq<SyncID>, x: SyncID)
    requires Sorted(es)
    ensures Sorted(Inserted(es, x)) && Elements(Inserted(es, x)) == Elements(es) + {x}
    ensures Inserted(es, x)[LowerBound(es, x)] == x
  {
    LowerBoundPartitions(es, x);
    InsertedAtElements(es, LowerBound(es, x), x);
  }

  /** The loop of batchInsert: each search starts at the last index, and its result, an index into
      that slice, is taken for an index into the whole. */
  function BatchFrom(es: seq<SyncID>, idx: nat, batch: seq<SyncID>): seq<SyncID>
    requires idx <= |es|
    decreases |batch|
  {
    if batch == [] then es
    else
      var k := LowerBound(es[idx..], batch[0]);
      BatchFrom(InsertedAt(es, k, batch[0]), k, batch[1..])
  }

  /** Whether the first element of a batch goes to the front. */
  predicate ToFront(es: seq<SyncID>, x: SyncID) {
    es == [] || !Less(es[0], x)
  }

  /** What keeps a batch insertion in order: all its elements but the last are one and the same, and
      that one goes to the front of the storage. */
  predicate Harmless(es: seq<SyncID>, batch: seq<SyncID>) {
    |batch| <= 1 || (batch[|batch| - 2] == batch[0] && ToFront(es, batch[0]))
  }

  lemma UnsortedStays(es: seq<SyncID>, k: nat, x: SyncID)
    requires k <= |es| && !Sorted(es)
    ensures !Sorted(InsertedAt(es, k, x))
  {
    var i, j :| 0 <= i < j < |es| && !Less(es[i], es[j]);
    var after := InsertedAt(es, k, x);
    if after != es {
      assert after[if i < k then i else i + 1] == es[i] && after[if j < k then j else j + 1] == es[j];
    }
  }

  lemma {:induction false} UnsortedBatch(es: seq<SyncID>, idx: nat, batch: seq<SyncID>)
    requires idx <= |es| && !Sorted(es)
    ensures !Sorted(BatchFrom(es, idx, batch))
    decreases |batch|
  {
    hide Sorted, LowerBound;
    if batch != [] {
      var k := LowerBound(es[idx..], batch[0]);
      UnsortedStays(es, k, batch[0]);
      UnsortedBatch(InsertedAt(es, k, batch[0]), k, batch[1..]);
    }
  }

  /** With a slice that does not start at the front, the element lands before smaller ones. */
  lemma MisplacedElement(es: seq<SyncID>, idx: nat, x: SyncID)
    requires Sorted(es) && 0 < idx <= |es| && forall k :: 0 <= k < idx ==> Less(es[k], x)
    ensures !Sorted(InsertedAt(es, LowerBound(es[idx..], x), x))
  {
    var k := LowerBound(es[idx..], x);
    LowerBoundPartitions(es[idx..], x);
    assert Less(es[k], x) by {
      if k >= idx {
        assert es[k] == es[idx..][k - idx];
      }
    }
    var after := InsertedAt(es, k, x);
    assert after[k] == x && after[k + 1] == es[k];
  }

  /** One step further, what is harmless stays so. */
  lemma HarmlessStep(es: seq<SyncID>, batch: seq<SyncID>)
    requires Sorted(es) && InOrder(batch) && |batch| > 1
    ensures Harmless(es, batch) <==>
            LowerBound(es, batch[0]) == 0 && Harmless(Inserted(es, batch[0]), batch[1..])
  {
    var x, rest, n := batch[0], batch[1..], |batch|;
    LowerBoundPartitions(es, x);
    assert ToFront(es, x) <==> LowerBound(es, x) == 0;
    if LowerBound(es, x) == 0 {
      assert Inserted(es, x)[0] == x;
      assert !Less(rest[0], x);
      if n > 2 {
        assert rest[|rest| - 2] == batch[n - 2];
        assert !Less(batch[n - 2], batch[1]) && !Less(batch[1], batch[0]);
      }
    }
  }

  lemma TailInOrder(batch: seq<SyncID>)
    requires InOrder(batch) && batch != []
    ensures InOrder(batch[1..])
  {
  }

  lemma {:induction false} BatchFromFront(es: seq<SyncID>, batch: seq<SyncID>)
    requires Sorted(es) && InOrder(batch)
    ensures Sorted(BatchFrom(es, 0, batch)) <==> Harmless(es, batch)
    decreases |batch|
  {
    hide Sorted, InOrder, Harmless, LowerBound;
    if |batch| <= 1 {
      SmallBatch(es, batch);
    } else {
      var x, rest := batch[0], batch[1..];
      var k, after := LowerBound(es, x), Inserted(es, x);
      assert es[0..] == es;
      InsertKeepsSorted(es, x);
      TailInOrder(batch);
      HarmlessStep(es, batch);
      if k == 0 {
        BatchFromFront(after, rest);
      } else {
        BeforeIsSmaller(es, batch);
        MisplacedElement(after, k, rest[0]);
        var misplaced := LowerBound(after[k..], rest[0]);
        UnsortedBatch(InsertedAt(after, misplaced, rest[0]), misplaced, rest[1..]);
      }
    }
  }

  lemma SmallBatch(es: seq<SyncID>, batch: seq<SyncID>)
    requires Sorted(es) && |batch| <= 1
    ensures Sorted(BatchFrom(es, 0, batch)) && Harmless(es, batch)
  {
    if batch != [] {
      assert es[0..] == es;
      InsertKeepsSorted(es, batch[0]);
      assert BatchFrom(es, 0, batch) == BatchFrom(Inserted(es, batch[0]), LowerBound(es, batch[0]), []);
    }
  }

  lemma BeforeIsSmaller(es: seq<SyncID>, batch: seq<SyncID>)
    requires Sorted(es) && InOrder(batch) && |batch| > 1
    ensures var k, after := LowerBound(es, batch[0]), Inserted(es, batch[0]);
            k <= |after| && forall i :: 0 <= i < k ==> Less(after[i], batch[1..][0])
  {
    LowerBoundPartitions(es, batch[0]);
    assert !Less(batch[1], batch[0]);
  }

  /** batchInsert keeps a sorted storage sorted iff the batch is harmless: with three different
      elements it never does, and with two only when the first goes to the front. */
  lemma BatchSortedIff(es: seq<SyncID>, batch: seq<SyncID>)
    requires Sorted(es) && InOrder(batch)
    ensures Sorted(Batched(es, batch)) <==> Harmless(es, batch)
  {
    hide Sorted, InOrder;
    BatchFromFront(es, batch);
    if |batch| == 1 {
      InsertKeepsSorted(es, batch[0]);
    }
  }

  /** What batchInsert leaves for a batch in order. */
  function Batched(es: seq<SyncID>, batch: seq<SyncID>): seq<SyncID> {
    if |batch| == 1 then Inserted(es, batch[0]) else BatchFrom(es, 0, batch)
  }

  lemma {:induction false} BatchFromElements(es: seq<SyncID>, idx: nat, batch: seq<SyncID>)
    requires idx <= |es|
    ensures Elements(BatchFrom(es, idx, batch)) == Elements(es) + Elements(batch)
    decreases |batch|
  {
    hide LowerBound;
    if batch != [] {
      var k := LowerBound(es[idx..], batch[0]);
      InsertedAtElements(es, k, batch[0]);
      BatchFromElements(InsertedAt(es, k, batch[0]), k, batch[1..]);
      assert batch == [batch[0]] + batch[1..];
    }
  }

  /** In order or not, it loses nothing and adds nothing else. */
  lemma BatchElements(es: seq<SyncID>, batch: seq<SyncID>)
    ensures Elements(Batched(es, batch)) == Elements(es) + Elements(batch)
  {
    BatchFromElements(es, 0, batch);
    if |batch| == 1 {
      InsertedAtElements(es, LowerBound(es, batch[0]), batch[0]);
      assert batch == [batch[0]];
    }
  }

  /** Three different messages put into an empty storage come out of order. */
  lemma BatchOfThreeExample()
    ensures var batch := [SyncID(1, 0), SyncID(2, 0), SyncID(3, 0)];
            InOrder(batch) && !Sorted(Batched([], batch))
  {
    BatchSortedIff([], [SyncID(1, 0), SyncID(2, 0), SyncID(3, 0)]);
  }

  // ----- Pruning -----

  /** What prune keeps: the elements from the lower bound of the given time on. */
  function Pruned(es: seq<SyncID>, timestamp: int): seq<SyncID> {
    es[LowerBound(es, SyncID(timestamp, 0))..]
  }

  /** On a sorted storage these are exactly the elements not before that time. */
  lemma PruneKeepsLater(es: seq<SyncID>, timestamp: int)
    requires Sorted(es)
    ensures Sorted(Pruned(es, timestamp))
    ensures forall x :: x in Pruned(es, timestamp) <==> x in es && x.time >= timestamp
  {
    var k := LowerBound(es, SyncID(timestamp, 0));
    LowerBoundPartitions(es, SyncID(timestamp, 0));
    forall x | x in es && x.time >= timestamp ensures x in es[k..] {
      var i :| 0 <= i < |es| && es[i] == x;
      assert es[k..][i - k] == x;
    }
  }

  // ----- Reconciliation -----

  /** The indices of the elements within bounds; None when all elements are on one side of them. */
  function IdxBounds(es: seq<SyncID>, a: SyncID, b: SyncID): (r: Option<(nat, nat)>)
    ensures r.Some? ==> r.value.0 < |es| && r.value.1 <= |es|
  {
    var lower, upper := LowerBound(es, a), UpperBound(es, b);
    if upper < 1 || lower >= |es| then None else Some((lower, upper))
  }

  predicate Within(x: SyncID, a: SyncID, b: SyncID) {
    !Less(x, a) && !Less(b, x)
  }

  /** On a sorted storage the indices found are those of the elements within bounds, and there is
      none of those when nothing is found. */
  lemma IdxBoundsAreRange(es: seq<SyncID>, a: SyncID, b: SyncID)
    requires Sorted(es)
    ensures match IdxBounds(es, a, b)
            case None => forall k :: 0 <= k < |es| ==> !Within(es[k], a, b)
            case Some(r) => forall k :: 0 <= k < |es| ==> (r.0 <= k < r.1 <==> Within(es[k], a, b))
  {
    LowerBoundPartitions(es, a);
    UpperBoundPartitions(es, b);
  }

  /** An element's topics pass a filter; an empty filter passes every topic. */
  predicate Passed(index: nat, filter: set<nat>) {
    filter == {} || index in filter
  }

  /** The elements of lo..hi whose topics pass both filters, in order. */
  function Filtered(es: seq<SyncID>, pubsub: seq<nat>, content: seq<nat>, ps: set<nat>, cs: set<nat>, lo: nat,
                    hi: nat): seq<SyncID>
    requires hi <= |es| == |pubsub| == |content|
    decreases hi - lo
  {
    if lo >= hi then []
    else if Passed(pubsub[lo], ps) && Passed(content[lo], cs)
    then [es[lo]] + Filtered(es, pubsub, content, ps, cs, lo + 1, hi)
    else Filtered(es, pubsub, content, ps, cs, lo + 1, hi)
  }

  lemma {:induction false} FilteredMembers(es: seq<SyncID>, pubsub: seq<nat>, content: seq<nat>, ps: set<nat>,
                                           cs: set<nat>, lo: nat, hi: nat)
    requires hi <= |es| == |pubsub| == |content|
    ensures forall x :: x in Filtered(es, pubsub, content, ps, cs, lo, hi) <==>
              exists k :: lo <= k < hi && es[k] == x
                          && (ps == {} || pubsub[k] in ps) && (cs == {} || content[k] in cs)
    decreases hi - lo
  {
    if lo < hi {
      FilteredMembers(es, pubsub, content, ps, cs, lo + 1, hi);
    }
  }

  lemma {:induction false} FilteredSorted(es: seq<SyncID>, pubsub: seq<nat>, content: seq<nat>, ps: set<nat>,
                                          cs: set<nat>, lo: nat, hi: nat)
    requires Sorted(es) && hi <= |es| == |pubsub| == |content|
    ensures Sorted(Filtered(es, pubsub, content, ps, cs, lo, hi))
    decreases hi - lo
  {
    if lo < hi {
      FilteredSorted(es, pubsub, content, ps, cs, lo + 1, hi);
      FilteredMembers(es, pubsub, content, ps, cs, lo + 1, hi);
      var rest := Filtered(es, pubsub, content, ps, cs, lo + 1, hi);
      forall x | x in rest ensures Less(es[lo], x) {
        var k :| lo + 1 <= k < hi && es[k] == x;
        LaterIsLarger(es, lo, k);
      }
      SortedCons(es[lo], rest);
    }
  }

  lemma LaterIsLarger(es: seq<SyncID>, i: nat, j: nat)
    requires Sorted(es) && i < j < |es|
    ensures Less(es[i], es[j])
  {
  }

  lemma SortedCons(x: SyncID, s: seq<SyncID>)
    requires Sorted(s) && forall y :: y in s ==> Less(x, y)
    ensures Sorted([x] + s)
  {
    assert forall i :: 0 <= i < |s| ==> s[i] in s;
  }

  /** The merge of the two walks: what only we have, and what only they have. */
  function Merged(ours: seq<SyncID>, theirs: seq<SyncID>): (seq<SyncID>, seq<SyncID>)
    decreases |ours| + |theirs|
  {
    if ours == [] then ([], theirs)
    else if theirs == [] then (ours, [])
    else if Less(theirs[0], ours[0]) then
      var r := Merged(ours, theirs[1..]);
      (r.0, [theirs[0]] + r.1)
    else if Less(ours[0], theirs[0]) then
      var r := Merged(ours[1..], theirs);
      ([ours[0]] + r.0, r.1)
    else Merged(ours[1..], theirs[1..])
  }

  /** The elements of s that are not in t, in order. */
  function Minus(s: seq<SyncID>, t: seq<SyncID>): seq<SyncID> {
    if s == [] then []
    else if s[0] in t then Minus(s[1..], t)
    else [s[0]] + Minus(s[1..], t)
  }

  lemma {:induction false} MinusIgnores(s: seq<SyncID>, t: seq<SyncID>)
    requires t != [] && t[0] !in s
    ensures Minus(s, t) == Minus(s, t[1..])
  {
    if s != [] {
      MinusIgnores(s[1..], t);
      assert t == [t[0]] + t[1..];
    }
  }

  lemma {:induction false} MinusNothing(s: seq<SyncID>)
    ensures Minus(s, []) == s
  {
    if s != [] {
      MinusNothing(s[1..]);
    }
  }

  /** The head of a sorted sequence is not among larger ones. */
  lemma SmallerIsAbsent(x: SyncID, s: seq<SyncID>)
    requires Sorted(s) && (s == [] || Less(x, s[0]))
    ensures x !in s
  {
    assert forall i :: 0 < i < |s| ==> Less(s[0], s[i]);
  }

  lemma TailSorted(s: seq<SyncID>)
    requires Sorted(s) && s != []
    ensures Sorted(s[1..]) && s[0] !in s[1..]
  {
  }

  /** On sorted sequences the merge yields exactly the two differences. */
  lemma {:induction false} MergedIsDifference(ours: seq<SyncID>, theirs: seq<SyncID>)
    requires Sorted(ours) && Sorted(theirs)
    ensures Merged(ours, theirs) == (Minus(ours, theirs), Minus(theirs, ours))
    decreases |ours| + |theirs|
  {
    hide Sorted;
    if ours == [] {
      MinusNothing(theirs);
    } else if theirs == [] {
      MinusNothing(ours);
    } else {
      TailSorted(ours);
      TailSorted(theirs);
      if Less(theirs[0], ours[0]) {
        SmallerIsAbsent(theirs[0], ours);
        MinusIgnores(ours, theirs);
        MergedIsDifference(ours, theirs[1..]);
      } else if Less(ours[0], theirs[0]) {
        SmallerIsAbsent(ours[0], theirs);
        MinusIgnores(theirs, ours);
        MergedIsDifference(ours[1..], theirs);
      } else {
        assert ours[0] == theirs[0] && ours[0] in theirs && theirs[0] in ours;
        MinusIgnores(ours[1..], theirs);
        MinusIgnores(theirs[1..], ours);
        MergedIsDifference(ours[1..], theirs[1..]);
      }
    }
  }

  function Hashes(s: seq<SyncID>): seq<nat> {
    seq(|s|, i requires 0 <= i < |s| => s[i].hash)
  }

  /** The item set of a range, or that the range needs no more work. */
  datatype Reply = Skip | ItemSet(elements: seq<SyncID>, reconciled: bool)

  datatype Outcome = Outcome(toSend: seq<nat>, toRecv: seq<nat>, reply: Reply)

  /** What reconciling our elements of the range with a peer's item set comes to. */
  function Reconciled(found: bool, ours: seq<SyncID>, theirs: seq<SyncID>, reconciled: bool): Outcome {
    var merged := Merged(ours, theirs);
    Outcome(
      if found then Hashes(merged.0) else [],
      if found then Hashes(merged.1) else [],
      if reconciled then Skip else ItemSet(if found then ours else [], true))
  }

  // ----- The storage -----

  /** The element is at that index already. */
  predicate Took(es: seq<SyncID>, idx: nat, x: SyncID) {
    idx < |es| && es[idx] == x
  }

  /** What inserting an element means for a topic table. */
  function PutOps(es: seq<SyncID>, x: SyncID, topic: string): seq<Op> {
    var idx := LowerBound(es, x);
    if Took(es, idx, x) then [] else [Enter(idx, topic)]
  }

  /** What the loop of a batch insertion means for it. */
  function PutAllOps(es: seq<SyncID>, idx: nat, batch: seq<SyncID>, topics: seq<string>): seq<Op>
    requires idx <= |es| && |topics| >= |batch|
    decreases |batch|
  {
    if batch == [] then []
    else
      var k := LowerBound(es[idx..], batch[0]);
      (if Took(es, k, batch[0]) then [] else [Enter(k, topics[0])])
      + PutAllOps(InsertedAt(es, k, batch[0]), k, batch[1..], topics[1..])
  }

  function BatchOps(es: seq<SyncID>, batch: seq<SyncID>, topics: seq<string>): seq<Op>
    requires |topics| >= |batch|
  {
    if |batch| == 1 then PutOps(es, batch[0], topics[0]) else PutAllOps(es, 0, batch, topics)
  }

  /** What a caller may ask of the storage. */
  datatype Request =
    | Put(element: SyncID, pubsubTopic: string, contentTopic: string)
    | PutAll(batch: seq<SyncID>, pubsubTopics: seq<string>, contentTopics: seq<string>)
    | Drop(timestamp: int)
  {
    /** A batch comes with topics for each of its elements. */
    predicate Complete() {
      PutAll? ==> |pubsubTopics| >= |batch| && |contentTopics| >= |batch|
    }
  }

  /** Which of the two tables. */
  datatype Kind = Pubsub | Content

  function AfterOne(es: seq<SyncID>, r: Request): seq<SyncID> {
    match r
    case Put(x, _, _) => Inserted(es, x)
    case PutAll(batch, _, _) => if |batch| == 1 || InOrder(batch) then Batched(es, batch) else es
    case Drop(timestamp) => Pruned(es, timestamp)
  }

  function OpsOf(es: seq<SyncID>, r: Request, kind: Kind): seq<Op>
    requires r.Complete()
  {
    match r
    case Put(x, pubsub, content) => PutOps(es, x, if kind == Pubsub then pubsub else content)
    case PutAll(batch, pubsub, content) =>
      if |batch| == 1 || InOrder(batch) then BatchOps(es, batch, if kind == Pubsub then pubsub else content) else []
    case Drop(timestamp) => [Forget(|es| - |Pruned(es, timestamp)|)]
  }

  function After(requests: seq<Request>): seq<SyncID> {
    if requests == [] then [] else AfterOne(After(requests[..|requests| - 1]), requests[|requests| - 1])
  }

  /** The history that requests to an empty storage make for one of its tables. */
  function History(requests: seq<Request>, kind: Kind): seq<Op>
    requires forall r :: r in requests ==> r.Complete()
  {
    if requests == [] then []
    else
      var before, r := requests[..|requests| - 1], requests[|requests| - 1];
      History(before, kind) + OpsOf(After(before), r, kind)
  }

  class Storage {
    var elements: seq<SyncID>
    var pubsubTopicIndexes: seq<nat>
    var contentTopicIndexes: seq<nat>
    var pubsubTopics: TopicTable
    var contentTopics: TopicTable
    // The topics that the elements were inserted with.
    ghost var pubsubAsked: seq<string>
    ghost var contentAsked: seq<string>

    ghost predicate Valid()
      reads this
    {
      && |pubsubTopicIndexes| == |contentTopicIndexes| == |elements| == |pubsubAsked| == |contentAsked|
      && Fits(pubsubTopics, pubsubTopicIndexes) && Fits(contentTopics, contentTopicIndexes)
    }

    ghost function PubsubTags(): Tags
      reads this
    {
      Tags(pubsubTopics, pubsubTopicIndexes, pubsubAsked)
    }

    ghost function ContentTags(): Tags
      reads this
    {
      Tags(contentTopics, contentTopicIndexes, contentAsked)
    }

    constructor ()
      ensures Valid() && elements == [] && PubsubTags() == NO_TAGS && ContentTags() == NO_TAGS
    {
      elements, pubsubTopicIndexes, contentTopicIndexes := [], [], [];
      pubsubAsked, contentAsked := [], [];
      pubsubTopics, contentTopics := TopicTable([], {}), TopicTable([], {});
    }

    /** getPubsubTopicIndex and getContentTopicIndex; which free index comes first is left open. */
    static method GetTopicIndex(t: TopicTable, topic: string) returns (i: nat, u: TopicTable)
      requires forall k :: k in t.unused ==> k < |t.topics|
      ensures Gives(t, topic, i, u)
    {
      i := 0;
      while i < |t.topics|
        invariant i <= FirstIndex(t.topics, topic) <= |t.topics|
        invariant forall k :: 0 <= k < i ==> t.topics[k] != topic
      {
        if t.topics[i] == topic {
          return i, t;
        }
        i := i + 1;
      }
      if t.unused != {} {
        i :| i in t.unused;
        return i, TopicTable(t.topics[i := topic], t.unused - {i});
      }
      u := TopicTable(t.topics + [topic], t.unused);
    }

    method InsertAt(idx: nat, element: SyncID, pubsubTopic: string, contentTopic: string)
      requires Valid() && idx <= |elements|
      modifies this
      ensures Valid() && elements == InsertedAt(old(elements), idx, element) && |elements| >= |old(elements)|
      ensures Took(old(elements), idx, element) ==> unchanged(this)
      ensures !Took(old(elements), idx, element) ==>
                && Next(old(PubsubTags()), Enter(idx, pubsubTopic), PubsubTags())
                && Next(old(ContentTags()), Enter(idx, contentTopic), ContentTags())
    {
      hide Gives, Fits;
      FreeFits(pubsubTopics, pubsubTopicIndexes);
      FreeFits(contentTopics, contentTopicIndexes);
      if idx < |elements| && elements[idx] == element {
        return;
      }
      elements := elements[..idx] + [element] + elements[idx..];
      var p, c;
      p, pubsubTopics := GetTopicIndex(pubsubTopics, pubsubTopic);
      c, contentTopics := GetTopicIndex(contentTopics, contentTopic);
      FitsInserted(old(pubsubTopics), pubsubTopic, p, pubsubTopics, pubsubTopicIndexes, idx);
      FitsInserted(old(contentTopics), contentTopic, c, contentTopics, contentTopicIndexes, idx);
      pubsubTopicIndexes := pubsubTopicIndexes[..idx] + [p] + pubsubTopicIndexes[idx..];
      contentTopicIndexes := contentTopicIndexes[..idx] + [c] + contentTopicIndexes[idx..];
      pubsubAsked := pubsubAsked[..idx] + [pubsubTopic] + pubsubAsked[idx..];
      contentAsked := contentAsked[..idx] + [contentTopic] + contentAsked[idx..];
    }

    method Insert(element: SyncID, pubsubTopic: string, contentTopic: string)
      requires Valid()
      modifies this
      ensures Valid() && elements == Inserted(old(elements), element)
      ensures old(Sorted(elements)) ==> Sorted(elements) && Elements(elements) == old(Elements(elements)) + {element}
      ensures Reaches(old(PubsubTags()), PutOps(old(elements), element, pubsubTopic), PubsubTags())
      ensures Reaches(old(ContentTags()), PutOps(old(elements), element, contentTopic), ContentTags())
    {
      hide Next, LowerBound, Sorted, Elements;
      ghost var sorted := Sorted(elements);
      if sorted {
        InsertKeepsSorted(elements, element);
      }
      ghost var pubsub, content := PubsubTags(), ContentTags();
      var idx := LowerBound(elements, element);
      InsertAt(idx, element, pubsubTopic, contentTopic);
      if !Took(old(elements), idx, element) {
        ReachesOne(pubsub, Enter(idx, pubsubTopic), PubsubTags());
        ReachesOne(content, Enter(idx, contentTopic), ContentTags());
      }
    }

    /** False is the error for a batch that is not in order. */
    method BatchInsert(batch: seq<SyncID>, pubsub: seq<string>, content: seq<string>) returns (ok: bool)
      requires Valid() && |pubsub| >= |batch| && |content| >= |batch|
      modifies this
      ensures Valid() && ok == (|batch| == 1 || InOrder(batch))
      ensures !ok ==> unchanged(this)
      ensures ok ==> elements == Batched(old(elements), batch)
      ensures ok ==> Elements(elements) == old(Elements(elements)) + Elements(batch)
      ensures ok && old(Sorted(elements)) ==> (Sorted(elements) <==> Harmless(old(elements), batch))
      ensures ok ==> Reaches(old(PubsubTags()), BatchOps(old(elements), batch, pubsub), PubsubTags())
      ensures ok ==> Reaches(old(ContentTags()), BatchOps(old(elements), batch, content), ContentTags())
    {
      hide Sorted, Elements, Harmless, Inserted, BatchFrom, PutOps, PutAllOps, Reaches, Valid;
      ghost var was, sorted := elements, Sorted(elements);
      BatchElements(was, batch);
      OneInOrder(batch);
      if sorted && InOrder(batch) {
        BatchSortedIff(was, batch);
      }
      if |batch| == 1 {
        Insert(batch[0], pubsub[0], content[0]);
        return true;
      }
      if !InOrder(batch) {
        return false;
      }
      InsertEach(batch, pubsub, content);
      ok := true;
    }

    method InsertEach(batch: seq<SyncID>, pubsub: seq<string>, content: seq<string>)
      requires Valid() && |pubsub| >= |batch| && |content| >= |batch|
      modifies this
      ensures Valid() && elements == BatchFrom(old(elements), 0, batch)
      ensures Reaches(old(PubsubTags()), PutAllOps(old(elements), 0, batch, pubsub), PubsubTags())
      ensures Reaches(old(ContentTags()), PutAllOps(old(elements), 0, batch, content), ContentTags())
    {
      hide LowerBound, InsertedAt, Fits, Next, Reaches, PutAllOps, BatchFrom;
      var idx: nat := 0;
      ghost var pubsubDone, contentDone: seq<Op> := [], [];
      ghost var pubsubAll, contentAll := PutAllOps(elements, 0, batch, pubsub), PutAllOps(elements, 0, batch, content);
      ReachesNothing(PubsubTags());
      ReachesNothing(ContentTags());
      AllToPut(elements, batch, pubsub, content);
      for i := 0 to |batch|
        invariant Valid() && idx <= |elements|
        invariant BatchFrom(elements, idx, batch[i..]) == BatchFrom(old(elements), 0, batch)
        invariant Reaches(old(PubsubTags()), pubsubDone, PubsubTags())
        invariant Reaches(old(ContentTags()), contentDone, ContentTags())
        invariant pubsubDone + PutAllOps(elements, idx, batch[i..], pubsub[i..]) == pubsubAll
        invariant contentDone + PutAllOps(elements, idx, batch[i..], content[i..]) == contentAll
      {
        ghost var es, from, wasPubsub, wasContent := elements, idx, PubsubTags(), ContentTags();
        BatchStep(es, from, batch, i);
        PutAllStep(es, from, batch, pubsub, i);
        PutAllStep(es, from, batch, content, i);
        idx := LowerBound(elements[idx..], batch[i]);
        InsertAt(idx, batch[i], pubsub[i], content[i]);
        if !Took(es, idx, batch[i]) {
          ReachesOn(old(PubsubTags()), pubsubDone, wasPubsub, Enter(idx, pubsub[i]), PubsubTags());
          ReachesOn(old(ContentTags()), contentDone, wasContent, Enter(idx, content[i]), ContentTags());
          pubsubDone, contentDone := pubsubDone + [Enter(idx, pubsub[i])], contentDone + [Enter(idx, content[i])];
        }
      }
      NothingToPut(elements, idx, batch, pubsub, content);
      assert pubsubDone + [] == pubsubDone && contentDone + [] == contentDone;
    }

    method Prune(timestamp: int) returns (count: nat)
      requires Valid()
      modifies this
      ensures Valid() && elements == Pruned(old(elements), timestamp) && count == |old(elements)| - |elements|
      ensures pubsubTopicIndexes == old(pubsubTopicIndexes)[count..]
      ensures contentTopicIndexes == old(contentTopicIndexes)[count..]
      ensures |old(elements)| > 0 ==>
                && pubsubTopics == Freed(old(pubsubTopics), pubsubTopicIndexes)
                && contentTopics == Freed(old(contentTopics), contentTopicIndexes)
                && Clean(pubsubTopics, pubsubTopicIndexes) && Clean(contentTopics, contentTopicIndexes)
      ensures Next(old(PubsubTags()), Forget(count), PubsubTags())
      ensures Next(old(ContentTags()), Forget(count), ContentTags())
    {
      hide Freed, LowerBound, Fits, Clean, Next;
      if |elements| == 0 {
        Forgets(PubsubTags(), 0);
        Forgets(ContentTags(), 0);
        return 0;
      }
      count := LowerBound(elements, SyncID(timestamp, 0));
      elements := elements[count..];
      pubsubTopicIndexes := pubsubTopicIndexes[count..];
      contentTopicIndexes := contentTopicIndexes[count..];
      Forgets(old(PubsubTags()), count);
      Forgets(old(ContentTags()), count);
      contentTopics := Freed(contentTopics, contentTopicIndexes);
      pubsubTopics := Freed(pubsubTopics, pubsubTopicIndexes);
      pubsubAsked, contentAsked := pubsubAsked[count..], contentAsked[count..];
    }

    /** Any requests from an empty storage: each table has gone through the history that the requests
        make, so every element reads both topics it was inserted with if every insertion of those
        histories is guarded. */
    method PerformAll(requests: seq<Request>)
      requires Valid() && elements == [] && PubsubTags() == NO_TAGS && ContentTags() == NO_TAGS
      requires forall r :: r in requests ==> r.Complete()
      modifies this
      ensures Valid() && elements == After(requests)
      ensures Reaches(NO_TAGS, History(requests, Pubsub), PubsubTags())
      ensures Reaches(NO_TAGS, History(requests, Content), ContentTags())
      ensures AlwaysGuarded(History(requests, Pubsub)) ==> Truthful(PubsubTags())
      ensures AlwaysGuarded(History(requests, Content)) ==> Truthful(ContentTags())
    {
      hide Next, Reaches, OpsOf, AfterOne, Truthful, AlwaysGuarded;
      ReachesNothing(NO_TAGS);
      for i := 0 to |requests|
        invariant Valid() && elements == After(requests[..i])
        invariant Reaches(NO_TAGS, History(requests[..i], Pubsub), PubsubTags())
        invariant Reaches(NO_TAGS, History(requests[..i], Content), ContentTags())
      {
        ghost var pubsub, content := PubsubTags(), ContentTags();
        assert requests[..i + 1][..i] == requests[..i] && requests[i] in requests;
        ghost var es := elements;
        Perform(requests[i]);
        ReachesAll(NO_TAGS, History(requests[..i], Pubsub), pubsub, OpsOf(es, requests[i], Pubsub), PubsubTags());
        ReachesAll(NO_TAGS, History(requests[..i], Content), content, OpsOf(es, requests[i], Content), ContentTags());
      }
      assert requests[..|requests|] == requests;
      GuardedEnd(History(requests, Pubsub), PubsubTags());
      GuardedEnd(History(requests, Content), ContentTags());
    }

    method Perform(r: Request)
      requires Valid() && r.Complete()
      modifies this
      ensures Valid() && elements == AfterOne(old(elements), r)
      ensures Reaches(old(PubsubTags()), OpsOf(old(elements), r, Pubsub), PubsubTags())
      ensures Reaches(old(ContentTags()), OpsOf(old(elements), r, Content), ContentTags())
    {
      hide Next, Reaches, PutOps, BatchOps, Inserted, Batched, Pruned, InOrder;
      ReachesNothing(PubsubTags());
      ReachesNothing(ContentTags());
      match r
      case Put(element, pubsubTopic, contentTopic) => Insert(element, pubsubTopic, contentTopic);
      case PutAll(batch, pubsub, content) => var ok := BatchInsert(batch, pubsub, content);
      case Drop(timestamp) =>
        ghost var pubsub, content := PubsubTags(), ContentTags();
        var count := Prune(timestamp);
        ReachesOne(pubsub, Forget(count), PubsubTags());
        ReachesOne(content, Forget(count), ContentTags());
    }

    function OwnElements(ps: set<nat>, cs: set<nat>, a: SyncID, b: SyncID): seq<SyncID>
      requires |pubsubTopicIndexes| == |contentTopicIndexes| == |elements|
      reads this
    {
      match IdxBounds(elements, a, b)
      case None => []
      case Some(r) => Filtered(elements, pubsubTopicIndexes, contentTopicIndexes, ps, cs, r.0, r.1)
    }

    method GetFilteredElements(ps: set<nat>, cs: set<nat>, lo: nat, hi: nat) returns (own: seq<SyncID>)
      requires Valid() && hi <= |elements|
      ensures own == Filtered(elements, pubsubTopicIndexes, contentTopicIndexes, ps, cs, lo, hi)
      ensures forall x :: x in own <==>
                exists k :: lo <= k < hi && elements[k] == x
                            && (ps == {} || pubsubTopicIndexes[k] in ps) && (cs == {} || contentTopicIndexes[k] in cs)
    {
      FilteredMembers(elements, pubsubTopicIndexes, contentTopicIndexes, ps, cs, lo, hi);
      own := [];
      var i := lo;
      while i < hi
        invariant own + Filtered(elements, pubsubTopicIndexes, contentTopicIndexes, ps, cs, i, hi)
                  == Filtered(elements, pubsubTopicIndexes, contentTopicIndexes, ps, cs, lo, hi)
      {
        if Passed(pubsubTopicIndexes[i], ps) && Passed(contentTopicIndexes[i], cs) {
          own := own + [elements[i]];
        }
        i := i + 1;
      }
    }

    method ProcessItemSetRange(a: SyncID, b: SyncID, ps: set<nat>, cs: set<nat>, theirs: seq<SyncID>, reconciled: bool)
      returns (out: Outcome)
      requires Valid()
      ensures out == Reconciled(IdxBounds(elements, a, b).Some?, OwnElements(ps, cs, a, b), theirs, reconciled)
      ensures Sorted(elements) && Sorted(theirs) ==>
                var own := OwnElements(ps, cs, a, b);
                && out.toSend == Hashes(Minus(own, theirs))
                && (out.toRecv == Hashes(Minus(theirs, own)) <==> IdxBounds(elements, a, b).Some? || theirs == [])
    {
      hide IdxBounds, Merged, Filtered, Sorted, Minus, Hashes, Within;
      ghost var sorted := Sorted(elements) && Sorted(theirs);
      if sorted {
        OwnElementsAre(this, ps, cs, a, b);
        ReconciledIff(IdxBounds(elements, a, b).Some?, OwnElements(ps, cs, a, b), theirs, reconciled);
      }
      var bounds := IdxBounds(elements, a, b);
      if bounds.None? {
        return Outcome([], [], if reconciled then Skip else ItemSet([], true));
      }
      var toSend, toRecv := Merge(bounds.value.0, bounds.value.1, ps, cs, theirs);
      if reconciled {
        return Outcome(toSend, toRecv, Skip);
      }
      var own := GetFilteredElements(ps, cs, bounds.value.0, bounds.value.1);
      out := Outcome(toSend, toRecv, ItemSet(own, true));
    }

    /** The two loops over the range and the peer's elements. */
    method Merge(lo: nat, hi: nat, ps: set<nat>, cs: set<nat>, theirs: seq<SyncID>)
      returns (toSend: seq<nat>, toRecv: seq<nat>)
      requires Valid() && hi <= |elements|
      ensures var merged := Merged(Filtered(elements, pubsubTopicIndexes, contentTopicIndexes, ps, cs, lo, hi), theirs);
              toSend == Hashes(merged.0) && toRecv == Hashes(merged.1)
    {
      hide Merged, Hashes, MergedSoFar, Passed;
      toSend, toRecv := [], [];
      var i: nat, j: nat := 0, lo;
      ghost var own := Filtered(elements, pubsubTopicIndexes, contentTopicIndexes, ps, cs, lo, hi);
      ghost var rest := own;
      NothingMerged(own, theirs);
      assert theirs[0..] == theirs;
      while j < hi
        invariant i <= |theirs| && rest == Filtered(elements, pubsubTopicIndexes, contentTopicIndexes, ps, cs, j, hi)
        invariant MergedSoFar(toSend, toRecv, rest, theirs[i..], own, theirs)
        decreases hi - j + |theirs| - i
      {
        if !Passed(pubsubTopicIndexes[j], ps) || !Passed(contentTopicIndexes[j], cs) {
          j := j + 1;
          rest := Filtered(elements, pubsubTopicIndexes, contentTopicIndexes, ps, cs, j, hi);
          continue;
        }
        var ourElement := elements[j];
        assert rest[0] == elements[j] && i < |theirs| ==> theirs[i..][1..] == theirs[i + 1..];
        if i >= |theirs| {
          SendStep(toSend, toRecv, rest, theirs[i..], own, theirs);
          toSend := toSend + [ourElement.hash];
          j := j + 1;
          rest := rest[1..];
          continue;
        }
        var theirElement := theirs[i];
        if Less(theirElement, ourElement) {
          RecvStep(toSend, toRecv, rest, theirs[i..], own, theirs);
          toRecv := toRecv + [theirElement.hash];
          i := i + 1;
        } else if Less(ourElement, theirElement) {
          SendStep(toSend, toRecv, rest, theirs[i..], own, theirs);
          toSend := toSend + [ourElement.hash];
          j := j + 1;
          rest := rest[1..];
        } else {
          BothStep(toSend, toRecv, rest, theirs[i..], own, theirs);
          i := i + 1;
          j := j + 1;
          rest := rest[1..];
        }
      }
      while i < |theirs|
        invariant i <= |theirs| && MergedSoFar(toSend, toRecv, [], theirs[i..], own, theirs)
      {
        assert theirs[i..][1..] == theirs[i + 1..];
        RecvStep(toSend, toRecv, [], theirs[i..], own, theirs);
        toRecv := toRecv + [theirs[i].hash];
        i := i + 1;
      }
      assert theirs[|theirs|..] == [];
      AllMerged(toSend, toRecv, own, theirs);
    }
  }

  lemma PutLast(es: seq<SyncID>, x: SyncID, topic: string)
    requires Sorted(es) && forall k :: 0 <= k < |es| ==> Less(es[k], x)
    ensures LowerBound(es, x) == |es| && PutOps(es, x, topic) == [Enter(|es|, topic)] && Inserted(es, x) == es + [x]
  {
    hide LowerBound;
    LowerBoundPartitions(es, x);
    var k := LowerBound(es, x);
    assert es != [] ==> Less(es[|es| - 1], x);
    assert es[..k] == es && es[k..] == [];
  }

  /** A message goes in and is pruned, one with the same topics goes in, and one with other topics after
      it: the second message then reads the topics of the third, in both tables. */
  method RecycledTopicExample() returns (s: Storage)
    ensures fresh(s) && s.Valid() && s.elements == [SyncID(3, 0), SyncID(4, 0)]
    ensures s.pubsubAsked[0] == "a" && s.pubsubTopics.topics[s.pubsubTopicIndexes[0]] == "b"
    ensures s.contentAsked[0] == "a" && s.contentTopics.topics[s.contentTopicIndexes[0]] == "b"
  {
    hide Inserted, PutOps, Reaches, Next, LowerBound, Fits;
    s := new Storage();
    PutLast([], SyncID(1, 0), "a");
    s.Insert(SyncID(1, 0), "a", "a");
    FirstTopic(s.PubsubTags());
    FirstTopic(s.ContentTags());
    PutLast([SyncID(1, 0)], SyncID(2, 0), "a");
    var count := s.Prune(2);
    assert s.elements == [];
    TopicFreed(s.PubsubTags());
    TopicFreed(s.ContentTags());
    PutLast([], SyncID(3, 0), "a");
    s.Insert(SyncID(3, 0), "a", "a");
    FreeTopicFound(s.PubsubTags());
    FreeTopicFound(s.ContentTags());
    assert s.elements == [SyncID(3, 0)];
    PutLast([SyncID(3, 0)], SyncID(4, 0), "b");
    s.Insert(SyncID(4, 0), "b", "b");
    FreeTopicTaken(s.PubsubTags());
    FreeTopicTaken(s.ContentTags());
  }

  lemma PutAllStep(es: seq<SyncID>, idx: nat, batch: seq<SyncID>, topics: seq<string>, i: nat)
    requires idx <= |es| && i < |batch| <= |topics|
    ensures var k := LowerBound(es[idx..], batch[i]);
            PutAllOps(es, idx, batch[i..], topics[i..]) ==
            (if Took(es, k, batch[i]) then [] else [Enter(k, topics[i])])
            + PutAllOps(InsertedAt(es, k, batch[i]), k, batch[i + 1..], topics[i + 1..])
  {
    hide LowerBound;
    assert batch[i..][1..] == batch[i + 1..] && topics[i..][1..] == topics[i + 1..];
  }

  lemma AllToPut(es: seq<SyncID>, batch: seq<SyncID>, pubsub: seq<string>, content: seq<string>)
    ensures batch[0..] == batch && pubsub[0..] == pubsub && content[0..] == content
  {
  }

  lemma NothingToPut(es: seq<SyncID>, idx: nat, batch: seq<SyncID>, pubsub: seq<string>, content: seq<string>)
    requires idx <= |es| && |pubsub| >= |batch| && |content| >= |batch|
    ensures BatchFrom(es, idx, batch[|batch|..]) == es
    ensures PutAllOps(es, idx, batch[|batch|..], pubsub[|batch|..]) == []
    ensures PutAllOps(es, idx, batch[|batch|..], content[|batch|..]) == []
  {
    assert batch[|batch|..] == [];
  }

  lemma OneInOrder(batch: seq<SyncID>)
    ensures |batch| == 1 ==> InOrder(batch)
  {
  }

  lemma BatchStep(es: seq<SyncID>, idx: nat, batch: seq<SyncID>, i: nat)
    requires idx <= |es| && i < |batch|
    ensures var k := LowerBound(es[idx..], batch[i]);
            BatchFrom(es, idx, batch[i..]) == BatchFrom(InsertedAt(es, k, batch[i]), k, batch[i + 1..])
  {
    assert batch[i..][1..] == batch[i + 1..];
  }

  /** What has been found, and what the rests still hold, make up the whole merge. */
  predicate MergedSoFar(toSend: seq<nat>, toRecv: seq<nat>, ours: seq<SyncID>, theirs: seq<SyncID>, own: seq<SyncID>,
                        all: seq<SyncID>)
  {
    && toSend + Hashes(Merged(ours, theirs).0) == Hashes(Merged(own, all).0)
    && toRecv + Hashes(Merged(ours, theirs).1) == Hashes(Merged(own, all).1)
  }

  lemma NothingMerged(own: seq<SyncID>, all: seq<SyncID>)
    ensures MergedSoFar([], [], own, all, own, all)
  {
  }

  lemma AllMerged(toSend: seq<nat>, toRecv: seq<nat>, own: seq<SyncID>, all: seq<SyncID>)
    requires MergedSoFar(toSend, toRecv, [], [], own, all)
    ensures toSend == Hashes(Merged(own, all).0) && toRecv == Hashes(Merged(own, all).1)
  {
    assert toSend + [] == toSend && toRecv + [] == toRecv;
  }

  lemma HashesCons(x: SyncID, s: seq<SyncID>)
    ensures Hashes([x] + s) == [x.hash] + Hashes(s)
  {
  }

  /** Our next element is not among theirs. */
  lemma SendStep(toSend: seq<nat>, toRecv: seq<nat>, ours: seq<SyncID>, theirs: seq<SyncID>, own: seq<SyncID>,
                 all: seq<SyncID>)
    requires MergedSoFar(toSend, toRecv, ours, theirs, own, all) && ours != []
    requires theirs == [] || (Less(ours[0], theirs[0]) && !Less(theirs[0], ours[0]))
    ensures MergedSoFar(toSend + [ours[0].hash], toRecv, ours[1..], theirs, own, all)
  {
    HashesCons(ours[0], Merged(ours[1..], theirs).0);
    assert ours == [ours[0]] + ours[1..];
    if theirs == [] && ours[1..] != [] {
      HashesCons(ours[0], ours[1..]);
    }
  }

  lemma BothStep(toSend: seq<nat>, toRecv: seq<nat>, ours: seq<SyncID>, theirs: seq<SyncID>, own: seq<SyncID>,
                 all: seq<SyncID>)
    requires MergedSoFar(toSend, toRecv, ours, theirs, own, all) && ours != [] && theirs != []
    requires !Less(ours[0], theirs[0]) && !Less(theirs[0], ours[0])
    ensures MergedSoFar(toSend, toRecv, ours[1..], theirs[1..], own, all)
  {
  }

  /** Their next element is not among ours. */
  lemma RecvStep(toSend: seq<nat>, toRecv: seq<nat>, ours: seq<SyncID>, theirs: seq<SyncID>, own: seq<SyncID>,
                 all: seq<SyncID>)
    requires MergedSoFar(toSend, toRecv, ours, theirs, own, all) && theirs != []
    requires ours == [] || Less(theirs[0], ours[0])
    ensures MergedSoFar(toSend, toRecv + [theirs[0].hash], ours, theirs[1..], own, all)
  {
    HashesCons(theirs[0], Merged(ours, theirs[1..]).1);
    assert theirs == [theirs[0]] + theirs[1..];
  }

  // ----- What reconciliation promises -----

  /** Against sorted elements of ours and of the peer's: what we send is always what only we have; what
      we expect is what only they have iff the range was found among our elements or they have
      nothing. A range beyond all our elements expects nothing. */
  lemma ReconciledIff(found: bool, ours: seq<SyncID>, theirs: seq<SyncID>, reconciled: bool)
    requires Sorted(ours) && Sorted(theirs) && (!found ==> ours == [])
    ensures var out := Reconciled(found, ours, theirs, reconciled);
            && out.toSend == Hashes(Minus(ours, theirs))
            && (out.toRecv == Hashes(Minus(theirs, ours)) <==> found || theirs == [])
  {
    MergedIsDifference(ours, theirs);
    if !found {
      MinusNothing(theirs);
    }
  }

  /** An empty storage, offered one element, expects nothing. */
  lemma NothingExpectedExample()
    ensures var x := SyncID(1, 0);
            && IdxBounds([], x, x).None? && Minus([x], []) == [x]
            && Reconciled(false, [], [x], false).toRecv == []
  {
    MinusNothing([SyncID(1, 0)]);
  }

  /** What a side opens a range with that is small enough for an item set. */
  function Opening(found: bool, own: seq<SyncID>): Reply {
    ItemSet(own, !found)
  }

  /** A side that gets an item set reconciles it; nothing else makes it send or expect anything. */
  function Answered(found: bool, own: seq<SyncID>, r: Reply): Outcome {
    match r
    case Skip => Outcome([], [], Skip)
    case ItemSet(theirs, reconciled) => Reconciled(found, own, theirs, reconciled)
  }

  /** A full exchange over one range: the opener's item set, the peer's reply, and the opener's
      reconciliation of that. Each side always sends exactly what the other lacks, and then both hold
      the same. Each is also told to expect exactly what the other sends iff a side that does not find
      the range has a peer with nothing in it. */
  lemma ExchangeAgrees(foundA: bool, ours: seq<SyncID>, foundB: bool, theirs: seq<SyncID>)
    requires Sorted(ours) && Sorted(theirs) && (!foundA ==> ours == []) && (!foundB ==> theirs == [])
    ensures var ofB := Answered(foundB, theirs, Opening(foundA, ours));
            var ofA := Answered(foundA, ours, ofB.reply);
            && ofA.reply == Skip
            && ofA.toSend == Hashes(Minus(ours, theirs)) && ofB.toSend == Hashes(Minus(theirs, ours))
            && (ofA.toRecv == ofB.toSend && ofB.toRecv == ofA.toSend <==>
                (foundA || theirs == []) && (foundB || ours == []))
    ensures Elements(ours) + Elements(Minus(theirs, ours)) == Elements(theirs) + Elements(Minus(ours, theirs))
  {
    hide Sorted, Merged, Minus;
    MergedIsDifference(ours, theirs);
    MergedIsDifference(theirs, ours);
    NothingMeets(ours);
    NothingMeets(theirs);
    MinusElements(ours, theirs);
    MinusElements(theirs, ours);
  }

  lemma NothingMeets(s: seq<SyncID>)
    ensures Merged(s, []) == (s, []) && Merged([], s) == ([], s)
    ensures Minus([], s) == [] && Minus(s, []) == s
  {
    MinusNothing(s);
  }

  /** The exchange between two storages, each with its own indexes for the topics asked for. */
  method Exchange(us: Storage, peer: Storage, a: SyncID, b: SyncID, ps: set<nat>, cs: set<nat>, peerPs: set<nat>,
                  peerCs: set<nat>)
    returns (ours: Outcome, theirs: Outcome)
    requires us.Valid() && peer.Valid()
    ensures var own, other := us.OwnElements(ps, cs, a, b), peer.OwnElements(peerPs, peerCs, a, b);
            var found, foundB := IdxBounds(us.elements, a, b).Some?, IdxBounds(peer.elements, a, b).Some?;
            Sorted(us.elements) && Sorted(peer.elements) ==>
              && ours.toSend == Hashes(Minus(own, other)) && theirs.toSend == Hashes(Minus(other, own))
              && (ours.toRecv == theirs.toSend && theirs.toRecv == ours.toSend <==>
                  (found || other == []) && (foundB || own == []))
  {
    hide Sorted, Merged, Minus, Hashes, IdxBounds, Filtered;
    var bounds := IdxBounds(us.elements, a, b);
    var own := [];
    if bounds.Some? {
      own := us.GetFilteredElements(ps, cs, bounds.value.0, bounds.value.1);
    }
    ghost var sorted := Sorted(us.elements) && Sorted(peer.elements);
    if sorted {
      OwnElementsAre(us, ps, cs, a, b);
      OwnElementsAre(peer, peerPs, peerCs, a, b);
      ExchangeAgrees(bounds.Some?, own, IdxBounds(peer.elements, a, b).Some?, peer.OwnElements(peerPs, peerCs, a, b));
    }
    theirs := peer.ProcessItemSetRange(a, b, peerPs, peerCs, own, bounds.None?);
    ours := Outcome([], [], Skip);
    if theirs.reply.ItemSet? {
      ours := us.ProcessItemSetRange(a, b, ps, cs, theirs.reply.elements, theirs.reply.reconciled);
    }
  }

  lemma ElementsCons(x: SyncID, s: seq<SyncID>)
    ensures Elements([x] + s) == {x} + Elements(s)
  {
  }

  lemma {:induction false} MinusElements(s: seq<SyncID>, t: seq<SyncID>)
    ensures Elements(Minus(s, t)) == Elements(s) - Elements(t)
  {
    if s != [] {
      MinusElements(s[1..], t);
      ElementsCons(s[0], s[1..]);
      ElementsCons(s[0], Minus(s[1..], t));
      assert s == [s[0]] + s[1..];
      assert s[0] in t <==> s[0] in Elements(t);
    }
  }

  /** The elements a sorted storage brings to the reconciliation: sorted, and exactly those within
      bounds whose topics pass the filters. */
  lemma OwnElementsAre(s: Storage, ps: set<nat>, cs: set<nat>, a: SyncID, b: SyncID)
    requires s.Valid() && Sorted(s.elements)
    ensures var own := s.OwnElements(ps, cs, a, b);
            && Sorted(own) && (IdxBounds(s.elements, a, b).None? ==> own == [])
            && forall x :: x in own <==>
                 exists k :: 0 <= k < |s.elements| && s.elements[k] == x && !Less(x, a) && !Less(b, x)
                             && (ps == {} || s.pubsubTopicIndexes[k] in ps)
                             && (cs == {} || s.contentTopicIndexes[k] in cs)
  {
    IdxBoundsAreRange(s.elements, a, b);
    match IdxBounds(s.elements, a, b)
    case None =>
    case Some(r) =>
      FilteredSorted(s.elements, s.pubsubTopicIndexes, s.contentTopicIndexes, ps, cs, r.0, r.1);
      FilteredMembers(s.elements, s.pubsubTopicIndexes, s.contentTopicIndexes, ps, cs, r.0, r.1);
  }

  // ----- Filters by topic -----

  /** The indexes of the topics asked for. */
  function AskedIndexes(t: TopicTable, asked: seq<string>): set<nat> {
    set i: nat | i < |t.topics| && t.topics[i] in asked
  }

  /** The two loops that look up the topics asked for. */
  method FindIndexes(t: TopicTable, asked: seq<string>) returns (found: set<nat>)
    ensures found == AskedIndexes(t, asked)
  {
    found := {};
    for n := 0 to |asked|
      invariant found == AskedIndexes(t, asked[..n])
    {
      ghost var before := found;
      for i := 0 to |t.topics|
        invariant found == before + set k: nat | k < i && t.topics[k] == asked[n]
      {
        if asked[n] == t.topics[i] {
          found := found + {i};
        }
      }
      assert asked[..n + 1] == asked[..n] + [asked[n]];
    }
    assert asked[..|asked|] == asked;
  }

  /** Some topic asked for is in the table. */
  predicate KnowsAny(t: TopicTable, asked: seq<string>) {
    exists i: nat :: i < |t.topics| && t.topics[i] in asked
  }

  /** An element of topic i passes when it has a topic asked for, and also when the table knows none of
      them: the filter is then empty. */
  lemma PassedByTopic(t: TopicTable, asked: seq<string>, i: nat)
    requires i < |t.topics|
    ensures AskedIndexes(t, asked) == {} || i in AskedIndexes(t, asked) <==>
            !KnowsAny(t, asked) || t.topics[i] in asked
  {
    var found := AskedIndexes(t, asked);
    if KnowsAny(t, asked) {
      var k: nat :| k < |t.topics| && t.topics[k] in asked;
      assert k in found;
    }
  }

  /** So asking for topics is exact iff none is asked for, which asks for all, or the table knows one. */
  lemma FilterExactIff(t: TopicTable, asked: seq<string>, i: nat)
    requires i < |t.topics|
    ensures (AskedIndexes(t, asked) == {} || i in AskedIndexes(t, asked) <==> asked == [] || t.topics[i] in asked) <==>
            asked == [] || KnowsAny(t, asked)
  {
    PassedByTopic(t, asked, i);
    assert t.topics[i] in asked ==> KnowsAny(t, asked);
  }

  /** The elements that a sorted storage offers for topics by name: exactly those within bounds whose
      topics in both tables are among those asked for, a list of which the table knows none asking for
      all. */
  lemma OwnByTopic(s: Storage, pubsub: seq<string>, content: seq<string>, a: SyncID, b: SyncID)
    requires s.Valid() && Sorted(s.elements)
    ensures var ps, cs := AskedIndexes(s.pubsubTopics, pubsub), AskedIndexes(s.contentTopics, content);
            var own := s.OwnElements(ps, cs, a, b);
            forall x :: x in own <==>
              exists k :: 0 <= k < |s.elements| && s.elements[k] == x && !Less(x, a) && !Less(b, x)
                          && (!KnowsAny(s.pubsubTopics, pubsub)
                              || s.pubsubTopics.topics[s.pubsubTopicIndexes[k]] in pubsub)
                          && (!KnowsAny(s.contentTopics, content)
                              || s.contentTopics.topics[s.contentTopicIndexes[k]] in content)
  {
    hide AskedIndexes, KnowsAny;
    var ps, cs := AskedIndexes(s.pubsubTopics, pubsub), AskedIndexes(s.contentTopics, content);
    OwnElementsAre(s, ps, cs, a, b);
    forall k | 0 <= k < |s.elements|
      ensures ps == {} || s.pubsubTopicIndexes[k] in ps <==>
              !KnowsAny(s.pubsubTopics, pubsub) || s.pubsubTopics.topics[s.pubsubTopicIndexes[k]] in pubsub
      ensures cs == {} || s.contentTopicIndexes[k] in cs <==>
              !KnowsAny(s.contentTopics, content) || s.contentTopics.topics[s.contentTopicIndexes[k]] in content
    {
      PassedByTopic(s.pubsubTopics, pubsub, s.pubsubTopicIndexes[k]);
      PassedByTopic(s.contentTopics, content, s.contentTopicIndexes[k]);
    }
  }

  /** The item-set part of processPayload: the topics by name, then the range. */
  method AnswerItemSet(s: Storage, pubsub: seq<string>, content: seq<string>, a: SyncID, b: SyncID, theirs: seq<SyncID>,
                       reconciled: bool)
    returns (out: Outcome)
    requires s.Valid()
    ensures var ps, cs := AskedIndexes(s.pubsubTopics, pubsub), AskedIndexes(s.contentTopics, content);
            var own := s.OwnElements(ps, cs, a, b);
            && out == Reconciled(IdxBounds(s.elements, a, b).Some?, own, theirs, reconciled)
            && (Sorted(s.elements) && Sorted(theirs) ==> out.toSend == Hashes(Minus(own, theirs)))
  {
    hide AskedIndexes, IdxBounds, Reconciled, Sorted, Hashes, Minus;
    var ps := FindIndexes(s.pubsubTopics, pubsub);
    var cs := FindIndexes(s.contentTopics, content);
    out := s.ProcessItemSetRange(a, b, ps, cs, theirs, reconciled);
  }

  /** A storage that knows topic "a" alone, asked for topic "b": it offers its element all the same. */
  method UnknownTopicExample() returns (s: Storage, out: Outcome)
    ensures fresh(s) && s.Valid() && s.elements == [SyncID(1, 7)] && s.pubsubAsked == ["a"]
    ensures out.toSend == [7]
  {
    hide Inserted, PutOps, Reaches, Next, LowerBound, Fits, Reconciled, AskedIndexes, Minus, Merged;
    s := new Storage();
    var x := SyncID(1, 7);
    PutLast([], x, "a");
    s.Insert(x, "a", "a");
    FirstTopic(s.PubsubTags());
    FirstTopic(s.ContentTags());
    assert s.elements == [x];
    UnknownIsEmpty();
    out := AnswerItemSet(s, ["b"], [], x, x, [], true);
    ghost var own := s.OwnElements({}, {}, x, x);
    OwnElementsAre(s, {}, {}, x, x);
    assert own == [x] by {
      assert s.elements[0] == x && x in own;
      OneElement(own, x);
    }
    MinusNothing(own);
  }

  lemma UnknownIsEmpty()
    ensures AskedIndexes(TopicTable(["a"], {}), ["b"]) == {} && AskedIndexes(TopicTable(["a"], {}), []) == {}
  {
  }

  lemma OneElement(s: seq<SyncID>, x: SyncID)
    requires Sorted(s) && x in s && forall y :: y in s ==> y == x
    ensures s == [x]
  {
    forall i | 0 <= i < |s| ensures s[i] == x {
      assert s[i] in s;
    }
    assert |s| >= 2 ==> s[1] in s[1..] by {
      if |s| >= 2 {
        assert s[1..][0] == s[1];
      }
    }
    TailSorted(s);
  }
}
