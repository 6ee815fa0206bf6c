/** The topic tables of the sync storage (seq_storage.nim): elements refer to topics by index, and
    pruning frees indexes for other topics. */
module TopicTables {
  /** The topics that elements refer to by index, and the indexes free for another topic. */
  datatype TopicTable = TopicTable(topics: seq<string>, unused: set<nat>)

  function FirstIndex(topics: seq<string>, topic: string): (r: nat)
    ensures r <= |topics| && (r < |topics| ==> topics[r] == topic)
    ensures forall k :: 0 <= k < r ==> topics[k] != topic
  {
    if topics == [] || topics[0] == topic then 0
    else
      assert forall k :: 0 < k < |topics| ==> topics[k] == topics[1..][k - 1];
      1 + FirstIndex(topics[1..], topic)
  }

  /** The table t gives index i to the topic and becomes u: an index that already has the topic, or a
      free one, or a new one. */
  predicate Gives(t: TopicTable, topic: string, i: nat, u: TopicTable) {
    if topic in t.topics then i == FirstIndex(t.topics, topic) && u == t
    else if t.unused != {} then
      i in t.unused && i < |t.topics| && u == TopicTable(t.topics[i := topic], t.unused - {i})
    else i == |t.topics| && u == TopicTable(t.topics + [topic], t.unused)
  }

  /** Every index in use, and every free one, is an index of the table. */
  predicate Fits(t: TopicTable, used: seq<nat>) {
    (forall k :: 0 <= k < |used| ==> used[k] < |t.topics|) && (forall i :: i in t.unused ==> i < |t.topics|)
  }

  /** No free index is in use. */
  predicate Clean(t: TopicTable, used: seq<nat>) {
    forall k :: 0 <= k < |used| ==> used[k] !in t.unused
  }

  predicate SameTopics(t: TopicTable, u: TopicTable, used: seq<nat>)
    requires Fits(t, used)
  {
    forall k :: 0 <= k < |used| ==> used[k] < |u.topics| && u.topics[used[k]] == t.topics[used[k]]
  }

  /** One given index keeps the topic of every element iff it was not a recycled one still in use. */
  lemma GivenKeepsIff(t: TopicTable, topic: string, i: nat, u: TopicTable, used: seq<nat>)
    requires Fits(t, used) && Gives(t, topic, i, u)
    ensures Fits(u, used + [i]) && i < |u.topics| && u.topics[i] == topic
    ensures SameTopics(t, u, used) <==> topic in t.topics || t.unused == {} || i !in used
  {
    assert (used + [i])[|used|] == i;
    if topic !in t.topics && t.unused != {} && i in used {
      var k :| 0 <= k < |used| && used[k] == i;
      assert t.topics[i] in t.topics && u.topics[used[k]] == topic;
    }
    assert topic in t.topics ==> u.topics[i] == topic by {
      if topic in t.topics {
        var k :| 0 <= k < |t.topics| && t.topics[k] == topic;
      }
    }
  }

  /** Entering a topic is sure to keep the topic of every element, whichever free index comes first,
      iff the table has the topic already or no free index is in use. */
  lemma TopicsKeptIff(t: TopicTable, topic: string, used: seq<nat>)
    requires Fits(t, used)
    ensures (forall i, u :: Gives(t, topic, i, u) ==> SameTopics(t, u, used)) <==> topic in t.topics || Clean(t, used)
  {
    forall i, u | Gives(t, topic, i, u) && (topic in t.topics || Clean(t, used)) ensures SameTopics(t, u, used) {
      GivenKeepsIff(t, topic, i, u, used);
    }
    if topic !in t.topics && !Clean(t, used) {
      var k :| 0 <= k < |used| && used[k] in t.unused;
      var u := TopicTable(t.topics[used[k] := topic], t.unused - {used[k]});
      assert Gives(t, topic, used[k], u);
      GivenKeepsIff(t, topic, used[k], u, used);
    }
  }

  lemma FitsInserted(t: TopicTable, topic: string, i: nat, u: TopicTable, used: seq<nat>, idx: nat)
    requires Fits(t, used) && Gives(t, topic, i, u) && idx <= |used|
    ensures Fits(u, used[..idx] + [i] + used[idx..])
  {
    GivenKeepsIff(t, topic, i, u, used);
    assert (used + [i])[|used|] == i;
    assert forall k :: 0 <= k < |used| ==> (used + [i])[k] == used[k];
  }

  lemma FreeFits(t: TopicTable, used: seq<nat>)
    requires Fits(t, used)
    ensures forall k :: k in t.unused ==> k < |t.topics|
  {
  }

  /** A clean table recycles no index in use, and it stays clean iff the topic was not found at a
      free index: the search does not take such an index out of the free ones. */
  lemma CleanKeptIff(t: TopicTable, topic: string, i: nat, u: TopicTable, used: seq<nat>)
    requires Fits(t, used) && Clean(t, used) && Gives(t, topic, i, u)
    ensures SameTopics(t, u, used)
    ensures Clean(u, used + [i]) <==> !(topic in t.topics && FirstIndex(t.topics, topic) in t.unused)
  {
    assert (used + [i])[|used|] == i;
    assert forall k :: 0 <= k < |used| ==> (used + [i])[k] == used[k];
    assert i in used ==> i !in t.unused by {
      if i in used {
        var k :| 0 <= k < |used| && used[k] == i;
      }
    }
  }

  /** The table once every index not in use is free. */
  function Freed(t: TopicTable, used: seq<nat>): TopicTable {
    t.(unused := set i: nat | i < |t.topics| && i !in used)
  }

  /** Freeing makes free exactly the indexes not in use, and leaves every topic in place. */
  lemma FreedIsClean(t: TopicTable, used: seq<nat>)
    requires Fits(t, used)
    ensures Fits(Freed(t, used), used) && Clean(Freed(t, used), used) && SameTopics(t, Freed(t, used), used)
    ensures forall i: nat :: i in Freed(t, used).unused <==> i < |t.topics| && i !in used
  {
  }

  // ----- Histories of a table -----

  /** A table, the indexes that the elements in storage hold, and the topics they were inserted with. */
  datatype Tags = Tags(table: TopicTable, used: seq<nat>, asked: seq<string>)

  const NO_TAGS := Tags(TopicTable([], {}), [], [])

  /** An element goes in at an index with its topic, or the first elements go out. */
  datatype Op = Enter(idx: nat, topic: string) | Forget(count: nat)

  ghost predicate Next(s: Tags, op: Op, u: Tags) {
    && |s.asked| == |s.used|
    && match op
       case Enter(idx, topic) =>
         && idx <= |s.used| && u.asked == s.asked[..idx] + [topic] + s.asked[idx..]
         && exists i :: Gives(s.table, topic, i, u.table) && u.used == s.used[..idx] + [i] + s.used[idx..]
       case Forget(count) =>
         && count <= |s.used|
         && u == if s.used == [] then s else Tags(Freed(s.table, s.used[count..]), s.used[count..], s.asked[count..])
  }

  lemma Forgets(s: Tags, count: nat)
    requires |s.asked| == |s.used| && count <= |s.used| && Fits(s.table, s.used)
    ensures var rest := s.used[count..];
            && Fits(Freed(s.table, rest), rest) && Clean(Freed(s.table, rest), rest)
            && Next(s, Forget(count), if s.used == [] then s else Tags(Freed(s.table, rest), rest, s.asked[count..]))
  {
    assert Fits(s.table, s.used[count..]);
    FreedIsClean(s.table, s.used[count..]);
  }

  /** Every element reads the topic it was inserted with. */
  predicate Truthful(s: Tags) {
    && |s.asked| == |s.used| && Fits(s.table, s.used)
    && forall k :: 0 <= k < |s.used| ==> s.table.topics[s.used[k]] == s.asked[k]
  }

  /** What a caller can check before an operation: a topic that goes in is in the table, or no free
      index is in use. */
  predicate Guarded(s: Tags, op: Op) {
    op.Enter? && op.idx <= |s.used| ==> op.topic in s.table.topics || Clean(s.table, s.used)
  }

  lemma EnterKeepsTruth(s: Tags, idx: nat, topic: string, u: Tags)
    requires Truthful(s) && Next(s, Enter(idx, topic), u)
    ensures Truthful(u) <==> SameTopics(s.table, u.table, s.used)
  {
    hide Gives;
    var i :| Gives(s.table, topic, i, u.table) && u.used == s.used[..idx] + [i] + s.used[idx..];
    FitsInserted(s.table, topic, i, u.table, s.used, idx);
    GivenKeepsIff(s.table, topic, i, u.table, s.used);
    if SameTopics(s.table, u.table, s.used) {
      SameIsTruthful(s, idx, topic, i, u);
    }
    if Truthful(u) {
      TruthfulIsSame(s, idx, topic, i, u);
    }
  }

  lemma SameIsTruthful(s: Tags, idx: nat, topic: string, i: nat, u: Tags)
    requires Truthful(s) && idx <= |s.used| && SameTopics(s.table, u.table, s.used)
    requires u.used == s.used[..idx] + [i] + s.used[idx..] && u.asked == s.asked[..idx] + [topic] + s.asked[idx..]
    requires Fits(u.table, u.used) && i < |u.table.topics| && u.table.topics[i] == topic
    ensures Truthful(u)
  {
    forall k | 0 <= k < |u.used| ensures u.table.topics[u.used[k]] == u.asked[k] {
      if k < idx {
        assert u.used[k] == s.used[k];
      } else if k > idx {
        assert u.used[k] == s.used[k - 1] && u.asked[k] == s.asked[k - 1];
      }
    }
  }

  lemma TruthfulIsSame(s: Tags, idx: nat, topic: string, i: nat, u: Tags)
    requires Truthful(s) && idx <= |s.used| && Truthful(u)
    requires u.used == s.used[..idx] + [i] + s.used[idx..] && u.asked == s.asked[..idx] + [topic] + s.asked[idx..]
    ensures SameTopics(s.table, u.table, s.used)
  {
    forall k | 0 <= k < |s.used|
      ensures s.used[k] < |u.table.topics| && u.table.topics[s.used[k]] == s.table.topics[s.used[k]]
    {
      var m := if k < idx then k else k + 1;
      assert u.used[m] == s.used[k] && u.asked[m] == s.asked[k];
    }
  }

  lemma ForgetKeepsTruth(s: Tags, count: nat, u: Tags)
    requires Truthful(s) && Next(s, Forget(count), u)
    ensures Truthful(u)
  {
    if s.used != [] {
      assert Fits(s.table, s.used[count..]);
      FreedIsClean(s.table, s.used[count..]);
    }
  }

  /** One operation on truthful tags is sure to leave truthful ones iff it is guarded. */
  lemma TruthKeptIff(s: Tags, op: Op)
    requires Truthful(s)
    ensures (forall u :: Next(s, op, u) ==> Truthful(u)) <==> Guarded(s, op)
  {
    hide Gives, Truthful, SameTopics, Fits;
    match op
    case Forget(count) =>
      forall u | Next(s, op, u) ensures Truthful(u) {
        ForgetKeepsTruth(s, count, u);
      }
    case Enter(idx, topic) =>
      TruthfulFits(s);
      TopicsKeptIff(s.table, topic, s.used);
      forall u | Next(s, op, u) ensures Truthful(u) <==> SameTopics(s.table, u.table, s.used) {
        EnterKeepsTruth(s, idx, topic, u);
      }
      if idx <= |s.used| && !Guarded(s, op) {
        var i, table :| Gives(s.table, topic, i, table) && !SameTopics(s.table, table, s.used);
        var u := Tags(table, s.used[..idx] + [i] + s.used[idx..], s.asked[..idx] + [topic] + s.asked[idx..]);
        assert Next(s, op, u);
      }
  }

  lemma TruthfulFits(s: Tags)
    requires Truthful(s)
    ensures Fits(s.table, s.used) && |s.asked| == |s.used|
  {
  }

  /** Some choice of free indexes leads from s to u. */
  ghost predicate Reaches(s: Tags, ops: seq<Op>, u: Tags) {
    if ops == [] then s == u
    else exists v {:trigger Next(v, ops[|ops| - 1], u)} ::
        Reaches(s, ops[..|ops| - 1], v) && Next(v, ops[|ops| - 1], u)
  }

  lemma ReachesOn(s: Tags, ops: seq<Op>, v: Tags, op: Op, u: Tags)
    requires Reaches(s, ops, v) && Next(v, op, u)
    ensures Reaches(s, ops + [op], u)
  {
    var more := ops + [op];
    assert more[..|more| - 1] == ops && Next(v, more[|more| - 1], u);
  }

  lemma ReachesNothing(s: Tags)
    ensures Reaches(s, [], s)
  {
  }

  lemma ReachesOne(s: Tags, op: Op, u: Tags)
    requires Next(s, op, u)
    ensures Reaches(s, [op], u)
  {
    ReachesOn(s, [], s, op, u);
    assert [] + [op] == [op];
  }

  lemma {:induction false} ReachesAll(s: Tags, ops: seq<Op>, v: Tags, more: seq<Op>, u: Tags)
    requires Reaches(s, ops, v) && Reaches(v, more, u)
    ensures Reaches(s, ops + more, u)
    decreases |more|
  {
    hide Next;
    if more == [] {
      assert ops + more == ops;
    } else {
      var most, op := more[..|more| - 1], more[|more| - 1];
      var w :| Reaches(v, most, w) && Next(w, op, u);
      ReachesAll(s, ops, v, most, w);
      ReachesOn(s, ops + most, w, op, u);
      assert ops + most + [op] == ops + more;
    }
  }

  ghost predicate AlwaysTruthful(ops: seq<Op>) {
    forall n, u :: 0 <= n <= |ops| && Reaches(NO_TAGS, ops[..n], u) ==> Truthful(u)
  }

  ghost predicate AlwaysGuarded(ops: seq<Op>) {
    forall n, u :: 0 <= n < |ops| && Reaches(NO_TAGS, ops[..n], u) ==> Guarded(u, ops[n])
  }

  lemma {:induction false} GuardedIsTruthful(ops: seq<Op>, n: nat, u: Tags)
    requires AlwaysGuarded(ops) && n <= |ops| && Reaches(NO_TAGS, ops[..n], u)
    ensures Truthful(u)
    decreases n
  {
    hide Truthful, Guarded, Next;
    if n == 0 {
      NoTagsTruthful();
    } else {
      assert ops[..n][..n - 1] == ops[..n - 1];
      var v :| Reaches(NO_TAGS, ops[..n - 1], v) && Next(v, ops[n - 1], u);
      GuardedIsTruthful(ops, n - 1, v);
      TruthKeptIff(v, ops[n - 1]);
    }
  }

  lemma NoTagsTruthful()
    ensures Truthful(NO_TAGS)
  {
  }

  /** Over any history of insertions and prunings, whichever free indexes are chosen: every element
      always reads the topic it was inserted with iff every insertion is guarded when it comes. */
  lemma {:induction false} HistoryTruthfulIff(ops: seq<Op>)
    ensures AlwaysTruthful(ops) <==> AlwaysGuarded(ops)
  {
    hide Truthful, Guarded, Next;
    if AlwaysGuarded(ops) {
      forall n, u | 0 <= n <= |ops| && Reaches(NO_TAGS, ops[..n], u) ensures Truthful(u) {
        GuardedIsTruthful(ops, n, u);
      }
    }
    if AlwaysTruthful(ops) {
      forall n, u | 0 <= n < |ops| && Reaches(NO_TAGS, ops[..n], u) ensures Guarded(u, ops[n]) {
        TruthKeptIff(u, ops[n]);
        forall w | Next(u, ops[n], w) ensures Truthful(w) {
          ReachesOn(NO_TAGS, ops[..n], u, ops[n], w);
          assert ops[..n] + [ops[n]] == ops[..n + 1];
        }
      }
    }
  }

  lemma GuardedEnd(ops: seq<Op>, u: Tags)
    requires Reaches(NO_TAGS, ops, u)
    ensures AlwaysGuarded(ops) ==> Truthful(u)
  {
    assert ops[..|ops|] == ops;
    if AlwaysGuarded(ops) {
      GuardedIsTruthful(ops, |ops|, u);
    }
  }

  // ----- A topic recycled while in use -----

  const ONE_TOPIC := Tags(TopicTable(["a"], {}), [0], ["a"])
  const FREE_TOPIC := Tags(TopicTable(["a"], {0}), [], [])
  const FREE_IN_USE := Tags(TopicTable(["a"], {0}), [0], ["a"])
  const RELABELLED := Tags(TopicTable(["b"], {}), [0, 0], ["a", "b"])

  lemma NextOfOne(s: Tags, op: Op, u: Tags)
    requires Reaches(s, [op], u)
    ensures Next(s, op, u)
  {
    var v :| Reaches(s, [op][..0], v) && Next(v, op, u);
    assert [op][..0] == [];
  }

  lemma FirstTopic(u: Tags)
    requires Reaches(NO_TAGS, [Enter(0, "a")], u)
    ensures u == ONE_TOPIC
  {
    NextOfOne(NO_TAGS, Enter(0, "a"), u);
  }

  lemma TopicFreed(u: Tags)
    requires Next(ONE_TOPIC, Forget(1), u)
    ensures u == FREE_TOPIC
  {
    assert Freed(ONE_TOPIC.table, [0][1..]).unused == {0};
  }

  lemma FreeTopicFound(u: Tags)
    requires Reaches(FREE_TOPIC, [Enter(0, "a")], u)
    ensures u == FREE_IN_USE
  {
    NextOfOne(FREE_TOPIC, Enter(0, "a"), u);
    assert "a" in FREE_TOPIC.table.topics by { assert FREE_TOPIC.table.topics[0] == "a"; }
  }

  lemma FreeTopicTaken(u: Tags)
    requires Reaches(FREE_IN_USE, [Enter(1, "b")], u)
    ensures u == RELABELLED
  {
    NextOfOne(FREE_IN_USE, Enter(1, "b"), u);
    assert 0 in FREE_IN_USE.table.unused;
    assert FREE_IN_USE.table.topics[0 := "b"] == ["b"] && FREE_IN_USE.table.unused - {0} == {};
  }
}
