/** Message handling of WakuNode.swift: the actor's bounded cache of seen hashes, and the UI list
    that its messages feed. */
module MessageDedup {
  import opened Options

  const MAX_SEEN_HASHES := 1000
  /** Deliveries between two clearings of the cache. */
  const BLOCK := MAX_SEEN_HASHES + 1
  const MAX_LISTED := 100

  datatype Message = Message(id: string, payload: string, contentTopic: string)

  /** A message event as its fields are read: None when a field is missing or of the wrong type,
      or, for the payload, when it is not the Base64 of UTF-8 text. */
  datatype Incoming = Incoming(messageHash: Option<string>, payload: Option<string>, contentTopic: Option<string>) {
    predicate WellFormed() {
      messageHash.Some? && payload.Some? && contentTopic.Some?
    }

    function Decoded(): Message
      requires WellFormed()
    {
      Message(messageHash.value, payload.value, contentTopic.value)
    }
  }

  // ----- The actor's side -----

  /** The cache and the messages yielded so far. */
  datatype Session = Session(seen: set<string>, delivered: seq<Message>)

  const FRESH := Session({}, [])

  function Handled(s: Session, json: Incoming): Session {
    if !json.WellFormed() || json.messageHash.value in s.seen then s
    else
      var seen := s.seen + {json.messageHash.value};
      Session(if |seen| > MAX_SEEN_HASHES then {} else seen, s.delivered + [json.Decoded()])
  }

  function HandledFrom(s: Session, jsons: seq<Incoming>): Session {
    if jsons == [] then s else Handled(HandledFrom(s, jsons[..|jsons| - 1]), jsons[|jsons| - 1])
  }

  /** A session from its start. */
  function HandledAll(jsons: seq<Incoming>): Session {
    HandledFrom(FRESH, jsons)
  }

  class MessageHandler {
    var seenMessageHashes: set<string>
    // What has been yielded to the message stream.
    var delivered: seq<Message>

    function State(): Session
      reads this
    {
      Session(seenMessageHashes, delivered)
    }

    constructor ()
      ensures State() == FRESH
    {
      seenMessageHashes, delivered := {}, [];
    }

    method HandleMessage(json: Incoming)
      modifies this
      ensures State() == Handled(old(State()), json)
      ensures json.messageHash.None? || json.payload.None? || json.contentTopic.None? ==> unchanged(this)
      ensures json.messageHash.Some? && json.messageHash.value in old(seenMessageHashes) ==> unchanged(this)
      ensures json.messageHash.Some? && json.payload.Some? && json.contentTopic.Some?
              && json.messageHash.value !in old(seenMessageHashes) ==>
                && |delivered| == |old(delivered)| + 1 && delivered[..|delivered| - 1] == old(delivered)
                && Carries(delivered[|delivered| - 1], json)
    {
      if !json.WellFormed() {
        return;
      }
      if json.messageHash.value in seenMessageHashes {
        return;
      }
      seenMessageHashes := seenMessageHashes + {json.messageHash.value};
      if |seenMessageHashes| > MAX_SEEN_HASHES {
        seenMessageHashes := {};
      }
      delivered := delivered + [json.Decoded()];
    }

    /** The part of stop that concerns messages. */
    method ForgetOnStop()
      modifies this
      ensures State() == Stopped(old(State()))
    {
      seenMessageHashes := {};
    }

    /** The event coroutine, over any number of message events. */
    method ProcessEvents(jsons: seq<Incoming>)
      modifies this
      ensures State() == HandledFrom(old(State()), jsons)
    {
      for i := 0 to |jsons|
        invariant State() == HandledFrom(old(State()), jsons[..i])
      {
        HandleMessage(jsons[i]);
        assert jsons[..i + 1][..i] == jsons[..i];
      }
      assert jsons[..|jsons|] == jsons;
    }
  }

  /** What stop does to the message state. */
  function Stopped(s: Session): Session {
    s.(seen := {})
  }

  function Ids(messages: seq<Message>): set<string> {
    set m | m in messages :: m.id
  }

  /** The deliveries since the cache was last cleared. */
  function Recent(messages: seq<Message>): seq<Message> {
    messages[|messages| - |messages| % BLOCK..]
  }

  /** No id twice within one block of consecutive deliveries. */
  predicate RepeatFreeBlocks(messages: seq<Message>) {
    forall i, j :: 0 <= i < j < |messages| && i / BLOCK == j / BLOCK ==> messages[i].id != messages[j].id
  }

  lemma RecentGrows(messages: seq<Message>, m: Message)
    ensures (|messages| + 1) % BLOCK == 0 ==> Recent(messages + [m]) == []
    ensures (|messages| + 1) % BLOCK != 0 ==> Recent(messages + [m]) == Recent(messages) + [m]
    ensures forall i :: 0 <= i < |messages| && i / BLOCK == |messages| / BLOCK ==> messages[i] in Recent(messages)
  {
    forall i | 0 <= i < |messages| && i / BLOCK == |messages| / BLOCK
      ensures messages[i] in Recent(messages)
    {
      var start := |messages| - |messages| % BLOCK;
      assert Recent(messages)[i - start] == messages[i];
    }
  }

  lemma IdsOfSnoc(messages: seq<Message>, m: Message)
    ensures Ids(messages + [m]) == Ids(messages) + {m.id}
  {
    forall id | id in Ids(messages) + {m.id} ensures id in Ids(messages + [m]) {
      if id == m.id {
        assert m in messages + [m];
      } else {
        var x :| x in messages && x.id == id;
        assert x in messages + [m];
      }
    }
  }

  /** The cache is the set of the hashes of the last n mod 1001 deliveries, all different. */
  ghost predicate Cached(s: Session) {
    && s.seen == Ids(Recent(s.delivered)) && |s.seen| == |s.delivered| % BLOCK
    && RepeatFreeBlocks(s.delivered)
  }

  lemma HandledKeepsCached(s: Session, json: Incoming)
    requires Cached(s)
    ensures Cached(Handled(s, json))
  {
    hide Ids, Recent, RepeatFreeBlocks;
    if json.WellFormed() && json.messageHash.value !in s.seen {
      var m := json.Decoded();
      RecentGrows(s.delivered, m);
      IdsOfSnoc(Recent(s.delivered), m);
      NewIsNotRecent(s.delivered, m);
      NoIds();
    }
  }

  lemma NoIds()
    ensures Ids([]) == {}
  {
  }

  lemma NewIsNotRecent(messages: seq<Message>, m: Message)
    requires RepeatFreeBlocks(messages) && m.id !in Ids(Recent(messages))
    ensures RepeatFreeBlocks(messages + [m])
  {
    hide Recent;
    RecentGrows(messages, m);
  }

  /** With n deliveries since the session began, the cache is exactly the set of the hashes of the
      last n mod 1001, and no hash repeats within a block of 1001. */
  lemma {:induction false} CacheIsRecent(jsons: seq<Incoming>)
    ensures var s := HandledAll(jsons);
            && s.seen == Ids(s.delivered[|s.delivered| - |s.delivered| % 1001..]) && |s.seen| == |s.delivered| % 1001
            && (forall i, j :: 0 <= i < j < |s.delivered| && i / 1001 == j / 1001 ==>
                  s.delivered[i].id != s.delivered[j].id)
            && s.seen == Ids(Recent(s.delivered)) && RepeatFreeBlocks(s.delivered)
  {
    hide Handled;
    if jsons == [] {
      assert Cached(FRESH);
    } else {
      CacheIsRecent(jsons[..|jsons| - 1]);
      HandledKeepsCached(HandledAll(jsons[..|jsons| - 1]), jsons[|jsons| - 1]);
    }
  }

  /** A well-formed event is delivered, then or before. */
  lemma {:induction false} NoHashLost(jsons: seq<Incoming>, i: nat)
    requires i < |jsons| && jsons[i].WellFormed()
    ensures jsons[i].messageHash.value in Ids(HandledAll(jsons).delivered)
  {
    hide Ids;
    var before, last := jsons[..|jsons| - 1], jsons[|jsons| - 1];
    var s := HandledAll(before);
    if last.WellFormed() {
      IdsOfSnoc(s.delivered, last.Decoded());
    }
    if i < |jsons| - 1 {
      NoHashLost(before, i);
    } else {
      CacheIsRecent(before);
      RecentAreDelivered(s.delivered);
    }
  }

  lemma RecentAreDelivered(messages: seq<Message>)
    ensures Ids(Recent(messages)) <= Ids(messages)
  {
    forall id | id in Ids(Recent(messages)) ensures id in Ids(messages) {
      var m :| m in Recent(messages) && m.id == id;
      assert m in messages;
    }
  }

  /** A delivered message holds the hash, the payload and the content topic of the event. */
  predicate Carries(m: Message, json: Incoming) {
    json.messageHash == Some(m.id) && json.payload == Some(m.payload) && json.contentTopic == Some(m.contentTopic)
  }

  /** Every delivery comes from an event of its own, in order of arrival, field by field. */
  lemma {:induction false} DeliveriesCarryEvents(jsons: seq<Incoming>) returns (sources: seq<nat>)
    ensures |sources| == |HandledAll(jsons).delivered|
    ensures forall k, m :: 0 <= k < m < |sources| ==> sources[k] < sources[m]
    ensures forall k :: 0 <= k < |sources| ==>
              sources[k] < |jsons| && Carries(HandledAll(jsons).delivered[k], jsons[sources[k]])
  {
    if jsons == [] {
      sources := [];
    } else {
      var before := jsons[..|jsons| - 1];
      sources := DeliveriesCarryEvents(before);
      if HandledAll(jsons).delivered != HandledAll(before).delivered {
        sources := sources + [|jsons| - 1];
      }
    }
  }

  function Count(messages: seq<Message>, id: string): nat {
    if messages == [] then 0
    else Count(messages[..|messages| - 1], id) + if messages[|messages| - 1].id == id then 1 else 0
  }

  lemma {:induction false} CountByBlocks(messages: seq<Message>, id: string)
    requires RepeatFreeBlocks(messages)
    ensures Count(messages, id) <= |messages| / BLOCK + if id in Ids(Recent(messages)) then 1 else 0
  {
    hide Ids, Recent;
    if messages != [] {
      var before, m := messages[..|messages| - 1], messages[|messages| - 1];
      CountByBlocks(before, id);
      assert before + [m] == messages;
      RecentGrows(before, m);
      IdsOfSnoc(Recent(before), m);
      LastIsNotRecent(before, m);
    }
  }

  lemma LastIsNotRecent(before: seq<Message>, m: Message)
    requires RepeatFreeBlocks(before + [m])
    ensures m.id !in Ids(Recent(before))
  {
    var whole := before + [m];
    forall x | x in Recent(before) ensures x.id != m.id {
      var k :| 0 <= k < |Recent(before)| && Recent(before)[k] == x;
      var i := |before| - |before| % BLOCK + k;
      assert i / BLOCK == |before| / BLOCK && whole[i] == x && whole[|before|] == m;
    }
  }

  lemma Ceiling(n: nat)
    ensures n / BLOCK + (if n % BLOCK == 0 then 0 else 1) == (n + BLOCK - 1) / BLOCK
  {
  }

  /** Among n deliveries a hash appears at most ceil(n / 1001) times. */
  lemma {:induction false} DeliveredSeldom(jsons: seq<Incoming>, id: string)
    ensures var n := |HandledAll(jsons).delivered|;
            Count(HandledAll(jsons).delivered, id) <= (n + 1000) / 1001
  {
    hide HandledAll, RepeatFreeBlocks, Recent, Count, Ids;
    var s := HandledAll(jsons);
    CacheIsRecent(jsons);
    CountByBlocks(s.delivered, id);
    assert |s.delivered| % BLOCK == 0 ==> s.seen == {};
    Ceiling(|s.delivered|);
  }

  /** A stop starts afresh: what follows it is handled as a session of its own, whose deliveries
      come after those before, so each statement about a session holds between stops. */
  lemma {:induction false} StopStartsAfresh(s: Session, jsons: seq<Incoming>)
    ensures var own := HandledAll(jsons);
            HandledFrom(Stopped(s), jsons) == Session(own.seen, s.delivered + own.delivered)
  {
    if jsons != [] {
      StopStartsAfresh(s, jsons[..|jsons| - 1]);
    }
  }

  // ----- Against deduplication without a bound -----

  function Hashes(jsons: seq<Incoming>): set<string> {
    set json | json in jsons && json.WellFormed() :: json.messageHash.value
  }

  /** The first message of every hash, in order of arrival. */
  function FirstOfEach(jsons: seq<Incoming>): seq<Message> {
    if jsons == [] then []
    else
      var before, last := jsons[..|jsons| - 1], jsons[|jsons| - 1];
      FirstOfEach(before)
      + if last.WellFormed() && last.messageHash.value !in Hashes(before) then [last.Decoded()] else []
  }

  lemma HashesOfSnoc(jsons: seq<Incoming>, last: Incoming)
    ensures Hashes(jsons + [last]) == Hashes(jsons) + if last.WellFormed() then {last.messageHash.value} else {}
  {
    forall h | h in Hashes(jsons + [last])
      ensures h in Hashes(jsons) || (last.WellFormed() && h == last.messageHash.value)
    {
      var j :| j in jsons + [last] && j.WellFormed() && j.messageHash.value == h;
      assert j in jsons || j == last;
    }
    forall h | h in Hashes(jsons) ensures h in Hashes(jsons + [last]) {
      var j :| j in jsons && j.WellFormed() && j.messageHash.value == h;
      assert j in jsons + [last];
    }
    assert last in jsons + [last];
  }

  lemma SmallerSet(a: set<string>, b: set<string>)
    requires a <= b
    ensures |a| <= |b|
  {
    if a != {} {
      var x :| x in a;
      SmallerSet(a - {x}, b - {x});
    }
  }

  /** A session with at most 1000 different hashes delivers the first message of each, as a cache
      without a bound would. */
  lemma {:induction false} FewHashesAreExact(jsons: seq<Incoming>)
    requires |Hashes(jsons)| <= 1000
    ensures HandledAll(jsons) == Session(Hashes(jsons), FirstOfEach(jsons))
  {
    hide Hashes;
    if jsons == [] {
      NoHashes();
    } else {
      var before, last := jsons[..|jsons| - 1], jsons[|jsons| - 1];
      assert before + [last] == jsons;
      HashesOfSnoc(before, last);
      SmallerSet(Hashes(before), Hashes(jsons));
      FewHashesAreExact(before);
    }
  }

  lemma NoHashes()
    ensures Hashes([]) == {}
  {
  }

  /** Exactly when the next event is delivered: its hash is not among those of the last
      n mod 1001 deliveries, whatever was delivered before them. */
  lemma {:induction false} DeliveredIffNotRecent(jsons: seq<Incoming>, next: Incoming)
    requires next.WellFormed()
    ensures var delivered := HandledAll(jsons).delivered;
            HandledAll(jsons + [next]).delivered ==
            if next.messageHash.value in Ids(Recent(delivered)) then delivered else delivered + [next.Decoded()]
  {
    hide Ids, Recent;
    CacheIsRecent(jsons);
    assert (jsons + [next])[..|jsons|] == jsons;
  }

  /** So right after 1001 deliveries, and every multiple of it, any well-formed event is delivered,
      seen before or not. */
  lemma {:induction false} ForgetsAfterABlock(jsons: seq<Incoming>, again: Incoming)
    requires again.WellFormed() && |HandledAll(jsons).delivered| % BLOCK == 0
    ensures HandledAll(jsons + [again]).delivered == HandledAll(jsons).delivered + [again.Decoded()]
  {
    DeliveredIffNotRecent(jsons, again);
    NoIds();
  }

  /** An event that repeats a hash finds it among the recent ones of exact deduplication. */
  predicate RepeatsRecent(jsons: seq<Incoming>, i: nat)
    requires i < |jsons|
  {
    var before, json := jsons[..i], jsons[i];
    json.WellFormed() && json.messageHash.value in Hashes(before) ==>
      json.messageHash.value in Ids(Recent(FirstOfEach(before)))
  }

  predicate RepeatsAreRecent(jsons: seq<Incoming>) {
    forall i :: 0 <= i < |jsons| ==> RepeatsRecent(jsons, i)
  }

  lemma RepeatsSnoc(jsons: seq<Incoming>, last: Incoming)
    ensures RepeatsAreRecent(jsons + [last]) <==> RepeatsAreRecent(jsons) && RepeatsRecent(jsons + [last], |jsons|)
  {
    hide Ids, Recent, Hashes, FirstOfEach;
    var whole := jsons + [last];
    assert forall i :: 0 <= i < |jsons| ==> whole[..i] == jsons[..i] && whole[i] == jsons[i];
    assert forall i :: 0 <= i < |jsons| ==> RepeatsRecent(whole, i) == RepeatsRecent(jsons, i);
  }

  lemma {:induction false} SeenAreHashes(jsons: seq<Incoming>)
    ensures HandledAll(jsons).seen <= Hashes(jsons)
  {
    hide Hashes;
    if jsons == [] {
      NoHashes();
    } else {
      var before, last := jsons[..|jsons| - 1], jsons[|jsons| - 1];
      assert before + [last] == jsons;
      HashesOfSnoc(before, last);
      SeenAreHashes(before);
    }
  }

  /** Deduplication is exact iff no event repeats a hash that is no longer recent; otherwise it
      delivers more. */
  lemma {:induction false} ExactIffRepeatsRecent(jsons: seq<Incoming>)
    ensures HandledAll(jsons).delivered == FirstOfEach(jsons) <==> RepeatsAreRecent(jsons)
    ensures HandledAll(jsons).delivered == FirstOfEach(jsons) || |HandledAll(jsons).delivered| > |FirstOfEach(jsons)|
  {
    hide Hashes, Ids, Recent, RepeatsAreRecent;
    if jsons == [] {
      NothingRepeats(jsons);
    } else {
      var before, last := jsons[..|jsons| - 1], jsons[|jsons| - 1];
      assert before + [last] == jsons;
      ExactIffRepeatsRecent(before);
      RepeatsSnoc(before, last);
      CacheIsRecent(before);
      SeenAreHashes(before);
    }
  }

  lemma NothingRepeats(jsons: seq<Incoming>)
    requires jsons == []
    ensures RepeatsAreRecent(jsons)
  {
  }

  // ----- A session that is not exact -----

  /** The event of a message whose hash is n letters long. */
  function Numbered(n: nat): Incoming {
    Incoming(Some(seq(n, _ => 'h')), Some("payload"), Some("topic"))
  }

  function Distinct(n: nat): seq<Incoming> {
    if n == 0 then [] else Distinct(n - 1) + [Numbered(n)]
  }

  lemma {:induction false} DistinctHashes(n: nat)
    ensures |Distinct(n)| == |FirstOfEach(Distinct(n))| == n && RepeatsAreRecent(Distinct(n))
    ensures forall h :: h in Hashes(Distinct(n)) ==> 0 < |h| <= n
    ensures n > 0 ==> Numbered(1).messageHash.value in Hashes(Distinct(n))
  {
    hide Ids, Recent, Hashes, RepeatsAreRecent;
    if n == 0 {
      NothingRepeats([]);
      NoHashes();
    } else {
      var before, last := Distinct(n - 1), Numbered(n);
      DistinctHashes(n - 1);
      assert (before + [last])[..n - 1] == before;
      HashesOfSnoc(before, last);
      RepeatsSnoc(before, last);
    }
  }

  /** 1001 different messages and then the first again: it is delivered again, and by the exact
      condition above this is no exact deduplication. */
  lemma {:induction false} ForgottenSession()
    ensures var jsons := Distinct(BLOCK) + [Numbered(1)];
            && |HandledAll(jsons).delivered| == BLOCK + 1 && |FirstOfEach(jsons)| == BLOCK
            && HandledAll(jsons).delivered[BLOCK].id == Numbered(1).messageHash.value
            && !RepeatsAreRecent(jsons)
  {
    hide HandledAll, FirstOfEach, Hashes, RepeatsAreRecent, Distinct;
    var before, again := Distinct(BLOCK), Numbered(1);
    DistinctHashes(BLOCK);
    ExactIffRepeatsRecent(before);
    ForgetsAfterABlock(before, again);
    KnownIsNotFirst(before, again);
    ExactIffRepeatsRecent(before + [again]);
  }

  lemma KnownIsNotFirst(jsons: seq<Incoming>, again: Incoming)
    requires again.WellFormed() && again.messageHash.value in Hashes(jsons)
    ensures FirstOfEach(jsons + [again]) == FirstOfEach(jsons)
  {
    assert (jsons + [again])[..|jsons|] == jsons;
  }

  // ----- The UI list -----

  function Listed(list: seq<Message>, m: Message): seq<Message> {
    var longer := [m] + list;
    if |longer| > MAX_LISTED then longer[..|longer| - 1] else longer
  }

  function ListedFrom(list: seq<Message>, messages: seq<Message>): seq<Message> {
    if messages == [] then list
    else Listed(ListedFrom(list, messages[..|messages| - 1]), messages[|messages| - 1])
  }

  /** The list of a session that starts with an empty one. */
  function ListedAll(messages: seq<Message>): seq<Message> {
    ListedFrom([], messages)
  }

  class MessageList {
    var receivedMessages: seq<Message>

    constructor ()
      ensures receivedMessages == []
    {
      receivedMessages := [];
    }

    method Receive(message: Message)
      modifies this
      ensures receivedMessages == Listed(old(receivedMessages), message)
    {
      receivedMessages := [message] + receivedMessages;
      if |receivedMessages| > MAX_LISTED {
        receivedMessages := receivedMessages[..|receivedMessages| - 1];
      }
    }

    /** The message task: the stream's messages, one by one. */
    method ConsumeMessages(stream: seq<Message>)
      modifies this
      ensures receivedMessages == ListedFrom(old(receivedMessages), stream)
    {
      for i := 0 to |stream|
        invariant receivedMessages == ListedFrom(old(receivedMessages), stream[..i])
      {
        Receive(stream[i]);
        assert stream[..i + 1][..i] == stream[..i];
      }
      assert stream[..|stream|] == stream;
    }
  }

  /** The list is the new messages, newest first, and then what it held, cut to a hundred. */
  lemma {:induction false} NewestFirst(list: seq<Message>, messages: seq<Message>)
    requires |list| <= MAX_LISTED
    ensures var n, after := |messages|, ListedFrom(list, messages);
            && |after| == (if n + |list| < 100 then n + |list| else 100)
            && forall i :: 0 <= i < |after| ==> after[i] == if i < n then messages[n - 1 - i] else list[i - n]
  {
    if messages != [] {
      NewestFirst(list, messages[..|messages| - 1]);
    }
  }

  /** And so the list shows: entry i is the event that the delivery i places from the end came from. */
  lemma {:induction false} ListCarriesEvents(jsons: seq<Incoming>) returns (sources: seq<nat>)
    ensures var list := ListedAll(HandledAll(jsons).delivered);
            && |sources| == |list|
            && (forall i :: 0 <= i < |list| ==> sources[i] < |jsons| && Carries(list[i], jsons[sources[i]]))
    ensures forall i, k :: 0 <= i < k < |sources| ==> sources[i] > sources[k]
  {
    hide HandledAll, ListedFrom, Carries;
    var messages := HandledAll(jsons).delivered;
    var from := DeliveriesCarryEvents(jsons);
    NewestFirst([], messages);
    sources := seq(|ListedAll(messages)|, i requires 0 <= i < |ListedAll(messages)| => from[|messages| - 1 - i]);
  }

  /** Over deduplication and the list together, from an empty list and without a stop: newest
      first, and no id three times. */
  lemma {:induction false} ListShowsAnIdTwiceAtMost(jsons: seq<Incoming>, i: nat, j: nat, k: nat)
    requires var list := ListedAll(HandledAll(jsons).delivered); i < j < k < |list| && list[i].id == list[j].id
    ensures var list := ListedAll(HandledAll(jsons).delivered); list[k].id != list[j].id
  {
    hide HandledAll, ListedFrom, Ids, Recent;
    var messages := HandledAll(jsons).delivered;
    CacheIsRecent(jsons);
    NewestFirst([], messages);
    var x, y, z := |messages| - 1 - i, |messages| - 1 - j, |messages| - 1 - k;
    NearbyBlocks(z, y, x);
  }

  /** Of three indices within a hundred, two are in one block. */
  lemma NearbyBlocks(z: nat, y: nat, x: nat)
    requires z < y < x < z + MAX_LISTED
    ensures x / BLOCK == y / BLOCK || y / BLOCK == z / BLOCK
  {
  }
}
