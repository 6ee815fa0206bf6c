/** The Sonda monitor: the counters and gauges it keeps for store nodes, and a node's health. */
module Sonda {
  import opened Options

  // ----- What the requests return -----

  /** An entry of a store response; `NoBody` when its message field is missing or empty. */
  datatype Entry = NoBody | Body(timestamp: Option<int>)

  /** The store's own answer; an absent message list is an empty one. */
  datatype Answer = Answer(statusCode: Option<int>, statusDesc: string, messages: seq<Entry>)

  /** A store query over HTTP: it raises, or returns a status and a body; `answer` is None when the
      body is not JSON. */
  datatype Response = Raised(text: string) | Http(status: int, content: string, answer: Option<Answer>)

  /** The labels under which a failed query is counted. */
  datatype QueryError =
    | RequestError(text: string)
    | HttpError(status: int, content: string)
    | JsonError
    | StoreError(statusCode: Option<int>, statusDesc: string)

  /** What publishing the round's message returns. */
  datatype Publication = PublishRaised | PublishStatus(status: int)

  /** One turn of the main loop: the timestamp, the publication, and a response for each store node. */
  datatype Round = Round(timestamp: int, publication: Publication, responses: seq<Response>) {
    predicate Published() {
      publication == PublishStatus(200)
    }
  }

  datatype Outcome = Found | Missing | Failed(error: QueryError)

  /** What a query amounts to: found when every status is 200 and some returned message carries the
      timestamp. */
  function Classify(r: Response, timestamp: int): Outcome {
    match r
    case Raised(text) => Failed(RequestError(text))
    case Http(status, content, answer) =>
      if status != 200 then Failed(HttpError(status, content))
      else
        match answer
        case None => Failed(JsonError)
        case Some(a) =>
          if a.statusCode != Some(200) then Failed(StoreError(a.statusCode, a.statusDesc))
          else if Body(Some(timestamp)) in a.messages then Found
          else Missing
  }

  /** The node answered with the round's message: HTTP status 200, store status 200 and an entry with
      the timestamp. */
  predicate Answered(r: Response, timestamp: int) {
    && r.Http? && r.status == 200 && r.answer.Some? && r.answer.value.statusCode == Some(200)
    && exists k :: 0 <= k < |r.answer.value.messages| && r.answer.value.messages[k] == Body(Some(timestamp))
  }

  /** Found, failed and missing as the responses themselves say it. */
  lemma ClassifyMeaning(r: Response, timestamp: int)
    ensures Classify(r, timestamp).Found? <==> Answered(r, timestamp)
    ensures Classify(r, timestamp).Failed? <==>
            r.Raised? || r.status != 200 || r.answer.None? || r.answer.value.statusCode != Some(200)
    ensures r.Raised? ==> Classify(r, timestamp) == Failed(RequestError(r.text))
    ensures r.Http? && r.status != 200 ==> Classify(r, timestamp) == Failed(HttpError(r.status, r.content))
    ensures r.Http? && r.status == 200 && r.answer.None? ==> Classify(r, timestamp) == Failed(JsonError)
  {
    if Answered(r, timestamp) {
      var k :| 0 <= k < |r.answer.value.messages| && r.answer.value.messages[k] == Body(Some(timestamp));
      assert r.answer.value.messages[k] in r.answer.value.messages;
    }
  }

  /** The order in which a store returns its messages does not matter. */
  lemma ClassifyIgnoresOrder(status: int, content: string, a: Answer, b: Answer, timestamp: int)
    requires a.statusCode == b.statusCode && a.statusDesc == b.statusDesc
    requires multiset(a.messages) == multiset(b.messages)
    ensures Classify(Http(status, content, Some(a)), timestamp) == Classify(Http(status, content, Some(b)), timestamp)
  {
    var sought := Body(Some(timestamp));
    assert sought in a.messages <==> sought in multiset(a.messages);
    assert sought in b.messages <==> sought in multiset(b.messages);
  }

  // ----- The metrics -----

  /** The Prometheus metrics, by node; a label not used yet reads zero. */
  datatype Metrics = Metrics(
    sentMsgs: nat,
    failedMsgs: nat,
    successfulQueries: map<string, nat>,
    emptyResponses: map<string, nat>,
    failedQueries: map<string, multiset<QueryError>>,
    consecutive: map<string, nat>,
    health: map<string, int>)

  const NO_METRICS := Metrics(0, 0, map[], map[], map[], map[], map[])

  function Read(m: map<string, nat>, node: string): nat {
    if node in m then m[node] else 0
  }

  function ReadErrors(m: map<string, multiset<QueryError>>, node: string): multiset<QueryError> {
    if node in m then m[node] else multiset{}
  }

  /** What the metrics say of one node's queries. */
  datatype Tally = Tally(successful: nat, empty: nat, failed: multiset<QueryError>, consecutive: nat)

  function Of(m: Metrics, node: string): Tally {
    Tally(Read(m.successfulQueries, node), Read(m.emptyResponses, node), ReadErrors(m.failedQueries, node),
          Read(m.consecutive, node))
  }

  function Counted(m: Metrics, node: string, outcome: Outcome): Metrics {
    match outcome
    case Found =>
      m.(successfulQueries := m.successfulQueries[node := Read(m.successfulQueries, node) + 1],
         consecutive := m.consecutive[node := Read(m.consecutive, node) + 1])
    case Missing =>
      m.(emptyResponses := m.emptyResponses[node := Read(m.emptyResponses, node) + 1],
         consecutive := m.consecutive[node := 0])
    case Failed(error) =>
      m.(failedQueries := m.failedQueries[node := ReadErrors(m.failedQueries, node) + multiset{error}],
         consecutive := m.consecutive[node := 0])
  }

  datatype Query = Query(node: string, outcome: Outcome)

  function CountedAll(m: Metrics, queries: seq<Query>): Metrics {
    if queries == [] then m
    else
      var q := queries[|queries| - 1];
      Counted(CountedAll(m, queries[..|queries| - 1]), q.node, q.outcome)
  }

  /** The queries of a round, in the order of the node list. */
  function QueriesOf(nodes: seq<string>, round: Round): seq<Query>
    requires |round.responses| == |nodes|
  {
    if round.Published()
    then seq(|nodes|, i requires 0 <= i < |nodes| => Query(nodes[i], Classify(round.responses[i], round.timestamp)))
    else []
  }

  /** The health gauges after the nodes have been gone through. */
  function Rated(m: Metrics, nodes: seq<string>, threshold: int): Metrics {
    if nodes == [] then m
    else
      var before, node := Rated(m, nodes[..|nodes| - 1], threshold), nodes[|nodes| - 1];
      before.(health := before.health[node := if Read(m.consecutive, node) >= threshold then 1 else 0])
  }

  function Noted(m: Metrics, round: Round): Metrics {
    if round.Published() then m.(sentMsgs := m.sentMsgs + 1) else m.(failedMsgs := m.failedMsgs + 1)
  }

  function RoundDone(m: Metrics, nodes: seq<string>, round: Round, threshold: int): Metrics
    requires |round.responses| == |nodes|
  {
    Rated(CountedAll(Noted(m, round), QueriesOf(nodes, round)), nodes, threshold)
  }

  /** Every query of every round gets a response. */
  predicate Complete(nodes: seq<string>, rounds: seq<Round>) {
    forall round :: round in rounds ==> |round.responses| == |nodes|
  }

  function RoundsDone(nodes: seq<string>, rounds: seq<Round>, threshold: int): Metrics
    requires Complete(nodes, rounds)
  {
    if rounds == [] then NO_METRICS
    else RoundDone(RoundsDone(nodes, rounds[..|rounds| - 1], threshold), nodes, rounds[|rounds| - 1], threshold)
  }

  // ----- The monitor -----

  class Monitor {
    var sentMsgs: nat
    var failedMsgs: nat
    var successfulQueries: map<string, nat>
    var emptyResponses: map<string, nat>
    var failedQueries: map<string, multiset<QueryError>>
    var consecutive: map<string, nat>
    var health: map<string, int>

    function State(): Metrics
      reads this
    {
      Metrics(sentMsgs, failedMsgs, successfulQueries, emptyResponses, failedQueries, consecutive, health)
    }

    constructor ()
      ensures State() == NO_METRICS
    {
      sentMsgs, failedMsgs := 0, 0;
      successfulQueries, emptyResponses, failedQueries, consecutive, health := map[], map[], map[], map[], map[];
    }

    method SendSondaMsg(round: Round) returns (sent: bool)
      modifies this
      ensures State() == Noted(old(State()), round)
      ensures sent <==> round.publication == PublishStatus(200)
      ensures sentMsgs == old(sentMsgs) + if sent then 1 else 0
      ensures failedMsgs == old(failedMsgs) + if sent then 0 else 1
    {
      if round.publication.PublishStatus? && round.publication.status == 200 {
        sentMsgs := sentMsgs + 1;
        return true;
      }
      failedMsgs := failedMsgs + 1;
      sent := false;
    }

    method CountFailure(node: string, error: QueryError)
      modifies this
      ensures State() == Counted(old(State()), node, Failed(error))
    {
      failedQueries := failedQueries[node := ReadErrors(failedQueries, node) + multiset{error}];
      consecutive := consecutive[node := 0];
    }

    method CheckStoreResponse(answer: Answer, node: string, timestamp: int) returns (ok: bool)
      modifies this
      ensures var outcome := Classify(Http(200, "", Some(answer)), timestamp);
              State() == Counted(old(State()), node, outcome) && ok == !outcome.Failed?
      ensures ok <==> answer.statusCode == Some(200)
      ensures ok && (exists k :: 0 <= k < |answer.messages| && answer.messages[k] == Body(Some(timestamp))) ==>
                && Read(successfulQueries, node) == old(Read(successfulQueries, node)) + 1
                && Read(consecutive, node) == old(Read(consecutive, node)) + 1
                && emptyResponses == old(emptyResponses) && failedQueries == old(failedQueries)
      ensures ok && (forall k :: 0 <= k < |answer.messages| ==> answer.messages[k] != Body(Some(timestamp))) ==>
                && Read(emptyResponses, node) == old(Read(emptyResponses, node)) + 1 && Read(consecutive, node) == 0
                && successfulQueries == old(successfulQueries) && failedQueries == old(failedQueries)
      ensures !ok ==>
                && ReadErrors(failedQueries, node) ==
                   old(ReadErrors(failedQueries, node)) + multiset{StoreError(answer.statusCode, answer.statusDesc)}
                && Read(consecutive, node) == 0
                && successfulQueries == old(successfulQueries) && emptyResponses == old(emptyResponses)
    {
      ClassifyMeaning(Http(200, "", Some(answer)), timestamp);
      if answer.statusCode != Some(200) {
        CountFailure(node, StoreError(answer.statusCode, answer.statusDesc));
        return false;
      }
      if answer.messages == [] {
        emptyResponses := emptyResponses[node := Read(emptyResponses, node) + 1];
        consecutive := consecutive[node := 0];
        return true;
      }
      for i := 0 to |answer.messages|
        invariant State() == old(State())
        invariant Body(Some(timestamp)) !in answer.messages[..i]
      {
        var message := answer.messages[i];
        if message.NoBody? {
          continue;
        }
        if message.timestamp == Some(timestamp) {
          assert Body(Some(timestamp)) in answer.messages;
          successfulQueries := successfulQueries[node := Read(successfulQueries, node) + 1];
          consecutive := consecutive[node := Read(consecutive, node) + 1];
          return true;
        }
      }
      assert answer.messages[..|answer.messages|] == answer.messages;
      emptyResponses := emptyResponses[node := Read(emptyResponses, node) + 1];
      consecutive := consecutive[node := 0];
      ok := true;
    }

    method SendStoreQuery(response: Response, node: string, timestamp: int) returns (ok: bool)
      modifies this
      ensures var outcome := Classify(response, timestamp);
              State() == Counted(old(State()), node, outcome) && ok == !outcome.Failed?
      ensures ok <==> response.Http? && response.status == 200 && response.answer.Some?
                      && response.answer.value.statusCode == Some(200)
      ensures Read(successfulQueries, node) ==
              old(Read(successfulQueries, node)) + if Answered(response, timestamp) then 1 else 0
      ensures Read(consecutive, node) ==
              if Answered(response, timestamp) then old(Read(consecutive, node)) + 1 else 0
    {
      ClassifyMeaning(response, timestamp);
      if response.Raised? {
        CountFailure(node, RequestError(response.text));
        return false;
      }
      if response.status != 200 {
        CountFailure(node, HttpError(response.status, response.content));
        return false;
      }
      if response.answer.None? {
        CountFailure(node, JsonError);
        return false;
      }
      ok := CheckStoreResponse(response.answer.value, node, timestamp);
    }

    method SendStoreQueries(nodes: seq<string>, round: Round)
      requires |round.responses| == |nodes| && round.Published()
      modifies this
      ensures State() == CountedAll(old(State()), QueriesOf(nodes, round))
    {
      ghost var queries := QueriesOf(nodes, round);
      for i := 0 to |nodes|
        invariant State() == CountedAll(old(State()), queries[..i])
      {
        var ok := SendStoreQuery(round.responses[i], nodes[i], round.timestamp);
        assert queries[..i + 1][..i] == queries[..i];
      }
      assert queries[..|nodes|] == queries;
    }

    /** The last part of a round. */
    method UpdateNodeHealth(nodes: seq<string>, threshold: int)
      modifies this`health
      ensures State() == Rated(old(State()), nodes, threshold)
    {
      for i := 0 to |nodes|
        invariant State() == Rated(old(State()), nodes[..i], threshold)
      {
        var node := nodes[i];
        if Read(consecutive, node) >= threshold {
          health := health[node := 1];
        } else {
          health := health[node := 0];
        }
        assert nodes[..i + 1][..i] == nodes[..i];
      }
      assert nodes[..|nodes|] == nodes;
    }

    /** The main loop, over the rounds that the process lives. */
    method RunRounds(nodes: seq<string>, rounds: seq<Round>, threshold: int)
      requires Complete(nodes, rounds) && State() == NO_METRICS
      modifies this
      ensures State() == RoundsDone(nodes, rounds, threshold)
    {
      for i := 0 to |rounds|
        invariant State() == RoundsDone(nodes, rounds[..i], threshold)
      {
        var round := rounds[i];
        var sent := SendSondaMsg(round);
        if sent {
          SendStoreQueries(nodes, round);
        }
        UpdateNodeHealth(nodes, threshold);
        assert rounds[..i + 1][..i] == rounds[..i];
      }
      assert rounds[..|rounds|] == rounds;
    }
  }

  // ----- The metrics as a function of the history -----

  /** The outcomes of one node's queries, in order. */
  function Outcomes(queries: seq<Query>, node: string): seq<Outcome> {
    if queries == [] then []
    else
      var q := queries[|queries| - 1];
      Outcomes(queries[..|queries| - 1], node) + if q.node == node then [q.outcome] else []
  }

  /** Every query of a run. */
  function AllQueries(nodes: seq<string>, rounds: seq<Round>): seq<Query>
    requires Complete(nodes, rounds)
  {
    if rounds == [] then []
    else AllQueries(nodes, rounds[..|rounds| - 1]) + QueriesOf(nodes, rounds[|rounds| - 1])
  }

  function Errors(history: seq<Outcome>): multiset<QueryError> {
    if history == [] then multiset{}
    else
      Errors(history[..|history| - 1])
      + match history[|history| - 1] case Failed(error) => multiset{error} case _ => multiset{}
  }

  /** The n last outcomes are all found. */
  predicate LastFound(history: seq<Outcome>, n: nat) {
    n <= |history| && forall i :: |history| - n <= i < |history| ==> history[i].Found?
  }

  /** A tally agrees with a history: the counters count it, and the gauge is the length of its
      longest found end. */
  predicate Agrees(t: Tally, history: seq<Outcome>) {
    && t.successful == multiset(history)[Found] && t.empty == multiset(history)[Missing] && t.failed == Errors(history)
    && LastFound(history, t.consecutive)
    && (t.consecutive < |history| ==> !history[|history| - 1 - t.consecutive].Found?)
  }

  lemma CountedOf(m: Metrics, node: string, outcome: Outcome, other: string)
    ensures other != node ==> Of(Counted(m, node, outcome), other) == Of(m, other)
    ensures Of(Counted(m, node, outcome), node) ==
            var t := Of(m, node);
            match outcome
            case Found => t.(successful := t.successful + 1, consecutive := t.consecutive + 1)
            case Missing => t.(empty := t.empty + 1, consecutive := 0)
            case Failed(error) => t.(failed := t.failed + multiset{error}, consecutive := 0)
  {
  }

  lemma AgreesStep(t: Tally, u: Tally, history: seq<Outcome>, outcome: Outcome)
    requires Agrees(t, history)
    requires u == match outcome
                  case Found => t.(successful := t.successful + 1, consecutive := t.consecutive + 1)
                  case Missing => t.(empty := t.empty + 1, consecutive := 0)
                  case Failed(error) => t.(failed := t.failed + multiset{error}, consecutive := 0)
    ensures Agrees(u, history + [outcome])
  {
    var longer := history + [outcome];
    assert longer[..|history|] == history;
    assert multiset(longer) == multiset(history) + multiset{outcome};
  }

  lemma OutcomesSnoc(queries: seq<Query>, q: Query, node: string)
    ensures Outcomes(queries + [q], node) ==
            if q.node == node then Outcomes(queries, node) + [q.outcome] else Outcomes(queries, node)
  {
    assert (queries + [q])[..|queries|] == queries;
    assert Outcomes(queries, node) + [] == Outcomes(queries, node);
  }

  lemma CountedSnoc(m: Metrics, queries: seq<Query>, q: Query)
    ensures CountedAll(m, queries + [q]) == Counted(CountedAll(m, queries), q.node, q.outcome)
  {
    assert (queries + [q])[..|queries|] == queries;
  }

  lemma {:induction false} CountedAgrees(m: Metrics, before: seq<Query>, queries: seq<Query>, node: string)
    requires Agrees(Of(m, node), Outcomes(before, node))
    ensures Agrees(Of(CountedAll(m, queries), node), Outcomes(before + queries, node))
    decreases |queries|
  {
    hide Agrees, Of, Counted, Outcomes;
    if queries == [] {
      assert before + queries == before;
    } else {
      var most, q := queries[..|queries| - 1], queries[|queries| - 1];
      CountedAgrees(m, before, most, node);
      assert most + [q] == queries && (before + most) + [q] == before + queries;
      OutcomesSnoc(before + most, q, node);
      CountedSnoc(m, most, q);
      CountedOf(CountedAll(m, most), q.node, q.outcome, node);
      if q.node == node {
        var was, now := Of(CountedAll(m, most), node), Of(CountedAll(m, queries), node);
        AgreesStep(was, now, Outcomes(before + most, node), q.outcome);
      }
    }
  }

  lemma {:induction false} RatedKeepsCounts(m: Metrics, nodes: seq<string>, threshold: int, node: string)
    ensures Of(Rated(m, nodes, threshold), node) == Of(m, node)
    ensures node in nodes ==>
              node in Rated(m, nodes, threshold).health
              && Rated(m, nodes, threshold).health[node] == if Read(m.consecutive, node) >= threshold then 1 else 0
  {
    if nodes != [] {
      RatedKeepsCounts(m, nodes[..|nodes| - 1], threshold, node);
      assert nodes == nodes[..|nodes| - 1] + [nodes[|nodes| - 1]];
    }
  }

  /** After any run every node's metrics are those of its whole history of queries, however often
      the node is listed and whatever the rounds. */
  lemma {:induction false} MetricsAreTheHistory(nodes: seq<string>, rounds: seq<Round>, threshold: int, node: string)
    requires Complete(nodes, rounds)
    ensures Agrees(Of(RoundsDone(nodes, rounds, threshold), node), Outcomes(AllQueries(nodes, rounds), node))
  {
    hide Agrees, Rated, CountedAll, QueriesOf;
    if rounds == [] {
      NothingCounted(node);
    } else {
      var before, round := rounds[..|rounds| - 1], rounds[|rounds| - 1];
      MetricsAreTheHistory(nodes, before, threshold, node);
      var m := Noted(RoundsDone(nodes, before, threshold), round);
      var queries := QueriesOf(nodes, round);
      CountedAgrees(m, AllQueries(nodes, before), queries, node);
      RatedKeepsCounts(CountedAll(m, queries), nodes, threshold, node);
    }
  }

  lemma NothingCounted(node: string)
    ensures Agrees(Of(NO_METRICS, node), [])
  {
  }

  /** The gauge decides every question about the last n outcomes. */
  lemma ConsecutiveDecides(t: Tally, history: seq<Outcome>, n: nat)
    requires Agrees(t, history)
    ensures LastFound(history, n) <==> t.consecutive >= n
  {
    if t.consecutive < n <= |history| {
      assert !history[|history| - 1 - t.consecutive].Found?;
    }
  }

  /** After every round of any run, a listed node is healthy exactly when it has received at least
      `threshold` store queries and the last `threshold` of them all found the message; a threshold
      of zero or less calls every node healthy. */
  lemma {:induction false} HealthyIffLastFound(nodes: seq<string>, rounds: seq<Round>, threshold: int, node: string)
    requires Complete(nodes, rounds) && rounds != [] && node in nodes
    ensures var m := RoundsDone(nodes, rounds, threshold);
            var history := Outcomes(AllQueries(nodes, rounds), node);
            && node in m.health && m.health[node] in {0, 1}
            && (m.health[node] == 1 <==> threshold <= 0 || LastFound(history, threshold))
  {
    hide Agrees, LastFound, Rated, CountedAll, QueriesOf, AllQueries, Outcomes;
    MetricsAreTheHistory(nodes, rounds, threshold, node);
    var before, round := rounds[..|rounds| - 1], rounds[|rounds| - 1];
    var m := CountedAll(Noted(RoundsDone(nodes, before, threshold), round), QueriesOf(nodes, round));
    RatedKeepsCounts(m, nodes, threshold, node);
    if threshold > 0 {
      ConsecutiveDecides(Of(m, node), Outcomes(AllQueries(nodes, rounds), node), threshold);
    }
  }

  // ----- Health by the responses themselves -----

  /** A response to a store query, with the timestamp it was asked about. */
  datatype Reply = Reply(response: Response, timestamp: int)

  /** The node's responses among the first n of a round. */
  function RepliesIn(nodes: seq<string>, round: Round, node: string, n: nat): seq<Reply>
    requires n <= |nodes| == |round.responses|
  {
    if n == 0 then []
    else
      RepliesIn(nodes, round, node, n - 1)
      + if nodes[n - 1] == node then [Reply(round.responses[n - 1], round.timestamp)] else []
  }

  /** All that a node was sent, round by round; a round that is not published asks nothing. */
  function Replies(nodes: seq<string>, rounds: seq<Round>, node: string): seq<Reply>
    requires Complete(nodes, rounds)
  {
    if rounds == [] then []
    else
      var round := rounds[|rounds| - 1];
      Replies(nodes, rounds[..|rounds| - 1], node)
      + if round.publication == PublishStatus(200) then RepliesIn(nodes, round, node, |nodes|) else []
  }

  function Classified(replies: seq<Reply>): seq<Outcome> {
    seq(|replies|, i requires 0 <= i < |replies| => Classify(replies[i].response, replies[i].timestamp))
  }

  lemma {:induction false} OutcomesAppend(a: seq<Query>, b: seq<Query>, node: string)
    ensures Outcomes(a + b, node) == Outcomes(a, node) + Outcomes(b, node)
    decreases |b|
  {
    hide Outcomes;
    if b == [] {
      assert a + b == a;
      NoOutcomes(node);
      assert Outcomes(a, node) + [] == Outcomes(a, node);
    } else {
      var most, q := b[..|b| - 1], b[|b| - 1];
      OutcomesAppend(a, most, node);
      assert most + [q] == b && (a + most) + [q] == a + b;
      OutcomesSnoc(a + most, q, node);
      OutcomesSnoc(most, q, node);
    }
  }

  lemma NoOutcomes(node: string)
    ensures Outcomes([], node) == []
  {
  }

  lemma {:induction false} RoundOutcomes(nodes: seq<string>, round: Round, node: string, n: nat)
    requires n <= |nodes| == |round.responses| && round.publication == PublishStatus(200)
    ensures Outcomes(QueriesOf(nodes, round)[..n], node) == Classified(RepliesIn(nodes, round, node, n))
  {
    hide Outcomes, Classify;
    var queries := QueriesOf(nodes, round);
    if n == 0 {
      NoOutcomes(node);
    } else {
      RoundOutcomes(nodes, round, node, n - 1);
      assert queries[..n] == queries[..n - 1] + [queries[n - 1]];
      OutcomesSnoc(queries[..n - 1], queries[n - 1], node);
    }
  }

  /** The outcomes of a node are those of the responses it was sent. */
  lemma {:induction false} OutcomesAreReplies(nodes: seq<string>, rounds: seq<Round>, node: string)
    requires Complete(nodes, rounds)
    ensures Outcomes(AllQueries(nodes, rounds), node) == Classified(Replies(nodes, rounds, node))
  {
    hide Outcomes, QueriesOf, RepliesIn, Classify;
    if rounds == [] {
      NoOutcomes(node);
    } else {
      var before, round := rounds[..|rounds| - 1], rounds[|rounds| - 1];
      OutcomesAreReplies(nodes, before, node);
      OutcomesAppend(AllQueries(nodes, before), QueriesOf(nodes, round), node);
      LastRound(nodes, round, node);
    }
  }

  lemma LastRound(nodes: seq<string>, round: Round, node: string)
    requires |nodes| == |round.responses|
    ensures Outcomes(QueriesOf(nodes, round), node) ==
            Classified(if round.publication == PublishStatus(200) then RepliesIn(nodes, round, node, |nodes|) else [])
  {
    hide Classify;
    if round.publication == PublishStatus(200) {
      RoundOutcomes(nodes, round, node, |nodes|);
      assert QueriesOf(nodes, round)[..|nodes|] == QueriesOf(nodes, round);
    }
  }

  /** Health by the responses themselves: with a positive threshold a listed node is healthy after every
      round exactly when it was sent at least `threshold` queries and each of the last `threshold`
      responses had HTTP status 200, store status 200 and an entry with its round's timestamp. */
  lemma {:induction false} HealthyIffAnswered(nodes: seq<string>, rounds: seq<Round>, threshold: nat, node: string)
    requires Complete(nodes, rounds) && rounds != [] && node in nodes && threshold > 0
    ensures var m, replies := RoundsDone(nodes, rounds, threshold), Replies(nodes, rounds, node);
            && node in m.health
            && (m.health[node] == 1 <==>
                threshold <= |replies|
                && forall i :: |replies| - threshold <= i < |replies| ==>
                     Answered(replies[i].response, replies[i].timestamp))
  {
    hide RoundsDone, AllQueries, Outcomes, Replies, Answered, Classify;
    HealthyIffLastFound(nodes, rounds, threshold, node);
    OutcomesAreReplies(nodes, rounds, node);
    var replies := Replies(nodes, rounds, node);
    forall i | 0 <= i < |replies|
      ensures Classified(replies)[i].Found? <==> Answered(replies[i].response, replies[i].timestamp)
    {
      ClassifyMeaning(replies[i].response, replies[i].timestamp);
    }
  }

  /** A round whose publication failed changes no node's counters. */
  lemma FailedPublicationKeepsCounts(m: Metrics, nodes: seq<string>, round: Round, threshold: int, node: string)
    requires |round.responses| == |nodes| && round.publication != PublishStatus(200)
    ensures Of(RoundDone(m, nodes, round, threshold), node) == Of(m, node)
  {
    RatedKeepsCounts(Noted(m, round), nodes, threshold, node);
  }

  lemma {:induction false} OutcomesSplit(history: seq<Outcome>)
    ensures multiset(history)[Found] + multiset(history)[Missing] + |Errors(history)| == |history|
  {
    if history != [] {
      var before, last := history[..|history| - 1], history[|history| - 1];
      OutcomesSplit(before);
      assert history == before + [last];
      assert multiset(history) == multiset(before) + multiset{last};
    }
  }

  /** Every store query of a run is counted once: a node's three counters sum to its queries. */
  lemma {:induction false} CountersSumToQueries(nodes: seq<string>, rounds: seq<Round>, threshold: int, node: string)
    requires Complete(nodes, rounds)
    ensures var t := Of(RoundsDone(nodes, rounds, threshold), node);
            t.successful + t.empty + |t.failed| == |Outcomes(AllQueries(nodes, rounds), node)|
  {
    hide RoundsDone, AllQueries, Outcomes, LastFound;
    MetricsAreTheHistory(nodes, rounds, threshold, node);
    OutcomesSplit(Outcomes(AllQueries(nodes, rounds), node));
  }
}
