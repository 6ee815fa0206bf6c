/** Flattening an event (json_event.nim) and reacting to its printed form (logosdelivery_example.c). */
module DeliveryEvents {
  import opened Options
  import opened JsonTree
  import opened CStrings
  import opened JsonScan
  import opened Braces
  import opened JsonUtils
  import opened JsonExtract

  // ----- json_event.nim -----

  datatype JsonEvent = JsonEvent(eventType: string, payload: Members)

  /** Assignment to a key of an ordered JSON object: replace in place, or append. */
  function Put(members: Members, key: string, value: Json): Members {
    match members
    case NoMembers => Member(key, value, NoMembers)
    case Member(name, v, rest) =>
      if name == key then Member(name, value, rest) else Member(name, v, Put(rest, key, value))
  }

  function PutAll(members: Members, more: Members): Members
    decreases more
  {
    match more
    case NoMembers => members
    case Member(name, value, rest) => PutAll(Put(members, name, value), rest)
  }

  /** The flattened event: its type first, then the payload's members over it. */
  function Flat(event: JsonEvent): Json {
    Object(PutAll(Member("eventType", Text(event.eventType), NoMembers), event.payload))
  }

  method ToFlatJson(event: JsonEvent) returns (j: Json)
    ensures j == Flat(event)
  {
    var obj := Put(NoMembers, "eventType", Text(event.eventType));
    var pairs := event.payload;
    while pairs.Member?
      invariant PutAll(obj, pairs) == Flat(event).members
      decreases pairs
    {
      obj := Put(obj, pairs.name, pairs.value);
      pairs := pairs.rest;
    }
    j := Object(obj);
  }

  predicate HasName(members: Members, key: string) {
    members.Member? && (members.name == key || HasName(members.rest, key))
  }

  predicate DistinctNames(members: Members) {
    members.Member? ==> !HasName(members.rest, members.name) && DistinctNames(members.rest)
  }

  function Append(a: Members, b: Members): Members {
    match a
    case NoMembers => b
    case Member(name, value, rest) => Member(name, value, Append(rest, b))
  }

  predicate Disjoint(a: Members, b: Members) {
    b.Member? ==> !HasName(a, b.name) && Disjoint(a, b.rest)
  }

  lemma {:induction false} PutNew(members: Members, key: string, value: Json)
    requires !HasName(members, key)
    ensures Put(members, key, value) == Append(members, Member(key, value, NoMembers))
  {
    if members.Member? {
      PutNew(members.rest, key, value);
    }
  }

  lemma {:induction false} AppendOne(a: Members, key: string, value: Json, b: Members)
    ensures Append(Append(a, Member(key, value, NoMembers)), b) == Append(a, Member(key, value, b))
  {
    if a.Member? {
      AppendOne(a.rest, key, value, b);
    }
  }

  lemma {:induction false} HasNameAppend(a: Members, b: Members, key: string)
    ensures HasName(Append(a, b), key) <==> HasName(a, key) || HasName(b, key)
  {
    if a.Member? {
      HasNameAppend(a.rest, b, key);
    }
  }

  lemma {:induction false} DisjointAppend(a: Members, key: string, value: Json, b: Members)
    requires Disjoint(a, b) && !HasName(b, key)
    ensures Disjoint(Append(a, Member(key, value, NoMembers)), b)
  {
    if b.Member? {
      HasNameAppend(a, Member(key, value, NoMembers), b.name);
      DisjointAppend(a, key, value, b.rest);
    }
  }

  lemma {:induction false} PutAllAppends(a: Members, b: Members)
    requires Disjoint(a, b) && DistinctNames(b)
    ensures PutAll(a, b) == Append(a, b)
    decreases b
  {
    match b
    case NoMembers => AppendNothing(a);
    case Member(name, value, rest) =>
      PutNew(a, name, value);
      DisjointAppend(a, name, value, rest);
      PutAllAppends(Put(a, name, value), rest);
      AppendOne(a, name, value, rest);
  }

  lemma {:induction false} AppendNothing(a: Members)
    ensures Append(a, NoMembers) == a
  {
    if a.Member? {
      AppendNothing(a.rest);
    }
  }

  lemma {:induction false} DisjointFromType(value: Json, b: Members)
    requires !HasName(b, "eventType")
    ensures Disjoint(Member("eventType", value, NoMembers), b)
  {
    if b.Member? {
      DisjointFromType(value, b.rest);
    }
  }

  /** eventType comes first, and the payload's members follow in their order, when the
      payload's names are distinct and none is eventType. */
  lemma {:induction false} FlatKeepsOrder(event: JsonEvent)
    requires DistinctNames(event.payload) && !HasName(event.payload, "eventType")
    ensures Flat(event) == Object(Member("eventType", Text(event.eventType), event.payload))
  {
    var own := Member("eventType", Text(event.eventType), NoMembers);
    DisjointFromType(Text(event.eventType), event.payload);
    PutAllAppends(own, event.payload);
  }

  /** The value the flattened object holds under eventType: the payload's own, if it has one. */
  function TypeValue(own: Json, payload: Members): Json
    decreases payload
  {
    match payload
    case NoMembers => own
    case Member(name, value, rest) => TypeValue(if name == "eventType" then value else own, rest)
  }

  lemma {:induction false} PutAllHead(members: Members, more: Members)
    requires members.Member? && members.name == "eventType"
    ensures var all := PutAll(members, more);
            all.Member? && all.name == "eventType" && all.value == TypeValue(members.value, more)
    decreases more
  {
    if more.Member? {
      PutAllHead(Put(members, more.name, more.value), more.rest);
    }
  }

  lemma {:induction false} TypeValueKept(own: Json, payload: Members)
    requires !HasName(payload, "eventType")
    ensures TypeValue(own, payload) == own
  {
    if payload.Member? {
      TypeValueKept(own, payload.rest);
    }
  }

  // ----- logosdelivery_example.c -----

  datatype Branch = SentBranch | ErrorBranch | PropagatedBranch | StatusBranch | ReceivedBranch | UnknownBranch

  function BranchOf(eventType: string): Branch {
    if eventType == "message_sent" then SentBranch
    else if eventType == "message_error" then ErrorBranch
    else if eventType == "message_propagated" then PropagatedBranch
    else if eventType == "connection_status_change" then StatusBranch
    else if eventType == "message_received" then ReceivedBranch
    else UnknownBranch
  }

  /** The nested message: its content topic and its decoded payload. */
  datatype Nested = Nested(contentTopic: Option<string>, payload: Option<seq<byte>>)

  /** What the callback prints; a field not found leaves its buffer unset, shown as None. */
  datatype Reaction =
    | Ignored
    | NoEventType
    | Sent(requestId: Option<string>, messageHash: Option<string>)
    | Failed(requestId: Option<string>, messageHash: Option<string>, error: Option<string>)
    | Propagated(requestId: Option<string>, messageHash: Option<string>)
    | StatusChanged(status: Option<string>)
    | Received(messageHash: Option<string>, message: Option<Nested>)
    | Unknown(eventType: string)

  function ReactionBranch(r: Reaction): Option<Branch> {
    match r
    case Sent(_, _) => Some(SentBranch)
    case Failed(_, _, _) => Some(ErrorBranch)
    case Propagated(_, _) => Some(PropagatedBranch)
    case StatusChanged(_) => Some(StatusBranch)
    case Received(_, _) => Some(ReceivedBranch)
    case Unknown(_) => Some(UnknownBranch)
    case _ => None
  }

  /** A field as it lands in a buffer of `size` bytes. */
  function Field(t: string, field: string, size: nat): Option<string>
    requires size >= 1
  {
    match FieldValue(t, field)
    case None => None
    case Some(v) => Some(Cut(v, size - 1))
  }

  ghost function NestedMessage(t: string): Option<Nested> {
    match ObjectSlice(t, "message")
    case None => None
    case Some(m) => Some(Nested(Field(m, "contentTopic", 256), ByteArray(m, "payload", 4095)))
  }

  /** What the callback does with a text. */
  ghost function React(t: string): Reaction {
    match Field(t, "eventType", 64)
    case None => NoEventType
    case Some(eventType) =>
      match BranchOf(eventType)
      case SentBranch => Sent(Field(t, "requestId", 128), Field(t, "messageHash", 128))
      case ErrorBranch =>
        Failed(Field(t, "requestId", 128), Field(t, "messageHash", 128), Field(t, "error", 256))
      case PropagatedBranch => Propagated(Field(t, "requestId", 128), Field(t, "messageHash", 128))
      case StatusBranch => StatusChanged(Field(t, "connectionStatus", 256))
      case ReceivedBranch => Received(Field(t, "messageHash", 128), NestedMessage(t))
      case UnknownBranch => Unknown(eventType)
  }

  // ----- The branch taken -----

  predicate BackslashFree(s: string) {
    forall k :: 0 <= k < |s| ==> s[k] != '\\'
  }

  /** Escaping never makes a text look like a backslash-free text it is not. */
  lemma {:induction false} EscapedIsName(s: string, name: string)
    requires BackslashFree(name)
    ensures UpTo(Escape(s), '"') == name ==> s == name
  {
    var e := Escape(s);
    UpToIs(e, '"');
    if s != "" && UpTo(e, '"') == name {
      assert e[0] == EscapeChar(s[0])[0];
      assert e[0] != '"';
      assert name[0] == e[0];
      assert PlainChar(s[0]);
      UpToTail(s[0], Escape(s[1..]));
      assert e == [s[0]] + Escape(s[1..]);
      EscapedIsName(s[1..], name[1..]);
      assert name == [name[0]] + name[1..];
    }
  }

  lemma UpToTail(c: char, t: string)
    requires c != '"'
    ensures UpTo([c] + t, '"') == [c] + UpTo(t, '"')
  {
    var ct, n := [c] + t, |UpTo(t, '"')|;
    UpToIs(t, '"');
    assert forall k :: 0 < k <= n ==> ct[k] == t[k - 1] == UpTo(t, '"')[k - 1];
    if n < |t| {
      StrChrIs(ct, 0, n + 1, '"');
    }
  }

  /** The 64-byte buffer and the escaping leave the branch as the type names it,
      whatever the type's length or characters. */
  lemma BranchSurvives(eventType: string)
    ensures BranchOf(Cut(UpTo(Escape(eventType), '"'), 63)) == BranchOf(eventType)
  {
    hide *;
    var u := Cut(UpTo(Escape(eventType), '"'), 63);
    SentSurvives(eventType);
    ErrorSurvives(eventType);
    PropagatedSurvives(eventType);
    StatusSurvives(eventType);
    ReceivedSurvives(eventType);
    SameNames(u, eventType);
  }

  lemma SentSurvives(s: string)
    ensures Cut(UpTo(Escape(s), '"'), 63) == "message_sent" <==> s == "message_sent"
  {
    hide BackslashFree;
    assert Plain("message_sent");
    NameSurvives(s, "message_sent");
  }

  lemma ErrorSurvives(s: string)
    ensures Cut(UpTo(Escape(s), '"'), 63) == "message_error" <==> s == "message_error"
  {
    hide BackslashFree;
    assert Plain("message_error");
    NameSurvives(s, "message_error");
  }

  lemma PropagatedSurvives(s: string)
    ensures Cut(UpTo(Escape(s), '"'), 63) == "message_propagated" <==> s == "message_propagated"
  {
    hide BackslashFree;
    assert Plain("message_propagated");
    NameSurvives(s, "message_propagated");
  }

  lemma StatusSurvives(s: string)
    ensures Cut(UpTo(Escape(s), '"'), 63) == "connection_status_change" <==> s == "connection_status_change"
  {
    hide BackslashFree;
    assert Plain("connection_status_change");
    NameSurvives(s, "connection_status_change");
  }

  lemma ReceivedSurvives(s: string)
    ensures Cut(UpTo(Escape(s), '"'), 63) == "message_received" <==> s == "message_received"
  {
    hide BackslashFree;
    assert Plain("message_received");
    NameSurvives(s, "message_received");
  }

  lemma SameNames(a: string, b: string)
    requires a == "message_sent" <==> b == "message_sent"
    requires a == "message_error" <==> b == "message_error"
    requires a == "message_propagated" <==> b == "message_propagated"
    requires a == "connection_status_change" <==> b == "connection_status_change"
    requires a == "message_received" <==> b == "message_received"
    ensures BranchOf(a) == BranchOf(b)
  {
  }

  lemma BranchOfReact(t: string, eventType: string)
    requires Field(t, "eventType", 64) == Some(eventType)
    ensures ReactionBranch(React(t)) == Some(BranchOf(eventType))
  {
  }

  lemma ReceivedReact(t: string)
    requires Field(t, "eventType", 64) == Some("message_received")
    ensures React(t) == Received(Field(t, "messageHash", 128), NestedMessage(t))
  {
  }

  lemma NameSurvives(s: string, name: string)
    requires Plain(name) && |name| < 63
    ensures Cut(UpTo(Escape(s), '"'), 63) == name <==> s == name
  {
    EscapedIsName(s, name);
    ExactIffPlain(name);
  }

  lemma FirstIsHead(j: Json, key: string, x: char)
    requires j.Object? && j.members.Member? && j.members.name == key && Opens(j.members.value, x)
    ensures First(DocumentOrder(j), key, x) == Some(j.members.value)
  {
    assert DocumentOrder(j)[0] == (j.members.name, j.members.value);
  }

  /** The string first stored under the key, as it lands in a buffer of `size` bytes. */
  function TextUnder(j: Json, key: string, size: nat): Option<string>
    requires size >= 1
  {
    match First(DocumentOrder(j), key, '"')
    case None => None
    case Some(value) => Some(Cut(UpTo(Escape(value.s), '"'), size - 1))
  }

  lemma FieldOfPrinted(j: Json, key: string, size: nat)
    requires SearchKey(key) && size >= 1
    ensures Field(Print(j), key, size) == TextUnder(j, key, size)
  {
    hide Print, DocumentOrder, First, Escape, UpTo, FieldValue;
    FieldOfTree(j, key);
  }

  /** The branch taken on any printed tree: the one named by the first string under eventType, and
      none when there is no such string. */
  lemma {:induction false} BranchOfFirst(j: Json)
    ensures ReactionBranch(React(Print(j))) ==
            match First(DocumentOrder(j), "eventType", '"')
            case None => None
            case Some(value) => Some(BranchOf(value.s))
  {
    hide React, Print, DocumentOrder, First, Escape, UpTo, Field, BranchOf, Cut;
    FieldOfPrinted(j, "eventType", 64);
    var first := First(DocumentOrder(j), "eventType", '"');
    if first.Some? {
      BranchSurvives(first.value.s);
      BranchOfReact(Print(j), Cut(UpTo(Escape(first.value.s), '"'), 63));
    } else {
      NoReact(Print(j));
    }
  }

  lemma NoReact(t: string)
    requires Field(t, "eventType", 64) == None
    ensures React(t) == NoEventType
  {
  }

  lemma KindOfBranch(r: Reaction)
    ensures ReactionBranch(r) == None <==> r.Ignored? || r.NoEventType?
    ensures r.Sent? <==> ReactionBranch(r) == Some(SentBranch)
    ensures r.Failed? <==> ReactionBranch(r) == Some(ErrorBranch)
    ensures r.Propagated? <==> ReactionBranch(r) == Some(PropagatedBranch)
    ensures r.StatusChanged? <==> ReactionBranch(r) == Some(StatusBranch)
    ensures r.Received? <==> ReactionBranch(r) == Some(ReceivedBranch)
    ensures r.Unknown? <==> ReactionBranch(r) == Some(UnknownBranch)
  {
  }

  lemma BranchOfNames(s: string)
    ensures BranchOf(s) == SentBranch <==> s == "message_sent"
    ensures BranchOf(s) == ErrorBranch <==> s == "message_error"
    ensures BranchOf(s) == PropagatedBranch <==> s == "message_propagated"
    ensures BranchOf(s) == StatusBranch <==> s == "connection_status_change"
    ensures BranchOf(s) == ReceivedBranch <==> s == "message_received"
  {
    assert "message_sent"[8] == 's' && "message_error"[8] == 'e' && "message_propagated"[8] == 'p';
    assert "connection_status_change"[8] == 'o' && "message_received"[8] == 'r';
  }

  /** What the callback reports of any printed tree, by the five names as they are written: each kind
      of report comes exactly for its own name, and an unknown one for any other string. */
  lemma {:induction false} ReportedByName(j: Json)
    ensures var r, first := React(Print(j)), First(DocumentOrder(j), "eventType", '"');
            && (r.Sent? <==> first.Some? && first.value.s == "message_sent")
            && (r.Failed? <==> first.Some? && first.value.s == "message_error")
            && (r.Propagated? <==> first.Some? && first.value.s == "message_propagated")
            && (r.StatusChanged? <==> first.Some? && first.value.s == "connection_status_change")
            && (r.Received? <==> first.Some? && first.value.s == "message_received")
            && (r.Unknown? <==>
                first.Some? && first.value.s !in {"message_sent", "message_error", "message_propagated",
                                                  "connection_status_change", "message_received"})
  {
    hide React, Print, DocumentOrder, First, BranchOf;
    BranchOfFirst(j);
    KindOfBranch(React(Print(j)));
    var first := First(DocumentOrder(j), "eventType", '"');
    if first.Some? {
      BranchOfNames(first.value.s);
      SomeBranch(BranchOf(first.value.s));
    }
  }

  lemma SomeBranch(b: Branch)
    ensures b in {SentBranch, ErrorBranch, PropagatedBranch, StatusBranch, ReceivedBranch, UnknownBranch}
  {
  }

  /** Every event takes the branch its own type names iff the first string under eventType names
      that branch, whatever the payload holds under eventType and of whatever kind. */
  lemma {:induction false} OwnBranchIff(event: JsonEvent)
    ensures var first := First(DocumentOrder(Flat(event)), "eventType", '"');
            ReactionBranch(React(Print(Flat(event)))) == Some(BranchOf(event.eventType)) <==>
            first.Some? && BranchOf(first.value.s) == BranchOf(event.eventType)
  {
    hide React, Print, DocumentOrder, First, BranchOf;
    BranchOfFirst(Flat(event));
  }

  /** The branch is the one named by the string the flattened object holds under eventType. */
  lemma {:induction false} BranchOfTypeValue(event: JsonEvent, s: string)
    requires TypeValue(Text(event.eventType), event.payload) == Text(s)
    ensures ReactionBranch(React(Print(Flat(event)))) == Some(BranchOf(s))
    ensures Field(Print(Flat(event)), "eventType", 64) == Some(Cut(UpTo(Escape(s), '"'), 63))
  {
    hide React, Print, DocumentOrder, First, Escape, UpTo, Field, BranchOf;
    var own := Member("eventType", Text(event.eventType), NoMembers);
    PutAllHead(own, event.payload);
    FirstIsHead(Flat(event), "eventType", '"');
    BranchOfFirst(Flat(event));
    FieldOfPrinted(Flat(event), "eventType", 64);
  }

  /** End to end: for every event whose payload has no member named eventType, flattening,
      printing and the callback take exactly the branch named by the event's type. */
  lemma {:induction false} EventTakesItsBranch(event: JsonEvent)
    requires !HasName(event.payload, "eventType")
    ensures ReactionBranch(React(Print(Flat(event)))) == Some(BranchOf(event.eventType))
  {
    TypeValueKept(Text(event.eventType), event.payload);
    BranchOfTypeValue(event, event.eventType);
  }

  /** A payload member named eventType overrides the event's type: then the event's own
      branch is taken iff the overriding string names it too. */
  lemma {:induction false} OverriddenType(event: JsonEvent, s: string)
    requires TypeValue(Text(event.eventType), event.payload) == Text(s)
    ensures ReactionBranch(React(Print(Flat(event)))) == Some(BranchOf(event.eventType)) <==>
            BranchOf(s) == BranchOf(event.eventType)
  {
    BranchOfTypeValue(event, s);
  }

  /** A concrete event that takes another branch than its type names. */
  lemma OverrideExample()
    ensures var event := JsonEvent("message_sent", Member("eventType", Text("message_error"), NoMembers));
            ReactionBranch(React(Print(Flat(event)))) == Some(ErrorBranch)
  {
    var event := JsonEvent("message_sent", Member("eventType", Text("message_error"), NoMembers));
    BranchOfTypeValue(event, "message_error");
    assert BranchOf("message_error") == ErrorBranch;
  }

  /** A null under eventType hides the event's own type, and the search goes on to a member deeper
      in the payload. */
  lemma NullOverrideExample()
    ensures var inner := Object(Member("eventType", Text("message_error"), NoMembers));
            var event := JsonEvent("message_sent", Member("eventType", Null, Member("x", inner, NoMembers)));
            ReactionBranch(React(Print(Flat(event)))) == Some(ErrorBranch)
  {
    hide React, Print;
    var inner := Object(Member("eventType", Text("message_error"), NoMembers));
    var event := JsonEvent("message_sent", Member("eventType", Null, Member("x", inner, NoMembers)));
    BranchOfFirst(Flat(event));
    var rest := Member("x", inner, NoMembers);
    assert Flat(event) == Object(Member("eventType", Null, rest));
    FirstSkipsHead(Null, rest);
    FirstIsHead(inner, "eventType", '"');
    FirstInside(inner);
    assert BranchOf("message_error") == ErrorBranch;
  }

  lemma FirstSkipsHead(value: Json, rest: Members)
    requires !value.Text? && DocumentOrder(value) == []
    ensures First(DocumentOrder(Object(Member("eventType", value, rest))), "eventType", '"') ==
            First(DocumentOrder(Object(rest)), "eventType", '"')
  {
    assert DocumentOrder(Object(Member("eventType", value, rest))) == [("eventType", value)] + MembersOrder(rest);
    FirstAppend([("eventType", value)], MembersOrder(rest), "eventType", '"');
    FirstOfOne("eventType", value, "eventType");
  }

  lemma FirstInside(inner: Json)
    requires inner.Object?
    ensures First(DocumentOrder(Object(Member("x", inner, NoMembers))), "eventType", '"') ==
            First(DocumentOrder(inner), "eventType", '"')
  {
    assert MembersOrder(Member("x", inner, NoMembers)) == [("x", inner)] + DocumentOrder(inner) + [];
    assert [("x", inner)] + DocumentOrder(inner) + [] == [("x", inner)] + DocumentOrder(inner);
    FirstAppend([("x", inner)], DocumentOrder(inner), "eventType", '"');
    FirstOfOne("x", inner, "eventType");
  }

  lemma FirstOfOne(name: string, value: Json, key: string)
    requires !value.Text?
    ensures First([(name, value)], key, '"') == None
  {
  }

  function HashOf(j: Json): Option<string> {
    TextUnder(j, "messageHash", 128)
  }

  function TopicOf(message: Json): Option<string> {
    TextUnder(message, "contentTopic", 256)
  }

  /** What the callback does with any printed tree, field by field, as lookups in the tree. */
  lemma {:induction false} ReactionOfTree(j: Json)
    ensures React(Print(j)) ==
            match First(DocumentOrder(j), "eventType", '"')
            case None => NoEventType
            case Some(value) =>
              match BranchOf(value.s)
              case SentBranch => Sent(TextUnder(j, "requestId", 128), HashOf(j))
              case ErrorBranch => Failed(TextUnder(j, "requestId", 128), HashOf(j), TextUnder(j, "error", 256))
              case PropagatedBranch => Propagated(TextUnder(j, "requestId", 128), HashOf(j))
              case StatusBranch => StatusChanged(TextUnder(j, "connectionStatus", 256))
              case ReceivedBranch => Received(HashOf(j), NestedMessage(Print(j)))
              case UnknownBranch => Unknown(Cut(UpTo(Escape(value.s), '"'), 63))
  {
    hide Print, DocumentOrder, First, Escape, UpTo, Field, BranchOf, Cut, NestedMessage;
    FieldOfPrinted(j, "eventType", 64);
    FieldOfPrinted(j, "requestId", 128);
    FieldOfPrinted(j, "messageHash", 128);
    FieldOfPrinted(j, "error", 256);
    FieldOfPrinted(j, "connectionStatus", 256);
    var first := First(DocumentOrder(j), "eventType", '"');
    if first.Some? {
      BranchSurvives(first.value.s);
    }
  }

  /** The payload of a message object: the bytes of its first array so named, cut to the buffer. */
  function PayloadOf(message: Json): Option<seq<byte>> {
    match First(DocumentOrder(message), "payload", '[')
    case None => None
    case Some(v) => Some(ArrayBytes(v, 4095))
  }

  /** The nested message of an event: the first object so named, with its topic and payload. */
  function MessageOf(j: Json): Option<Nested> {
    match First(DocumentOrder(j), "message", '{')
    case None => None
    case Some(m) => Some(Nested(TopicOf(m), PayloadOf(m)))
  }

  /** On a printed tree without braces in its strings the nested extraction is lookup inside the
      nested object. */
  lemma {:induction false} NestedOfPrinted(j: Json)
    requires BraceFree(j)
    ensures NestedMessage(Print(j)) == MessageOf(j)
  {
    hide Print, DocumentOrder, First, BraceFree, TextUnder, Field, ObjectSlice, ByteArray, ArrayBytes;
    ObjectOfTree(j, "message");
    var first := First(DocumentOrder(j), "message", '{');
    if first.Some? {
      FieldOfPrinted(first.value, "contentTopic", 256);
      DecodeOfTree(first.value, "payload", 4095);
    }
  }

  /** A received message on any such tree, every field a lookup: the hash in the event, the topic and
      the payload inside its first message object. */
  lemma {:induction false} ReceivedOfTree(j: Json, eventType: string)
    requires BraceFree(j) && First(DocumentOrder(j), "eventType", '"') == Some(Text(eventType))
    requires BranchOf(eventType) == ReceivedBranch
    ensures React(Print(j)) == Received(HashOf(j), MessageOf(j))
  {
    hide React, Print, DocumentOrder, First, BraceFree, BranchOf, NestedMessage, MessageOf, HashOf;
    ReactionOfTree(j);
    NestedOfPrinted(j);
  }

  lemma {:induction false} NestedOfTree(j: Json, message: Json, bs: seq<byte>)
    requires BraceFree(j) && First(DocumentOrder(j), "message", '{') == Some(message)
    requires First(DocumentOrder(message), "payload", '[') == Some(Array(ByteItems(bs)))
    ensures NestedMessage(Print(j)) == Some(Nested(TopicOf(message), Some(Cut(bs, 4095))))
    ensures PayloadFits(Print(j))
  {
    hide Print, DocumentOrder, First, BraceFree, TextUnder, ByteItems, Field, ObjectSlice, ByteArray, Fits, ArrayBytes;
    NestedOfPrinted(j);
    ArrayBytesOfBytes(bs, 4095);
    ObjectOfTree(j, "message");
    BytesOfTree(message, "payload", bs, 4095);
  }

  /** A received message, end to end: hash, content topic and payload bytes of the first object
      stored under "message" come back, cut to the callback's buffers. */
  lemma {:induction false} ReceivedMessage(event: JsonEvent, message: Json, bs: seq<byte>)
    requires event.eventType == "message_received" && !HasName(event.payload, "eventType")
    requires BraceFree(Flat(event))
    requires First(DocumentOrder(Flat(event)), "message", '{') == Some(message)
    requires First(DocumentOrder(message), "payload", '[') == Some(Array(ByteItems(bs)))
    ensures React(Print(Flat(event))) ==
            Received(HashOf(Flat(event)), Some(Nested(TopicOf(message), Some(Cut(bs, 4095)))))
    ensures PayloadFits(Print(Flat(event)))
  {
    hide React, Print, Flat, DocumentOrder, First, BraceFree, Escape, UpTo, ByteItems, NestedMessage, Field, TextUnder;
    TypeValueKept(Text(event.eventType), event.payload);
    BranchOfTypeValue(event, event.eventType);
    ReceivedSurvives(event.eventType);
    ReceivedReact(Print(Flat(event)));
    FieldOfPrinted(Flat(event), "messageHash", 128);
    NestedOfTree(Flat(event), message, bs);
  }

  // ----- The callback -----

  const RET_OK := 0

  lemma StoredText(memory: seq<char>, v: string, size: nat)
    requires size >= 1 && NoNul(v) && |Stored(v, size)| <= |memory|
    requires memory[..|Stored(v, size)|] == Stored(v, size)
    ensures Terminated(memory) && CText(memory) == Cut(v, size - 1)
  {
    var s := Stored(v, size);
    var n := |s| - 1;
    assert forall k :: 0 <= k <= n ==> memory[k] == memory[..|s|][k] == s[k];
    assert s[n] == NUL && memory[n] == NUL;
    assert forall k :: 0 <= k < n ==> s[k] == v[k] && v[k] != NUL;
    assert StrLen(memory) == n;
    assert memory[..n] == memory[..|s|][..n];
  }

  lemma CTextNoNul(memory: seq<char>)
    requires Terminated(memory)
    ensures NoNul(CText(memory))
  {
  }

  lemma FieldValueNoNul(t: string, field: string)
    requires NoNul(t) && FieldValue(t, field).Some?
    ensures NoNul(FieldValue(t, field).value)
  {
    hide StrStr, StrChr, SearchString, At;
    FieldValueIs(t, field);
  }

  /** A local buffer of `size` bytes filled by extract_json_field, read back as a string. */
  method ExtractInto(json: array<char>, field: string, size: nat) returns (r: Option<string>)
    requires Terminated(json[..]) && size >= 1
    ensures r == Field(CText(json[..]), field, size)
  {
    hide FieldValue, Stored, Cut, CText;
    ghost var t := CText(json[..]);
    var buffer := new char[size];
    var found := ExtractJsonField(json, field, buffer, size);
    assert CText(json[..]) == t;
    if !found {
      return None;
    }
    CTextNoNul(json[..]);
    FieldValueNoNul(t, field);
    StoredText(buffer[..], FieldValue(t, field).value, size);
    return Some(CText(buffer[..]));
  }

  /** A NUL-terminated copy of the first `len` characters from `start`. */
  method CopyText(msg: array<char>, start: nat, len: nat) returns (copy: array<char>)
    requires start + len <= msg.Length
    ensures fresh(copy) && copy[..] == msg[start..start + len] + [NUL] && Terminated(copy[..])
  {
    copy := new char[len + 1];
    MemCpy(copy, msg, start, len);
    copy[len] := NUL;
    assert copy[..] == copy[..len] + [NUL];
    assert copy[..][len] == NUL;
  }

  /** The text is a received message only if the numbers of its nested payload array fit in an int. */
  ghost predicate NumbersFit(t: string) {
    Field(t, "eventType", 64) == Some("message_received") ==> PayloadFits(t)
  }

  /** The numbers of the nested payload array fit in an int. */
  ghost predicate PayloadFits(t: string) {
    ObjectSlice(t, "message").Some? ==> Fits(ObjectSlice(t, "message").value, "payload", 4095)
  }

  lemma TextOfCopy(memory: seq<char>, s: string)
    requires memory == s + [NUL] && NoNul(s)
    ensures Terminated(memory) && CText(memory) == s
  {
    assert memory[|s|] == NUL;
  }

  lemma SliceNoNul(memory: array<char>, a: nat, b: nat)
    requires Terminated(memory[..]) && a <= b < memory.Length
    requires ObjectSlice(CText(memory[..]), "message") == Some(memory[a..b])
    ensures NoNul(memory[a..b])
  {
    hide ShortestBalanced, BraceStart;
    var t := CText(memory[..]);
    var i := BraceStart(t, "message").value;
    var k: nat :| k <= |t[i..]| && memory[a..b] == t[i..][..k] by { ShortestFits(t[i..]); }
    assert forall m :: 0 <= m < k ==> memory[a..b][m] == t[i + m];
  }

  lemma ShortestFits(s: string)
    ensures forall k: nat :: ShortestBalanced(s, k) ==> k <= |s|
  {
  }

  /** The nested part of a message_received event. */
  method ExtractMessage(json: array<char>) returns (r: Option<Nested>)
    requires Terminated(json[..]) && PayloadFits(CText(json[..]))
    ensures r == NestedMessage(CText(json[..]))
  {
    hide ObjectSlice, Field, ByteArray, Fits, BraceStart, CText;
    ghost var t := CText(json[..]);
    var start, len, found := ExtractJsonObject(json, "message");
    if !found {
      return None;
    }
    ghost var m := json[start..start + len];
    SliceNoNul(json, start, start + len);
    var msgJson := CopyText(json, start, len);
    TextOfCopy(msgJson[..], m);
    var contentTopic := ExtractInto(msgJson, "contentTopic", 256);
    var payload := new byte[4096];
    assert CText(msgJson[..]) == m;
    var n := DecodeJsonByteArray(msgJson, "payload", payload, 4096);
    return Some(Nested(contentTopic, if n == -1 then None else Some(payload[..n])));
  }

  /** The callback was handed a message whose eventType field reads as the name. */
  ghost predicate Typed(ret: int, msg: array?<char>, len: nat, name: string)
    requires msg != null ==> len <= msg.Length
    reads msg
  {
    ret == RET_OK && msg != null && len > 0 && Field(CText(Copied(msg[..len])), "eventType", 64) == Some(name)
  }

  /** The flags the main thread polls. */
  class EventFlags {
    var gotMessageSent: bool
    var gotMessageError: bool
    var gotMessageReceived: bool

    constructor ()
      ensures !gotMessageSent && !gotMessageError && !gotMessageReceived
    {
      gotMessageSent, gotMessageError, gotMessageReceived := false, false, false;
    }

    method EventCallback(ret: int, msg: array?<char>, len: nat) returns (r: Reaction)
      requires msg != null ==> len <= msg.Length
      requires ret == RET_OK && msg != null && len > 0 ==> NumbersFit(CText(Copied(msg[..len])))
      modifies this
      ensures r == if ret != RET_OK || msg == null || len == 0 then Ignored else React(CText(Copied(msg[..len])))
      ensures gotMessageSent == (old(gotMessageSent) || Typed(ret, msg, len, "message_sent"))
      ensures gotMessageError == (old(gotMessageError) || Typed(ret, msg, len, "message_error"))
      ensures gotMessageReceived == (old(gotMessageReceived) || Typed(ret, msg, len, "message_received"))
    {
      hide Field, NestedMessage, CText, PayloadFits;
      if ret != RET_OK || msg == null || len == 0 {
        return Ignored;
      }
      var eventJson := CopyText(msg, 0, len);
      assert eventJson[..] == Copied(msg[..len]);
      var eventType := ExtractInto(eventJson, "eventType", 64);
      if eventType.None? {
        return NoEventType;
      }
      if eventType.value == "message_sent" {
        var requestId := ExtractInto(eventJson, "requestId", 128);
        var messageHash := ExtractInto(eventJson, "messageHash", 128);
        gotMessageSent := true;
        r := Sent(requestId, messageHash);
      } else if eventType.value == "message_error" {
        var requestId := ExtractInto(eventJson, "requestId", 128);
        var messageHash := ExtractInto(eventJson, "messageHash", 128);
        var error := ExtractInto(eventJson, "error", 256);
        gotMessageError := true;
        r := Failed(requestId, messageHash, error);
      } else if eventType.value == "message_propagated" {
        var requestId := ExtractInto(eventJson, "requestId", 128);
        var messageHash := ExtractInto(eventJson, "messageHash", 128);
        r := Propagated(requestId, messageHash);
      } else if eventType.value == "connection_status_change" {
        var status := ExtractInto(eventJson, "connectionStatus", 256);
        r := StatusChanged(status);
      } else if eventType.value == "message_received" {
        var messageHash := ExtractInto(eventJson, "messageHash", 128);
        var message := ExtractMessage(eventJson);
        gotMessageReceived := true;
        r := Received(messageHash, message);
      } else {
        r := Unknown(eventType.value);
      }
    }
  }

  /** The callback's own NUL-terminated copy of what it was handed. */
  function Copied(msg: string): (memory: seq<char>)
    ensures Terminated(memory)
  {
    assert (msg + [NUL])[|msg|] == NUL;
    msg + [NUL]
  }

  /** A printed event reaches the extractors unchanged: it holds no NUL. */
  lemma PrintedEventCopied(event: JsonEvent)
    ensures CText(Copied(Print(Flat(event)))) == Print(Flat(event))
  {
    PrintNoNul(Flat(event));
    TextOfCopy(Copied(Print(Flat(event))), Print(Flat(event)));
  }
}
