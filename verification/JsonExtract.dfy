/** On printed trees the C helpers are tree lookups. */
module JsonExtract {
  import opened Options
  import opened JsonTree
  import opened CStrings
  import opened JsonScan
  import opened JsonLookup
  import opened Braces
  import opened JsonUtils

  /** Keys for which the search string is not cut: at most 251 alphanumeric characters. */
  predicate SearchKey(key: string) {
    Key(key) && |key| <= 251
  }

  lemma SearchStringWhole(key: string, x: char)
    requires SearchKey(key)
    ensures SearchString(key, x) == Pattern(key, x)
  {
  }

  // ----- extract_json_field -----

  lemma StrChrIs(t: string, i: nat, p: nat, c: char)
    requires i <= p < |t| && t[p] == c && forall k :: i <= k < p ==> t[k] != c
    ensures StrChr(t, i, c) == Some(p)
  {
  }

  /** Up to the next quote of a printed string lies its escaped text, cut at its own first quote. */
  lemma StringEnd(t: string, a: nat, e: string)
    requires At(t, a, "\"" + e + "\"")
    ensures StrChr(t, a + 1, '"') == Some(a + 1 + |UpTo(e, '"')|)
    ensures t[a + 1..a + 1 + |UpTo(e, '"')|] == UpTo(e, '"')
  {
    AtSplit(t, a, "\"" + e, "\"");
    AtSplit(t, a, "\"", e);
    AtIndex(t, a + 1 + |e|, "\"", 0);
    CharAfter(t, a + 1, e, '"');
  }

  lemma CharAfter(t: string, a: nat, e: string, c: char)
    requires At(t, a, e) && a + |e| < |t| && t[a + |e|] == c
    ensures StrChr(t, a, c) == Some(a + |UpTo(e, c)|)
    ensures t[a..a + |UpTo(e, c)|] == UpTo(e, c)
  {
    var u := UpTo(e, c);
    UpToIs(e, c);
    forall k | 0 <= k < |u| ensures t[a + k] == u[k] {
      AtIndex(t, a, e, k);
    }
    if |u| < |e| {
      AtIndex(t, a, e, |u|);
    }
    assert forall k :: a <= k < a + |u| ==> t[k] == u[k - a];
    StrChrIs(t, a, a + |u|, c);
  }

  lemma UpToIs(e: string, c: char)
    ensures |UpTo(e, c)| <= |e| && UpTo(e, c) == e[..|UpTo(e, c)|]
    ensures forall k :: 0 <= k < |UpTo(e, c)| ==> UpTo(e, c)[k] != c
    ensures |UpTo(e, c)| < |e| ==> e[|UpTo(e, c)|] == c
  {
  }

  /** extract_json_field on a printed tree: it succeeds iff some member at any depth has a
      matching name and a string value, and it yields the escaped text of the first such value
      in document order, up to that text's first quote. */
  lemma {:induction false} FieldOfTree(j: Json, key: string)
    requires SearchKey(key)
    ensures var first := First(DocumentOrder(j), key, '"');
            FieldValue(Print(j), key) ==
            if first.Some? then Some(UpTo(Escape(first.value.s), '"')) else None
  {
    hide At, Escape, DocumentOrder, First, FirstMatch, StrChr, UpTo, SearchString;
    var t := Print(j);
    SearchStringWhole(key, '"');
    SearchPrinted(j, key, '"');
    var r := StrStr(t, Pattern(key, '"'));
    if r.Some? {
      var s := First(DocumentOrder(j), key, '"').value.s;
      StringEnd(t, r.value + |key| + 3, Escape(s));
    }
  }

  /** No quote characters inside names: then a matching name is the key itself. */
  predicate QuoteFreeNames(order: seq<(string, Json)>) {
    forall i :: 0 <= i < |order| ==> forall k :: 0 <= k < |order[i].0| ==> order[i].0[k] != '"'
  }

  lemma QuoteFreeMatches(name: string, key: string)
    requires forall k :: 0 <= k < |name| ==> name[k] != '"'
    ensures NameMatches(name, key) <==> name == key
  {
    if |name| > |key| {
      assert name[|name| - |key| - 1..][0] != '"';
    }
  }

  /** extract_json_field yields the first string value stored under exactly the key,
      on every tree whose member names hold no quote; a value that needs no escaping is
      yielded whole. */
  lemma {:induction false} FieldOfPlainTree(j: Json, key: string)
    requires SearchKey(key) && QuoteFreeNames(DocumentOrder(j))
    ensures FieldValue(Print(j), key).Some? <==>
            exists i :: 0 <= i < |DocumentOrder(j)| && DocumentOrder(j)[i].0 == key && DocumentOrder(j)[i].1.Text?
    ensures forall i :: 0 <= i < |DocumentOrder(j)| && DocumentOrder(j)[i].0 == key && DocumentOrder(j)[i].1.Text?
                        && (forall k :: 0 <= k < i ==> !(DocumentOrder(j)[k].0 == key && DocumentOrder(j)[k].1.Text?))
                        && Plain(DocumentOrder(j)[i].1.s)
                        ==> FieldValue(Print(j), key) == Some(DocumentOrder(j)[i].1.s)
  {
    hide FieldValue, Print, DocumentOrder, First, NameMatches, UpTo, Escape;
    var order := DocumentOrder(j);
    FieldOfTree(j, key);
    FirstIsEarliest(order, key, '"');
    forall i | 0 <= i < |order| ensures NameMatches(order[i].0, key) <==> order[i].0 == key {
      QuoteFreeMatches(order[i].0, key);
    }
    forall s | Plain(s) ensures UpTo(Escape(s), '"') == s {
      ExactIffPlain(s);
    }
  }

  /** A tree with one member, whose name ends in a quote and the key: no member is named by the key,
      and yet its value is found under it. */
  lemma QuotedNameExample()
    ensures var j := Object(Member("x\"hash", Text("v"), NoMembers));
            (forall i :: 0 <= i < |DocumentOrder(j)| ==> DocumentOrder(j)[i].0 != "hash")
            && FieldValue(Print(j), "hash") == Some("v")
  {
    hide Print, FieldValue, Escape, UpTo;
    var j, name := Object(Member("x\"hash", Text("v"), NoMembers)), "x\"hash";
    assert DocumentOrder(j) == [(name, Text("v"))];
    assert name[1..] == "\"" + "hash";
    FieldOfTree(j, "hash");
    ExactIffPlain("v");
  }

  lemma {:induction false} EscapeLonger(s: string)
    ensures |Escape(s)| >= |s|
    ensures |Escape(s)| == |s| ==> Plain(s)
  {
    if s != "" {
      EscapeLonger(s[1..]);
      if |Escape(s)| == |s| {
        assert PlainChar(s[0]);
        assert forall i :: 0 < i < |s| ==> s[i] == s[1..][i - 1];
      }
    }
  }

  lemma {:induction false} EscapeQuoteFree(s: string)
    requires forall k :: 0 <= k < |s| ==> s[k] != '"'
    ensures forall k :: 0 <= k < |Escape(s)| ==> Escape(s)[k] != '"'
  {
    if s != "" {
      EscapeQuoteFree(s[1..]);
    }
  }

  /** The extracted text is the value itself iff the value needs no escaping. */
  lemma {:induction false} ExactIffPlain(s: string)
    ensures UpTo(Escape(s), '"') == s <==> Plain(s)
  {
    UpToIs(Escape(s), '"');
    if Plain(s) {
      EscapePlain(s);
    } else if UpTo(Escape(s), '"') == s {
      EscapeQuoteFree(s);
      EscapeLonger(s);
    }
  }

  /** A value with a quote comes back cut at it, with the backslash that escaped it. */
  lemma EscapedValueExample()
    ensures FieldValue(Print(Object(Member("k", Text("a\"b"), NoMembers))), "k") == Some("a\\")
  {
    hide Print, FieldValue;
    var j, value := Object(Member("k", Text("a\"b"), NoMembers)), "a\"b";
    assert DocumentOrder(j) == [("k", Text(value))];
    FieldOfTree(j, "k");
    assert value[1..] == "\"b" && value[1..][1..] == "b";
    assert Escape("b") == "b" && Escape("\"b") == "\\\"b" && Escape(value) == "a\\\"b";
    StrChrIs("a\\\"b", 0, 2, '"');
    assert "a\\\"b"[..2] == "a\\";
    assert First(DocumentOrder(j), "k", '"') == Some(Text(value));
    assert SearchKey("k") && UpTo(Escape(value), '"') == "a\\";
  }

  // ----- Lookup by the exact name -----

  /** The first member whose name the search takes for the key and whose value is a string. */
  function FirstTaken(order: seq<(string, Json)>, key: string): (r: Option<(string, Json)>)
    ensures r.Some? ==> r.value.1.Text?
  {
    if order == [] then None
    else if NameMatches(order[0].0, key) && order[0].1.Text? then Some(order[0])
    else FirstTaken(order[1..], key)
  }

  /** The first string stored under the key itself. */
  function FirstNamed(order: seq<(string, Json)>, key: string): (r: Option<Json>)
    ensures r.Some? ==> r.value.Text?
  {
    if order == [] then None
    else if order[0].0 == key && order[0].1.Text? then Some(order[0].1)
    else FirstNamed(order[1..], key)
  }

  /** A string as the extractor yields it. */
  function Yielded(v: Json): string
    requires v.Text?
  {
    UpTo(Escape(v.s), '"')
  }

  lemma {:induction false} TakenIsFirst(order: seq<(string, Json)>, key: string)
    ensures var taken := FirstTaken(order, key);
            && First(order, key, '"') == (if taken.Some? then Some(taken.value.1) else None)
            && (taken.None? ==> FirstNamed(order, key).None?)
            && (taken.Some? && taken.value.0 == key ==> FirstNamed(order, key) == Some(taken.value.1))
  {
    if order != [] {
      TakenIsFirst(order[1..], key);
    }
  }

  /** The field search is lookup by the exact name iff the first member it takes, if any, is named by
      the key itself, or yields the same text as the first that is. */
  lemma {:induction false} ExactNameIff(j: Json, key: string)
    requires SearchKey(key)
    ensures var taken, named := FirstTaken(DocumentOrder(j), key), FirstNamed(DocumentOrder(j), key);
            FieldValue(Print(j), key) == (if named.Some? then Some(Yielded(named.value)) else None) <==>
            taken.None? || taken.value.0 == key
            || (named.Some? && Yielded(taken.value.1) == Yielded(named.value))
  {
    hide FieldValue, Print, DocumentOrder, First, FirstTaken, FirstNamed, UpTo, Escape;
    FieldOfTree(j, key);
    TakenIsFirst(DocumentOrder(j), key);
  }

  // ----- extract_json_object -----

  lemma {:induction false} OrderBraceFree(j: Json)
    requires BraceFree(j)
    ensures forall i :: 0 <= i < |DocumentOrder(j)| ==> BraceFree(DocumentOrder(j)[i].1)
    decreases j, 0
  {
    match j
    case Array(items) => ItemsOrderBraceFree(items);
    case Object(members) => MembersOrderBraceFree(members);
    case _ =>
  }

  lemma {:induction false} ItemsOrderBraceFree(items: Items)
    requires BraceFreeItems(items)
    ensures forall i :: 0 <= i < |ItemsOrder(items)| ==> BraceFree(ItemsOrder(items)[i].1)
    decreases items, 0
  {
    match items
    case NoItems =>
    case Item(head, tail) => OrderBraceFree(head); ItemsOrderBraceFree(tail);
  }

  lemma {:induction false} MembersOrderBraceFree(members: Members)
    requires BraceFreeMembers(members)
    ensures forall i :: 0 <= i < |MembersOrder(members)| ==> BraceFree(MembersOrder(members)[i].1)
    decreases members, 0
  {
    match members
    case NoMembers =>
    case Member(name, value, rest) => OrderBraceFree(value); MembersOrderBraceFree(rest);
  }

  /** The opener of the matched value is the first such character from the match on. */
  lemma OpenerAfterMatch(t: string, i: nat, key: string, x: char)
    requires Key(key) && (x == '{' || x == '[') && At(t, i, Pattern(key, x))
    ensures StrChr(t, i, x) == Some(i + |key| + 3)
  {
    var head := "\"" + key + "\":";
    assert Pattern(key, x) == head + [x];
    AtSplit(t, i, head, [x]);
    AtIndex(t, i + |head|, [x], 0);
    UpToIs(head, x);
    assert forall k :: 0 <= k < |head| ==> head[k] != x;
    CharAfter(t, i, head, x);
  }

  lemma TailOf(t: string, a: nat, s: string)
    requires At(t, a, s)
    ensures t[a..] == s + t[a + |s|..]
  {
    assert t[a..a + |s|] == s;
  }

  /** extract_json_object on a printed tree without braces in its strings: NULL iff no member
      with a matching name holds an object, and otherwise exactly the printed text of the
      first such object. */
  lemma {:induction false} ObjectOfTree(j: Json, key: string)
    requires SearchKey(key) && BraceFree(j)
    ensures var first := First(DocumentOrder(j), key, '{');
            ObjectSlice(Print(j), key) == if first.Some? then Some(Print(first.value)) else None
  {
    hide At, FirstMatch, StrChr, Print, DocumentOrder, First, ObjectSlice, ShortestBalanced, SearchString;
    SliceExists(Print(j), key);
    var t := Print(j);
    SearchStringWhole(key, '{');
    SearchPrinted(j, key, '{');
    var r := StrStr(t, Pattern(key, '{'));
    if r.Some? {
      var o := First(DocumentOrder(j), key, '{').value;
      var b := r.value + |key| + 3;
      StrStrInside(t, Pattern(key, '{'));
      OpenerAfterMatch(t, r.value, key, '{');
      FirstBraceFree(j, key);
      TailOf(t, b, Print(o));
      ObjectShortest(o, t[b + |Print(o)|..]);
      SliceIs(t, key, b, |Print(o)|);
    }
  }

  lemma FirstBraceFree(j: Json, key: string)
    requires BraceFree(j) && First(DocumentOrder(j), key, '{').Some?
    ensures BraceFree(First(DocumentOrder(j), key, '{').value)
  {
    OrderBraceFree(j);
    FirstIsEarliest(DocumentOrder(j), key, '{');
  }

  /** Extracting a field from the extracted object is lookup inside that object. */
  lemma {:induction false} FieldOfNestedObject(j: Json, outer: string, key: string)
    requires SearchKey(outer) && SearchKey(key) && BraceFree(j)
    requires First(DocumentOrder(j), outer, '{').Some?
    ensures ObjectSlice(Print(j), outer).Some?
    ensures var inner := First(DocumentOrder(First(DocumentOrder(j), outer, '{').value), key, '"');
            FieldValue(ObjectSlice(Print(j), outer).value, key) ==
            if inner.Some? then Some(UpTo(Escape(inner.value.s), '"')) else None
  {
    ObjectOfTree(j, outer);
    FieldOfTree(First(DocumentOrder(j), outer, '{').value, key);
  }

  // ----- decode_json_byte_array -----

  /** RFC 8259, section 2: insignificant whitespace. */
  predicate Whitespace(s: string) {
    forall k :: 0 <= k < |s| ==> s[k] == ' ' || s[k] == '\t' || s[k] == '\n' || s[k] == '\r'
  }

  predicate Separators(s: string) {
    forall k :: 0 <= k < |s| ==> Separator(s[k])
  }

  /** A byte with the whitespace after it and the whitespace after the comma that follows. */
  datatype Element = Element(b: byte, after: string, next: string) {
    predicate Valid() { Whitespace(after) && Whitespace(next) }
  }

  function DecimalText(n: nat): string {
    var d := [('0' as int + n % 10) as char];
    if n < 10 then d else DecimalText(n / 10) + d
  }

  function Gap(xs: seq<Element>): string
    requires xs != []
  {
    xs[0].after + (if |xs| > 1 then "," + xs[0].next else "")
  }

  function Elements(xs: seq<Element>): string {
    if xs == [] then "" else DecimalText(xs[0].b) + Gap(xs) + Elements(xs[1..])
  }

  /** A JSON array of bytes with any whitespace (RFC 8259, section 5). */
  function ArrayText(lead: string, xs: seq<Element>): string {
    "[" + lead + Elements(xs) + "]"
  }

  function Bytes(xs: seq<Element>): seq<byte> {
    if xs == [] then [] else [xs[0].b] + Bytes(xs[1..])
  }

  function Cut<T>(s: seq<T>, n: nat): seq<T> {
    if |s| <= n then s else s[..n]
  }

  lemma {:induction false} DecimalOfText(n: nat)
    ensures DecimalText(n) != "" && forall k :: 0 <= k < |DecimalText(n)| ==> Digit(DecimalText(n)[k])
    ensures Decimal(DecimalText(n)) == n
  {
    var s := DecimalText(n);
    if n >= 10 {
      DecimalOfText(n / 10);
      assert s[..|s| - 1] == DecimalText(n / 10);
    } else {
      assert s[..|s| - 1] == "";
    }
  }

  lemma {:induction false} SkipsSeparators(t: string, p: nat, gap: string)
    requires At(t, p, gap) && Separators(gap)
    requires p + |gap| < |t| && !Separator(t[p + |gap|])
    ensures SkipSeparators(t, p) == p + |gap|
    decreases |gap|
  {
    if gap != "" {
      AtIndex(t, p, gap, 0);
      assert gap == [gap[0]] + gap[1..];
      AtSplit(t, p, [gap[0]], gap[1..]);
      SkipsSeparators(t, p + 1, gap[1..]);
    }
  }

  lemma {:induction false} SkipsDigits(t: string, p: nat, digits: string)
    requires At(t, p, digits) && forall k :: 0 <= k < |digits| ==> Digit(digits[k])
    requires p + |digits| < |t| && !Digit(t[p + |digits|])
    ensures SkipDigits(t, p) == p + |digits|
    decreases |digits|
  {
    if digits != "" {
      AtIndex(t, p, digits, 0);
      assert digits == [digits[0]] + digits[1..];
      AtSplit(t, p, [digits[0]], digits[1..]);
      SkipsDigits(t, p + 1, digits[1..]);
    }
  }

  lemma GapSeparates(xs: seq<Element>)
    requires xs != [] && xs[0].Valid()
    ensures Separators(Gap(xs)) && (|xs| > 1 ==> Gap(xs) != "")
  {
  }

  /** One byte is read: separators, its digits, then something that is no digit. */
  lemma ReadByte(t: string, p: nat, gap: string, b: byte, after: string, room: nat)
    requires At(t, p, gap + (DecimalText(b) + after)) && Separators(gap)
    requires after != "" && !Digit(after[0]) && room > 0
    ensures p + |gap| + |DecimalText(b)| <= |t| && At(t, p + |gap| + |DecimalText(b)|, after)
    ensures ByteScan(t, p, room) == [b] + ByteScan(t, p + |gap| + |DecimalText(b)|, room - 1)
    ensures ScanFits(t, p, room) <==> ScanFits(t, p + |gap| + |DecimalText(b)|, room - 1)
  {
    hide At, ByteScan, ScanFits, SkipSeparators, SkipDigits, DecimalText;
    var digits := DecimalText(b);
    var e := p + |gap| + |digits|;
    DecimalOfText(b);
    ReadRun(t, p, gap, digits, after);
    ReadStep(t, p, p + |gap|, e, room);
  }

  lemma ReadStep(t: string, p: nat, q: nat, e: nat, room: nat)
    requires p < |t| && t[p] != ']' && q < |t| && t[q] != ']' && room > 0
    requires SkipSeparators(t, p) == q && SkipDigits(t, q) == e && q <= e <= |t|
    ensures ByteScan(t, p, room) == [Decimal(t[q..e]) % 256] + ByteScan(t, e, room - 1)
    ensures ScanFits(t, p, room) <==> Decimal(t[q..e]) < 0x8000_0000 && ScanFits(t, e, room - 1)
  {
    ByteScanStep(t, p, room);
  }

  lemma ReadRun(t: string, p: nat, gap: string, digits: string, after: string)
    requires At(t, p, gap + (digits + after)) && Separators(gap)
    requires digits != "" && forall k :: 0 <= k < |digits| ==> Digit(digits[k])
    requires after != "" && !Digit(after[0])
    ensures var q := p + |gap|; var e := q + |digits|;
            && p < |t| && t[p] != ']' && q < |t| && t[q] != ']' && e <= |t|
            && SkipSeparators(t, p) == q && SkipDigits(t, q) == e && t[q..e] == digits && At(t, e, after)
  {
    var q := p + |gap|;
    AtSplit(t, p, gap, digits + after);
    AtSplit(t, q, digits, after);
    AtIndex(t, q, digits, 0);
    AtIndex(t, q + |digits|, after, 0);
    if gap != "" {
      AtIndex(t, p, gap, 0);
    }
    SkipsSeparators(t, p, gap);
    SkipsDigits(t, q, digits);
  }

  /** Nothing is read when separators lead to the closing bracket. */
  lemma ReadEnd(t: string, p: nat, gap: string, room: nat)
    requires At(t, p, gap + "]") && Separators(gap)
    ensures p <= |t| && ByteScan(t, p, room) == [] && ScanFits(t, p, room)
  {
    AtSplit(t, p, gap, "]");
    AtIndex(t, p + |gap|, "]", 0);
    SkipsSeparators(t, p, gap);
  }

  /** The scan over separators and elements yields the elements' bytes, as many as fit. */
  lemma {:induction false} ScanElements(t: string, p: nat, gap: string, xs: seq<Element>, room: nat)
    requires At(t, p, gap + (Elements(xs) + "]")) && Separators(gap)
    requires forall k :: 0 <= k < |xs| ==> xs[k].Valid()
    ensures p <= |t| && ByteScan(t, p, room) == Cut(Bytes(xs), room) && ScanFits(t, p, room)
    decreases |xs|
  {
    hide At, ByteScan, ScanFits, DecimalText, Gap, Elements;
    if xs == [] {
      NoElements(xs);
      ReadEnd(t, p, gap, room);
    } else if room == 0 {
      ReadNothing(t, p, gap + (Elements(xs) + "]"));
    } else {
      var after := Gap(xs) + (Elements(xs[1..]) + "]");
      ElementsUnfold(xs);
      AfterDigits(xs);
      GapSeparates(xs);
      ReadByte(t, p, gap, xs[0].b, after, room);
      ScanElements(t, p + |gap| + |DecimalText(xs[0].b)|, Gap(xs), xs[1..], room - 1);
      CutCons(xs[0].b, Bytes(xs[1..]), room);
    }
  }

  lemma NoElements(xs: seq<Element>)
    requires xs == []
    ensures Elements(xs) + "]" == "]"
  {
  }

  lemma ReadNothing(t: string, p: nat, s: string)
    requires At(t, p, s)
    ensures p <= |t| && ByteScan(t, p, 0) == [] && ScanFits(t, p, 0)
  {
  }

  lemma CutCons(b: byte, rest: seq<byte>, n: nat)
    requires n > 0
    ensures Cut([b] + rest, n) == [b] + Cut(rest, n - 1)
  {
  }

  lemma ElementsUnfold(xs: seq<Element>)
    requires xs != []
    ensures Elements(xs) + "]" == DecimalText(xs[0].b) + (Gap(xs) + (Elements(xs[1..]) + "]"))
  {
  }

  lemma AfterDigits(xs: seq<Element>)
    requires xs != [] && xs[0].Valid()
    ensures !Digit((Gap(xs) + (Elements(xs[1..]) + "]"))[0])
  {
    GapSeparates(xs);
    if Gap(xs) == "" {
      assert xs[1..] == [];
    }
  }

  /** decode_json_byte_array on an array of bytes with any whitespace: it yields the bytes in
      order, as many as the buffer has room for. */
  lemma {:induction false} DecodeArrayText(t: string, key: string, lead: string, xs: seq<Element>, room: nat)
    requires Whitespace(lead) && forall k :: 0 <= k < |xs| ==> xs[k].Valid()
    requires ArrayStart(t, key).Some? && ArrayStart(t, key).value > 0
    requires At(t, ArrayStart(t, key).value - 1, ArrayText(lead, xs))
    ensures ByteArray(t, key, room) == Some(Cut(Bytes(xs), room)) && Fits(t, key, room)
  {
    hide At, ByteScan, ScanFits, Elements, ArrayStart;
    var p := ArrayStart(t, key).value;
    assert ArrayText(lead, xs) == "[" + (lead + (Elements(xs) + "]"));
    AtSplit(t, p - 1, "[", lead + (Elements(xs) + "]"));
    ScanElements(t, p, lead, xs, room);
  }

  /** The JSON array of a byte string, as a tree. */
  function ByteItems(bs: seq<byte>): Items {
    if bs == [] then NoItems else Item(Number(ByteText(bs[0])), ByteItems(bs[1..]))
  }

  function ByteText(b: byte): NumberText {
    DecimalOfText(b);
    DecimalText(b)
  }

  function Compact(bs: seq<byte>): seq<Element> {
    if bs == [] then [] else [Element(bs[0], "", "")] + Compact(bs[1..])
  }

  lemma {:induction false} CompactIs(bs: seq<byte>)
    ensures |Compact(bs)| == |bs| && Bytes(Compact(bs)) == bs
    ensures PrintItems(ByteItems(bs)) == Elements(Compact(bs))
    ensures forall k :: 0 <= k < |bs| ==> Compact(bs)[k].Valid()
  {
    if bs != [] {
      CompactIs(bs[1..]);
      assert Compact(bs)[1..] == Compact(bs[1..]);
      if bs[1..] == [] {
        assert Compact(bs[1..]) == [];
      }
    }
  }

  /** decode_json_byte_array on a printed tree whose first array under the key is an array of bytes. */
  lemma {:induction false} BytesOfTree(j: Json, key: string, bs: seq<byte>, room: nat)
    requires SearchKey(key) && First(DocumentOrder(j), key, '[') == Some(Array(ByteItems(bs)))
    ensures ByteArray(Print(j), key, room) == Some(Cut(bs, room)) && Fits(Print(j), key, room)
  {
    hide At, FirstMatch, StrChr, ByteScan, ScanFits, DocumentOrder, First, SearchString, Pattern, ByteItems;
    var t := Print(j);
    SearchStringWhole(key, '[');
    SearchPrinted(j, key, '[');
    StrStrInside(t, Pattern(key, '['));
    var i := StrStr(t, Pattern(key, '[')).value;
    OpenerAfterMatch(t, i, key, '[');
    CompactIs(bs);
    assert Print(Array(ByteItems(bs))) == ArrayText("", Compact(bs));
    DecodeArrayText(t, key, "", Compact(bs), room);
  }

  /** The search fails, and decode_json_byte_array returns -1, iff no array has a matching name. */
  lemma {:induction false} NoArrayInTree(j: Json, key: string, room: nat)
    requires SearchKey(key)
    ensures ByteArray(Print(j), key, room).None? <==> First(DocumentOrder(j), key, '[').None?
  {
    hide At, FirstMatch, StrChr, ByteScan, DocumentOrder, First, SearchString, Pattern, Print;
    var t := Print(j);
    SearchStringWhole(key, '[');
    SearchPrinted(j, key, '[');
    StrStrInside(t, Pattern(key, '['));
    if StrStr(t, Pattern(key, '[')).Some? {
      OpenerAfterMatch(t, StrStr(t, Pattern(key, '[')).value, key, '[');
    }
  }

  /** The text s, which ends in a bracket, stands in t at index p. */
  predicate BracketedAt(t: string, p: nat, s: string) {
    At(t, p, s) && s != "" && s[|s| - 1] == ']'
  }

  lemma {:induction false} SeparatorsInside(t: string, p: nat, s: string, q: nat)
    requires BracketedAt(t, p, s) && q < |s|
    ensures SkipSeparators(s, q) < |s| && SkipSeparators(t, p + q) == p + SkipSeparators(s, q)
    decreases |s| - q
  {
    AtIndex(t, p, s, q);
    if Separator(s[q]) {
      SeparatorsInside(t, p, s, q + 1);
    }
  }

  lemma {:induction false} DigitsInside(t: string, p: nat, s: string, q: nat)
    requires BracketedAt(t, p, s) && q < |s|
    ensures SkipDigits(s, q) < |s| && SkipDigits(t, p + q) == p + SkipDigits(s, q)
    decreases |s| - q
  {
    AtIndex(t, p, s, q);
    if Digit(s[q]) {
      DigitsInside(t, p, s, q + 1);
    }
  }

  lemma SliceInside(t: string, p: nat, s: string, q: nat, e: nat)
    requires At(t, p, s) && q <= e <= |s|
    ensures t[p + q..p + e] == s[q..e]
  {
    forall k | q <= k < e ensures t[p + k] == s[k] {
      AtIndex(t, p, s, k);
    }
  }

  /** The scan inside a bracketed text never looks beyond it. */
  lemma {:induction false} ScanInside(t: string, p: nat, s: string, q: nat, room: nat)
    requires BracketedAt(t, p, s) && q < |s|
    ensures ByteScan(t, p + q, room) == ByteScan(s, q, room)
    decreases room
  {
    hide BracketedAt, SkipSeparators, SkipDigits, Decimal;
    BracketedIndex(t, p, s, q);
    if s[q] != ']' && room > 0 {
      SeparatorsInside(t, p, s, q);
      var from := SkipSeparators(s, q);
      BracketedIndex(t, p, s, from);
      DigitsInside(t, p, s, from);
      var e := SkipDigits(s, from);
      BracketedSlice(t, p, s, from, e);
      ScanInside(t, p, s, e, room - 1);
    }
  }

  lemma BracketedIndex(t: string, p: nat, s: string, q: nat)
    requires BracketedAt(t, p, s) && q < |s|
    ensures p + q < |t| && t[p + q] == s[q]
  {
    AtIndex(t, p, s, q);
  }

  lemma BracketedSlice(t: string, p: nat, s: string, q: nat, e: nat)
    requires BracketedAt(t, p, s) && q <= e <= |s|
    ensures p + e <= |t| && t[p + q..p + e] == s[q..e]
  {
    SliceInside(t, p, s, q, e);
  }

  /** The bytes that an array of any values decodes to: those scanned from its own printed text. */
  function ArrayBytes(v: Json, room: nat): seq<byte>
    requires v.Array?
  {
    ByteScan(Print(v), 1, room)
  }

  lemma ArrayBracketed(t: string, p: nat, v: Json)
    requires v.Array? && At(t, p, Print(v))
    ensures BracketedAt(t, p, Print(v)) && |Print(v)| > 1
  {
  }

  /** Where the scan starts on a printed tree: inside the first array under the key. */
  lemma {:induction false} ArrayStartOfTree(j: Json, key: string)
    requires SearchKey(key)
    ensures match First(DocumentOrder(j), key, '[')
            case None => ArrayStart(Print(j), key).None?
            case Some(v) =>
              var start := ArrayStart(Print(j), key);
              start.Some? && start.value > 0 && BracketedAt(Print(j), start.value - 1, Print(v)) && |Print(v)| > 1
  {
    hide At, FirstMatch, StrChr, DocumentOrder, First, SearchString, Pattern, Print, BracketedAt;
    var t := Print(j);
    SearchStringWhole(key, '[');
    SearchPrinted(j, key, '[');
    StrStrInside(t, Pattern(key, '['));
    var found := StrStr(t, Pattern(key, '['));
    if found.Some? {
      OpenerAfterMatch(t, found.value, key, '[');
      ArrayBracketed(t, found.value + |key| + 3, First(DocumentOrder(j), key, '[').value);
    }
  }

  /** decode_json_byte_array on any printed tree: -1 iff no array has a matching name, and otherwise
      the bytes of the first such array. */
  lemma {:induction false} DecodeOfTree(j: Json, key: string, room: nat)
    requires SearchKey(key)
    ensures ByteArray(Print(j), key, room) ==
            match First(DocumentOrder(j), key, '[')
            case None => None
            case Some(v) => Some(ArrayBytes(v, room))
  {
    hide ArrayStart, BracketedAt, ByteScan, DocumentOrder, First, Print;
    ArrayStartOfTree(j, key);
    var first := First(DocumentOrder(j), key, '[');
    if first.Some? {
      ScanInside(Print(j), ArrayStart(Print(j), key).value - 1, Print(first.value), 1, room);
    }
  }

  /** An array of bytes decodes to those bytes, as many as there is room for. */
  lemma {:induction false} ArrayBytesOfBytes(bs: seq<byte>, room: nat)
    ensures ArrayBytes(Array(ByteItems(bs)), room) == Cut(bs, room)
  {
    hide At, ByteScan, ScanFits, Elements, ByteItems;
    CompactIs(bs);
    var t := Print(Array(ByteItems(bs)));
    assert t == "[" + ("" + (Elements(Compact(bs)) + "]"));
    WholeAt(t);
    AtSplit(t, 0, "[", "" + (Elements(Compact(bs)) + "]"));
    ScanElements(t, 1, "", Compact(bs), room);
  }
}
