/** A reader for the compact texts of RFC 8259, sections 3 to 7, and that it gives every printed tree
    back: the printer writes each value and each escape as itself. */
module JsonReader {
  import opened Options
  import opened JsonTree

  // ----- Strings -----

  function HexValue(c: char): Option<nat> {
    if '0' <= c <= '9' then Some(c as int - '0' as int)
    else if 'A' <= c <= 'F' then Some(c as int - 'A' as int + 10)
    else if 'a' <= c <= 'f' then Some(c as int - 'a' as int + 10)
    else None
  }

  /** The character that four hexadecimal digits name, if it is one byte. */
  function HexChar(t: string): Option<char>
    requires |t| == 4
  {
    match (HexValue(t[0]), HexValue(t[1]), HexValue(t[2]), HexValue(t[3]))
    case (Some(a), Some(b), Some(c), Some(d)) =>
      var n := 4096 * a + 256 * b + 16 * c + d;
      if n < 256 then Some(n as char) else None
    case _ => None
  }

  /** The two-character escapes of section 7. */
  function ShortEscape(c: char): Option<char> {
    match c
    case '"' => Some('"')
    case '\\' => Some('\\')
    case '/' => Some('/')
    case 'b' => Some(8 as char)
    case 'f' => Some(12 as char)
    case 'n' => Some('\n')
    case 'r' => Some('\r')
    case 't' => Some('\t')
    case _ => None
  }

  /** One character of a string and what follows it. */
  function ReadChar(t: string): (r: Option<(char, string)>)
    ensures r.Some? ==> |r.value.1| < |t|
  {
    if t == "" || t[0] as int < 32 || t[0] == '"' then None
    else if t[0] != '\\' then Some((t[0], t[1..]))
    else if |t| >= 6 && t[1] == 'u' then
      match HexChar(t[2..6])
      case None => None
      case Some(c) => Some((c, t[6..]))
    else if |t| >= 2 then
      match ShortEscape(t[1])
      case None => None
      case Some(c) => Some((c, t[2..]))
    else None
  }

  /** A string from after its opening quote. */
  function ReadString(t: string): (r: Option<(string, string)>)
    ensures r.Some? ==> |r.value.1| < |t|
    decreases |t|
  {
    if t != "" && t[0] == '"' then Some(("", t[1..]))
    else
      match ReadChar(t)
      case None => None
      case Some(c) =>
        match ReadString(c.1)
        case None => None
        case Some(s) => Some(([c.0] + s.0, s.1))
  }

  // ----- Values -----

  function NumberLength(t: string): (n: nat)
    ensures n <= |t| && forall i :: 0 <= i < n ==> NumberChar(t[i])
  {
    if t == "" || !NumberChar(t[0]) then 0
    else
      var n := NumberLength(t[1..]);
      assert forall i :: 0 < i < n + 1 ==> t[i] == t[1..][i - 1];
      n + 1
  }

  function ReadValue(t: string): (r: Option<(Json, string)>)
    ensures r.Some? ==> |r.value.1| < |t|
    decreases |t|, 0
  {
    if t == "" then None
    else if t[0] == '"' then
      match ReadString(t[1..])
      case None => None
      case Some(s) => Some((Text(s.0), s.1))
    else if t[0] == '[' then
      if |t| > 1 && t[1] == ']' then Some((Array(NoItems), t[2..]))
      else
        match ReadItems(t[1..])
        case None => None
        case Some(items) => Some((Array(items.0), items.1))
    else if t[0] == '{' then
      if |t| > 1 && t[1] == '}' then Some((Object(NoMembers), t[2..]))
      else
        match ReadMembers(t[1..])
        case None => None
        case Some(members) => Some((Object(members.0), members.1))
    else if "null" <= t then Some((Null, t[4..]))
    else if "true" <= t then Some((Bool(true), t[4..]))
    else if "false" <= t then Some((Bool(false), t[5..]))
    else
      var n := NumberLength(t);
      if n == 0 then None else Some((Number(t[..n]), t[n..]))
  }

  /** The items of an array, up to and with its closing bracket. */
  function ReadItems(t: string): (r: Option<(Items, string)>)
    ensures r.Some? ==> |r.value.1| < |t|
    decreases |t|, 1
  {
    match ReadValue(t)
    case None => None
    case Some(v) =>
      if v.1 != "" && v.1[0] == ']' then Some((Item(v.0, NoItems), v.1[1..]))
      else if v.1 != "" && v.1[0] == ',' then
        match ReadItems(v.1[1..])
        case None => None
        case Some(items) => Some((Item(v.0, items.0), items.1))
      else None
  }

  function ReadMembers(t: string): (r: Option<(Members, string)>)
    ensures r.Some? ==> |r.value.1| < |t|
    decreases |t|, 1
  {
    if t == "" || t[0] != '"' then None
    else
      match ReadString(t[1..])
      case None => None
      case Some(name) =>
        if name.1 == "" || name.1[0] != ':' then None
        else
          match ReadValue(name.1[1..])
          case None => None
          case Some(v) =>
            if v.1 != "" && v.1[0] == '}' then Some((Member(name.0, v.0, NoMembers), v.1[1..]))
            else if v.1 != "" && v.1[0] == ',' then
              match ReadMembers(v.1[1..])
              case None => None
              case Some(members) => Some((Member(name.0, v.0, members.0), members.1))
            else None
  }

  // ----- Reading what was printed -----

  lemma HexBack(n: nat)
    requires n < 16
    ensures HexValue(HexDigit(n)) == Some(n)
  {
  }

  /** The escape of any other control character. */
  lemma ControlReads(c: char, rest: string)
    requires c as int < 32
    ensures ReadChar("\\u00" + [HexDigit(c as int / 16), HexDigit(c as int % 16)] + rest) == Some((c, rest))
  {
    var e := "\\u00" + [HexDigit(c as int / 16), HexDigit(c as int % 16)];
    var t := e + rest;
    assert t[2..6] == e[2..6] && t[6..] == rest;
    HexBack(c as int / 16);
    HexBack(c as int % 16);
  }

  lemma TabReads(rest: string)
    ensures ReadChar("\\u000b" + rest) == Some((11 as char, rest))
  {
    var e := "\\u000b";
    var t := e + rest;
    assert t[2..6] == e[2..6] && t[6..] == rest;
  }

  /** Each escape reads as its character. */
  lemma EscapedCharReads(c: char, rest: string)
    ensures ReadChar(EscapeChar(c) + rest) == Some((c, rest)) && (EscapeChar(c) + rest)[0] != '"'
  {
    hide HexChar;
    var e := EscapeChar(c);
    var t := e + rest;
    if |e| == 6 {
      if c as int == 11 { TabReads(rest); } else { ControlReads(c, rest); }
    } else {
      assert t[|e|..] == rest;
    }
  }

  lemma {:induction false} StringReads(s: string, rest: string)
    ensures ReadString(Escape(s) + "\"" + rest) == Some((s, rest))
  {
    hide ReadChar, EscapeChar;
    if s == "" {
      assert Escape(s) + "\"" + rest == "\"" + rest;
      assert ("\"" + rest)[1..] == rest;
    } else {
      var tail := Escape(s[1..]) + "\"" + rest;
      assert Escape(s) + "\"" + rest == EscapeChar(s[0]) + tail;
      EscapedCharReads(s[0], tail);
      StringReads(s[1..], rest);
      assert s == [s[0]] + s[1..];
    }
  }

  /** What may follow a value. */
  predicate Follows(rest: string) {
    rest == "" || rest[0] == ',' || rest[0] == ']' || rest[0] == '}'
  }

  lemma {:induction false} NumberReads(text: string, rest: string)
    requires forall i :: 0 <= i < |text| ==> NumberChar(text[i])
    requires Follows(rest)
    ensures NumberLength(text + rest) == |text|
  {
    if text == "" {
      assert text + rest == rest;
    } else {
      assert (text + rest)[1..] == text[1..] + rest;
      NumberReads(text[1..], rest);
    }
  }

  lemma PrintStarts(j: Json)
    ensures Print(j) != "" && Print(j)[0] != ']' && Print(j)[0] != '}'
  {
  }

  lemma {:induction false} ValueReads(j: Json, rest: string)
    requires Follows(rest)
    ensures ReadValue(Print(j) + rest) == Some((j, rest))
    decreases j, 0
  {
    hide ReadString, ReadItems, ReadMembers, NumberLength, Escape;
    var t := Print(j) + rest;
    match j
    case Text(s) =>
      assert t[1..] == Escape(s) + "\"" + rest;
      StringReads(s, rest);
    case Array(items) => ArrayReads(items, rest);
    case Object(members) => ObjectReads(members, rest);
    case Number(text) =>
      assert NumberChar(text[0]);
      NumberReads(text, rest);
      assert t[..|text|] == text && t[|text|..] == rest;
    case Null => assert t[4..] == rest;
    case Bool(b) => assert t[if b then 4 else 5..] == rest; assert t[0] == if b then 't' else 'f';
  }

  lemma {:induction false} ArrayReads(items: Items, rest: string)
    ensures ReadValue("[" + PrintItems(items) + "]" + rest) == Some((Array(items), rest))
    decreases items, 1
  {
    hide ReadItems;
    var t := "[" + PrintItems(items) + "]" + rest;
    if items.NoItems? {
      assert t[2..] == rest;
    } else {
      assert t[1..] == PrintItems(items) + "]" + rest;
      PrintStarts(items.head);
      assert t[1] == Print(items.head)[0];
      ItemsRead(items, rest);
    }
  }

  lemma {:induction false} ItemsRead(items: Items, rest: string)
    requires items.Item?
    ensures ReadItems(PrintItems(items) + "]" + rest) == Some((items, rest))
    decreases items, 0
  {
    hide ReadValue, Print;
    if items.tail.NoItems? {
      assert PrintItems(items) + "]" + rest == Print(items.head) + ("]" + rest);
      ValueReads(items.head, "]" + rest);
      assert ("]" + rest)[1..] == rest;
    } else {
      var more := PrintItems(items.tail) + "]" + rest;
      assert PrintItems(items) + "]" + rest == Print(items.head) + ("," + more);
      ValueReads(items.head, "," + more);
      assert ("," + more)[1..] == more;
      ItemsRead(items.tail, rest);
    }
  }

  lemma {:induction false} ObjectReads(members: Members, rest: string)
    ensures ReadValue("{" + PrintMembers(members) + "}" + rest) == Some((Object(members), rest))
    decreases members, 1
  {
    hide ReadMembers, ReadString;
    var t := "{" + PrintMembers(members) + "}" + rest;
    if members.NoMembers? {
      assert t[2..] == rest;
    } else {
      assert t[1..] == PrintMembers(members) + "}" + rest;
      MembersStart(members);
      assert t[1] == PrintMembers(members)[0];
      MembersRead(members, rest);
    }
  }

  /** The text of a last member and of one that others follow. */
  lemma Rejoined(name: string, value: string, more: string, rest: string)
    ensures name + ":" + value + "}" + rest == name + ":" + (value + ("}" + rest))
    ensures name + ":" + value + ("," + more) + "}" + rest == name + ":" + (value + ("," + (more + "}" + rest)))
  {
  }

  lemma MembersText(members: Members, rest: string)
    requires members.Member?
    ensures PrintMembers(members) + "}" + rest
         == Quote(members.name) + ":" + (Print(members.value) + AfterValue(members.rest, rest))
  {
    hide Print, Quote;
    var name, value := members.name, members.value;
    Rejoined(Quote(name), Print(value), PrintMembers(members.rest), rest);
    assert PrintMember(name, value) == Quote(name) + ":" + Print(value);
    if members.rest.NoMembers? {
      assert PrintMembers(members) == PrintMember(name, value);
    }
  }

  lemma MembersStart(members: Members)
    requires members.Member?
    ensures PrintMembers(members) != "" && PrintMembers(members)[0] == '"'
  {
    hide Print, Escape;
    assert PrintMember(members.name, members.value)[0] == '"';
  }

  /** What follows the value of a member that others may follow. */
  function AfterValue(members: Members, rest: string): string {
    if members.NoMembers? then "}" + rest else "," + (PrintMembers(members) + "}" + rest)
  }

  lemma {:induction false} MembersRead(members: Members, rest: string)
    requires members.Member?
    ensures ReadMembers(PrintMembers(members) + "}" + rest) == Some((members, rest))
    decreases members, 0
  {
    hide ReadValue, ReadString, Print, Escape;
    var name, value := members.name, members.value;
    var end := AfterValue(members.rest, rest);
    var t := PrintMembers(members) + "}" + rest;
    MembersText(members, rest);
    assert t[1..] == Escape(name) + "\"" + (":" + (Print(value) + end));
    StringReads(name, ":" + (Print(value) + end));
    assert (":" + (Print(value) + end))[1..] == Print(value) + end;
    ValueReads(value, end);
    if members.rest.NoMembers? {
      assert end[1..] == rest;
    } else {
      assert end[1..] == PrintMembers(members.rest) + "}" + rest;
      MembersRead(members.rest, rest);
    }
  }

  /** Every tree is read back from its printed text. */
  lemma ReadPrint(j: Json)
    ensures ReadValue(Print(j)) == Some((j, ""))
  {
    ValueReads(j, "");
    assert Print(j) + "" == Print(j);
  }

  /** So two different trees never print the same. */
  lemma PrintInjective(j: Json, k: Json)
    requires Print(j) == Print(k)
    ensures j == k
  {
    hide Print, ReadValue;
    ReadPrint(j);
    ReadPrint(k);
  }

  // ----- Literal texts -----

  /** If the rest of a string prints so, the whole does so. */
  lemma EscapeCons(c: char, s: string, rest: string)
    requires Escape(s) == rest
    ensures Escape([c] + s) == EscapeChar(c) + rest
  {
    assert ([c] + s)[1..] == s;
  }

  /** Quotes, backslashes and the named control characters, as section 7 writes them. */
  lemma EscapedExample()
    ensures Escape(['q', '"', '\\', '\n', '\t', '\r'])
         == ['q', '\\', '"', '\\', '\\', '\\', 'n', '\\', 't', '\\', 'r']
  {
    hide Escape;
    ControlsExample();
    EscapeCons('\\', ['\n', '\t', '\r'], ['\\', 'n', '\\', 't', '\\', 'r']);
    var s := ['\\', '\n', '\t', '\r'];
    var e := ['\\', '\\', '\\', 'n', '\\', 't', '\\', 'r'];
    assert ['\\'] + ['\n', '\t', '\r'] == s && EscapeChar('\\') + ['\\', 'n', '\\', 't', '\\', 'r'] == e;
    EscapeCons('"', s, e);
    EscapeCons('q', ['"'] + s, ['\\', '"'] + e);
    assert ['q'] + (['"'] + s) == ['q', '"', '\\', '\n', '\t', '\r'];
  }

  lemma ControlsExample()
    ensures Escape(['\n', '\t', '\r']) == ['\\', 'n', '\\', 't', '\\', 'r']
  {
    assert Escape([]) == [];
    EscapeCons('\r', [], []);
    assert ['\r'] + [] == ['\r'] && EscapeChar('\r') + [] == ['\\', 'r'];
    EscapeCons('\t', ['\r'], ['\\', 'r']);
    assert ['\t'] + ['\r'] == ['\t', '\r'] && EscapeChar('\t') + ['\\', 'r'] == ['\\', 't', '\\', 'r'];
    EscapeCons('\n', ['\t', '\r'], ['\\', 't', '\\', 'r']);
    assert ['\n'] + ['\t', '\r'] == ['\n', '\t', '\r'];
  }

  /** Every kind of value, punctuation included, as sections 3 to 6 write them. */
  lemma PrintedExample()
    ensures Print(Array(Item(Null, Item(Bool(true), Item(Bool(false), NoItems))))) == "[null,true,false]"
    ensures Print(Object(Member("a", Number("-1.5"), Member("b", Object(NoMembers), NoMembers))))
         == "{\"a\":-1.5,\"b\":{}}"
  {
    hide PrintItems, PrintMembers;
    ItemsExample();
    MembersExample();
  }

  lemma ItemsExample()
    ensures PrintItems(Item(Null, Item(Bool(true), Item(Bool(false), NoItems)))) == "null,true,false"
  {
    var last := Item(Bool(false), NoItems);
    assert PrintItems(last) == "false";
    assert PrintItems(Item(Bool(true), last)) == "true,false";
  }

  lemma MembersExample()
    ensures PrintMembers(Member("a", Number("-1.5"), Member("b", Object(NoMembers), NoMembers)))
         == "\"a\":-1.5,\"b\":{}"
  {
    hide Escape;
    NamesExample();
    var last := Member("b", Object(NoMembers), NoMembers);
    assert PrintMember("b", Object(NoMembers)) == "\"b\":{}";
    assert PrintMembers(last) == "\"b\":{}";
    assert PrintMember("a", Number("-1.5")) == "\"a\":-1.5";
  }

  lemma NamesExample()
    ensures Quote("a") == "\"a\"" && Quote("b") == "\"b\""
  {
    EscapePlain("a");
    EscapePlain("b");
  }
}
