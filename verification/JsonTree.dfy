/** JSON trees, the compact printer `$` of Nim's std/json, and members in document order.
    A `char` stands for one byte of the UTF-8 text. */
module JsonTree {

  /** The characters of a number token (RFC 8259, section 6). */
  predicate NumberChar(c: char) {
    '0' <= c <= '9' || c == '-' || c == '+' || c == '.' || c == 'e' || c == 'E'
  }

  type NumberText = s: string | s != "" && forall i :: 0 <= i < |s| ==> NumberChar(s[i]) witness "0"

  datatype Json =
    | Null
    | Bool(b: bool)
    | Number(text: NumberText)
    | Text(s: string)
    | Array(items: Items)
    | Object(members: Members)

  datatype Items = NoItems | Item(head: Json, tail: Items)

  datatype Members = NoMembers | Member(name: string, value: Json, rest: Members)

  // ----- Printing -----

  function HexDigit(n: nat): char
    requires n < 16
  {
    "0123456789ABCDEF"[n]
  }

  /** The escapes of RFC 8259, section 7, as std/json chooses among them. */
  function EscapeChar(c: char): string {
    if c == '"' then "\\\""
    else if c == '\\' then "\\\\"
    else if c == '\n' then "\\n"
    else if c == '\r' then "\\r"
    else if c == '\t' then "\\t"
    else if c as int == 8 then "\\b"
    else if c as int == 12 then "\\f"
    else if c as int == 11 then "\\u000b"
    else if c as int < 32 then "\\u00" + [HexDigit(c as int / 16), HexDigit(c as int % 16)]
    else [c]
  }

  function Escape(s: string): string {
    if s == "" then "" else EscapeChar(s[0]) + Escape(s[1..])
  }

  function Quote(s: string): string {
    "\"" + Escape(s) + "\""
  }

  function Print(j: Json): string
    decreases j, 0
  {
    match j
    case Null => "null"
    case Bool(b) => if b then "true" else "false"
    case Number(text) => text
    case Text(s) => Quote(s)
    case Array(items) => "[" + PrintItems(items) + "]"
    case Object(members) => "{" + PrintMembers(members) + "}"
  }

  function PrintItems(items: Items): string
    decreases items, 0
  {
    match items
    case NoItems => ""
    case Item(head, tail) => Print(head) + (if tail.NoItems? then "" else "," + PrintItems(tail))
  }

  function PrintMembers(members: Members): string
    decreases members, 0
  {
    match members
    case NoMembers => ""
    case Member(name, value, rest) =>
      PrintMember(name, value) + (if rest.NoMembers? then "" else "," + PrintMembers(rest))
  }

  function PrintMember(name: string, value: Json): string
    decreases value, 1
  {
    Quote(name) + ":" + Print(value)
  }

  // ----- Members in document order -----

  /** Every member at any depth, each before the members inside its own value. */
  function DocumentOrder(j: Json): seq<(string, Json)> {
    match j
    case Array(items) => ItemsOrder(items)
    case Object(members) => MembersOrder(members)
    case _ => []
  }

  function ItemsOrder(items: Items): seq<(string, Json)> {
    match items
    case NoItems => []
    case Item(head, tail) => DocumentOrder(head) + ItemsOrder(tail)
  }

  function MembersOrder(members: Members): seq<(string, Json)> {
    match members
    case NoMembers => []
    case Member(name, value, rest) => [(name, value)] + DocumentOrder(value) + MembersOrder(rest)
  }

  // ----- Strings that print as themselves -----

  predicate PlainChar(c: char) {
    c != '"' && c != '\\' && c as int >= 32
  }

  /** True of a string that needs no escaping. */
  predicate Plain(s: string) {
    forall i :: 0 <= i < |s| ==> PlainChar(s[i])
  }

  lemma {:induction false} EscapePlain(s: string)
    requires Plain(s)
    ensures Escape(s) == s
  {
    if s != "" {
      assert PlainChar(s[0]);
      EscapePlain(s[1..]);
      assert s == [s[0]] + s[1..];
    }
  }

  /** Every quote inside an escaped string has a backslash before it. */
  predicate Guarded(e: string) {
    forall i :: 0 <= i < |e| && e[i] == '"' ==> i > 0 && e[i - 1] == '\\'
  }

  lemma GuardedAppend(a: string, b: string)
    requires Guarded(a) && Guarded(b)
    ensures Guarded(a + b)
  {
  }

  lemma {:induction false} EscapeGuarded(s: string)
    ensures Guarded(Escape(s))
  {
    if s != "" {
      EscapeGuarded(s[1..]);
      GuardedAppend(EscapeChar(s[0]), Escape(s[1..]));
    }
  }

  /** Escaping leaves no control character behind, so a printed text holds no NUL. */
  lemma {:induction false} EscapeNoControl(s: string)
    ensures forall i :: 0 <= i < |Escape(s)| ==> Escape(s)[i] as int >= 32
  {
    if s != "" {
      EscapeNoControl(s[1..]);
      assert forall i :: 0 <= i < |EscapeChar(s[0])| ==> EscapeChar(s[0])[i] as int >= 32;
    }
  }

  predicate NoNul(t: string) {
    forall i :: 0 <= i < |t| ==> t[i] != '\0'
  }

  lemma QuoteNoNul(s: string)
    ensures NoNul(Quote(s))
  {
    EscapeNoControl(s);
  }

  lemma PrintNoNul(j: Json)
    ensures NoNul(Print(j))
    decreases j
  {
    match j
    case Text(s) => QuoteNoNul(s);
    case Array(items) => PrintItemsNoNul(items);
    case Object(members) => PrintMembersNoNul(members);
    case _ =>
  }

  lemma PrintItemsNoNul(items: Items)
    ensures NoNul(PrintItems(items))
    decreases items
  {
    match items
    case NoItems =>
    case Item(head, tail) => PrintNoNul(head); PrintItemsNoNul(tail);
  }

  lemma PrintMembersNoNul(members: Members)
    ensures NoNul(PrintMembers(members))
    decreases members
  {
    match members
    case NoMembers =>
    case Member(name, value, rest) => QuoteNoNul(name); PrintNoNul(value); PrintMembersNoNul(rest);
  }
}
