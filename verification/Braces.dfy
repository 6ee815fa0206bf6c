/** Brace depth of a text, and the depth of printed JSON. */
module Braces {
  import opened JsonTree

  function Delta(c: char): int {
    if c == '{' then 1 else if c == '}' then -1 else 0
  }

  /** Opening braces minus closing braces. */
  function Depth(s: string): int {
    if s == "" then 0 else Depth(s[..|s| - 1]) + Delta(s[|s| - 1])
  }

  predicate Balanced(s: string) {
    s != "" && Depth(s) == 0
  }

  /** The first k characters of s form its shortest non-empty balanced prefix. */
  predicate ShortestBalanced(s: string, k: nat) {
    && k <= |s| && Balanced(s[..k])
    && forall m :: 0 <= m < k ==> !Balanced(s[..m])
  }

  lemma {:induction false} DepthAppend(a: string, b: string)
    ensures Depth(a + b) == Depth(a) + Depth(b)
  {
    if b == "" {
      assert a + b == a;
    } else {
      var c := b[..|b| - 1];
      assert (a + b)[..|a + b| - 1] == a + c;
      DepthAppend(a, c);
    }
  }

  /** Depth ends at zero and no prefix dips below. */
  predicate Level(s: string) {
    Depth(s) == 0 && forall k :: 0 <= k <= |s| ==> Depth(s[..k]) >= 0
  }

  lemma LevelAppend(a: string, b: string)
    requires Level(a) && Level(b)
    ensures Level(a + b)
  {
    DepthAppend(a, b);
    forall k | 0 <= k <= |a + b| ensures Depth((a + b)[..k]) >= 0 {
      if k <= |a| {
        assert (a + b)[..k] == a[..k];
      } else {
        assert (a + b)[..k] == a + b[..k - |a|];
        DepthAppend(a, b[..k - |a|]);
      }
    }
  }

  predicate NoBraces(s: string) {
    forall i :: 0 <= i < |s| ==> s[i] != '{' && s[i] != '}'
  }

  lemma {:induction false} NoBracesDepth(s: string)
    requires NoBraces(s)
    ensures Depth(s) == 0
  {
    if s != "" {
      NoBracesDepth(s[..|s| - 1]);
    }
  }

  lemma NoBracesLevel(s: string)
    requires NoBraces(s)
    ensures Level(s)
  {
    NoBracesDepth(s);
    forall k | 0 <= k <= |s| ensures Depth(s[..k]) >= 0 {
      NoBracesDepth(s[..k]);
    }
  }

  /** Braces around a level text close only at the end. */
  lemma WrapLevel(w: string)
    requires Level(w)
    ensures Level("{" + w + "}")
    ensures forall k :: 0 < k <= |w| + 1 ==> Depth(("{" + w + "}")[..k]) > 0
  {
    var s := "{" + w + "}";
    assert Depth("{") == Delta('{') + Depth("") by { assert "{"[..0] == ""; }
    forall k | 0 < k <= |w| + 1 ensures Depth(s[..k]) > 0 {
      assert s[..k] == "{" + w[..k - 1];
      DepthAppend("{", w[..k - 1]);
    }
    assert s[..|w| + 1] == "{" + w;
    DepthAppend("{", w);
    assert s[..|s| - 1] == "{" + w;
    assert s[..0] == "";
    assert s[..|s|] == s;
  }

  // ----- Trees whose strings hold no braces -----

  predicate BraceFree(j: Json) {
    match j
    case Text(s) => NoBraces(s)
    case Array(items) => BraceFreeItems(items)
    case Object(members) => BraceFreeMembers(members)
    case _ => true
  }

  predicate BraceFreeItems(items: Items) {
    match items
    case NoItems => true
    case Item(head, tail) => BraceFree(head) && BraceFreeItems(tail)
  }

  predicate BraceFreeMembers(members: Members) {
    match members
    case NoMembers => true
    case Member(name, value, rest) => NoBraces(name) && BraceFree(value) && BraceFreeMembers(rest)
  }

  lemma {:induction false} EscapeNoBraces(s: string)
    requires NoBraces(s)
    ensures NoBraces(Escape(s))
  {
    if s != "" {
      EscapeNoBraces(s[1..]);
      EscapeCharNoBraces(s[0]);
    }
  }

  lemma EscapeCharNoBraces(c: char)
    requires c != '{' && c != '}'
    ensures NoBraces(EscapeChar(c))
  {
    var e := EscapeChar(c);
    if |e| == 6 {
      assert e[0] == '\\' && e[1] == 'u' && e[2] == '0' && e[3] == '0';
    }
  }

  lemma QuoteLevel(s: string)
    requires NoBraces(s)
    ensures Level(Quote(s))
  {
    EscapeNoBraces(s);
    NoBracesLevel(Quote(s));
  }

  lemma {:induction false} PrintLevel(j: Json)
    requires BraceFree(j)
    ensures Level(Print(j))
    decreases j, 0
  {
    match j
    case Text(s) => QuoteLevel(s);
    case Number(text) =>
      assert forall i :: 0 <= i < |text| ==> NumberChar(text[i]);
      NoBracesLevel(text);
    case Array(items) =>
      PrintItemsLevel(items);
      NoBracesLevel("[");
      NoBracesLevel("]");
      LevelAppend("[", PrintItems(items));
      LevelAppend("[" + PrintItems(items), "]");
    case Object(members) =>
      PrintMembersLevel(members);
      WrapLevel(PrintMembers(members));
    case _ => NoBracesLevel(Print(j));
  }

  lemma {:induction false} PrintItemsLevel(items: Items)
    requires BraceFreeItems(items)
    ensures Level(PrintItems(items))
    decreases items, 0
  {
    match items
    case NoItems => NoBracesLevel("");
    case Item(head, tail) =>
      PrintLevel(head);
      PrintItemsLevel(tail);
      CommaLevel(Print(head), PrintItems(tail));
      assert Print(head) + "" == Print(head);
  }

  lemma CommaLevel(a: string, b: string)
    requires Level(a) && Level(b)
    ensures Level(a + ("," + b))
  {
    NoBracesLevel(",");
    LevelAppend(",", b);
    LevelAppend(a, "," + b);
  }

  lemma {:induction false} PrintMembersLevel(members: Members)
    requires BraceFreeMembers(members)
    ensures Level(PrintMembers(members))
    decreases members, 0
  {
    match members
    case NoMembers => NoBracesLevel("");
    case Member(name, value, rest) =>
      QuoteLevel(name);
      NoBracesLevel(":");
      PrintLevel(value);
      PrintMembersLevel(rest);
      LevelAppend(Quote(name), ":");
      LevelAppend(Quote(name) + ":", Print(value));
      CommaLevel(PrintMember(name, value), PrintMembers(rest));
      assert PrintMember(name, value) + "" == PrintMember(name, value);
  }

  /** A printed object is its own shortest balanced prefix, whatever follows it. */
  lemma {:induction false} ObjectShortest(j: Json, after: string)
    requires j.Object? && BraceFree(j)
    ensures ShortestBalanced(Print(j) + after, |Print(j)|)
  {
    var t, s := Print(j), Print(j) + after;
    PrintLevel(j);
    PrintMembersLevel(j.members);
    WrapLevel(PrintMembers(j.members));
    assert s[..|t|] == t;
    forall m | 0 <= m < |t| ensures !Balanced(s[..m]) {
      assert s[..m] == t[..m];
    }
  }
}
