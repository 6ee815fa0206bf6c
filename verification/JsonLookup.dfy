/** The substring search over a printed tree is a tree lookup. */
module JsonLookup {
  import opened Options
  import opened JsonTree
  import opened CStrings
  import opened JsonScan

  /** A found member's value, with the offset of that value's text. */
  datatype Hit = Miss | Found(at: nat, value: Json)

  function Shift(h: Hit, n: nat): Hit {
    if h.Miss? then Miss else Found(h.at + n, h.value)
  }

  function Lookup(j: Json, key: string, x: char): Hit
    decreases j, 0
  {
    match j
    case Array(items) => Shift(LookupItems(items, key, x), 1)
    case Object(members) => Shift(LookupMembers(members, key, x), 1)
    case _ => Miss
  }

  function LookupItems(items: Items, key: string, x: char): Hit
    decreases items, 0
  {
    match items
    case NoItems => Miss
    case Item(head, tail) => Then(Lookup(head, key, x), |Print(head)| + 1, LookupItems(tail, key, x))
  }

  function LookupMembers(members: Members, key: string, x: char): Hit
    decreases members, 0
  {
    match members
    case NoMembers => Miss
    case Member(name, value, rest) =>
      Then(LookupMember(name, value, key, x), |PrintMember(name, value)| + 1, LookupMembers(rest, key, x))
  }

  function LookupMember(name: string, value: Json, key: string, x: char): Hit
    decreases value, 1
  {
    if NameMatches(name, key) && Opens(value, x) then Found(|Quote(name)| + 1, value)
    else Shift(Lookup(value, key, x), |Quote(name)| + 1)
  }

  /** The first hit, where g starts n characters after h. */
  function Then(h: Hit, n: nat, g: Hit): Hit {
    if h.Found? then h else Shift(g, n)
  }

  /** The lookup finds the first qualifying member in document order. */
  lemma {:induction false} LookupIsFirst(j: Json, key: string, x: char)
    ensures Lookup(j, key, x).Found? <==> First(DocumentOrder(j), key, x).Some?
    ensures Lookup(j, key, x).Found? ==> First(DocumentOrder(j), key, x).value == Lookup(j, key, x).value
    decreases j
  {
    match j
    case Array(items) => LookupItemsIsFirst(items, key, x);
    case Object(members) => LookupMembersIsFirst(members, key, x);
    case _ =>
  }

  lemma {:induction false} LookupItemsIsFirst(items: Items, key: string, x: char)
    ensures LookupItems(items, key, x).Found? <==> First(ItemsOrder(items), key, x).Some?
    ensures LookupItems(items, key, x).Found? ==>
              First(ItemsOrder(items), key, x).value == LookupItems(items, key, x).value
    decreases items
  {
    match items
    case NoItems =>
    case Item(head, tail) =>
      LookupIsFirst(head, key, x);
      LookupItemsIsFirst(tail, key, x);
      FirstAppend(DocumentOrder(head), ItemsOrder(tail), key, x);
  }

  lemma {:induction false} LookupMembersIsFirst(members: Members, key: string, x: char)
    ensures LookupMembers(members, key, x).Found? <==> First(MembersOrder(members), key, x).Some?
    ensures LookupMembers(members, key, x).Found? ==>
              First(MembersOrder(members), key, x).value == LookupMembers(members, key, x).value
    decreases members
  {
    match members
    case NoMembers =>
    case Member(name, value, rest) =>
      var own := [(name, value)];
      LookupIsFirst(value, key, x);
      LookupMembersIsFirst(rest, key, x);
      FirstAppend(own + DocumentOrder(value), MembersOrder(rest), key, x);
      FirstAppend(own, DocumentOrder(value), key, x);
      assert First(own, key, x) == if NameMatches(name, key) && Opens(value, x) then Some(value) else None;
  }

  // ----- The offset of a hit -----

  lemma AtInside(before: string, inner: string, after: string, b: nat, s: string)
    requires At(inner, b, s)
    ensures At(before + inner + after, |before| + b, s)
  {
    var t := before + inner + after;
    forall k | 0 <= k < |s| ensures t[|before| + b + k] == s[k] {
      assert t[|before| + (b + k)] == inner[b + k];
    }
  }

  /** At its offset in the printed tree, a hit's value is printed. */
  lemma {:induction false} LookupAt(j: Json, key: string, x: char)
    ensures Lookup(j, key, x).Found? ==> At(Print(j), Lookup(j, key, x).at, Print(Lookup(j, key, x).value))
    decreases j, 0
  {
    hide At;
    match j
    case Array(items) =>
      LookupItemsAt(items, key, x);
      if LookupItems(items, key, x).Found? {
        var h := LookupItems(items, key, x);
        AtInside("[", PrintItems(items), "]", h.at, Print(h.value));
      }
    case Object(members) =>
      LookupMembersAt(members, key, x);
      if LookupMembers(members, key, x).Found? {
        var h := LookupMembers(members, key, x);
        AtInside("{", PrintMembers(members), "}", h.at, Print(h.value));
      }
    case _ =>
  }

  lemma {:induction false} LookupItemsAt(items: Items, key: string, x: char)
    ensures LookupItems(items, key, x).Found? ==>
              At(PrintItems(items), LookupItems(items, key, x).at, Print(LookupItems(items, key, x).value))
    decreases items, 0
  {
    hide At, Print, Lookup;
    match items
    case NoItems =>
    case Item(head, tail) =>
      var h, g := Lookup(head, key, x), LookupItems(tail, key, x);
      var s, u := Print(head), if tail.NoItems? then "" else "," + PrintItems(tail);
      if h.Found? {
        LookupAt(head, key, x);
        AtInside("", s, u, h.at, Print(h.value));
        assert "" + s + u == PrintItems(items);
      } else if g.Found? {
        LookupItemsAt(tail, key, x);
        AtInside(s + ",", PrintItems(tail), "", g.at, Print(g.value));
        assert s + "," + PrintItems(tail) + "" == PrintItems(items);
      }
  }

  lemma {:induction false} LookupMemberAt(name: string, value: Json, key: string, x: char)
    ensures LookupMember(name, value, key, x).Found? ==>
              At(PrintMember(name, value), LookupMember(name, value, key, x).at,
                 Print(LookupMember(name, value, key, x).value))
    decreases value, 1
  {
    hide At, Escape;
    var head := Quote(name) + ":";
    if NameMatches(name, key) && Opens(value, x) {
      WholeAt(Print(value));
      AtInside(head, Print(value), "", 0, Print(value));
      assert head + Print(value) + "" == PrintMember(name, value);
    } else if Lookup(value, key, x).Found? {
      var h := Lookup(value, key, x);
      LookupAt(value, key, x);
      AtInside(head, Print(value), "", h.at, Print(h.value));
      assert head + Print(value) + "" == PrintMember(name, value);
    }
  }

  lemma WholeAt(s: string)
    ensures At(s, 0, s)
  {
  }

  lemma {:induction false} LookupMembersAt(members: Members, key: string, x: char)
    ensures LookupMembers(members, key, x).Found? ==>
              At(PrintMembers(members), LookupMembers(members, key, x).at,
                 Print(LookupMembers(members, key, x).value))
    decreases members, 0
  {
    hide At, Print, PrintMember, LookupMember;
    match members
    case NoMembers =>
    case Member(name, value, rest) =>
      var h, g := LookupMember(name, value, key, x), LookupMembers(rest, key, x);
      var s, u := PrintMember(name, value), if rest.NoMembers? then "" else "," + PrintMembers(rest);
      if h.Found? {
        LookupMemberAt(name, value, key, x);
        AtInside("", s, u, h.at, Print(h.value));
        assert "" + s + u == PrintMembers(members);
      } else if g.Found? {
        LookupMembersAt(rest, key, x);
        AtInside(s + ",", PrintMembers(rest), "", g.at, Print(g.value));
        assert s + "," + PrintMembers(rest) + "" == PrintMembers(members);
      }
  }

  // ----- The search finds what the lookup finds -----

  /** The first match over `len` characters of t from index a is the one h stands for. */
  predicate Scanned(t: string, a: nat, len: nat, h: Hit, key: string, x: char) {
    match h
    case Miss => FirstMatch(t, a, a + len, Pattern(key, x)) == None
    case Found(at, _) =>
      at >= |key| + 3 && FirstMatch(t, a, a + len, Pattern(key, x)) == Some(a + at - |key| - 3)
  }

  lemma ScannedThen(t: string, a: nat, n: nat, m: nat, h: Hit, g: Hit, key: string, x: char)
    requires Scanned(t, a, n, h, key, x) && Scanned(t, a + n, m, g, key, x)
    ensures Scanned(t, a, n + m, Then(h, n, g), key, x)
  {
    FirstMatchSplit(t, a, a + n, a + n + m, Pattern(key, x));
  }

  /** A stretch of text without quotes holds no match. */
  lemma ScanNoQuote(t: string, a: nat, s: string, key: string, x: char)
    requires At(t, a, s) && forall i :: 0 <= i < |s| ==> s[i] != '"'
    ensures Scanned(t, a, |s|, Miss, key, x)
  {
    forall i | a <= i < a + |s| ensures !At(t, i, Pattern(key, x)) {
      AtIndex(t, a, s, i - a);
      if At(t, i, Pattern(key, x)) {
        MatchParts(t, i, key, x);
      }
    }
    FirstMatchMeaning(t, a, a + |s|, Pattern(key, x));
  }

  lemma PrintOpens(j: Json, x: char)
    requires Opener(x)
    ensures Print(j) != "" && (Print(j)[0] == x <==> Opens(j, x))
  {
    match j
    case Number(text) => assert NumberChar(text[0]);
    case _ =>
  }

  lemma {:induction false} ScanValue(t: string, a: nat, j: Json, key: string, x: char)
    requires Key(key) && Opener(x) && At(t, a, Print(j)) && Delimited(t, a + |Print(j)|)
    ensures Scanned(t, a, |Print(j)|, Lookup(j, key, x), key, x)
    decreases j, 0
  {
    hide At, Scanned, Escape, PrintItems, PrintMembers, LookupItems, LookupMembers;
    match j
    case Text(s) =>
      ScanString(t, a, s, key, x);
    case Number(text) => ScanNumber(t, a, text, key, x);
    case Array(items) =>
      Unbracket(t, a, '[', PrintItems(items), ']');
      ScanItems(t, a + 1, items, key, x);
      ScanBracketed(t, a, '[', PrintItems(items), ']', LookupItems(items, key, x), key, x);
    case Object(members) =>
      Unbracket(t, a, '{', PrintMembers(members), '}');
      ScanMembers(t, a + 1, members, key, x);
      ScanBracketed(t, a, '{', PrintMembers(members), '}', LookupMembers(members, key, x), key, x);
    case _ => ScanWord(t, a, j, key, x);
  }

  lemma ScanString(t: string, a: nat, s: string, key: string, x: char)
    requires Key(key) && At(t, a, Quote(s)) && Delimited(t, a + |Quote(s)|)
    ensures Scanned(t, a, |Quote(s)|, Miss, key, x)
  {
    ScanText(t, a, s, key, x);
    FirstMatchMeaning(t, a, a + |Quote(s)|, Pattern(key, x));
  }

  lemma ScanWord(t: string, a: nat, j: Json, key: string, x: char)
    requires (j.Null? || j.Bool?) && At(t, a, Print(j))
    ensures Scanned(t, a, |Print(j)|, Miss, key, x)
  {
    ScanNoQuote(t, a, Print(j), key, x);
  }

  lemma ScanNumber(t: string, a: nat, text: NumberText, key: string, x: char)
    requires At(t, a, text)
    ensures Scanned(t, a, |text|, Miss, key, x)
  {
    assert forall i :: 0 <= i < |text| ==> NumberChar(text[i]);
    ScanNoQuote(t, a, text, key, x);
  }

  lemma Unbracket(t: string, a: nat, open: char, inner: string, close: char)
    requires At(t, a, [open] + inner + [close])
    ensures At(t, a, [open]) && At(t, a + 1, inner) && At(t, a + 1 + |inner|, [close])
    ensures t[a + 1 + |inner|] == close
  {
    AtSplit(t, a, [open] + inner, [close]);
    AtSplit(t, a, [open], inner);
    AtIndex(t, a + 1 + |inner|, [close], 0);
  }

  lemma ScanBracketed(t: string, a: nat, open: char, inner: string, close: char, h: Hit, key: string, x: char)
    requires open != '"' && close != '"'
    requires At(t, a, [open]) && At(t, a + 1 + |inner|, [close])
    requires Scanned(t, a + 1, |inner|, h, key, x)
    ensures Scanned(t, a, |inner| + 2, Shift(h, 1), key, x)
  {
    ScanNoQuote(t, a, [open], key, x);
    ScanNoQuote(t, a + 1 + |inner|, [close], key, x);
    ScannedThen(t, a, 1, |inner|, Miss, h, key, x);
    ScannedThen(t, a, 1 + |inner|, 1, Shift(h, 1), Miss, key, x);
  }

  lemma {:induction false} ScanItems(t: string, a: nat, items: Items, key: string, x: char)
    requires Key(key) && Opener(x) && At(t, a, PrintItems(items))
    requires a + |PrintItems(items)| < |t| && t[a + |PrintItems(items)|] == ']'
    ensures Scanned(t, a, |PrintItems(items)|, LookupItems(items, key, x), key, x)
    decreases items, 0
  {
    hide At, FirstMatch, Scanned;
    match items
    case NoItems => ScanNothing(t, a, key, x);
    case Item(head, tail) =>
      var n := |Print(head)|;
      if tail.NoItems? {
        assert PrintItems(items) == Print(head);
        ScanValue(t, a, head, key, x);
      } else {
        assert PrintItems(items) == Print(head) + ("," + PrintItems(tail));
        assert Scanned(t, a, n, Lookup(head, key, x), key, x) by {
          SplitAtComma(t, a, Print(head), PrintItems(tail));
          ScanValue(t, a, head, key, x);
        }
        assert Scanned(t, a + n + 1, |PrintItems(tail)|, LookupItems(tail, key, x), key, x) by {
          SplitAtComma(t, a, Print(head), PrintItems(tail));
          ScanItems(t, a + n + 1, tail, key, x);
        }
        ScanSeparated(t, a, Print(head), PrintItems(tail), Lookup(head, key, x), LookupItems(tail, key, x), key, x);
      }
  }

  lemma SplitAtComma(t: string, a: nat, s: string, u: string)
    requires At(t, a, s + ("," + u))
    ensures At(t, a, s) && At(t, a + |s|, ",") && At(t, a + |s| + 1, u) && t[a + |s|] == ','
  {
    AtSplit(t, a, s, "," + u);
    AtSplit(t, a + |s|, ",", u);
    AtIndex(t, a + |s|, ",", 0);
  }

  lemma ScanSeparated(t: string, a: nat, s: string, u: string, h: Hit, g: Hit, key: string, x: char)
    requires At(t, a, s + ("," + u))
    requires Scanned(t, a, |s|, h, key, x) && Scanned(t, a + |s| + 1, |u|, g, key, x)
    ensures Scanned(t, a, |s + ("," + u)|, Then(h, |s| + 1, g), key, x)
  {
    SplitAtComma(t, a, s, u);
    ScanNoQuote(t, a + |s|, ",", key, x);
    ScannedThen(t, a, |s|, 1, h, Miss, key, x);
    ScannedThen(t, a, |s| + 1, |u|, h, g, key, x);
  }

  lemma ScanNothing(t: string, a: nat, key: string, x: char)
    ensures Scanned(t, a, 0, Miss, key, x)
  {
  }

  /** One member, its name and value, followed by a comma or the closing brace. */
  lemma {:induction false} ScanMember(t: string, a: nat, name: string, value: Json, key: string, x: char)
    requires Key(key) && Opener(x) && At(t, a, PrintMember(name, value))
    requires Delimited(t, a + |PrintMember(name, value)|)
    ensures Scanned(t, a, |PrintMember(name, value)|, LookupMember(name, value, key, x), key, x)
    decreases value, 1
  {
    hide At, FirstMatch, Scanned, Escape;
    var n := |Quote(name)| + 1;
    AtSplit(t, a, Quote(name) + ":", Print(value));
    if NameMatches(name, key) && Opens(value, x) {
      ScanHitName(t, a, name, value, key, x);
    } else {
      ScanMissName(t, a, name, value, key, x);
      ScanValue(t, a + n, value, key, x);
      ScannedThen(t, a, n, |Print(value)|, Miss, Lookup(value, key, x), key, x);
    }
  }

  lemma ScanHitName(t: string, a: nat, name: string, value: Json, key: string, x: char)
    requires Key(key) && Opener(x) && At(t, a, Quote(name) + ":") && At(t, a + |Quote(name)| + 1, Print(value))
    requires NameMatches(name, key) && Opens(value, x)
    ensures Scanned(t, a, |PrintMember(name, value)|, Found(|Quote(name)| + 1, value), key, x)
  {
    hide Escape, FirstMatch;
    var v := a + |Quote(name)| + 1;
    assert v < |t| && t[v] == x by {
      PrintOpens(value, x);
      AtIndex(t, v, Print(value), 0);
    }
    ScanName(t, a, name, key, x);
    FirstMatchIs(t, a, v - |key| - 3, a + |PrintMember(name, value)|, Pattern(key, x));
  }

  lemma ScanMissName(t: string, a: nat, name: string, value: Json, key: string, x: char)
    requires Key(key) && Opener(x) && At(t, a, Quote(name) + ":") && At(t, a + |Quote(name)| + 1, Print(value))
    requires !(NameMatches(name, key) && Opens(value, x))
    ensures Scanned(t, a, |Quote(name)| + 1, Miss, key, x)
  {
    hide Escape, FirstMatch;
    PrintOpens(value, x);
    AtIndex(t, a + |Quote(name)| + 1, Print(value), 0);
    ScanName(t, a, name, key, x);
    FirstMatchMeaning(t, a, a + |Quote(name)| + 1, Pattern(key, x));
  }

  lemma {:induction false} ScanMembers(t: string, a: nat, members: Members, key: string, x: char)
    requires Key(key) && Opener(x) && At(t, a, PrintMembers(members))
    requires a + |PrintMembers(members)| < |t| && t[a + |PrintMembers(members)|] == '}'
    ensures Scanned(t, a, |PrintMembers(members)|, LookupMembers(members, key, x), key, x)
    decreases members, 0
  {
    hide At, FirstMatch, Scanned, PrintMember;
    match members
    case NoMembers => ScanNothing(t, a, key, x);
    case Member(name, value, rest) =>
      var one, tail := PrintMember(name, value), PrintMembers(rest);
      if rest.NoMembers? {
        assert PrintMembers(members) == one;
        ScanMember(t, a, name, value, key, x);
      } else {
        assert PrintMembers(members) == one + ("," + tail);
        assert Scanned(t, a, |one|, LookupMember(name, value, key, x), key, x) by {
          SplitAtComma(t, a, one, tail);
          ScanMember(t, a, name, value, key, x);
        }
        assert Scanned(t, a + |one| + 1, |tail|, LookupMembers(rest, key, x), key, x) by {
          SplitAtComma(t, a, one, tail);
          ScanMembers(t, a + |one| + 1, rest, key, x);
        }
        ScanSeparated(t, a, one, tail, LookupMember(name, value, key, x), LookupMembers(rest, key, x), key, x);
      }
  }

  /** strstr of the pattern over a whole printed tree: it succeeds iff the tree has a
      qualifying member, and then the matched text ends at the first character of the
      first such member's value. */
  lemma {:induction false} SearchPrinted(j: Json, key: string, x: char)
    requires Key(key) && Opener(x)
    ensures var r := StrStr(Print(j), Pattern(key, x));
            var first := First(DocumentOrder(j), key, x);
            && (r.Some? <==> first.Some?)
            && (r.Some? ==> At(Print(j), r.value + |key| + 3, Print(first.value)))
  {
    hide At, FirstMatch, Print, Lookup, DocumentOrder, First;
    var t := Print(j);
    WholeAt(t);
    ScanValue(t, 0, j, key, x);
    LookupAt(j, key, x);
    LookupIsFirst(j, key, x);
    FirstMatchToEnd(t, Pattern(key, x));
  }
}
