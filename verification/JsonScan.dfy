/** Why a substring search finds a member: in a printed tree the pattern "key":X
    occurs only where a member of a matching name begins its value with X. */
module JsonScan {
  import opened Options
  import opened JsonTree
  import opened CStrings

  predicate KeyChar(c: char) {
    '0' <= c <= '9' || 'a' <= c <= 'z' || 'A' <= c <= 'Z'
  }

  /** An alphanumeric key. */
  predicate Key(key: string) {
    forall i :: 0 <= i < |key| ==> KeyChar(key[i])
  }

  /** The character that opens a string, an object or an array. */
  predicate Opener(x: char) {
    x == '"' || x == '{' || x == '['
  }

  predicate Opens(j: Json, x: char) {
    (x == '"' && j.Text?) || (x == '{' && j.Object?) || (x == '[' && j.Array?)
  }

  /** The pattern the extractors search for. */
  function Pattern(key: string, x: char): string {
    "\"" + key + "\":" + [x]
  }

  /** t ends in a quote followed by the key. */
  predicate QuoteTail(t: string, key: string) {
    |t| > |key| && t[|t| - |key| - 1..] == "\"" + key
  }

  /** The member names the search takes for the key: the key itself, and names
      whose text ends in a quote character followed by the key. */
  predicate NameMatches(name: string, key: string) {
    name == key || QuoteTail(name, key)
  }

  /** The first member, in document order, with a matching name and a value of the wanted kind. */
  function First(order: seq<(string, Json)>, key: string, x: char): (r: Option<Json>)
    ensures r.Some? ==> Opens(r.value, x)
  {
    if order == [] then None
    else if NameMatches(order[0].0, key) && Opens(order[0].1, x) then Some(order[0].1)
    else First(order[1..], key, x)
  }

  /** What `First` means: the earliest qualifying member; none iff no member qualifies. */
  lemma {:induction false} FirstIsEarliest(order: seq<(string, Json)>, key: string, x: char)
    ensures First(order, key, x).None? <==>
            forall i :: 0 <= i < |order| ==> !(NameMatches(order[i].0, key) && Opens(order[i].1, x))
    ensures First(order, key, x).Some? ==>
              exists i :: 0 <= i < |order| && NameMatches(order[i].0, key) && order[i].1 == First(order, key, x).value
                          && forall k :: 0 <= k < i ==> !(NameMatches(order[k].0, key) && Opens(order[k].1, x))
  {
    if order != [] {
      var rest := order[1..];
      FirstIsEarliest(rest, key, x);
      assert forall i :: 0 < i < |order| ==> order[i] == rest[i - 1];
      if !(NameMatches(order[0].0, key) && Opens(order[0].1, x)) {
        if First(rest, key, x).Some? {
          var i :| 0 <= i < |rest| && NameMatches(rest[i].0, key) && rest[i].1 == First(rest, key, x).value
                   && forall k :: 0 <= k < i ==> !(NameMatches(rest[k].0, key) && Opens(rest[k].1, x));
          assert order[i + 1] == rest[i];
        } else {
          assert forall i :: 0 <= i < |rest| ==> rest[i] == order[i + 1];
        }
      }
    }
  }

  lemma {:induction false} FirstAppend(a: seq<(string, Json)>, b: seq<(string, Json)>, key: string, x: char)
    ensures First(a + b, key, x) == if First(a, key, x).Some? then First(a, key, x) else First(b, key, x)
  {
    if a == [] {
      assert a + b == b;
    } else {
      assert (a + b)[1..] == a[1..] + b;
      FirstAppend(a[1..], b, key, x);
    }
  }

  // ----- Names against their escaped text -----

  lemma {:induction false} EscapeIsKey(name: string, key: string)
    requires Key(key)
    ensures Escape(name) == key <==> name == key
  {
    if name == key {
      assert Plain(name);
      EscapePlain(name);
    } else if Escape(name) == key && name != "" {
      var e := EscapeChar(name[0]);
      assert e <= key;
      assert KeyChar(key[0]);
      assert e == [name[0]];
      assert key == [name[0]] + key[1..];
      assert Escape(name[1..]) == Escape(name)[1..];
      EscapeIsKey(name[1..], key[1..]);
    }
  }

  lemma QuoteTailCons(c: char, t: string, key: string)
    ensures QuoteTail([c] + t, key) <==> QuoteTail(t, key) || (c == '"' && t == key)
  {
    var ct := [c] + t;
    if |t| > |key| {
      assert ct[|ct| - |key| - 1..] == t[|t| - |key| - 1..];
    } else if |t| == |key| {
      assert ct[0..] == ct;
      assert ct[1..] == t;
      assert ("\"" + key)[1..] == key;
    }
  }

  lemma {:induction false} QuoteTailSkips(p: string, t: string, key: string)
    requires forall i :: 0 <= i < |p| ==> p[i] != '"'
    ensures QuoteTail(p + t, key) <==> QuoteTail(t, key)
  {
    if p == "" {
      assert p + t == t;
    } else {
      assert p + t == [p[0]] + (p[1..] + t);
      QuoteTailCons(p[0], p[1..] + t, key);
      QuoteTailSkips(p[1..], t, key);
    }
  }

  lemma ShortNoTail(t: string, key: string)
    ensures |t| <= |key| ==> !QuoteTail(t, key)
  {
  }

  lemma {:induction false} EscapeQuoteTail(name: string, key: string)
    requires Key(key)
    ensures QuoteTail(Escape(name), key) <==> QuoteTail(name, key)
  {
    hide QuoteTail;
    if name == "" {
      ShortNoTail(name, key);
    } else {
      var c, rest := name[0], name[1..];
      assert name == [c] + rest;
      QuoteTailCons(c, rest, key);
      EscapeQuoteTail(rest, key);
      EscapeIsKey(rest, key);
      if c == '"' {
        assert Escape(name) == ['\\'] + (['"'] + Escape(rest));
        QuoteTailCons('\\', ['"'] + Escape(rest), key);
        QuoteTailCons('"', Escape(rest), key);
      } else {
        QuoteTailSkips(EscapeChar(c), Escape(rest), key);
      }
    }
  }

  // ----- Positions in a printed text -----

  lemma AtSplit(t: string, a: nat, s: string, u: string)
    requires At(t, a, s + u)
    ensures At(t, a, s) && At(t, a + |s|, u)
  {
    forall k | 0 <= k < |s| ensures t[a + k] == s[k] {
      assert (s + u)[k] == s[k];
    }
    forall k | 0 <= k < |u| ensures t[a + |s| + k] == u[k] {
      assert (s + u)[|s| + k] == u[k];
    }
  }

  lemma AtJoin(t: string, a: nat, s: string, u: string)
    requires At(t, a, s) && At(t, a + |s|, u)
    ensures At(t, a, s + u)
  {
  }

  lemma AtIndex(t: string, a: nat, s: string, i: nat)
    requires At(t, a, s) && i < |s|
    ensures t[a + i] == s[i]
  {
  }

  /** Where a value ends: the text does, or a comma or closing bracket follows. */
  predicate Delimited(t: string, a: nat) {
    a == |t| || (a < |t| && (t[a] == ',' || t[a] == '}' || t[a] == ']'))
  }

  /** The characters of a match. */
  lemma MatchParts(t: string, i: nat, key: string, x: char)
    requires At(t, i, Pattern(key, x))
    ensures i + 3 + |key| < |t|
    ensures t[i] == '"' && t[i + 1 + |key|] == '"' && t[i + 2 + |key|] == ':' && t[i + 3 + |key|] == x
    ensures At(t, i, "\"" + key)
    ensures forall k :: i < k <= i + |key| ==> t[k] == key[k - i - 1]
  {
    assert Pattern(key, x) == ("\"" + key) + "\":" + [x];
    AtSplit(t, i, ("\"" + key) + "\":", [x]);
    AtSplit(t, i, "\"" + key, "\":");
    AtIndex(t, i + 1 + |key|, "\":", 0);
    AtIndex(t, i + 1 + |key|, "\":", 1);
    AtIndex(t, i + 3 + |key|, [x], 0);
    AtIndex(t, i, "\"" + key, 0);
    forall k | i < k <= i + |key| ensures t[k] == key[k - i - 1] {
      AtIndex(t, i, "\"" + key, k - i);
    }
  }

  /** A match starting on or inside a string token ends its key at the closing quote. */
  lemma MatchClosesToken(t: string, a: nat, e: string, i: nat, key: string, x: char)
    requires Key(key) && Guarded(e) && At(t, a, "\"" + e + "\"")
    requires a <= i <= a + |e| + 1 && At(t, i, Pattern(key, x))
    requires a + |e| + 2 < |t| ==> !KeyChar(t[a + |e| + 2]) && t[a + |e| + 2] != '"'
    ensures i + 1 + |key| == a + |e| + 1
  {
    var b, q := a + |e| + 1, i + 1 + |key|;
    var token := "\"" + e + "\"";
    AtIndex(t, a, token, |e| + 1);
    MatchParts(t, i, key, x);
    assert forall k :: i < k < q ==> KeyChar(t[k]) by {
      forall k | i < k < q ensures KeyChar(t[k]) {
        assert t[k] == key[k - i - 1];
      }
    }
    if i < b && q < b {
      AtIndex(t, a, token, q - a);
      AtIndex(t, a, token, q - a - 1);
    }
  }

  /** A string value holds no match. */
  lemma ScanText(t: string, a: nat, s: string, key: string, x: char)
    requires Key(key) && At(t, a, Quote(s)) && Delimited(t, a + |Quote(s)|)
    ensures NoMatch(t, a, a + |Quote(s)|, Pattern(key, x))
  {
    EscapeGuarded(s);
    forall i | a <= i < a + |Quote(s)| ensures !At(t, i, Pattern(key, x)) {
      if At(t, i, Pattern(key, x)) {
        MatchClosesToken(t, a, Escape(s), i, key, x);
        MatchParts(t, i, key, x);
        assert false;
      }
    }
  }

  /** A member's name holds a match iff the name matches and the value opens with x;
      then the only match is the one whose key ends at the name's closing quote. */
  lemma ScanName(t: string, a: nat, name: string, key: string, x: char)
    requires Key(key) && At(t, a, Quote(name) + ":")
    ensures var v := a + |Quote(name)| + 1;
            var hit := NameMatches(name, key) && v < |t| && t[v] == x;
            && (!hit ==> NoMatch(t, a, v, Pattern(key, x)))
            && (hit ==> v - |key| - 3 >= a && At(t, v - |key| - 3, Pattern(key, x))
                        && NoMatch(t, a, v - |key| - 3, Pattern(key, x)))
  {
    hide At, Escape, NameMatches;
    var v := a + |Quote(name)| + 1;
    forall i | a <= i < v && At(t, i, Pattern(key, x))
      ensures NameMatches(name, key) && v < |t| && t[v] == x && i == v - |key| - 3
    {
      MatchOnName(t, a, name, i, key, x);
    }
    if NameMatches(name, key) && v < |t| && t[v] == x {
      MatchFromName(t, a, name, key, x);
    }
  }

  lemma MatchOnName(t: string, a: nat, name: string, i: nat, key: string, x: char)
    requires Key(key) && At(t, a, Quote(name) + ":")
    requires a <= i < a + |Quote(name)| + 1 && At(t, i, Pattern(key, x))
    ensures NameMatches(name, key) && i + 3 + |key| == a + |Quote(name)| + 1
    ensures a + |Quote(name)| + 1 < |t| && t[a + |Quote(name)| + 1] == x
  {
    hide At, Pattern, NameMatches;
    var e := Escape(name);
    EscapeGuarded(name);
    AtSplit(t, a, Quote(name), ":");
    AtIndex(t, a, Quote(name) + ":", |e| + 2);
    MatchParts(t, i, key, x);
    assert i < a + |Quote(name)|;
    MatchClosesToken(t, a, e, i, key, x);
    NameFromMatch(t, a, name, i, key);
  }

  lemma NameFromMatch(t: string, a: nat, name: string, i: nat, key: string)
    requires Key(key) && At(t, a, Quote(name))
    requires a <= i && i + 1 + |key| == a + |Escape(name)| + 1
    requires At(t, i, "\"" + key)
    ensures NameMatches(name, key)
  {
    var e := Escape(name);
    TailOfToken(t, a, e, i, key);
    EscapeIsKey(name, key);
    EscapeQuoteTail(name, key);
    QuoteTailCons('"', e, key);
  }

  lemma TailOfToken(t: string, a: nat, e: string, i: nat, key: string)
    requires At(t, a, "\"" + e + "\"")
    requires a <= i && i + 1 + |key| == a + |e| + 1
    requires At(t, i, "\"" + key)
    ensures QuoteTail(['"'] + e, key)
  {
    var q, u := ['"'] + e, "\"" + key;
    AtSplit(t, a, q, "\"");
    forall k | 0 <= k < |u| ensures q[i - a..][k] == u[k] {
      AtIndex(t, a, q, i - a + k);
      AtIndex(t, i, u, k);
    }
  }

  lemma MatchFromName(t: string, a: nat, name: string, key: string, x: char)
    requires Key(key) && At(t, a, Quote(name) + ":") && NameMatches(name, key)
    requires a + |Quote(name)| + 1 < |t| && t[a + |Quote(name)| + 1] == x
    ensures var i := a + |Quote(name)| - 2 - |key|; i >= a && At(t, i, Pattern(key, x))
  {
    hide At, Escape, QuoteTail, Pattern, Key;
    var e := Escape(name);
    EscapeIsKey(name, key);
    EscapeQuoteTail(name, key);
    QuoteTailCons('"', e, key);
    var q := ['"'] + e;
    assert q + "\":" == Quote(name) + ":";
    assert |Quote(name)| == |q| + 1;
    TailLonger(q, key);
    MatchFromTail(t, a, q, key, x);
  }

  lemma TailLonger(q: string, key: string)
    requires QuoteTail(q, key)
    ensures |q| > |key|
  {
  }

  lemma MatchFromTail(t: string, a: nat, q: string, key: string, x: char)
    requires At(t, a, q + "\":") && QuoteTail(q, key)
    requires a + |q| + 2 < |t| && t[a + |q| + 2] == x
    ensures At(t, a + |q| - |key| - 1, Pattern(key, x))
  {
    var n := |q| - |key| - 1;
    assert q == q[..n] + ("\"" + key);
    assert q + "\":" == q[..n] + (("\"" + key) + "\":");
    AtSplit(t, a, q[..n], ("\"" + key) + "\":");
    AtJoin(t, a + n, ("\"" + key) + "\":", [x]);
    assert Pattern(key, x) == ("\"" + key) + "\":" + [x];
  }
}
