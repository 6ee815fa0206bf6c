/** The C helpers of json_utils.c over NUL-terminated arrays, each against what it computes. */
module JsonUtils {
  import opened Options
  import opened CStrings
  import opened JsonScan
  import opened Braces

  type byte = x: int | 0 <= x < 256
  newtype int32 = x: int | -0x8000_0000 <= x < 0x8000_0000

  const SEARCH_SIZE := 256

  /** The search string: the pattern cut by snprintf to its 256-byte buffer. */
  function SearchString(field: string, x: char): string {
    var p := Pattern(field, x);
    if |p| < SEARCH_SIZE then p else p[..SEARCH_SIZE - 1]
  }

  /** What a copy cut to `size` bytes with its terminator holds. */
  function Stored(value: string, size: nat): string
    requires size >= 1
  {
    (if |value| < size then value else value[..size - 1]) + [NUL]
  }

  method MemCpy(dst: array<char>, src: array<char>, start: nat, len: nat)
    requires dst != src && start + len <= src.Length && len <= dst.Length
    modifies dst
    ensures dst[..len] == src[start..start + len] && dst[len..] == old(dst[len..])
  {
    var i := 0;
    while i < len
      invariant i <= len
      invariant forall k :: 0 <= k < i ==> dst[k] == src[start + k]
      invariant forall k :: i <= k < dst.Length ==> dst[k] == old(dst[k])
    {
      dst[i] := src[start + i];
      i := i + 1;
    }
  }

  lemma TextSlice(memory: array<char>, a: nat, b: nat)
    requires Terminated(memory[..]) && a <= b <= |CText(memory[..])|
    ensures |CText(memory[..])| < memory.Length && memory[a..b] == CText(memory[..])[a..b]
  {
    var t := CText(memory[..]);
    assert forall k :: a <= k < b ==> t[k] == memory[..][k] == memory[k];
  }

  lemma StoredSlice(t: string, start: nat, end: nat, size: nat)
    requires start <= end <= |t| && size >= 1
    ensures Stored(t[start..end], size) ==
            t[start..start + (if end - start >= size then size - 1 else end - start)] + [NUL]
  {
    if end - start >= size {
      assert t[start..end][..size - 1] == t[start..start + (size - 1)];
    }
  }

  // ----- extract_json_field -----

  /** The text between the first match and the next quote. */
  function FieldValue(t: string, field: string): Option<string> {
    var p := SearchString(field, '"');
    match StrStr(t, p)
    case None => None
    case Some(i) =>
      StrStrInside(t, p);
      match StrChr(t, i + |p|, '"')
      case None => None
      case Some(e) => Some(t[i + |p|..e])
  }

  lemma StrStrInside(t: string, p: string)
    ensures StrStr(t, p).Some? ==> At(t, StrStr(t, p).value, p)
  {
    FirstMatchMeaning(t, 0, |t| + 1, p);
  }

  method ExtractJsonField(json: array<char>, field: string, buffer: array<char>, bufSize: nat) returns (found: bool)
    requires Terminated(json[..]) && json != buffer && 1 <= bufSize <= buffer.Length
    modifies buffer
    ensures found <==> FieldValue(CText(json[..]), field).Some?
    ensures found ==> var s := Stored(FieldValue(CText(json[..]), field).value, bufSize);
                      |s| <= bufSize && buffer[..|s|] == s && buffer[|s|..] == old(buffer[|s|..])
    ensures !found ==> buffer[..] == old(buffer[..])
  {
    hide *;
    ghost var memory := json[..];
    var searchStr := SearchString(field, '"');
    var text := CText(json[..]);
    var match_ := StrStr(text, searchStr);
    FieldValueIs(text, field);
    if match_.None? {
      return false;
    }
    var start := match_.value + |searchStr|;
    var end := StrChr(text, start, '"');
    if end.None? {
      return false;
    }
    var len := end.value - start;
    if len >= bufSize {
      len := bufSize - 1;
    }
    TextSlice(json, start, start + len);
    MemCpy(buffer, json, start, len);
    ghost var kept := buffer[len..];
    buffer[len] := NUL;
    assert buffer[len + 1..] == kept[1..] == old(buffer[len..])[1..] == old(buffer[len + 1..]);
    assert json[..] == memory;
    StoredSlice(text, start, end.value, bufSize);
    return true;
  }

  lemma FieldValueIs(t: string, field: string)
    ensures var p := SearchString(field, '"');
            var i := StrStr(t, p);
            if i.None? then FieldValue(t, field).None?
            else
              && i.value + |p| <= |t|
              && var e := StrChr(t, i.value + |p|, '"');
                 FieldValue(t, field) == if e.None? then None else Some(t[i.value + |p|..e.value])
  {
    StrStrInside(t, SearchString(field, '"'));
  }

  // ----- extract_json_object -----

  /** Where the brace scan starts: the first opening brace at or after the match. */
  function BraceStart(t: string, field: string): (r: Option<nat>)
    ensures r.Some? ==> r.value < |t| && t[r.value] == '{'
  {
    match StrStr(t, SearchString(field, '{'))
    case None => None
    case Some(i) => StrStrInside(t, SearchString(field, '{')); StrChr(t, i, '{')
  }

  /** The shortest non-empty balanced text from there, if any. */
  ghost function ObjectSlice(t: string, field: string): Option<string> {
    match BraceStart(t, field)
    case None => None
    case Some(b) =>
      if exists k: nat :: ShortestBalanced(t[b..], k) then
        var k: nat :| ShortestBalanced(t[b..], k);
        Some(t[b..][..k])
      else None
  }

  lemma ShortestUnique(s: string, k: nat, m: nat)
    requires ShortestBalanced(s, k) && ShortestBalanced(s, m)
    ensures k == m
  {
  }

  method ExtractJsonObject(json: array<char>, field: string) returns (start: nat, outLen: nat, found: bool)
    requires Terminated(json[..])
    ensures found <==> ObjectSlice(CText(json[..]), field).Some?
    ensures found ==> start + outLen < json.Length && BraceStart(CText(json[..]), field) == Some(start)
    ensures found ==> json[start..start + outLen] == ObjectSlice(CText(json[..]), field).value
  {
    hide ObjectSlice, ShortestBalanced;
    start, outLen := 0, 0;
    ghost var t := CText(json[..]);
    var b := BraceStart(CText(json[..]), field);
    SliceExists(t, field);
    if b.None? {
      return start, outLen, false;
    }
    start := b.value;
    outLen, found := CloseBrace(json, start, t);
    if found {
      SliceIs(t, field, start, outLen);
      TextSlice(json, start, start + outLen);
      assert t[start..][..outLen] == t[start..start + outLen];
    }
  }

  /** The loop from the opening brace to the brace that brings the depth back to zero. */
  method CloseBrace(json: array<char>, start: nat, ghost t: string) returns (outLen: nat, found: bool)
    requires Terminated(json[..]) && t == CText(json[..]) && start < |t| && t[start] == '{'
    ensures found <==> exists k: nat :: ShortestBalanced(t[start..], k)
    ensures found ==> start + outLen <= |t| && ShortestBalanced(t[start..], outLen)
  {
    hide Depth;
    var depth := 0;
    var p := start;
    ghost var s := t[start..];
    outLen, found := 0, false;
    DepthNothing(s);
    while json[p] != NUL
      invariant start <= p <= |t| && (p == start || depth > 0)
      invariant depth == Depth(s[..p - start]) && 0 <= depth <= p - start
      invariant forall m :: 0 <= m <= p - start ==> !Balanced(s[..m])
      decreases |t| - p
    {
      DepthStep(s, p - start);
      if json[p] == '{' {
        depth := depth + 1;
      } else if json[p] == '}' {
        depth := depth - 1;
        if depth == 0 {
          outLen := p - start + 1;
          assert ShortestBalanced(s, outLen);
          return outLen, true;
        }
      }
      p := p + 1;
    }
    assert forall k: nat :: !ShortestBalanced(s, k);
  }

  lemma DepthNothing(s: string)
    ensures Depth(s[..0]) == 0 && !Balanced(s[..0])
  {
  }

  lemma DepthStep(s: string, n: nat)
    requires n < |s|
    ensures Depth(s[..n + 1]) == Depth(s[..n]) + Delta(s[n])
  {
    assert s[..n + 1][..n] == s[..n];
  }

  lemma SliceExists(t: string, field: string)
    ensures ObjectSlice(t, field).Some? <==>
            BraceStart(t, field).Some? && exists k: nat :: ShortestBalanced(t[BraceStart(t, field).value..], k)
  {
  }

  lemma SliceIs(t: string, field: string, b: nat, k: nat)
    requires BraceStart(t, field) == Some(b) && ShortestBalanced(t[b..], k)
    ensures ObjectSlice(t, field) == Some(t[b..][..k])
  {
    forall m | ShortestBalanced(t[b..], m) ensures m == k {
      ShortestUnique(t[b..], k, m);
    }
  }

  // ----- decode_json_byte_array -----

  predicate Separator(c: char) {
    c == ' ' || c == ',' || c == '\n' || c == '\r' || c == '\t'
  }

  predicate Digit(c: char) {
    '0' <= c <= '9'
  }

  function DigitValue(c: char): (v: int32)
    requires Digit(c)
    ensures 0 <= v < 10
  {
    (c as int - '0' as int) as int32
  }

  function SkipSeparators(t: string, p: nat): (q: nat)
    requires p <= |t|
    ensures p <= q <= |t|
    decreases |t| - p
  {
    if p < |t| && Separator(t[p]) then SkipSeparators(t, p + 1) else p
  }

  function SkipDigits(t: string, p: nat): (q: nat)
    requires p <= |t|
    ensures p <= q <= |t|
    ensures forall k :: p <= k < q ==> Digit(t[k])
    decreases |t| - p
  {
    if p < |t| && Digit(t[p]) then SkipDigits(t, p + 1) else p
  }

  /** The number a run of digits writes in base ten. */
  function Decimal(s: string): nat
    requires forall k :: 0 <= k < |s| ==> Digit(s[k])
  {
    if s == "" then 0 else 10 * Decimal(s[..|s| - 1]) + DigitValue(s[|s| - 1]) as int
  }

  /** The bytes read from index p, at most `room` of them. A character that is no digit,
      separator or bracket yields a zero byte and is not consumed. */
  function ByteScan(t: string, p: nat, room: nat): seq<byte>
    requires p <= |t|
    decreases room
  {
    if p == |t| || t[p] == ']' || room == 0 then []
    else
      var q := SkipSeparators(t, p);
      if q < |t| && t[q] == ']' then []
      else
        var e := SkipDigits(t, q);
        [Decimal(t[q..e]) % 256] + ByteScan(t, e, room - 1)
  }

  /** Every number the scan reads fits in an int. */
  predicate ScanFits(t: string, p: nat, room: nat)
    requires p <= |t|
    decreases room
  {
    p == |t| || t[p] == ']' || room == 0 ||
    var q := SkipSeparators(t, p);
    (q < |t| && t[q] == ']') ||
    (Decimal(t[q..SkipDigits(t, q)]) < 0x8000_0000 && ScanFits(t, SkipDigits(t, q), room - 1))
  }

  predicate Fits(t: string, field: string, room: nat) {
    ArrayStart(t, field).Some? ==> ScanFits(t, ArrayStart(t, field).value, room)
  }

  /** Where the byte scan starts: just after the first opening bracket at or after the match. */
  function ArrayStart(t: string, field: string): (r: Option<nat>)
    ensures r.Some? ==> r.value <= |t|
  {
    match StrStr(t, SearchString(field, '['))
    case None => None
    case Some(i) =>
      StrStrInside(t, SearchString(field, '['));
      match StrChr(t, i, '[')
      case None => None
      case Some(b) => Some(b + 1)
  }

  /** The decoded bytes; none iff the search fails. */
  function ByteArray(t: string, field: string, room: nat): Option<seq<byte>> {
    match ArrayStart(t, field)
    case None => None
    case Some(p) => Some(ByteScan(t, p, room))
  }

  /** The inner loop that skips whitespace and commas. */
  method SkipFrom(json: array<char>, from: nat) returns (p: nat)
    requires Terminated(json[..]) && from <= |CText(json[..])|
    ensures p == SkipSeparators(CText(json[..]), from)
  {
    p := from;
    while json[p] == ' ' || json[p] == ',' || json[p] == '\n' || json[p] == '\r' || json[p] == '\t'
      invariant p <= |CText(json[..])|
      invariant SkipSeparators(CText(json[..]), p) == SkipSeparators(CText(json[..]), from)
      decreases |CText(json[..])| - p
    {
      p := p + 1;
    }
  }

  lemma {:induction false} DecimalPrefix(s: string, n: nat)
    requires n <= |s| && forall k :: 0 <= k < |s| ==> Digit(s[k])
    ensures Decimal(s[..n]) <= Decimal(s)
  {
    if n < |s| {
      var u := s[..|s| - 1];
      assert u[..n] == s[..n];
      DecimalPrefix(u, n);
    } else {
      assert s[..n] == s;
    }
  }

  lemma RunPrefixFits(t: string, from: nat, p: nat)
    requires from <= p < |t| && Digit(t[p]) && forall k :: from <= k < p ==> Digit(t[k])
    requires SkipDigits(t, p) == SkipDigits(t, from)
    ensures p + 1 <= SkipDigits(t, from) == SkipDigits(t, p + 1)
    ensures Decimal(t[from..p + 1]) == 10 * Decimal(t[from..p]) + DigitValue(t[p]) as int
    ensures Decimal(t[from..p + 1]) <= Decimal(t[from..SkipDigits(t, from)])
  {
    var e := SkipDigits(t, from);
    assert t[from..e][..p + 1 - from] == t[from..p + 1];
    DecimalPrefix(t[from..e], p + 1 - from);
    assert t[from..p + 1][..p - from] == t[from..p];
  }

  /** The inner loop that parses an integer; `val` stays an int. */
  method ParseFrom(json: array<char>, from: nat) returns (val: int32, p: nat)
    requires Terminated(json[..]) && from <= |CText(json[..])|
    requires Decimal(CText(json[..])[from..SkipDigits(CText(json[..]), from)]) < 0x8000_0000
    ensures p == SkipDigits(CText(json[..]), from)
    ensures val as int == Decimal(CText(json[..])[from..p])
  {
    hide SkipDigits, Decimal;
    ghost var t := CText(json[..]);
    val, p := 0, from;
    DecimalNothing(t, from);
    while '0' <= json[p] <= '9'
      invariant from <= p <= |t| && SkipDigits(t, p) == SkipDigits(t, from)
      invariant forall k :: from <= k < p ==> Digit(t[k])
      invariant val as int == Decimal(t[from..p])
      decreases |t| - p
    {
      RunPrefixFits(t, from, p);
      val := val * 10 + (json[p] as int - '0' as int) as int32;
      p := p + 1;
    }
    RunEnds(t, p);
  }

  lemma DecimalNothing(t: string, p: nat)
    requires p <= |t|
    ensures Decimal(t[p..p]) == 0
  {
  }

  lemma RunEnds(t: string, p: nat)
    requires p <= |t| && (p == |t| || !Digit(t[p]))
    ensures SkipDigits(t, p) == p
  {
  }

  /** One pass of the outer loop: the next byte of the scan, unless a bracket ends it. */
  method NextByte(json: array<char>, p: nat, ghost t: string, ghost room: nat) returns (ended: bool, b: byte, e: nat)
    requires Terminated(json[..]) && t == CText(json[..])
    requires p < |t| && t[p] != ']' && room > 0 && ScanFits(t, p, room)
    ensures ended ==> ByteScan(t, p, room) == []
    ensures !ended ==> e <= |t| && ScanFits(t, e, room - 1) && ByteScan(t, p, room) == [b] + ByteScan(t, e, room - 1)
  {
    ByteScanStep(t, p, room);
    var q := SkipFrom(json, p);
    if json[q] == ']' {
      return true, 0, q;
    }
    var val: int32;
    val, e := ParseFrom(json, q);
    return false, val as int % 256, e;
  }

  /** The outer loop, from just after the opening bracket. */
  method DecodeFrom(json: array<char>, start: nat, buffer: array<byte>, bufSize: nat, ghost t: string)
    returns (pos: nat)
    requires Terminated(json[..]) && t == CText(json[..])
    requires start <= |t| && 1 <= bufSize && ScanFits(t, start, bufSize - 1)
    requires (json as object) != buffer && 1 <= bufSize <= buffer.Length
    modifies buffer
    ensures pos < bufSize && buffer[..pos] == ByteScan(t, start, bufSize - 1)
    ensures buffer[pos] == 0 && buffer[pos + 1..] == old(buffer[pos + 1..])
  {
    hide ByteScan, ScanFits;
    pos := 0;
    var p: nat := start;
    ghost var room: nat := bufSize - 1;
    ghost var bytes := ByteScan(t, start, room);
    while json[p] != NUL && json[p] != ']' && pos < bufSize - 1
      invariant p <= |t| && pos + room == bufSize - 1 && ScanFits(t, p, room)
      invariant bytes == buffer[..pos] + ByteScan(t, p, room)
      invariant forall k :: pos <= k < buffer.Length ==> buffer[k] == old(buffer[k])
      decreases room
    {
      ghost var done := buffer[..pos];
      var ended, b, e := NextByte(json, p, t, room);
      if ended {
        break;
      }
      buffer[pos] := b;
      assert buffer[..pos + 1] == done + [b];
      StoreNext(bytes, done, b, ByteScan(t, e, room - 1));
      pos, p, room := pos + 1, e, room - 1;
    }
    ByteScanEnds(t, p, room);
    buffer[pos] := 0;
  }

  lemma ByteScanEnds(t: string, p: nat, room: nat)
    requires p <= |t|
    ensures p == |t| || t[p] == ']' || room == 0 ==> ByteScan(t, p, room) == []
  {
  }

  lemma StoreNext(bytes: seq<byte>, done: seq<byte>, b: byte, rest: seq<byte>)
    requires bytes == done + ([b] + rest)
    ensures bytes == (done + [b]) + rest
  {
  }

  method DecodeJsonByteArray(json: array<char>, field: string, buffer: array<byte>, bufSize: nat) returns (n: int)
    requires Terminated(json[..]) && (json as object) != buffer && 1 <= bufSize <= buffer.Length
    requires Fits(CText(json[..]), field, bufSize - 1)
    modifies buffer
    ensures n == -1 <==> ByteArray(CText(json[..]), field, bufSize - 1).None?
    ensures n == -1 ==> buffer[..] == old(buffer[..])
    ensures n != -1 ==> 0 <= n < bufSize && buffer[..n] == ByteArray(CText(json[..]), field, bufSize - 1).value
    ensures n != -1 ==> buffer[n] == 0 && buffer[n + 1..] == old(buffer[n + 1..])
  {
    var start := ArrayStart(CText(json[..]), field);
    if start.None? {
      return -1;
    }
    n := DecodeFrom(json, start.value, buffer, bufSize, CText(json[..]));
  }

  lemma ByteScanStep(t: string, p: nat, room: nat)
    requires p < |t| && t[p] != ']' && room > 0
    ensures var q := SkipSeparators(t, p);
            ByteScan(t, p, room) ==
            if q < |t| && t[q] == ']' then []
            else [Decimal(t[q..SkipDigits(t, q)]) % 256] + ByteScan(t, SkipDigits(t, q), room - 1)
  {
  }
}
