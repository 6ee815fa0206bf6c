/** NUL-terminated character arrays and the two libc searches used on them. */
module CStrings {
  import opened Options

  const NUL := '\0'

  /** The memory holds a C string: some character is NUL. */
  predicate Terminated(memory: seq<char>) {
    exists n :: 0 <= n < |memory| && memory[n] == NUL
  }

  /** strlen: the index of the first NUL. */
  function StrLen(memory: seq<char>): (n: nat)
    requires Terminated(memory)
    ensures n < |memory| && memory[n] == NUL
    ensures forall k :: 0 <= k < n ==> memory[k] != NUL
  {
    if memory[0] == NUL then 0
    else
      assert Terminated(memory[1..]) by {
        var n :| 0 <= n < |memory| && memory[n] == NUL;
        assert memory[1..][n - 1] == NUL;
      }
      var n := StrLen(memory[1..]);
      assert forall k :: 0 < k <= n ==> memory[k] == memory[1..][k - 1];
      1 + n
  }

  /** The characters before the NUL. */
  function CText(memory: seq<char>): string
    requires Terminated(memory)
  {
    memory[..StrLen(memory)]
  }

  /** The text t holds s at index a. */
  predicate At(t: string, a: nat, s: string) {
    a + |s| <= |t| && forall k {:trigger s[k]} :: 0 <= k < |s| ==> t[a + k] == s[k]
  }

  /** No match of the pattern starts in `lo..hi`. */
  predicate NoMatch(t: string, lo: nat, hi: nat, pattern: string) {
    forall i :: lo <= i < hi ==> !At(t, i, pattern)
  }

  /** The first match of the pattern starting in `lo..hi`. */
  function FirstMatch(t: string, lo: nat, hi: nat, pattern: string): (r: Option<nat>)
    requires lo <= hi
    decreases hi - lo
  {
    if lo == hi then None
    else if At(t, lo, pattern) then Some(lo)
    else FirstMatch(t, lo + 1, hi, pattern)
  }

  lemma {:induction false} FirstMatchMeaning(t: string, lo: nat, hi: nat, pattern: string)
    requires lo <= hi
    ensures FirstMatch(t, lo, hi, pattern).None? <==> NoMatch(t, lo, hi, pattern)
    ensures forall p :: FirstMatch(t, lo, hi, pattern) == Some(p) ==>
              lo <= p < hi && At(t, p, pattern) && NoMatch(t, lo, p, pattern)
    decreases hi - lo
  {
    if lo < hi && !At(t, lo, pattern) {
      FirstMatchMeaning(t, lo + 1, hi, pattern);
      assert NoMatch(t, lo, hi, pattern) <==> NoMatch(t, lo + 1, hi, pattern);
    }
  }

  lemma {:induction false} FirstMatchSplit(t: string, lo: nat, mid: nat, hi: nat, pattern: string)
    requires lo <= mid <= hi
    ensures FirstMatch(t, lo, hi, pattern) ==
            if FirstMatch(t, lo, mid, pattern).Some? then FirstMatch(t, lo, mid, pattern)
            else FirstMatch(t, mid, hi, pattern)
    decreases mid - lo
  {
    if lo < mid && !At(t, lo, pattern) {
      FirstMatchSplit(t, lo + 1, mid, hi, pattern);
    }
  }

  lemma FirstMatchIs(t: string, lo: nat, p: nat, hi: nat, pattern: string)
    requires lo <= p < hi && NoMatch(t, lo, p, pattern) && At(t, p, pattern)
    ensures FirstMatch(t, lo, hi, pattern) == Some(p)
  {
    FirstMatchMeaning(t, lo, p, pattern);
    FirstMatchSplit(t, lo, p, hi, pattern);
  }

  /** strstr: the first match anywhere in t. */
  function StrStr(t: string, pattern: string): Option<nat> {
    FirstMatch(t, 0, |t| + 1, pattern)
  }

  lemma FirstMatchToEnd(t: string, pattern: string)
    requires pattern != ""
    ensures StrStr(t, pattern) == FirstMatch(t, 0, |t|, pattern)
  {
    FirstMatchSplit(t, 0, |t|, |t| + 1, pattern);
    assert FirstMatch(t, |t|, |t| + 1, pattern) == None;
  }

  /** strchr, searching from index i: the first occurrence of c. */
  function StrChr(t: string, i: nat, c: char): (r: Option<nat>)
    requires i <= |t|
    ensures r.None? ==> forall k :: i <= k < |t| ==> t[k] != c
    ensures r.Some? ==> i <= r.value < |t| && t[r.value] == c && forall k :: i <= k < r.value ==> t[k] != c
    decreases |t| - i
  {
    if i == |t| then None
    else if t[i] == c then Some(i)
    else StrChr(t, i + 1, c)
  }

  /** The part of t before the first c, or all of t. */
  function UpTo(t: string, c: char): string {
    match StrChr(t, 0, c)
    case None => t
    case Some(p) => t[..p]
  }
}
