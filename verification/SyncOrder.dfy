/** Message identifiers of the store sync, their order, and the two binary searches over it. */
module SyncOrder {

  /** A message's time and hash; a hash is read as the number its bytes write, first byte first. */
  datatype SyncID = SyncID(time: int, hash: nat)

  predicate Less(x: SyncID, y: SyncID) {
    x.time < y.time || (x.time == y.time && x.hash < y.hash)
  }

  /** In strictly increasing order. */
  predicate Sorted(s: seq<SyncID>) {
    forall i, j :: 0 <= i < j < |s| ==> Less(s[i], s[j])
  }

  /** In order, repetitions allowed: what isSorted accepts. */
  predicate InOrder(s: seq<SyncID>) {
    forall i, j :: 0 <= i < j < |s| ==> !Less(s[j], s[i])
  }

  /** Whether a search for x goes on to the right of y: lowerBound stops at equals, upperBound
      passes them. */
  predicate Passes(y: SyncID, x: SyncID, equals: bool) {
    Less(y, x) || (equals && y == x)
  }

  /** The binary search over `count` elements from index `lo`. */
  function Search(s: seq<SyncID>, x: SyncID, equals: bool, lo: nat, count: nat): (r: nat)
    requires lo + count <= |s|
    ensures lo <= r <= lo + count
    decreases count
  {
    if count == 0 then lo
    else
      var step := count / 2;
      if Passes(s[lo + step], x, equals) then Search(s, x, equals, lo + step + 1, count - step - 1)
      else Search(s, x, equals, lo, step)
  }

  function LowerBound(s: seq<SyncID>, x: SyncID): (r: nat)
    ensures r <= |s|
  {
    Search(s, x, false, 0, |s|)
  }

  function UpperBound(s: seq<SyncID>, x: SyncID): (r: nat)
    ensures r <= |s|
  {
    Search(s, x, true, 0, |s|)
  }

  lemma PassesDown(s: seq<SyncID>, x: SyncID, equals: bool, m: nat)
    requires Sorted(s) && m < |s|
    ensures Passes(s[m], x, equals) ==> forall k :: 0 <= k <= m ==> Passes(s[k], x, equals)
    ensures !Passes(s[m], x, equals) ==> forall k :: m <= k < |s| ==> !Passes(s[k], x, equals)
  {
  }

  lemma {:induction false} SearchPartitions(s: seq<SyncID>, x: SyncID, equals: bool, lo: nat, count: nat)
    requires Sorted(s) && lo + count <= |s|
    requires forall k :: 0 <= k < lo ==> Passes(s[k], x, equals)
    requires forall k :: lo + count <= k < |s| ==> !Passes(s[k], x, equals)
    ensures var r := Search(s, x, equals, lo, count);
            && (forall k :: 0 <= k < r ==> Passes(s[k], x, equals))
            && (forall k :: r <= k < |s| ==> !Passes(s[k], x, equals))
    decreases count
  {
    hide Sorted, Passes;
    if count > 0 {
      var step := count / 2;
      PassesDown(s, x, equals, lo + step);
      if Passes(s[lo + step], x, equals) {
        SearchPartitions(s, x, equals, lo + step + 1, count - step - 1);
      } else {
        SearchPartitions(s, x, equals, lo, step);
      }
    }
  }

  /** On a sorted sequence the lower bound separates the smaller elements from the others. */
  lemma LowerBoundPartitions(s: seq<SyncID>, x: SyncID)
    requires Sorted(s)
    ensures forall k :: 0 <= k < |s| ==> (k < LowerBound(s, x) <==> Less(s[k], x))
  {
    SearchPartitions(s, x, false, 0, |s|);
  }

  /** And the upper bound separates the larger ones. */
  lemma UpperBoundPartitions(s: seq<SyncID>, x: SyncID)
    requires Sorted(s)
    ensures forall k :: 0 <= k < |s| ==> (k >= UpperBound(s, x) <==> Less(x, s[k]))
  {
    SearchPartitions(s, x, true, 0, |s|);
  }
}
