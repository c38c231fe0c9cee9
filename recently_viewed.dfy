/** The recently viewed strip (src/components/RecentlyViewed.tsx). Reading
    and writing localStorage is outside the model. */
module RecentlyViewed {
  import opened Seqs
  import opened Catalog

  const MaxRecent := 5

  predicate UniqueIds(s: seq<Product>)
  {
    forall i, j :: 0 <= i < j < |s| ==> s[i].id != s[j].id
  }

  /** `addToRecentlyViewed` (RecentlyViewed.tsx:23-28): the product moves to
      the front, any older entry with its id goes, and the list is cut to
      five. */
  function AddRecent(recent: seq<Product>, p: Product): (r: seq<Product>)
    ensures 1 <= |r| <= MaxRecent
    ensures r[0] == p
    ensures r == [p] + Take(Filter(recent, (x: Product) => x.id != p.id), MaxRecent - 1)
    ensures forall i :: 1 <= i < |r| ==> r[i].id != p.id && r[i] in recent
    ensures IsSubsequence(r[1..], recent)
  {
    var others := Filter(recent, (x: Product) => x.id != p.id);
    var r := Take([p] + others, MaxRecent);
    assert r == [p] + Take(others, MaxRecent - 1);
    assert r[1..] == Take(others, MaxRecent - 1);
    TakeSubsequence(others, MaxRecent - 1, recent);
    r
  }

  /** A prefix of a subsequence is a subsequence. */
  lemma {:induction false} TakeSubsequence(a: seq<Product>, n: nat, b: seq<Product>)
    requires IsSubsequence(a, b)
    ensures IsSubsequence(Take(a, n), b)
    decreases |b|
  {
    if |a| > n && a != [] && b != [] {
      if a[0] == b[0] {
        if n > 0 {
          assert Take(a, n)[1..] == Take(a[1..], n - 1);
          TakeSubsequence(a[1..], n - 1, b[1..]);
        }
      } else {
        TakeSubsequence(a, n, b[1..]);
      }
    }
  }

  /** No two entries share an id after an add, given none did before. */
  lemma AddKeepsIdsUnique(recent: seq<Product>, p: Product)
    requires UniqueIds(recent)
    ensures UniqueIds(AddRecent(recent, p))
  {
    var r := AddRecent(recent, p);
    var others := Filter(recent, (x: Product) => x.id != p.id);
    FilterKeepsUnique(recent, (x: Product) => x.id != p.id);
    forall i, j | 0 <= i < j < |r| ensures r[i].id != r[j].id {
      if i > 0 {
        assert r[i] == others[i - 1] && r[j] == others[j - 1];
      }
    }
  }

  lemma {:induction false} FilterKeepsUnique(s: seq<Product>, keep: Product -> bool)
    requires UniqueIds(s)
    ensures UniqueIds(Filter(s, keep))
  {
    if s != [] {
      FilterKeepsUnique(s[1..], keep);
      var rest := Filter(s[1..], keep);
      forall x | x in rest ensures x.id != s[0].id {
        var k :| 0 <= k < |s[1..]| && s[1..][k] == x;
        assert s[k + 1] == x;
      }
    }
  }

  /** Viewing the product already at the front again only refreshes that
      entry: the list, and so its ids, stay as they were. */
  lemma ReAddHead(recent: seq<Product>, p: Product)
    requires UniqueIds(recent) && |recent| <= MaxRecent
    requires recent != [] && recent[0].id == p.id
    ensures AddRecent(recent, p) == recent[0 := p]
  {
    var keep := (x: Product) => x.id != p.id;
    assert recent == [recent[0]] + recent[1..];
    assert forall x :: x in recent[1..] ==> keep(x) by {
      forall x | x in recent[1..] ensures keep(x) {
        var k :| 0 <= k < |recent[1..]| && recent[1..][k] == x;
        assert recent[k + 1] == x;
      }
    }
    FilterAll(recent[1..], keep);
    assert Filter(recent, keep) == recent[1..];
  }
}
