/** The admin analytics screen (src/components/admin/AnalyticsTab.tsx):
    inquiries counted per product and the five most asked-about products. */
module AnalyticsTab {
  import opened Wrappers
  import opened Seqs

  /** An inquiry row with its joined product: `productName` is None when
      the join found no product. */
  datatype Inquiry = Inquiry(productId: string, productName: Option<string>)

  /** An entry of `productCounts`. */
  datatype ProductCount = ProductCount(productId: string, name: string, count: nat)

  /** The index of the entry for `pid`. */
  function IndexOf(counts: seq<ProductCount>, pid: string): (r: Option<nat>)
    ensures r.None? <==> forall k :: 0 <= k < |counts| ==> counts[k].productId != pid
    ensures r.Some? ==> r.value < |counts| && counts[r.value].productId == pid
  {
    if counts == [] then None
    else if counts[0].productId == pid then Some(0)
    else
      match IndexOf(counts[1..], pid)
      case None => None
      case Some(k) => Some(k + 1)
  }

  predicate UniqueProductIds(counts: seq<ProductCount>)
  {
    forall i, j :: 0 <= i < j < |counts| ==> counts[i].productId != counts[j].productId
  }

  predicate HasEntry(counts: seq<ProductCount>, pid: string)
  {
    exists k :: 0 <= k < |counts| && counts[k].productId == pid
  }

  /** One step of the `forEach` (AnalyticsTab.tsx:58-65). */
  function Bump(counts: seq<ProductCount>, inq: Inquiry): seq<ProductCount>
  {
    if inq.productName.None? then counts
    else
      match IndexOf(counts, inq.productId)
      case Some(k) => counts[k := counts[k].(count := counts[k].count + 1)]
      case None => counts + [ProductCount(inq.productId, inq.productName.value, 1)]
  }

  /** The dictionary after the whole `forEach`, entries in first-seen order. */
  function Tally(inquiries: seq<Inquiry>): seq<ProductCount>
    decreases |inquiries|
  {
    if inquiries == [] then []
    else Bump(Tally(inquiries[..|inquiries| - 1]), inquiries[|inquiries| - 1])
  }

  /** How many inquiries with a joined product name `pid`. */
  function Counted(inquiries: seq<Inquiry>, pid: string): nat
    decreases |inquiries|
  {
    if inquiries == [] then 0
    else
      var last := inquiries[|inquiries| - 1];
      Counted(inquiries[..|inquiries| - 1], pid) + (if last.productName.Some? && last.productId == pid then 1 else 0)
  }

  /** The joined name of the first counted inquiry about `pid`. */
  function FirstName(inquiries: seq<Inquiry>, pid: string): (r: Option<string>)
    ensures r.Some? <==> Counted(inquiries, pid) > 0
    decreases |inquiries|
  {
    if inquiries == [] then None
    else
      var last := inquiries[|inquiries| - 1];
      var earlier := FirstName(inquiries[..|inquiries| - 1], pid);
      if earlier.Some? then earlier
      else if last.productName.Some? && last.productId == pid then last.productName
      else None
  }

  /** What the tally of `inquiries` is meant to hold: one entry per product
      with a counted inquiry, with the number of those inquiries and the
      name from the first of them. */
  ghost predicate TallyOf(t: seq<ProductCount>, inquiries: seq<Inquiry>)
  {
    && UniqueProductIds(t)
    && (forall pid :: HasEntry(t, pid) <==> Counted(inquiries, pid) > 0)
    && (forall k :: 0 <= k < |t| ==>
          t[k].count == Counted(inquiries, t[k].productId)
          && Some(t[k].name) == FirstName(inquiries, t[k].productId))
  }

  /** `Counted` and `FirstName` one inquiry further. */
  lemma CountedStep(prefix: seq<Inquiry>, last: Inquiry, pid: string)
    ensures Counted(prefix + [last], pid)
      == Counted(prefix, pid) + (if last.productName.Some? && last.productId == pid then 1 else 0)
    ensures FirstName(prefix + [last], pid)
      == if FirstName(prefix, pid).Some? then FirstName(prefix, pid)
         else if last.productName.Some? && last.productId == pid then last.productName
         else None
  {
    assert (prefix + [last])[..|prefix|] == prefix;
  }

  /** A counted inquiry about a product already in the tally. */
  lemma BumpExisting(t: seq<ProductCount>, prefix: seq<Inquiry>, last: Inquiry, k: nat)
    requires TallyOf(t, prefix) && last.productName.Some?
    requires k < |t| && t[k].productId == last.productId
    ensures TallyOf(t[k := t[k].(count := t[k].count + 1)], prefix + [last])
  {
    var r := t[k := t[k].(count := t[k].count + 1)];
    forall pid ensures HasEntry(r, pid) <==> Counted(prefix + [last], pid) > 0 {
      CountedStep(prefix, last, pid);
      if HasEntry(t, pid) {
        var j :| 0 <= j < |t| && t[j].productId == pid;
        assert r[j].productId == pid;
      }
      if HasEntry(r, pid) {
        var j :| 0 <= j < |r| && r[j].productId == pid;
        assert t[j].productId == pid;
      }
    }
    forall j | 0 <= j < |r|
      ensures r[j].count == Counted(prefix + [last], r[j].productId)
      ensures Some(r[j].name) == FirstName(prefix + [last], r[j].productId)
    {
      CountedStep(prefix, last, r[j].productId);
    }
  }

  /** A counted inquiry about a product not yet in the tally. */
  lemma BumpNew(t: seq<ProductCount>, prefix: seq<Inquiry>, last: Inquiry)
    requires TallyOf(t, prefix) && last.productName.Some?
    requires forall k :: 0 <= k < |t| ==> t[k].productId != last.productId
    ensures TallyOf(t + [ProductCount(last.productId, last.productName.value, 1)], prefix + [last])
  {
    var r := t + [ProductCount(last.productId, last.productName.value, 1)];
    assert !HasEntry(t, last.productId);
    forall pid ensures HasEntry(r, pid) <==> Counted(prefix + [last], pid) > 0 {
      CountedStep(prefix, last, pid);
      if HasEntry(r, pid) && pid != last.productId {
        var j :| 0 <= j < |r| && r[j].productId == pid;
        assert j < |t| && t[j].productId == pid;
      }
      if HasEntry(t, pid) {
        var j :| 0 <= j < |t| && t[j].productId == pid;
        assert r[j].productId == pid;
      }
      if pid == last.productId {
        assert r[|t|].productId == pid;
      }
    }
    forall j | 0 <= j < |r|
      ensures r[j].count == Counted(prefix + [last], r[j].productId)
      ensures Some(r[j].name) == FirstName(prefix + [last], r[j].productId)
    {
      CountedStep(prefix, last, r[j].productId);
    }
  }

  /** An inquiry without a joined product changes nothing. */
  lemma BumpSkipped(t: seq<ProductCount>, prefix: seq<Inquiry>, last: Inquiry)
    requires TallyOf(t, prefix) && last.productName.None?
    ensures TallyOf(t, prefix + [last])
  {
    forall pid ensures Counted(prefix + [last], pid) == Counted(prefix, pid)
      && FirstName(prefix + [last], pid) == FirstName(prefix, pid)
    {
      CountedStep(prefix, last, pid);
    }
  }

  /** The tally meets its description for every list of inquiries. */
  lemma {:induction false} TallyCorrect(inquiries: seq<Inquiry>)
    ensures TallyOf(Tally(inquiries), inquiries)
    decreases |inquiries|
  {
    if inquiries != [] {
      var prefix := inquiries[..|inquiries| - 1];
      var last := inquiries[|inquiries| - 1];
      assert inquiries == prefix + [last];
      TallyCorrect(prefix);
      var t := Tally(prefix);
      if last.productName.None? {
        BumpSkipped(t, prefix, last);
      } else {
        match IndexOf(t, last.productId)
        case Some(k) => BumpExisting(t, prefix, last, k);
        case None => BumpNew(t, prefix, last);
      }
    }
  }

  /** The counting loop (AnalyticsTab.tsx:57-65): an entry is created with
      count 0 the first time a product is seen, then incremented. */
  method CountInquiries(inquiries: seq<Inquiry>) returns (counts: seq<ProductCount>)
    ensures counts == Tally(inquiries)
  {
    counts := [];
    var i := 0;
    while i < |inquiries|
      invariant 0 <= i <= |inquiries|
      invariant counts == Tally(inquiries[..i])
    {
      var inq := inquiries[i];
      assert inquiries[..i + 1][..i] == inquiries[..i];
      if inq.productName.Some? {
        var k := IndexOf(counts, inq.productId);
        if k.None? {
          counts := counts + [ProductCount(inq.productId, inq.productName.value, 0)];
          k := Some(|counts| - 1);
        }
        counts := counts[k.value := counts[k.value].(count := counts[k.value].count + 1)];
      }
      i := i + 1;
    }
    assert inquiries[..i] == inquiries;
  }

  // ---------------------------------------------------------------- ranking

  datatype Popular = Popular(name: string, inquiries: nat)

  /** `Object.values(productCounts).map(...)` (AnalyticsTab.tsx:67-68). */
  function ToPopular(counts: seq<ProductCount>): (r: seq<Popular>)
    ensures |r| == |counts|
    ensures forall i :: 0 <= i < |counts| ==> r[i] == Popular(counts[i].name, counts[i].count)
  {
    seq(|counts|, i requires 0 <= i < |counts| => Popular(counts[i].name, counts[i].count))
  }

  predicate SortedDesc(s: seq<Popular>)
  {
    forall i, j :: 0 <= i < j < |s| ==> s[i].inquiries >= s[j].inquiries
  }

  /** Puts `x` before the first entry it is not below. */
  function InsertDesc(x: Popular, s: seq<Popular>): (r: seq<Popular>)
    requires SortedDesc(s)
    ensures SortedDesc(r)
    ensures multiset(r) == multiset(s) + multiset{x}
    ensures |r| == |s| + 1
    ensures r[0] == x || (s != [] && r[0] == s[0])
  {
    if s == [] || x.inquiries >= s[0].inquiries then [x] + s
    else
      var rest := InsertDesc(x, s[1..]);
      assert s == [s[0]] + s[1..];
      assert rest[0].inquiries <= s[0].inquiries;
      [s[0]] + rest
  }

  /** `.sort((a, b) => b.inquiries - a.inquiries)` (AnalyticsTab.tsx:70). */
  function SortDesc(s: seq<Popular>): (r: seq<Popular>)
    ensures SortedDesc(r)
    ensures multiset(r) == multiset(s)
  {
    if s == [] then []
    else
      assert s == [s[0]] + s[1..];
      InsertDesc(s[0], SortDesc(s[1..]))
  }

  /** `popularProducts` (AnalyticsTab.tsx:67-71). */
  function PopularProducts(counts: seq<ProductCount>): (r: seq<Popular>)
    ensures |r| == if |counts| < 5 then |counts| else 5
    ensures SortedDesc(r)
    ensures forall x :: x in r ==> x in ToPopular(counts)
    ensures multiset(r) <= multiset(ToPopular(counts))
  {
    var sorted := SortDesc(ToPopular(counts));
    assert |sorted| == |multiset(sorted)| == |multiset(ToPopular(counts))| == |counts|;
    var r := Take(sorted, 5);
    assert |sorted| > 5 ==> sorted == r + sorted[5..];
    assert forall x :: x in r ==> x in multiset(sorted);
    r
  }

  /** Nothing left out of the top five asks more than anything in it. */
  lemma TopFive(counts: seq<ProductCount>, x: Popular, y: Popular)
    requires x in ToPopular(counts) && x !in PopularProducts(counts)
    requires y in PopularProducts(counts)
    ensures x.inquiries <= y.inquiries
  {
    var sorted := SortDesc(ToPopular(counts));
    assert x in multiset(sorted);
    var j :| 0 <= j < |sorted| && sorted[j] == x;
    var i :| 0 <= i < |PopularProducts(counts)| && PopularProducts(counts)[i] == y;
    assert sorted[i] == y;
  }

  /** `count || 0` for the three totals (AnalyticsTab.tsx:74-76): a missing
      count reads as 0. */
  function OrZero(count: Option<nat>): (r: nat)
    ensures count.None? ==> r == 0
    ensures count.Some? ==> r == count.value
  {
    match count
    case None => 0
    case Some(c) => c
  }
}
