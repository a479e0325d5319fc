/**
 * The read-only projection behind GET /stats: the five newest donations,
 * the progress towards the fundraising goal, and the view they are sent in.
 */
module Stats {
  import opened Records

  /** The fundraising goal, DONATION_GOAL. */
  const DonationGoal: int := 10000

  /** How many records the recent-donations feed shows. */
  const RecentLimit: nat := 5

  /** Dates never increase along the sequence: the order the comparator `b.date - a.date` asks for. */
  predicate NewestFirst(ds: seq<Donation>) {
    forall i, j :: 0 <= i < j < |ds| ==> ds[j].date <= ds[i].date
  }

  /**
   * Puts `d` in front of the first record that is not newer than it. Used on
   * records that came after `d` in the input, this keeps ties in input order.
   */
  function Insert(d: Donation, ds: seq<Donation>): (r: seq<Donation>)
    requires NewestFirst(ds)
    ensures NewestFirst(r)
    ensures multiset(r) == multiset(ds) + multiset{d}
    ensures |r| == |ds| + 1 && (r[0] == d || (ds != [] && r[0] == ds[0]))
  {
    if ds == [] || ds[0].date <= d.date then [d] + ds
    else
      var rest := Insert(d, ds[1..]);
      var r := [ds[0]] + rest;
      assert ds == [ds[0]] + ds[1..];
      assert multiset(r) == multiset{ds[0]} + multiset(rest);
      assert rest[0].date <= ds[0].date;
      assert NewestFirst(r) by {
        forall i, j | 0 <= i < j < |r| ensures r[j].date <= r[i].date {
          assert r[j] == rest[j - 1];
          if i > 0 {
            assert r[i] == rest[i - 1];
          } else {
            assert rest[j - 1].date <= rest[0].date;
          }
        }
      }
      r
  }

  /**
   * `donations.slice().sort((a, b) => new Date(b.date) - new Date(a.date))`:
   * a stable sort, newest first, on a copy of the records.
   */
  function SortNewestFirst(ds: seq<Donation>): (r: seq<Donation>)
    ensures NewestFirst(r)
    ensures multiset(r) == multiset(ds)
  {
    if ds == [] then []
    else
      assert ds == [ds[0]] + ds[1..];
      Insert(ds[0], SortNewestFirst(ds[1..]))
  }

  /** The records dated exactly `t`, in the order they appear. */
  function DatedAt(ds: seq<Donation>, t: int): seq<Donation> {
    if ds == [] then []
    else (if ds[0].date == t then [ds[0]] else []) + DatedAt(ds[1..], t)
  }

  /** Inserting `d` passes only records strictly newer than it, so it lands first among its ties. */
  lemma {:induction false} InsertKeepsTieOrder(d: Donation, ds: seq<Donation>, t: int)
    requires NewestFirst(ds)
    ensures DatedAt(Insert(d, ds), t) == DatedAt([d] + ds, t)
  {
    if ds == [] || ds[0].date <= d.date {
    } else {
      var rest := Insert(d, ds[1..]);
      InsertKeepsTieOrder(d, ds[1..], t);
      assert ([ds[0]] + rest)[1..] == rest;
      assert ([d] + ds[1..])[1..] == ds[1..];
      assert ([d] + ds)[1..] == ds;
      assert DatedAt([d] + ds, t) == (if d.date == t then [d] else []) + DatedAt(ds, t);
      assert DatedAt(ds, t) == (if ds[0].date == t then [ds[0]] else []) + DatedAt(ds[1..], t);
    }
  }

  /**
   * The sort is stable: records with the same date keep their input order.
   * With NewestFirst and the permutation this fixes the result entirely.
   */
  lemma {:induction false} SortKeepsTieOrder(ds: seq<Donation>, t: int)
    ensures DatedAt(SortNewestFirst(ds), t) == DatedAt(ds, t)
  {
    if ds != [] {
      var sorted := SortNewestFirst(ds[1..]);
      InsertKeepsTieOrder(ds[0], sorted, t);
      SortKeepsTieOrder(ds[1..], t);
      assert ([ds[0]] + sorted)[1..] == sorted;
    }
  }

  /** `.slice(0, 5)` of the sorted copy: the five newest records, newest first. */
  function TopNewest(ds: seq<Donation>): (top: seq<Donation>)
    ensures |top| == if |ds| <= RecentLimit then |ds| else RecentLimit
    ensures NewestFirst(top)
    ensures multiset(top) <= multiset(ds)
    ensures |ds| <= RecentLimit ==> multiset(top) == multiset(ds)
  {
    var sorted := SortNewestFirst(ds);
    var n := if |sorted| <= RecentLimit then |sorted| else RecentLimit;
    assert sorted == sorted[..n] + sorted[n..];
    assert multiset(sorted) == multiset(sorted[..n]) + multiset(sorted[n..]);
    sorted[..n]
  }

  /** Every record shown is one of the input records. */
  lemma TopNewestFromInput(ds: seq<Donation>, i: nat)
    requires i < |TopNewest(ds)|
    ensures TopNewest(ds)[i] in ds
  {
    assert TopNewest(ds)[i] in multiset(TopNewest(ds));
  }

  /** In a newest-first list, nothing after the first `n` records is newer than any of them. */
  lemma PrefixHoldsNewest(sorted: seq<Donation>, n: nat, x: Donation, i: nat)
    requires NewestFirst(sorted) && n <= |sorted|
    requires x in multiset(sorted) - multiset(sorted[..n])
    requires i < n
    ensures x.date <= sorted[i].date
  {
    var rest := sorted[n..];
    assert sorted == sorted[..n] + rest;
    assert multiset(sorted) == multiset(sorted[..n]) + multiset(rest);
    assert x in rest;
    var k :| 0 <= k < |rest| && rest[k] == x;
    assert sorted[n + k] == x;
  }

  /** No record left out of the top five is newer than any record in it. */
  lemma TopNewestLeavesOutOnlyOlder(ds: seq<Donation>, x: Donation, i: nat)
    requires x in multiset(ds) - multiset(TopNewest(ds))
    requires i < |TopNewest(ds)|
    ensures x.date <= TopNewest(ds)[i].date
  {
    var sorted := SortNewestFirst(ds);
    var n := |TopNewest(ds)|;
    assert TopNewest(ds) == sorted[..n];
    PrefixHoldsNewest(sorted, n, x, i);
  }

  /** One entry of the recent-donations feed: `{ name, amount, type }`. */
  datatype RecentView = RecentView(name: string, amount: real, kind: string)

  /** `d => ({ name: d.name || 'Anonymous', amount: d.amount, type: d.type })` */
  function Project(d: Donation): (v: RecentView)
    ensures v.name == (if d.name == [] then "Anonymous" else d.name)
    ensures v.name != []
    ensures v.amount == d.amount && v.kind == d.kind
  {
    RecentView(if d.name == "" then "Anonymous" else d.name, d.amount, d.kind)
  }

  /** `recentDonations`: the five newest records, newest first, projected for display. */
  function RecentDonations(ds: seq<Donation>): (r: seq<RecentView>)
    ensures |r| <= RecentLimit
    ensures |ds| <= RecentLimit ==> |r| == |ds|
    ensures forall i :: 0 <= i < |r| ==> r[i].name != []
    ensures forall i :: 0 <= i < |r| ==> exists d :: d in ds && r[i] == Project(d)
    ensures |r| == |TopNewest(ds)|
    ensures forall i :: 0 <= i < |r| ==> r[i] == Project(TopNewest(ds)[i])
  {
    var top := TopNewest(ds);
    var view := seq(|top|, i requires 0 <= i < |top| => Project(top[i]));
    forall i | 0 <= i < |view| ensures top[i] in ds && view[i] == Project(top[i]) {
      TopNewestFromInput(ds, i);
    }
    view
  }

  /** `Math.min((totalAmount / DONATION_GOAL) * 100, 100)`: the percentage of the goal, capped at 100. */
  function Progress(total: real): (p: real)
    ensures p <= 100.0
    ensures p == 100.0 <==> total >= DonationGoal as real
    ensures total < DonationGoal as real ==> p == total / DonationGoal as real * 100.0
    ensures total >= 0.0 ==> p >= 0.0
  {
    var percent := total / DonationGoal as real * 100.0;
    if percent < 100.0 then percent else 100.0
  }

  /** A larger total never shows less progress. */
  lemma ProgressMonotone(a: real, b: real)
    requires a <= b
    ensures Progress(a) <= Progress(b)
  {
  }

  /** The JSON object GET /stats answers with, before `toFixed(2)` formats the two amounts. */
  datatype StatsView = StatsView(
    totalDonors: nat,
    totalAmount: real,
    donationGoal: int,
    progress: real,
    recentDonations: seq<RecentView>)
}
