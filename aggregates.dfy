/**
 * The aggregates loadDonations recomputes from scratch: the total amount
 * (a left fold of the amounts) and the number of donors (distinct emails).
 */
module Aggregates {
  import opened Records

  /** `donations.reduce((sum, d) => sum + d.amount, 0)`, folded from the left as reduce does. */
  function Sum(ds: seq<Donation>): real {
    if ds == [] then 0.0 else Sum(ds[..|ds| - 1]) + ds[|ds| - 1].amount
  }

  /** The set of emails of the records, as `new Set(donations.map(d => d.email))`. */
  function Emails(ds: seq<Donation>): set<string> {
    set d | d in ds :: d.email
  }

  /** `new Set(...).size`: the number of donors, a donor being one email. */
  function DonorCount(ds: seq<Donation>): nat {
    |Emails(ds)|
  }

  /** `donations.some(d => d.email === email)`: exact, case-sensitive comparison. */
  predicate HasEmail(ds: seq<Donation>, email: string) {
    exists d :: d in ds && d.email == email
  }

  /** Every amount is strictly positive, as the donate handler guarantees of what it appends. */
  predicate AllPositive(ds: seq<Donation>) {
    forall i :: 0 <= i < |ds| ==> ds[i].amount > 0.0
  }

  /** A record appended at the end adds its amount to the total: the `totalAmount +=` step. */
  lemma {:induction false} SumAppend(ds: seq<Donation>, d: Donation)
    ensures Sum(ds + [d]) == Sum(ds) + d.amount
  {
    assert (ds + [d])[..|ds|] == ds;
  }

  /** The total over a concatenation is the sum of the totals: N donations add their N amounts. */
  lemma {:induction false} SumConcat(a: seq<Donation>, b: seq<Donation>)
    ensures Sum(a + b) == Sum(a) + Sum(b)
  {
    if b != [] {
      var b' := b[..|b| - 1];
      var last := b[|b| - 1];
      assert b == b' + [last];
      assert a + b == (a + b') + [last];
      SumAppend(a + b', last);
      SumConcat(a, b');
      SumAppend(b', last);
    } else {
      assert a + b == a;
    }
  }

  /** With only positive amounts the total is non-negative, and positive once there is a record. */
  lemma {:induction false} SumPositive(ds: seq<Donation>)
    requires AllPositive(ds)
    ensures Sum(ds) >= 0.0
    ensures ds != [] ==> Sum(ds) > 0.0
  {
    if ds != [] {
      var init := ds[..|ds| - 1];
      assert AllPositive(init) by {
        forall i | 0 <= i < |init| ensures init[i].amount > 0.0 {
          assert init[i] == ds[i];
        }
      }
      SumPositive(init);
    }
  }

  /** Appending a record adds its email to the donor set. */
  lemma EmailsAppend(ds: seq<Donation>, d: Donation)
    ensures Emails(ds + [d]) == Emails(ds) + {d.email}
  {
    forall x | x in Emails(ds + [d]) ensures x in Emails(ds) + {d.email} {
      var e :| e in ds + [d] && e.email == x;
      if e != d {
        assert e in ds;
      }
    }
  }

  /** A donor is in the donor set exactly when some record carries that email. */
  lemma EmailsHas(ds: seq<Donation>, email: string)
    ensures email in Emails(ds) <==> HasEmail(ds, email)
  {
  }

  /**
   * Appending a record adds one donor exactly when no earlier record has the
   * same email: the `isNewDonor` test followed by `totalDonors++`.
   */
  lemma {:induction false} DonorCountAppend(ds: seq<Donation>, d: Donation)
    ensures DonorCount(ds + [d]) == DonorCount(ds) + (if HasEmail(ds, d.email) then 0 else 1)
  {
    EmailsAppend(ds, d);
    EmailsHas(ds, d.email);
    if !HasEmail(ds, d.email) {
      assert Emails(ds + [d]) == Emails(ds) + {d.email};
      assert d.email !in Emails(ds);
    } else {
      assert Emails(ds) + {d.email} == Emails(ds);
    }
  }

  /** There are never more donors than donations, and at least one once there is a donation. */
  lemma {:induction false} DonorCountBounds(ds: seq<Donation>)
    ensures DonorCount(ds) <= |ds|
    ensures ds != [] ==> DonorCount(ds) >= 1
  {
    if ds != [] {
      var init := ds[..|ds| - 1];
      assert ds == init + [ds[|ds| - 1]];
      DonorCountAppend(init, ds[|ds| - 1]);
      DonorCountBounds(init);
      if init != [] {
        assert DonorCount(init) >= 1;
      }
    }
  }
}
