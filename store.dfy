/**
 * The server's in-memory donation store: the record list and the two running
 * aggregates the handlers read and update, with the persisted copy.
 */
module Store {
  import opened Wrappers
  import opened Records
  import opened Aggregates
  import opened Stats
  import opened Requests

  /**
   * What reading and parsing data/donations.json gave at startup: the parsed
   * records, no file at all, or a read or parse error.
   */
  datatype LoadOutcome = Parsed(records: seq<Donation>) | Missing | Unreadable

  class DonationStore {
    var donations: seq<Donation>
    var totalAmount: real
    var totalDonors: nat
    /** The record list data/donations.json is known to hold: the last one read or written, or None when unknown. */
    var lastSaved: Option<seq<Donation>>

    /** The running aggregates are what a recomputation over `donations` gives. */
    ghost predicate Valid()
      reads this
    {
      && totalAmount == Sum(donations)
      && totalDonors == DonorCount(donations)
    }

    /**
     * Process start: the empty store, then loadDonations. Parsed records
     * replace the list and the totals are recomputed from them; on a missing
     * file or any read or parse error the store stays empty.
     */
    constructor Load(file: LoadOutcome)
      ensures Valid()
      ensures donations == (if file.Parsed? then file.records else [])
      ensures lastSaved == (if file.Parsed? then Some(file.records) else None)
    {
      donations := [];
      totalAmount := 0.0;
      totalDonors := 0;
      lastSaved := None;
      match file
      case Parsed(records) =>
        donations := records;
        totalAmount := Sum(records);
        totalDonors := DonorCount(records);
        lastSaved := Some(records);
      case Missing =>
        donations := [];
      case Unreadable =>
    }

    /**
     * saveDonations: rewrites the whole file with the current list. A failed
     * write is only logged, so it changes nothing in memory; the file itself
     * may then be truncated or partly written, so what it holds is unknown.
     */
    method Save(succeeds: bool)
      modifies this`lastSaved
      ensures lastSaved == (if succeeds then Some(donations) else None)
    {
      if succeeds {
        lastSaved := Some(donations);
      } else {
        lastSaved := None;
      }
    }

    /**
     * POST /donate. `toNumber` is `Number(...)`; `id` and `now` are the
     * server-assigned id and date; `saveSucceeds` says whether the file
     * write works. A rejected request changes nothing. An accepted one
     * appends exactly one record, adds its amount to the total and counts
     * a donor only when no earlier record has the same email.
     */
    method Donate(req: DonateRequest, toNumber: string -> Option<real>, id: string, now: int, saveSucceeds: bool)
      returns (resp: DonateResponse)
      requires Valid()
      modifies this
      ensures Valid()
      ensures resp.Rejected? <==> CheckDonation(req, toNumber).None?
      ensures resp.Rejected? ==>
                && resp.message == InvalidDonationMessage
                && donations == old(donations)
                && totalAmount == old(totalAmount) && totalDonors == old(totalDonors)
                && lastSaved == old(lastSaved)
      ensures resp.Accepted? ==>
                && resp.message == DonationAcceptedMessage
                && resp.donation == NewDonation(req, CheckDonation(req, toNumber).value, id, now)
                && resp.donation.amount > 0.0
                && donations == old(donations) + [resp.donation]
                && totalAmount == old(totalAmount) + resp.donation.amount
                && totalDonors == old(totalDonors) + (if HasEmail(old(donations), resp.donation.email) then 0 else 1)
                && lastSaved == (if saveSucceeds then Some(donations) else None)
    {
      var amount := CheckDonation(req, toNumber);
      if amount.None? {
        return Rejected(InvalidDonationMessage);
      }
      var d := NewDonation(req, amount.value, id, now);
      var isNewDonor := !HasEmail(donations, d.email);
      SumAppend(donations, d);
      DonorCountAppend(donations, d);
      donations := donations + [d];
      totalAmount := totalAmount + d.amount;
      if isNewDonor {
        totalDonors := totalDonors + 1;
      }
      resp := Accepted(DonationAcceptedMessage, d);
      assert Valid();
      assert donations == old(donations) + [resp.donation];
      assert resp.donation == NewDonation(req, CheckDonation(req, toNumber).value, id, now);
      Save(saveSucceeds);
    }

    /**
     * GET /stats. Reads the store and changes nothing: the sort works on a
     * copy. The totals are the recomputed aggregates, the progress is capped
     * at 100, and the feed is the five newest records.
     */
    method GetStats() returns (s: StatsView)
      requires Valid()
      ensures s.totalDonors == totalDonors == DonorCount(donations)
      ensures s.totalAmount == totalAmount == Sum(donations)
      ensures s.donationGoal == DonationGoal
      ensures s.progress == Progress(totalAmount) && s.progress <= 100.0
      ensures s.recentDonations == RecentDonations(donations)
      ensures |s.recentDonations| <= RecentLimit
    {
      var recent := RecentDonations(donations);
      s := StatsView(totalDonors, totalAmount, DonationGoal, Progress(totalAmount), recent);
    }

    /**
     * A process restart: a new store loaded from what was last saved. When
     * that is the current list, the totals come back unchanged.
     */
    method Restart() returns (next: DonationStore)
      requires Valid()
      requires lastSaved.Some?
      ensures fresh(next) && next.Valid()
      ensures next.donations == lastSaved.value
      ensures lastSaved == Some(donations) ==>
                next.totalAmount == totalAmount && next.totalDonors == totalDonors
    {
      next := new DonationStore.Load(Parsed(lastSaved.value));
    }
  }
}
