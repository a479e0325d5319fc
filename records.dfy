/** The donation record kept in memory and in data/donations.json. */
module Records {

  /**
   * One donation. `kind` is the record's `type` field (a reserved word here);
   * `date` is the creation time as milliseconds since the epoch, standing for
   * the ISO-8601 string the server stores and parses back when sorting.
   */
  datatype Donation = Donation(
    id: string,
    name: string,
    email: string,
    amount: real,
    kind: string,
    message: string,
    date: int)
}
