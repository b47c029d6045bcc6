/** The bill (expense report) record as stored and as handled by both
    containers. */
module Records {
  import opened Common

  /** A stored bill. `kind` is the record's `type` field; `fileUrl` is `null`
      until a proof file has been uploaded; `commentAdmin` is set by a review
      decision. `status` is a free string: stored records carry "pending",
      "accepted" or "refused", and the employee list replaces it with a display
      label. */
  datatype Bill = Bill(
    id: string,
    email: string,
    kind: string,
    name: string,
    amount: int,
    date: string,
    vat: string,
    pct: int,
    commentary: string,
    fileUrl: Option<string>,
    fileName: string,
    status: string,
    commentAdmin: Option<string>)
}
