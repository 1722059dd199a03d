/** `GET /auctions/supplier/:getAllActionsByEmail`: a supplier's view of the first
    auction that invites them. */
module SupplierView {
  import opened Wrappers
  import opened Ids
  import opened Seqs
  import opened JsValues
  import opened Envelope
  import opened Documents
  import opened Auctions

  /** An element of the reply's `result`: one of the supplier's sub-auctions, or the
      summary record pushed after them. */
  datatype ViewEntry =
    | Line(sub: SubAuction)
    | Summary(auctionId: Id, link: JsValue, documentPath: seq<DocEntry>)

  /** `x.supplier_email === `${email}``. */
  function HasEmail(email: string): SubAuction -> bool {
    (s: SubAuction) => s.supplier_email == Str(email)
  }

  /** The query `{ "auctions.supplier_email": email }`: some sub-auction has the email. */
  function Invites(email: string): AuctionRecord -> bool {
    (a: AuctionRecord) => exists i :: 0 <= i < |a.auctions| && a.auctions[i].supplier_email == Str(email)
  }

  function AsLine(s: SubAuction): ViewEntry {
    Line(s)
  }

  /** The handler: "99" at the default status when no auction invites the supplier;
      otherwise "00" with the first inviting auction's sub-auctions for that email,
      followed by one summary record of that auction. */
  function SupplierAuctions(stored: seq<AuctionRecord>, email: string): (r: Response<seq<ViewEntry>>)
    ensures r.Json? && r.status == DefaultStatus
    ensures r.envelope.responseCode == NotFoundCode <==>
      forall k :: 0 <= k < |stored| ==> !Invites(email)(stored[k])
    ensures r.envelope.responseCode == SuccessCode <==>
      exists k :: 0 <= k < |stored| && Invites(email)(stored[k])
    ensures r.envelope.data.Some? <==> r.envelope.responseCode == SuccessCode
  {
    match FindFirst(stored, Invites(email))
    case None => Missing("No record found")
    case Some(k) =>
      var a := stored[k];
      Success("Succesfull", Map(Filter(a.auctions, HasEmail(email)), AsLine)
                            + [Summary(a.id, a.link, a.documentPath)])
  }

  /** What a "00" reply holds. With `k` the first auction that invites the supplier:
      the last element summarises auction `k`; before it come, in their stored order,
      exactly the sub-auctions of `k` that carry the email, and at least one of them. */
  lemma {:induction false} SupplierAuctionsResult(stored: seq<AuctionRecord>, email: string, k: nat)
    requires k < |stored| && Invites(email)(stored[k])
    requires forall j :: 0 <= j < k ==> !Invites(email)(stored[j])
    ensures var r := SupplierAuctions(stored, email);
      && r.envelope.responseCode == SuccessCode
      && r.envelope.data.Some?
      && var result := r.envelope.data.value;
      && var a := stored[k];
      && |result| >= 2
      && result[|result| - 1] == Summary(a.id, a.link, a.documentPath)
      && result[..|result| - 1] == Map(Filter(a.auctions, HasEmail(email)), AsLine)
      && (forall i :: 0 <= i < |result| - 1 ==>
            result[i].Line? && result[i].sub.supplier_email == Str(email))
      && (forall s :: s in a.auctions && s.supplier_email == Str(email) ==> Line(s) in result)
  {
    var a := stored[k];
    var found := FindFirst(stored, Invites(email));
    assert found == Some(k);
    var kept := Filter(a.auctions, HasEmail(email));
    FilterEmpty(a.auctions, HasEmail(email));
    var lines := Map(kept, AsLine);
    var result := lines + [Summary(a.id, a.link, a.documentPath)];
    assert SupplierAuctions(stored, email).envelope.data == Some(result);
    assert result[..|result| - 1] == lines;
    forall s | s in a.auctions && s.supplier_email == Str(email) ensures Line(s) in result {
      FilterMembership(a.auctions, HasEmail(email), s);
      var i :| 0 <= i < |kept| && kept[i] == s;
      assert result[i] == Line(s);
    }
  }
}
