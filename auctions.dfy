/** Auctions: creating one (published or as a draft) fans it out into one
    sub-auction per supplier email and records its uploaded documents; the draft
    edit either invites more suppliers or rewrites the terms of every sub-auction. */
module Auctions {
  import opened Wrappers
  import opened Ids
  import opened Seqs
  import opened JsValues
  import opened Envelope
  import opened Documents

  /** The body fields that every sub-auction copies. */
  datatype Terms = Terms(
    description: JsValue,
    name: JsValue,
    owner: JsValue,
    start_date: JsValue,
    end_date: JsValue,
    starting_price: JsValue,
    cost_center: JsValue,
    currency: JsValue,
    budget: JsValue,
    minimum_step: JsValue,
    cool_down_period: JsValue,
    item: JsValue,
    buyer_status: JsValue,
    company_buyer_name: JsValue)

  /** One supplier's line of an auction (an element of `auction.auctions`). */
  datatype SubAuction = SubAuction(terms: Terms, supplier_status: JsValue, supplier_email: JsValue)

  /** The request body of the create routes and of the draft edit. */
  datatype AuctionBody = AuctionBody(
    terms: Terms,
    link: JsValue,
    supplier_status: JsValue,
    userId: JsValue,
    suppliers_email: JsValue)

  /** A stored auction: the picked body fields, its documents and its sub-auctions. */
  datatype AuctionRecord = AuctionRecord(
    id: Id,
    terms: Terms,
    link: JsValue,
    supplier_status: JsValue,
    userId: JsValue,
    suppliers_email: JsValue,
    documentPath: seq<DocEntry>,
    auctions: seq<SubAuction>)

  /** The status the draft edit gives to newly invited suppliers. */
  const Pending := Str("Pending")

  /** The emails a `suppliers_email.forEach` visits; only an array has `forEach`. */
  function Invited(v: JsValue): (emails: seq<JsValue>)
    ensures v.Arr? ==> emails == v.items
    ensures !v.Arr? ==> emails == []
  {
    if v.Arr? then v.items else []
  }

  /** How the draft edit's test on `suppliers_email.length` comes out. */
  datatype DraftBranch =
    | Invite         // `length > 0` and the value is an array
    | Rewrite        // `length <= 0`
    | NeitherBranch  // `length` is `undefined`: both comparisons are false
    | Throws         // reading `length`, or calling `forEach` on a string, raises

  /** The branch the draft edit takes for a given `suppliers_email`. */
  function DraftBranchOf(v: JsValue): (b: DraftBranch)
    ensures b.Invite? <==> v.Arr? && |v.items| > 0
    ensures b.Rewrite? <==> v == Arr([]) || v == Str("")
    ensures b.NeitherBranch? <==> v.Bool? || v.Num? || v.Obj?
    ensures b.Throws? <==> v.Null? || v.Undefined? || (v.Str? && |v.s| > 0)
  {
    match LengthOf(v)
    case ReadThrows => Throws
    case NoLength => NeitherBranch
    case HasLength(n) =>
      if n > 0 then (if v.Arr? then Invite else Throws)
      else Rewrite
  }

  function LineFor(terms: Terms, status: JsValue): JsValue -> SubAuction {
    (email: JsValue) => SubAuction(terms, status, email)
  }

  /** The sub-auctions pushed for a list of supplier emails. */
  function FanOut(terms: Terms, status: JsValue, emails: seq<JsValue>): (r: seq<SubAuction>)
    ensures |r| == |emails|
    ensures forall i :: 0 <= i < |r| ==>
      r[i].supplier_email == emails[i] && r[i].terms == terms && r[i].supplier_status == status
  {
    Map(emails, LineFor(terms, status))
  }

  /** What the draft edit writes over a sub-auction's terms: `name` as sent, the
      twelve other edited fields as the text of a template literal, and
      `company_buyer_name`, which the edit does not touch, as it was. */
  function EditedTerms(was: Terms, body: Terms): (r: Terms)
    ensures r.name == body.name && r.company_buyer_name == was.company_buyer_name
    ensures r.description == Str(Template(body.description))
    ensures r.owner == Str(Template(body.owner))
    ensures r.start_date == Str(Template(body.start_date))
    ensures r.end_date == Str(Template(body.end_date))
    ensures r.starting_price == Str(Template(body.starting_price))
    ensures r.cost_center == Str(Template(body.cost_center))
    ensures r.currency == Str(Template(body.currency))
    ensures r.budget == Str(Template(body.budget))
    ensures r.minimum_step == Str(Template(body.minimum_step))
    ensures r.cool_down_period == Str(Template(body.cool_down_period))
    ensures r.item == Str(Template(body.item))
    ensures r.buyer_status == Str(Template(body.buyer_status))
  {
    Terms(
      description := Str(Template(body.description)),
      name := body.name,
      owner := Str(Template(body.owner)),
      start_date := Str(Template(body.start_date)),
      end_date := Str(Template(body.end_date)),
      starting_price := Str(Template(body.starting_price)),
      cost_center := Str(Template(body.cost_center)),
      currency := Str(Template(body.currency)),
      budget := Str(Template(body.budget)),
      minimum_step := Str(Template(body.minimum_step)),
      cool_down_period := Str(Template(body.cool_down_period)),
      item := Str(Template(body.item)),
      buyer_status := Str(Template(body.buyer_status)),
      company_buyer_name := was.company_buyer_name)
  }

  function Overwrite(body: Terms): SubAuction -> SubAuction {
    (s: SubAuction) => s.(terms := EditedTerms(s.terms, body))
  }

  /** Every sub-auction after the side-effecting `filter` of the draft edit. */
  function Overwritten(subs: seq<SubAuction>, body: Terms): (r: seq<SubAuction>)
    ensures |r| == |subs|
    ensures forall i :: 0 <= i < |r| ==>
      && r[i].supplier_email == subs[i].supplier_email
      && r[i].supplier_status == subs[i].supplier_status
      && r[i].terms == EditedTerms(subs[i].terms, body)
  {
    Map(subs, Overwrite(body))
  }

  /** The auction a create route stores: the picked fields, one document entry per
      upload and one sub-auction per supplier email. */
  function NewAuction(id: Id, env: Option<string>, body: AuctionBody, uploads: seq<Upload>): (r: AuctionRecord)
    ensures r.id == id && r.terms == body.terms && r.link == body.link && r.userId == body.userId
    ensures r.supplier_status == body.supplier_status && r.suppliers_email == body.suppliers_email
    ensures |r.documentPath| == |uploads|
    ensures forall i :: 0 <= i < |uploads| ==>
      r.documentPath[i].fileName == UploadUrl(env) + uploads[i].filename
    ensures |r.auctions| == |Invited(body.suppliers_email)|
    ensures forall i :: 0 <= i < |r.auctions| ==>
      && r.auctions[i].supplier_email == Invited(body.suppliers_email)[i]
      && r.auctions[i].supplier_status == body.supplier_status
      && r.auctions[i].terms == body.terms
  {
    AuctionRecord(
      id, body.terms, body.link, body.supplier_status, body.userId, body.suppliers_email,
      Entries(UploadUrl(env), uploads),
      FanOut(body.terms, body.supplier_status, Invited(body.suppliers_email)))
  }

  /** The draft edit's effect on the stored auction it finds: only the sub-auctions
      and, when rewriting, the link change; inviting never removes a sub-auction. */
  function EditedDraft(a: AuctionRecord, body: AuctionBody): (r: AuctionRecord)
    ensures r == a.(auctions := r.auctions, link := r.link)
    ensures DraftBranchOf(body.suppliers_email).Invite? ==>
      r.link == a.link && |r.auctions| == |a.auctions| + |Invited(body.suppliers_email)|
    ensures !DraftBranchOf(body.suppliers_email).Invite? ==>
      r.link == body.link && |r.auctions| == |a.auctions|
  {
    if DraftBranchOf(body.suppliers_email).Invite? then
      a.(auctions := a.auctions + FanOut(body.terms, Pending, Invited(body.suppliers_email)))
    else
      a.(auctions := Overwritten(a.auctions, body.terms), link := body.link)
  }

  /** With new suppliers the edit appends one "Pending" sub-auction per email after
      the existing ones, which stay as they were, and changes nothing else. */
  lemma DraftEditAppends(a: AuctionRecord, body: AuctionBody)
    requires DraftBranchOf(body.suppliers_email).Invite?
    ensures var r := EditedDraft(a, body);
      && r == a.(auctions := r.auctions)
      && |r.auctions| == |a.auctions| + |body.suppliers_email.items|
      && r.auctions[..|a.auctions|] == a.auctions
      && forall i :: 0 <= i < |body.suppliers_email.items| ==>
           var s := r.auctions[|a.auctions| + i];
           s.supplier_email == body.suppliers_email.items[i] && s.supplier_status == Pending
           && s.terms == body.terms
  {
  }

  /** Without new suppliers the edit keeps the number of sub-auctions and each one's
      email, status and buyer company name, sets `name` to the body's value and every
      other edited field to that value's text, and replaces the link. */
  lemma DraftEditOverwrites(a: AuctionRecord, body: AuctionBody, i: nat)
    requires DraftBranchOf(body.suppliers_email).Rewrite?
    requires i < |a.auctions|
    ensures var r := EditedDraft(a, body);
      && r == a.(auctions := r.auctions, link := body.link)
      && |r.auctions| == |a.auctions|
      && var s, t := r.auctions[i], a.auctions[i];
      && s.supplier_email == t.supplier_email
      && s.supplier_status == t.supplier_status
      && s.terms.company_buyer_name == t.terms.company_buyer_name
      && s.terms.name == body.terms.name
      && s.terms.owner == Str(Template(body.terms.owner))
      && s.terms.starting_price == Str(Template(body.terms.starting_price))
      && s.terms.buyer_status == Str(Template(body.terms.buyer_status))
      && s.terms == EditedTerms(t.terms, body.terms)
  {
  }

  /** Sending the same terms-only edit twice gives the same auction as sending it once. */
  lemma DraftEditIdempotent(a: AuctionRecord, body: AuctionBody)
    requires DraftBranchOf(body.suppliers_email).Rewrite?
    ensures EditedDraft(EditedDraft(a, body), body) == EditedDraft(a, body)
  {
  }

  /** A whole-number field sent to the terms-only edit comes back as its decimal text,
      which reads back as the number. */
  lemma EditedNumberReadsBack(a: AuctionRecord, body: AuctionBody, i: nat, n: int)
    requires DraftBranchOf(body.suppliers_email).Rewrite?
    requires i < |a.auctions|
    requires body.terms.starting_price == Num(n)
    ensures var p := EditedDraft(a, body).auctions[i].terms.starting_price;
      p.Str? && ParseInt(p.s) == Some(n)
  {
    TemplateOfText(body.terms.starting_price);
  }

  /** An auction fetched from, or about to be saved to, the store: the handlers
      change its fields in place and then save it. */
  class AuctionDocument {
    var id: Id
    var terms: Terms
    var link: JsValue
    var supplier_status: JsValue
    var userId: JsValue
    var suppliers_email: JsValue
    var documentPath: seq<DocEntry>
    var auctions: seq<SubAuction>

    function Value(): AuctionRecord
      reads this
    {
      AuctionRecord(id, terms, link, supplier_status, userId, suppliers_email, documentPath, auctions)
    }

    /** `new Auction(_.pick(req.body, [...]))`: no documents and no sub-auctions yet. */
    constructor Picked(id: Id, body: AuctionBody)
      ensures Value() == AuctionRecord(id, body.terms, body.link, body.supplier_status,
                                       body.userId, body.suppliers_email, [], [])
    {
      this.id := id;
      terms := body.terms;
      link := body.link;
      supplier_status := body.supplier_status;
      userId := body.userId;
      suppliers_email := body.suppliers_email;
      documentPath := [];
      auctions := [];
    }

    /** A document as `findOne` returns it. */
    constructor Fetched(r: AuctionRecord)
      ensures Value() == r
    {
      id, terms, link, supplier_status := r.id, r.terms, r.link, r.supplier_status;
      userId, suppliers_email := r.userId, r.suppliers_email;
      documentPath, auctions := r.documentPath, r.auctions;
    }

    /** Pushes one `documentPath` entry per uploaded file. */
    method AttachUploads(url: string, uploads: seq<Upload>)
      modifies this
      ensures Value() == old(Value()).(documentPath := old(documentPath) + Entries(url, uploads))
    {
      documentPath := PushUploads(documentPath, url, uploads);
    }

    /** `suppliers_email.forEach(... auction.auctions.push({...}))`. */
    method AddSuppliers(shared: Terms, status: JsValue, emails: seq<JsValue>)
      modifies this
      ensures Value() == old(Value()).(auctions := old(auctions) + FanOut(shared, status, emails))
    {
      var i := 0;
      while i < |emails|
        invariant 0 <= i <= |emails|
        invariant Value() == old(Value()).(auctions := old(auctions) + FanOut(shared, status, emails[..i]))
      {
        assert emails[..i + 1] == emails[..i] + [emails[i]];
        MapSnoc(emails[..i], emails[i], LineFor(shared, status));
        auctions := auctions + [SubAuction(shared, status, emails[i])];
        i := i + 1;
      }
      assert emails[..i] == emails;
    }

    /** The draft edit's `filter`, whose callback assigns the edited fields of every
        sub-auction in turn and returns nothing. */
    method OverwriteTerms(body: Terms)
      modifies this
      ensures Value() == old(Value()).(auctions := Overwritten(old(auctions), body))
    {
      var i := 0;
      while i < |auctions|
        invariant 0 <= i <= |auctions| == |old(auctions)|
        invariant forall j :: 0 <= j < i ==> auctions[j] == Overwrite(body)(old(auctions)[j])
        invariant forall j :: i <= j < |auctions| ==> auctions[j] == old(auctions)[j]
        invariant Value() == old(Value()).(auctions := auctions)
      {
        auctions := auctions[i := auctions[i].(terms := EditedTerms(auctions[i].terms, body))];
        i := i + 1;
      }
      assert auctions == Overwritten(old(auctions), body);
    }
  }

  /** The two create routes: `addAuction` publishes (and mails the suppliers),
      `saveAuctionAsDraft` only saves. */
  datatype CreateRoute = Publish | Draft

  function CreatedText(route: CreateRoute): string {
    match route
    case Publish => "Auction created and notification email sent Successfully"
    case Draft => "Auction saved as draft Successfully"
  }

  /** `addAuction` and `saveAuctionAsDraft`. A body the validator rejects gets its
      message with status 400 and nothing is stored. `req.files` is missing when the
      request was not multipart, and `suppliers_email.forEach` throws unless the value
      is an array; either way the handler throws, nothing is stored and no reply is sent.
      Otherwise one auction is stored with one document entry per upload and one
      sub-auction per supplier email. */
  method CreateAuction(stored: seq<AuctionRecord>, route: CreateRoute, env: Option<string>,
                       body: AuctionBody, files: Option<seq<Upload>>, schemaError: Option<string>, newId: Id)
    returns (stored': seq<AuctionRecord>, response: Response<AuctionRecord>)
    ensures schemaError.Some? ==> stored' == stored && response == Rejected(schemaError.value)
    ensures schemaError.None? && (files.None? || !body.suppliers_email.Arr?) ==>
      stored' == stored && response == NoResponse
    ensures schemaError.None? && files.Some? && body.suppliers_email.Arr? ==>
      && stored' == stored + [NewAuction(newId, env, body, files.value)]
      && response == Success(CreatedText(route), NewAuction(newId, env, body, files.value))
  {
    if schemaError.Some? {
      return stored, Rejected(schemaError.value);
    }
    var doc := new AuctionDocument.Picked(newId, body);
    if files.None? {
      return stored, NoResponse;
    }
    var uploads := files.value;
    doc.AttachUploads(UploadUrl(env), uploads);
    if !body.suppliers_email.Arr? {
      return stored, NoResponse;
    }
    doc.AddSuppliers(body.terms, body.supplier_status, body.suppliers_email.items);
    doc.userId, doc.link := body.userId, body.link;
    var saved := doc.Value();
    assert saved.documentPath == [] + Entries(UploadUrl(env), uploads);
    assert saved.auctions == [] + FanOut(body.terms, body.supplier_status, Invited(body.suppliers_email));
    assert saved == NewAuction(newId, env, body, uploads);
    stored' := stored + [saved];
    response := Success(CreatedText(route), saved);
  }

  function WithAuctionId(id: Id): AuctionRecord -> bool {
    (a: AuctionRecord) => a.id == id
  }

  function EditedText(body: AuctionBody): string {
    if DraftBranchOf(body.suppliers_email).Invite? then "Seller added to auction succesfully"
    else "Auction updated Successfully"
  }

  /** `EditsaveAuctionDraft`. The branch test alone decides three outcomes: a throw
      (no reply, nothing stored), or neither branch, which replies "99" whether or not
      the auction exists. In the two branches a missing auction makes the handler
      throw; a found one is edited as `EditedDraft` says and written back in place. */
  method EditSaveAuctionDraft(stored: seq<AuctionRecord>, id: Id, body: AuctionBody)
    returns (stored': seq<AuctionRecord>, response: Response<AuctionRecord>)
    ensures DraftBranchOf(body.suppliers_email).Throws? ==> stored' == stored && response == NoResponse
    ensures DraftBranchOf(body.suppliers_email).NeitherBranch? ==>
      && stored' == stored
      && response == Missing("Auction with id " + id + " does not exist")
    ensures (DraftBranchOf(body.suppliers_email).Invite? || DraftBranchOf(body.suppliers_email).Rewrite?) ==>
      if FindFirst(stored, WithAuctionId(id)).None? then stored' == stored && response == NoResponse
      else
        var k := FindFirst(stored, WithAuctionId(id)).value;
        && stored' == stored[k := EditedDraft(stored[k], body)]
        && response == Success(EditedText(body), EditedDraft(stored[k], body))
  {
    var found := FindFirst(stored, WithAuctionId(id));
    var length := LengthOf(body.suppliers_email);
    if length.ReadThrows? {
      return stored, NoResponse;
    }
    if length.HasLength? && length.n > 0 {
      if !body.suppliers_email.Arr? || found.None? {
        return stored, NoResponse;
      }
      var k := found.value;
      var doc := new AuctionDocument.Fetched(stored[k]);
      doc.AddSuppliers(body.terms, Pending, body.suppliers_email.items);
      var saved := doc.Value();
      stored' := stored[k := saved];
      response := Success(EditedText(body), saved);
    } else if length.HasLength? && length.n <= 0 {
      if found.None? {
        return stored, NoResponse;
      }
      var k := found.value;
      var doc := new AuctionDocument.Fetched(stored[k]);
      doc.OverwriteTerms(body.terms);
      doc.link := body.link;
      var saved := doc.Value();
      stored' := stored[k := saved];
      response := Success(EditedText(body), saved);
    } else {
      return stored, Missing("Auction with id " + id + " does not exist");
    }
  }

  function BuyerIs(userId: string): AuctionRecord -> bool {
    (a: AuctionRecord) => a.userId == Str(userId)
  }

  /** `GET /auctions/:getAllActionsByBuyerUserID`: the buyer's auctions in stored
      order under "00", or 400 with "99" when the buyer has none. */
  function AuctionsOfBuyer(stored: seq<AuctionRecord>, userId: string): (r: Response<seq<AuctionRecord>>)
    ensures r.Json?
    ensures r.envelope.responseCode == NotFoundCode <==>
      forall i :: 0 <= i < |stored| ==> stored[i].userId != Str(userId)
    ensures r.status == BadRequest <==>
      forall i :: 0 <= i < |stored| ==> stored[i].userId != Str(userId)
    ensures r.envelope.responseCode == SuccessCode <==>
      exists i :: 0 <= i < |stored| && stored[i].userId == Str(userId)
    ensures r.status == DefaultStatus <==>
      exists i :: 0 <= i < |stored| && stored[i].userId == Str(userId)
    ensures r.envelope.responseCode == NotFoundCode ==> r.envelope.data == None
    ensures r.envelope.responseCode == SuccessCode ==>
      r.envelope.data == Some(Filter(stored, BuyerIs(userId)))
  {
    MatchingList(stored, BuyerIs(userId))
  }
}
