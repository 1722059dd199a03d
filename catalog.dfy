/** The company catalog collections: item categories and groups, supplier
    categories, cost centers and tags. They share one record shape: the edit
    routes rename a record and the list routes select by company. */
module Catalog {
  import opened Wrappers
  import opened Ids
  import opened Seqs
  import opened JsValues
  import opened Envelope

  datatype CatalogKind = ItemsCatGroup | SupplierCategory | CostCenter | Tag

  /** `itemType` is only given to item categories and groups; on the other
      collections it stays `Undefined`. */
  datatype CatalogRecord = CatalogRecord(
    id: Id,
    name: JsValue,
    itemType: JsValue,
    companyId: JsValue,
    createdBy: JsValue,
    updatedBy: JsValue)

  /** The body fields the edit routes read; `_id` is the one in the body, not the
      path parameter. */
  datatype EditBody = EditBody(name: JsValue, userId: JsValue, itemType: JsValue, bodyId: JsValue)

  function WithCatalogId(id: Id): CatalogRecord -> bool {
    (r: CatalogRecord) => r.id == id
  }

  function OfCompany(companyId: string): CatalogRecord -> bool {
    (r: CatalogRecord) => r.companyId == Str(companyId)
  }

  /** A catalog record fetched by `findById`. */
  class CatalogDocument {
    var id: Id
    var name: JsValue
    var itemType: JsValue
    var companyId: JsValue
    var createdBy: JsValue
    var updatedBy: JsValue

    function Value(): CatalogRecord
      reads this
    {
      CatalogRecord(id, name, itemType, companyId, createdBy, updatedBy)
    }

    constructor Fetched(r: CatalogRecord)
      ensures Value() == r
    {
      id, name, itemType, companyId := r.id, r.name, r.itemType, r.companyId;
      createdBy, updatedBy := r.createdBy, r.updatedBy;
    }

    /** `x.name = req.body.name; x.updatedBy = req.body.userId`. */
    method Rename(newName: JsValue, userId: JsValue)
      modifies this
      ensures Value() == old(Value()).(name := newName, updatedBy := userId)
    {
      name := newName;
      updatedBy := userId;
    }
  }

  /** The success description: the item-type collections quote the SAVED record's
      `itemType`; the other two use a fixed text. */
  function UpdatedText(kind: CatalogKind, saved: CatalogRecord): (text: string)
    ensures |text| >= |" updated Successfully"|
    ensures text[|text| - |" updated Successfully"|..] == " updated Successfully"
    ensures (kind.ItemsCatGroup? || kind.SupplierCategory?) ==>
      text[..|text| - |" updated Successfully"|] == Template(saved.itemType)
  {
    match kind
    case ItemsCatGroup => Template(saved.itemType) + " updated Successfully"
    case SupplierCategory => Template(saved.itemType) + " updated Successfully"
    case CostCenter => "Cost center updated Successfully"
    case Tag => "Tag updated Successfully"
  }

  /** The not-found description, built from the body; the tag route quotes the
      body's `userId` where the others quote its `_id`. */
  function MissingText(kind: CatalogKind, body: EditBody): (text: string)
    ensures |text| >= |" does not exist"|
    ensures text[|text| - |" does not exist"|..] == " does not exist"
    ensures kind.Tag? ==> text == "Tag with id " + Template(body.userId) + " does not exist"
    ensures !kind.Tag? ==> exists prefix :: text == prefix + " with id " + Template(body.bodyId) + " does not exist"
  {
    match kind
    case ItemsCatGroup => Template(body.itemType) + " with id " + Template(body.bodyId) + " does not exist"
    case SupplierCategory => Template(body.itemType) + " with id " + Template(body.bodyId) + " does not exist"
    case CostCenter => "Cost center" + " with id " + Template(body.bodyId) + " does not exist"
    case Tag => "Tag with id " + Template(body.userId) + " does not exist"
  }

  /** What an edit leaves in the record. */
  function Renamed(r: CatalogRecord, body: EditBody): CatalogRecord {
    r.(name := body.name, updatedBy := body.userId)
  }

  /** `editItemsCatGroup`, `editSupplierCategory`, `editCostCenter` and `editTag`. */
  method EditCatalogEntry(stored: seq<CatalogRecord>, kind: CatalogKind, id: Id, body: EditBody)
    returns (stored': seq<CatalogRecord>, response: Response<CatalogRecord>)
    ensures FindFirst(stored, WithCatalogId(id)).None? ==>
      && stored' == stored
      && response == Missing(MissingText(kind, body))
      && response.status == DefaultStatus && response.envelope.responseCode == NotFoundCode
    ensures FindFirst(stored, WithCatalogId(id)).Some? ==>
      var k := FindFirst(stored, WithCatalogId(id)).value;
      && stored' == stored[k := Renamed(stored[k], body)]
      && response == Success(UpdatedText(kind, stored[k]), Renamed(stored[k], body))
  {
    var found := FindFirst(stored, WithCatalogId(id));
    if found.None? {
      return stored, Missing(MissingText(kind, body));
    }
    var k := found.value;
    var doc := new CatalogDocument.Fetched(stored[k]);
    doc.Rename(body.name, body.userId);
    var saved := doc.Value();
    stored' := stored[k := saved];
    response := Success(UpdatedText(kind, saved), saved);
  }

  /** `getItemsCatGroups`, `getSupplierCategories`, `getCostCenter` and `getTag`. */
  function CatalogOfCompany(stored: seq<CatalogRecord>, companyId: string): (r: Response<seq<CatalogRecord>>)
    ensures r.Json?
    ensures r.envelope.responseCode == NotFoundCode <==>
      forall i :: 0 <= i < |stored| ==> stored[i].companyId != Str(companyId)
    ensures r.status == BadRequest <==>
      forall i :: 0 <= i < |stored| ==> stored[i].companyId != Str(companyId)
    ensures r.envelope.responseCode == SuccessCode <==>
      exists i :: 0 <= i < |stored| && stored[i].companyId == Str(companyId)
    ensures r.status == DefaultStatus <==>
      exists i :: 0 <= i < |stored| && stored[i].companyId == Str(companyId)
    ensures r.envelope.responseCode == NotFoundCode ==> r.envelope.data == None
    ensures r.envelope.responseCode == SuccessCode ==>
      r.envelope.data == Some(Filter(stored, OfCompany(companyId)))
  {
    MatchingList(stored, OfCompany(companyId))
  }
}
