/** Items and their attached documents; the upload directory is the set of paths of
    the files it holds. */
module Items {
  import opened Wrappers
  import opened Ids
  import opened Seqs
  import opened JsValues
  import opened Envelope
  import opened Documents

  /** The body fields both item-create routes pick. */
  datatype ItemFields = ItemFields(
    itemId: JsValue,
    item_name: JsValue,
    manufacturer: JsValue,
    notes: JsValue,
    unit: JsValue,
    category: JsValue,
    model: JsValue,
    group: JsValue,
    status: JsValue,
    tagss: JsValue,
    image_upload: JsValue,
    company_name: JsValue,
    link: JsValue,
    userId: JsValue)

  datatype ItemRecord = ItemRecord(id: Id, fields: ItemFields, document: seq<DocEntry>)

  function WithItemId(id: Id): ItemRecord -> bool {
    (r: ItemRecord) => r.id == id
  }

  /** The query `{ "document._id": id }`. */
  function HoldsDocument(docId: Id): ItemRecord -> bool {
    (r: ItemRecord) => exists i :: 0 <= i < |r.document| && r.document[i].id == docId
  }

  function OfCompany(companyName: string): ItemRecord -> bool {
    (r: ItemRecord) => r.fields.company_name == Str(companyName)
  }

  /** An item fetched from, or about to be saved to, the store. */
  class ItemDocument {
    var id: Id
    var fields: ItemFields
    var document: seq<DocEntry>

    function Value(): ItemRecord
      reads this
    {
      ItemRecord(id, fields, document)
    }

    /** `new Item(_.pick(req.body, [...]))`. */
    constructor Picked(id: Id, fields: ItemFields)
      ensures Value() == ItemRecord(id, fields, [])
    {
      this.id, this.fields, document := id, fields, [];
    }

    constructor Fetched(r: ItemRecord)
      ensures Value() == r
    {
      id, fields, document := r.id, r.fields, r.document;
    }

    /** Pushes one `document` entry per uploaded file. */
    method AttachUploads(url: string, uploads: seq<Upload>)
      modifies this
      ensures Value() == old(Value()).(document := old(document) + Entries(url, uploads))
    {
      document := PushUploads(document, url, uploads);
    }
  }

  /** The item both create routes store. */
  function NewItem(id: Id, env: Option<string>, fields: ItemFields, uploads: seq<Upload>): (r: ItemRecord)
    ensures r.id == id && r.fields == fields
    ensures |r.document| == |uploads|
    ensures forall i :: 0 <= i < |uploads| ==>
      && r.document[i].fileName == UploadUrl(env) + uploads[i].filename
      && r.document[i].path == DiskPath(uploads[i].filename)
  {
    ItemRecord(id, fields, Entries(UploadUrl(env), uploads))
  }

  /** Builds the picked item, attaches the uploads and saves it. */
  method StoreNewItem(stored: seq<ItemRecord>, env: Option<string>, fields: ItemFields,
                      uploads: seq<Upload>, newId: Id)
    returns (stored': seq<ItemRecord>, saved: ItemRecord)
    ensures saved == NewItem(newId, env, fields, uploads)
    ensures stored' == stored + [saved]
  {
    var doc := new ItemDocument.Picked(newId, fields);
    doc.AttachUploads(UploadUrl(env), uploads);
    saved := doc.Value();
    assert saved.document == [] + Entries(UploadUrl(env), uploads);
    stored' := stored + [saved];
  }

  /** `addItem`: validated, then one item with one document entry per upload. A
      request that was not multipart has no `req.files`, so `forEach` throws: nothing
      is stored and there is no reply. */
  method AddItem(stored: seq<ItemRecord>, env: Option<string>, fields: ItemFields,
                 files: Option<seq<Upload>>, schemaError: Option<string>, newId: Id)
    returns (stored': seq<ItemRecord>, response: Response<ItemRecord>)
    ensures schemaError.Some? ==> stored' == stored && response == Rejected(schemaError.value)
    ensures schemaError.None? && files.None? ==> stored' == stored && response == NoResponse
    ensures schemaError.None? && files.Some? ==>
      && stored' == stored + [NewItem(newId, env, fields, files.value)]
      && response == Success("Item created Successfully", NewItem(newId, env, fields, files.value))
  {
    if schemaError.Some? {
      return stored, Rejected(schemaError.value);
    }
    if files.None? {
      return stored, NoResponse;
    }
    var saved;
    stored', saved := StoreNewItem(stored, env, fields, files.value, newId);
    response := Success("Item created Successfully", saved);
  }

  /** `saveItemAsDraft`: the same without validation. */
  method SaveItemAsDraft(stored: seq<ItemRecord>, env: Option<string>, fields: ItemFields,
                         files: Option<seq<Upload>>, newId: Id)
    returns (stored': seq<ItemRecord>, response: Response<ItemRecord>)
    ensures files.None? ==> stored' == stored && response == NoResponse
    ensures files.Some? ==>
      && stored' == stored + [NewItem(newId, env, fields, files.value)]
      && response == Success("Item saved as draft Successfully", NewItem(newId, env, fields, files.value))
  {
    if files.None? {
      return stored, NoResponse;
    }
    var saved;
    stored', saved := StoreNewItem(stored, env, fields, files.value, newId);
    response := Success("Item saved as draft Successfully", saved);
  }

  /** `uploadDocument`: appends one entry per upload to the item and replies with
      `document.slice(-1)`: the entry of the last uploaded file, or, when nothing was
      uploaded, the item's previous last entry (if any). An unknown item, or a request
      that was not multipart, gets no reply. */
  method UploadDocument(stored: seq<ItemRecord>, env: Option<string>, id: Id, files: Option<seq<Upload>>)
    returns (stored': seq<ItemRecord>, response: Response<seq<DocEntry>>)
    ensures FindFirst(stored, WithItemId(id)).None? || files.None? ==>
      stored' == stored && response == NoResponse
    ensures FindFirst(stored, WithItemId(id)).Some? && files.Some? ==>
      var k := FindFirst(stored, WithItemId(id)).value;
      var uploads := files.value;
      var docs := stored[k].document + Entries(UploadUrl(env), uploads);
      && stored' == stored[k := stored[k].(document := docs)]
      && response.Json? && response.envelope.data.Some?
      && response == Success("File updated Successfully", response.envelope.data.value)
      && (|uploads| > 0 ==>
            response.envelope.data.value == [EntryFor(UploadUrl(env))(uploads[|uploads| - 1])])
      && (|uploads| == 0 ==> response.envelope.data.value == LastEntry(stored[k].document))
  {
    var found := FindFirst(stored, WithItemId(id));
    if found.None? || files.None? {
      return stored, NoResponse;
    }
    var uploads := files.value;
    var k := found.value;
    var doc := new ItemDocument.Fetched(stored[k]);
    doc.AttachUploads(UploadUrl(env), uploads);
    var saved := doc.Value();
    stored' := stored[k := saved];
    if |uploads| == 0 {
      assert saved.document == stored[k].document;
    }
    response := Success("File updated Successfully", LastEntry(saved.document));
  }

  /** `deleteItemDocument`: finds the first item holding an entry with the given `_id`
      and replies with that item's entries carrying the id; it pulls the item's
      entries whose `fileName` is the given one and unlinks the given path, both
      independent of the id. With no such item the handler throws before replying. */
  method DeleteItemDocument(stored: seq<ItemRecord>, dir: set<string>, docId: Id,
                            fileName: string, path: string)
    returns (stored': seq<ItemRecord>, dir': set<string>, response: Response<seq<DocEntry>>)
    ensures FindFirst(stored, HoldsDocument(docId)).None? ==>
      stored' == stored && dir' == dir && response == NoResponse
    ensures FindFirst(stored, HoldsDocument(docId)).Some? ==>
      var k := FindFirst(stored, HoldsDocument(docId)).value;
      var docs := stored[k].document;
      && stored' == stored[k := stored[k].(document := Filter(docs, OtherName(fileName)))]
      && (forall e :: e in stored'[k].document <==> e in docs && e.fileName != fileName)
      && dir' == dir - {path}
      && response == Success("File deleted Successfully", Filter(docs, HasId(docId)))
      && |response.envelope.data.value| >= 1
      && (forall e :: e in response.envelope.data.value <==> e in docs && e.id == docId)
  {
    var found := FindFirst(stored, HoldsDocument(docId));
    if found.None? {
      return stored, dir, NoResponse;
    }
    var k := found.value;
    var docs := stored[k].document;
    var result := Filter(docs, HasId(docId));
    FilterEmpty(docs, HasId(docId));
    var kept := Filter(docs, OtherName(fileName));
    forall e ensures e in kept <==> e in docs && e.fileName != fileName {
      FilterMembership(docs, OtherName(fileName), e);
    }
    forall e ensures e in result <==> e in docs && e.id == docId {
      FilterMembership(docs, HasId(docId), e);
    }
    stored' := stored[k := stored[k].(document := kept)];
    dir' := dir - {path};
    response := Success("File deleted Successfully", result);
  }

  /** `deleteItem`: unlinks the path of every entry of the item, then deletes the
      item; an unknown item makes the handler throw, so nothing changes and there is
      no reply. */
  method DeleteItem(stored: seq<ItemRecord>, dir: set<string>, id: Id)
    returns (stored': seq<ItemRecord>, dir': set<string>, response: Response<()>)
    ensures FindFirst(stored, WithItemId(id)).None? ==>
      stored' == stored && dir' == dir && response == NoResponse
    ensures FindFirst(stored, WithItemId(id)).Some? ==>
      var k := FindFirst(stored, WithItemId(id)).value;
      && stored' == RemoveAt(stored, k)
      && dir' == dir - Paths(stored[k].document)
      && (forall e :: e in stored[k].document ==> e.path !in dir')
      && (forall p :: p in dir && (forall e :: e in stored[k].document ==> e.path != p) ==> p in dir')
      && response == Done("Company item deleted Successfully")
  {
    var found := FindFirst(stored, WithItemId(id));
    if found.None? {
      return stored, dir, NoResponse;
    }
    var k := found.value;
    var docs := stored[k].document;
    dir' := dir;
    var i := 0;
    while i < |docs|
      invariant 0 <= i <= |docs|
      invariant dir' == dir - Paths(docs[..i])
    {
      assert Paths(docs[..i + 1]) == Paths(docs[..i]) + {docs[i].path} by {
        assert forall j :: 0 <= j < i ==> docs[..i + 1][j] == docs[..i][j];
      }
      dir' := dir' - {docs[i].path};
      i := i + 1;
    }
    assert docs[..i] == docs;
    stored' := RemoveAt(stored, k);
    response := Done("Company item deleted Successfully");
  }

  /** `GET /item/:getAllItemsByBuyerCompanyName`. */
  function ItemsOfCompany(stored: seq<ItemRecord>, companyName: string): (r: Response<seq<ItemRecord>>)
    ensures r.Json?
    ensures r.envelope.responseCode == NotFoundCode <==>
      forall i :: 0 <= i < |stored| ==> stored[i].fields.company_name != Str(companyName)
    ensures r.status == BadRequest <==>
      forall i :: 0 <= i < |stored| ==> stored[i].fields.company_name != Str(companyName)
    ensures r.envelope.responseCode == SuccessCode <==>
      exists i :: 0 <= i < |stored| && stored[i].fields.company_name == Str(companyName)
    ensures r.status == DefaultStatus <==>
      exists i :: 0 <= i < |stored| && stored[i].fields.company_name == Str(companyName)
    ensures r.envelope.responseCode == NotFoundCode ==> r.envelope.data == None
    ensures r.envelope.responseCode == SuccessCode ==>
      r.envelope.data == Some(Filter(stored, OfCompany(companyName)))
  {
    MatchingList(stored, OfCompany(companyName))
  }
}
