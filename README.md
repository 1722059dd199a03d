# Buyer routes: a Dafny model of their in-memory logic

`routes/buyer.js` is the buyer side of a procurement portal. It is an Express router over Mongoose
models for projects, auctions, items, budgets and the company catalogs (item categories and groups,
supplier categories, cost centers, tags). Most of each handler is calls into the database library.
This project models the part that is the router's own logic:

- turning uploaded files into document entries;
- fanning an auction out into one sub-auction per supplier email;
- the two branches of the auction draft edit;
- the supplier view;
- the project member list edits;
- budget creation;
- the item document operations;
- the rule that chooses the response envelope.

Modelling choices:

- Each collection is a sequence of records in stored order. A lookup takes the first match, an
  insert appends, and a save writes the record back where it was read.
- The upload directory is the set of paths it holds.
- A Mongoose document that a handler changes field by field is a class (`AuctionDocument`,
  `ItemDocument`, `ProjectDocument`, `CatalogDocument`). Its methods are proved against record
  updates of `Value()`.
- Each handler is a method. It returns the new collections and the reply: `NoResponse`, a 400 text,
  or a JSON envelope carrying `responseCode`, `responseDescription` and data.
- Request fields are `JsValue`s. Template-literal interpolation is JavaScript's ToString on them
  (`JsValues.Template`).

Modules:

| module | contents |
|---|---|
| `Seqs` | `Map`, `Filter`, `FindFirst` and `RemoveAt` on sequences, with their lemmas |
| `JsValues` | JSON values, ToString, and the integer text round trip |
| `Envelope` | the reply shapes and the list rule |
| `Documents` | upload entries, with `fileName` = `VERIFICATION_URL + "/uploads/" + filename` and `path` = `uploads\\` + filename |
| `Auctions` | create, draft save, draft edit, the buyer's auction list |
| `SupplierView` | the supplier's auction view |
| `Projects` | member list edits, the project draft edit, the project list |
| `Budgets` | `addBudget` |
| `Items` | item creation, document upload and deletion, item deletion, the item list |
| `Catalog` | the catalog edit routes and list routes |

## Model

| member | source | states |
|---|---|---|
| Envelope.ListResponse | routes/buyer.js:42-50 | A list reply has status 400 and code "99" exactly when the list is empty. Otherwise it has status 200, code "00" and the whole list as data. |
| Envelope.MatchingList | routes/buyer.js:35-51 | A query-and-list reply is "99" with status 400 and no data exactly when no stored record matches. It is "00" with status 200 exactly when some record matches, and then its data is every matching record in stored order. |
| Auctions.AuctionsOfBuyer | routes/buyer.js:217-230 | "99" with status 400 and no data exactly when no stored auction has that `userId`. "00" with status 200 exactly when one does, with exactly those auctions, in stored order, as data. |
| Projects.ProjectsOfCompany | routes/buyer.js:35-51 | "99" with status 400 and no data exactly when no project has that `companyId`. "00" with status 200 exactly when one does, with exactly those projects as data. |
| Items.ItemsOfCompany | routes/buyer.js:534-556 | "99" with status 400 and no data exactly when no item has that `company_name`. "00" with status 200 exactly when one does, with exactly those items as data. |
| Catalog.CatalogOfCompany | routes/buyer.js:827-889 | "99" with status 400 and no data exactly when no catalog record has that `companyId`. "00" with status 200 exactly when one does, with exactly those records as data. |
| Seqs.FindFirst | routes/buyer.js:237-238 | A found index holds a match and no earlier index does. Nothing is found exactly when nothing matches. |
| Seqs.Filter | routes/buyer.js:238-240 | A filter keeps only elements satisfying the predicate and never grows the sequence. |
| Seqs.FilterMembership | routes/buyer.js:238-240 | An element is in the filtered sequence exactly when it is in the input and satisfies the predicate. |
| Seqs.FilterAppend | routes/buyer.js:1017-1019 | Filtering distributes over concatenation, so the relative order of kept elements is preserved. |
| Seqs.FilterEmpty | routes/buyer.js:42-50 | A filter is empty exactly when no element satisfies the predicate. |
| Seqs.FilterKeepsAll | routes/buyer.js:1017-1019 | When every element satisfies the predicate, the filter changes nothing. |
| Seqs.Map | routes/buyer.js:295-300 | A map yields one result per element, in order. |
| Seqs.MapSnoc | routes/buyer.js:295-300 | Mapping one more element appends one more result, which is what each loop step relies on. |
| Seqs.RemoveAt | routes/buyer.js:777-778 | Removing an index drops exactly that record and keeps the others in order. |
| JsValues.NatText | routes/buyer.js:403-414 | The decimal text of a natural number is non-empty, all digits, and has no leading zero. |
| JsValues.DigitsValueOfNatText | routes/buyer.js:403-414 | Reading back a natural number's decimal text gives that number. |
| JsValues.IntTextRoundTrip | routes/buyer.js:403-414 | Reading back the decimal text of any integer, negatives included, gives that integer. |
| JsValues.TemplateOfText | routes/buyer.js:403-414 | Interpolating a value twice gives the same text as interpolating it once. |
| JsValues.Template | routes/buyer.js:403-414 | `${v}` gives a string unchanged, and gives a number a text that parses back to that number. |
| JsValues.LengthOf | routes/buyer.js:371 | Reading `length` throws exactly on `null` and `undefined`. Arrays and strings give their size, and booleans, numbers and objects give none. |
| Documents.DiskPath | routes/buyer.js:291-298 | A stored path is the seven letters `uploads`, then two backslashes, then the filename, and nothing else. |
| Documents.StoredFilenameOfDiskPath | routes/buyer.js:291-298 | The filename can be recovered from its stored path. |
| Documents.DiskPathInjective | routes/buyer.js:291-298 | Two uploads get the same path exactly when their filenames are equal. |
| Documents.Entries | routes/buyer.js:290-300 | One entry per upload, in upload order. Entry i has `fileName` = url + filename i, `path` = the stored path of filename i, and the upload's own `_id`. |
| Documents.EntriesNameTheirFile | routes/buyer.js:290-300 | Every entry's `fileName` starts with the upload url, and its `path` recovers the uploaded file's name. |
| Documents.PushUploads | routes/buyer.js:295-300 | The push loop ends with the old entries followed by exactly the entries of the uploads. |
| Documents.LastEntry | routes/buyer.js:755 | `slice(-1)` is empty for an empty list and is the last entry otherwise. |
| Auctions.FanOut | routes/buyer.js:302-322 | One sub-auction per supplier email, in order. Entry i has email i, the shared body fields and the given status. |
| Auctions.Invited | routes/buyer.js:302-303 | `forEach` visits the elements of an array, and nothing else has any to visit. |
| Auctions.NewAuction | routes/buyer.js:267-326 | The stored auction has the picked fields, one document entry per upload, each naming its file under the upload url, and one sub-auction per email with the body's terms and status. |
| Auctions.AuctionDocument.Picked | routes/buyer.js:267-288 | A new auction holds the picked body fields, with no documents and no sub-auctions. |
| Auctions.AuctionDocument.AttachUploads | routes/buyer.js:295-300 | Only `documentPath` changes, and it gains exactly the upload entries. |
| Auctions.AuctionDocument.AddSuppliers | routes/buyer.js:302-322 | Only `auctions` changes, and it gains exactly the fan-out of the emails. |
| Auctions.AuctionDocument.OverwriteTerms | routes/buyer.js:401-415 | The side-effecting `filter` leaves every sub-auction rewritten by the draft-edit rule, and nothing else changed. |
| Auctions.CreateAuction | routes/buyer.js:262-514 | `addAuction` (lines 262-360) and `saveAuctionAsDraft` (lines 437-514), both validated. A rejected body stores nothing and replies 400 with the message. A request that was not multipart has no `req.files`, and `forEach` over it throws (295, 473). A `suppliers_email` that is not an array makes `forEach` throw too (303, 481). In both cases nothing is stored and there is no reply. Otherwise exactly one auction is appended, holding the picked fields, one entry per upload and one sub-auction per email. The reply names the route: created, or saved as a draft. |
| Auctions.Overwritten | routes/buyer.js:400-418 | Same number of sub-auctions. Each keeps its `supplier_email` and `supplier_status`, and its shared fields are those of the edit. |
| Auctions.EditedTerms | routes/buyer.js:402-414 | `name` is the sent value, twelve fields are the `${}` text of the sent values, and `company_buyer_name` is kept. |
| Auctions.DraftBranchOf | routes/buyer.js:371-430 | The branch test sends a non-empty array to the invite branch, and an empty array or empty string to the rewrite branch. It sends a boolean, number or object to neither branch. `null`, `undefined` or a non-empty string throws. |
| Auctions.EditedDraft | routes/buyer.js:371-418 | The edit changes only the sub-auctions and the link. Inviting keeps the link and adds one sub-auction per email. Rewriting keeps the number of sub-auctions and takes the body's link. |
| Auctions.DraftEditAppends | routes/buyer.js:371-399 | With new emails, an edit keeps every existing sub-auction. It appends one "Pending" sub-auction per email and changes no other field. |
| Auctions.DraftEditOverwrites | routes/buyer.js:400-418 | With no new emails, each sub-auction keeps its email and status. Its `name` is the body's raw value, and every other listed field is the body value's text. The auction's `link` is the body's. |
| Auctions.DraftEditIdempotent | routes/buyer.js:400-418 | Repeating an overwrite edit with the same body changes nothing more. |
| Auctions.EditedNumberReadsBack | routes/buyer.js:407 | A numeric `starting_price` is stored as text that parses back to the same number. |
| Auctions.EditSaveAuctionDraft | routes/buyer.js:362-435 | A throwing branch test changes nothing and sends no reply. Neither branch gives "99" "Auction with id … does not exist" at 200 and changes nothing, whether or not the auction exists (425-430). In either branch an unknown auction makes the handler throw. Otherwise only that auction changes, to the draft-edit result, and the reply names the branch taken. |
| SupplierView.SupplierAuctions | routes/buyer.js:232-260 | Always 200. "99" exactly when no auction invites the email. "00", with data, exactly when one does. |
| SupplierView.SupplierAuctionsResult | routes/buyer.js:237-253 | The result is the first inviting auction's sub-auctions for that email, in order, then exactly one summary of that auction. Every such sub-auction appears. |
| Projects.SetFirstRoleMissing | routes/buyer.js:158-161 | When no member has that user, the positional update changes nothing. |
| Projects.SetFirstRoleFirst | routes/buyer.js:158-161 | When index i is the first member with that user, only that member's role changes. |
| Projects.SetFirstRoleAt | routes/buyer.js:158-161 | Exactly the first element with that user gets the new role, and every other element is unchanged. With no such element nothing changes. |
| Projects.SetFirstRole | routes/buyer.js:158-161 | The positional update keeps the number of members and every member's user. |
| Projects.WithoutMember | routes/buyer.js:1017-1019 | The pull never adds elements, and no remaining element has that user. |
| Projects.WithoutMemberSpec | routes/buyer.js:1017-1019 | The pull removes every element with that user and keeps all others. A list without that user is unchanged. |
| Projects.WithoutMemberKeepsOrder | routes/buyer.js:1017-1019 | The survivors stay in order: pulling from a list split in two equals pulling from each part and joining the results. |
| Projects.ProjectDocument.PushUser | routes/buyer.js:100-103 | Only `users` changes, and it gains exactly one `{user, role}`. |
| Projects.ProjectDocument.PushBudget | routes/buyer.js:1090 | Only `budgets` changes, and it gains exactly the new budget id. |
| Projects.ProjectDocument.AssignDetails | routes/buyer.js:184-197 | The fourteen descriptive fields are replaced, and the id, company, creator, members and budgets stay. |
| Projects.AddProjectUser | routes/buyer.js:89-115 | A found project gains exactly one member, and no other record changes. An unknown project gets no reply and nothing changes. |
| Projects.EditProjectUser | routes/buyer.js:150-173 | Only a project holding that member is updated, by the positional rule. Otherwise nothing changes and there is no reply. |
| Projects.DeleteProjectUser | routes/buyer.js:1009-1031 | The found project loses every element with that user, and no other record changes. |
| Projects.EditProjectDraft | routes/buyer.js:175-215 | An unknown id gets "99" at 200, naming the id. Otherwise only the descriptive fields of that project change. |
| Budgets.AddBudget | routes/buyer.js:1074-1101 | A rejected body stores nothing. Otherwise the budget is always appended. The project with that id gets the budget id appended exactly once, and no other project changes. |
| Budgets.NewBudget | routes/buyer.js:1079-1083 | The budget has the picked `budget`, `companyId` and `costCenter`, the path's `projectId`, and the body's `userId` as creator. |
| Items.ItemDocument.AttachUploads | routes/buyer.js:588-595 | Only `document` changes, and it gains exactly the upload entries. |
| Items.NewItem | routes/buyer.js:566-595 | The new item has the picked fields and one entry per upload, each with its url-based `fileName` and stored path. |
| Items.StoreNewItem | routes/buyer.js:566-597 | The saved item holds the picked fields and one entry per upload, and it is appended to the items. |
| Items.AddItem | routes/buyer.js:558-607 | A rejected body stores nothing and replies 400. A request without `req.files` makes `forEach` throw (590): nothing is stored and there is no reply. Otherwise exactly one item is appended, and the reply carries it. |
| Items.SaveItemAsDraft | routes/buyer.js:609-655 | There is no validation. A request without `req.files` makes `forEach` throw (639): nothing is stored and there is no reply. Otherwise exactly one item is appended, and the reply carries it. |
| Items.UploadDocument | routes/buyer.js:732-767 | Only that item's documents change, gaining the upload entries. The reply is the entry of the last uploaded file, or the previous last entry when nothing was uploaded. An unknown item, or a request without `req.files` (`forEach` throws at 747), changes nothing and gets no reply. |
| Items.DeleteItemDocument | routes/buyer.js:701-730 | The first item holding the entry id loses exactly its entries with the given `fileName`. The given path leaves the directory. The reply is the item's non-empty list of entries with that id. |
| Items.DeleteItem | routes/buyer.js:769-786 | Every path of the item's entries leaves the directory, and every other path stays. The item is removed, and the other items are kept in order. An unknown item changes nothing. |
| Catalog.CatalogDocument.Rename | routes/buyer.js:947-948 | Only `name` and `updatedBy` change. |
| Catalog.UpdatedText | routes/buyer.js:954-959 | A success text ends in " updated Successfully". On the item-type routes it starts with the saved record's `itemType`. |
| Catalog.MissingText | routes/buyer.js:1192-1197 | A not-found text ends in " does not exist". The tag route quotes the body's `userId`, and the others quote the body's `_id` after " with id ". |
| Catalog.EditCatalogEntry | routes/buyer.js:941-1200 | The four edit routes at lines 941-987 and 1162-1200. An unknown id leaves the store unchanged and replies "99" at 200. Otherwise only the record's name and updater change, and the reply carries it. The item-type routes describe the saved record's `itemType`; their not-found text quotes the body's `itemType` and `_id`. Cost centers and tags use fixed descriptions, and the tag route's not-found text quotes the body's `userId`. |

## Left out

- Authentication and the `authGuard`/`admin` role checks are not modelled.
- The request validators are Joi schemas whose source is not part of this model. Each handler takes
  the validator's first message, or none, as an input, and a message short-circuits with 400.
- Mongoose itself is an abstract sequence of records. The model does not cover casting, schema
  strictness, defaults such as `createdDate`, or `select` projections (list replies carry whole
  records). Record ids are assumed unique, and `findById` and `findOne({_id})` are a first-match lookup.
- Mongoose assigns subdocument `_id`s on push. Here they are part of each upload input.
- Multer storage and its `Date.now()` filenames (routes/buyer.js:24-33) are I/O and time. Stored
  filenames are inputs.
- `VERIFICATION_URL` is a parameter. When it is unset it renders as `undefined`.
- The notification mail in `addAuction` (routes/buyer.js:328-350) is asynchronous I/O. Only the reply
  after it is modelled.
- `fs.unlinkSync` only removes a path from the directory set. The model does not cover the throw when
  a file is missing. In `deleteItem` that throw stops the later unlinks, skips `item.deleteOne()` at
  routes/buyer.js:778 and skips the reply. In `deleteItemDocument` the pull is already applied.
- The stored path uses a Windows separator. How a POSIX file system reads it is not modelled.
- `deleteOne()` with no filter (routes/buyer.js:997, 1041, 1207, 1223) deletes an unspecified document.
  The four catalog delete routes are therefore not modelled.
- Logging, and the catch blocks that end a request without a reply, are modelled as `NoResponse` with
  nothing stored. `NoResponse` also stands for the rejection that `deleteItemDocument` leaves uncaught:
  an unknown id makes `item.document` throw at 706, outside the `try`.
- JsValues.Template: numbers are integers only, printed exactly. The model does not cover fractional
  numbers or the exponent notation JavaScript uses from 1e21 upwards. It also does not cover the
  rounding of integers above 2^53: `${2**60}` is "1152921504606847000", while the model gives the
  exact digits.
- JsValues.LengthOf: a JSON object carrying its own `length` member is treated as having no length.
  In the source, `{"length": 0}` would take the rewrite branch and `{"length": 3}` would throw at
  `forEach`.
- The `upload.array("documents", 10)` cap (routes/buyer.js:262, 439, 560, 612, 734) is not modelled.
  Multer refuses more than ten files before the handler runs, but the model accepts any number of
  uploads.
- Each handler is one atomic step. Interleaving at `await` is not modelled: for example between
  `addBudget`'s two writes (routes/buyer.js:1085, 1091), or two requests that fetch the same document
  and save it, where the last writer wins.
- Projects.EditProjectUser and Projects.DeleteProjectUser: the update is applied, and the following
  `save()` of the returned document writes nothing back.
- The handlers `addProject`, `saveProjectAsDraft`, `deleteProject`, `EditsaveItemDraft`,
  `company/profile`, `addTag`, `addItemsCatGroup`, `addSupplierCategory` and `addCostCenter` are not
  part of this model. They are plain find, validate, save or delete calls with no logic of the
  router's own. `deleteProject` deletes the document it found (routes/buyer.js:523), unlike the
  catalog deletes.
