/** Attachment metadata. Every uploaded file becomes one `{fileName, path}` entry
    on its owner's document list: `fileName` is the public link
    `${VERIFICATION_URL}/uploads/<stored name>`, `path` the disk path
    `uploads\\<stored name>` (the JavaScript literal "uploads\\\\", so two
    backslashes at run time). */
module Documents {
  import opened Wrappers
  import opened Ids
  import opened Seqs

  /** The prefix of every recorded disk path: "uploads" and two backslashes. */
  const PathPrefix := "uploads\\\\"

  /** A file multer has stored, under its generated name, and the `_id` the document
      mapper gives the entry pushed for it. */
  datatype Upload = Upload(filename: string, entryId: Id)

  /** One element of an auction's `documentPath` or an item's `document` list. */
  datatype DocEntry = DocEntry(id: Id, fileName: string, path: string)

  /** `${process.env.VERIFICATION_URL}`: an unset variable renders as "undefined". */
  function EnvText(env: Option<string>): string {
    match env
    case Some(v) => v
    case None => "undefined"
  }

  /** `${process.env.VERIFICATION_URL}/uploads/`, the base of every public link. */
  function UploadUrl(env: Option<string>): string {
    EnvText(env) + "/uploads/"
  }

  /** The recorded disk path of a stored file. */
  function DiskPath(filename: string): (p: string)
    ensures |p| == 9 + |filename|
    ensures p[..7] == "uploads" && p[7] == '\\' && p[8] == '\\'
    ensures p[9..] == filename
  {
    PathPrefix + filename
  }

  /** The stored name a recorded disk path refers to, if it has the recorded form. */
  function StoredFilename(path: string): Option<string> {
    if |PathPrefix| <= |path| && path[..|PathPrefix|] == PathPrefix
    then Some(path[|PathPrefix|..]) else None
  }

  /** The stored name can be read back from the disk path... */
  lemma StoredFilenameOfDiskPath(filename: string)
    ensures StoredFilename(DiskPath(filename)) == Some(filename)
  {
  }

  /** ...so two files with different stored names never share a disk path. */
  lemma DiskPathInjective(f: string, g: string)
    ensures DiskPath(f) == DiskPath(g) <==> f == g
  {
  }

  function EntryFor(url: string): Upload -> DocEntry {
    (u: Upload) => DocEntry(u.entryId, url + u.filename, DiskPath(u.filename))
  }

  /** The entries pushed for `uploads`, one per file and in upload order. */
  function Entries(url: string, uploads: seq<Upload>): (r: seq<DocEntry>)
    ensures |r| == |uploads|
    ensures forall i :: 0 <= i < |r| ==>
      && r[i].id == uploads[i].entryId
      && r[i].fileName == url + uploads[i].filename
      && r[i].path == DiskPath(uploads[i].filename)
  {
    Map(uploads, EntryFor(url))
  }

  /** Every pushed entry's link and disk path name the same stored file. */
  lemma EntriesNameTheirFile(url: string, uploads: seq<Upload>, i: nat)
    requires i < |uploads|
    ensures Entries(url, uploads)[i].fileName[..|url|] == url
    ensures StoredFilename(Entries(url, uploads)[i].path)
            == Some(Entries(url, uploads)[i].fileName[|url|..])
            == Some(uploads[i].filename)
  {
  }

  /** The `forEach` loop that pushes one entry per uploaded file onto `docs`. */
  method PushUploads(docs: seq<DocEntry>, url: string, uploads: seq<Upload>)
    returns (docs': seq<DocEntry>)
    ensures docs' == docs + Entries(url, uploads)
  {
    docs' := docs;
    var i := 0;
    while i < |uploads|
      invariant 0 <= i <= |uploads|
      invariant docs' == docs + Entries(url, uploads[..i])
    {
      assert uploads[..i + 1] == uploads[..i] + [uploads[i]];
      MapSnoc(uploads[..i], uploads[i], EntryFor(url));
      docs' := docs' + [EntryFor(url)(uploads[i])];
      i := i + 1;
    }
    assert uploads[..i] == uploads;
  }

  /** `document.slice(-1)`: the last entry, or nothing for an empty list. */
  function LastEntry(docs: seq<DocEntry>): (r: seq<DocEntry>)
    ensures docs == [] ==> r == []
    ensures docs != [] ==> r == [docs[|docs| - 1]]
  {
    if |docs| == 0 then [] else docs[|docs| - 1..]
  }

  /** The set of disk paths a document list records. */
  function Paths(docs: seq<DocEntry>): set<string> {
    set i | 0 <= i < |docs| :: docs[i].path
  }

  /** `item._id == req.body.id`. */
  function HasId(id: Id): DocEntry -> bool {
    (e: DocEntry) => e.id == id
  }

  /** Kept by `$pull: { document: { fileName } }`. */
  function OtherName(fileName: string): DocEntry -> bool {
    (e: DocEntry) => e.fileName != fileName
  }
}
