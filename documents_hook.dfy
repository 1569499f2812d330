/** src/hooks/useDocuments.ts: how a row of the `documents` table becomes a
    `Document`, and `addDocument`, which uploads the file (when there is
    one) to storage under a time-stamped path, inserts the metadata row, and
    on a failed insert tries to remove the uploaded file again.

    Storage is the set of paths it holds and the table the sequence of its
    rows. What the remote calls answer (the signed-in user, an upload or
    insert error, the public URL, the id the table gives) and the two
    readings of `Date.now()` are parameters. */
module DocumentsHook {
  import opened Wrappers
  import opened Text
  import opened Domain

  /** A row of `documents`. */
  datatype DocRow = DocRow(
    id: string,
    userId: string,
    name: string,
    docType: string,
    category: string,
    fileUrl: Option<string>,
    uploadDate: Day,
    size: string)

  const NO_SIZE: string := "0 MB"

  /** The `map` over the rows: an empty or missing size reads as `0 MB`. */
  function RowToDocument(row: DocRow): (doc: Document)
    ensures doc.id == row.id && doc.name == row.name && doc.docType == row.docType
    ensures doc.category == row.category && doc.uploadDate == row.uploadDate
    ensures doc.size == (if row.size == "" then NO_SIZE else row.size)
  {
    Document(row.id, row.name, row.docType, row.category, row.uploadDate, if row.size == "" then NO_SIZE else row.size)
  }

  /** The query: nothing without a user id, otherwise each row given, mapped. */
  function ReadDocuments(userId: Option<string>, rows: seq<DocRow>): (docs: seq<Document>)
    ensures userId.None? || userId == Some("") ==> docs == []
    ensures userId.Some? && userId.value != "" ==>
      |docs| == |rows| && forall i :: 0 <= i < |rows| ==> docs[i] == RowToDocument(rows[i])
  {
    if userId.None? || userId.value == "" then []
    else seq(|rows|, i requires 0 <= i < |rows| => RowToDocument(rows[i]))
  }

  /** `name.split('.').pop()`: the text after the last dot, or the whole
      name when it has none. */
  function Extension(name: string): (ext: string)
    ensures |ext| <= |name| && ext == name[|name| - |ext|..]
    ensures forall j :: 0 <= j < |ext| ==> ext[j] != '.'
    ensures ext == name || name[|name| - |ext| - 1] == '.'
  {
    name[LastIndexOfChar(name, '.') + 1..]
  }

  /** `${user.id}/${Date.now()}.${fileExt}`. */
  function UploadPath(userId: string, time: nat, fileName: string): string
  {
    userId + "/" + NatToString(time) + "." + Extension(fileName)
  }

  /** Paths taken at different times differ. */
  lemma UploadPathsDiffer(userId: string, t1: nat, t2: nat, fileName: string)
    requires t1 != t2
    ensures UploadPath(userId, t1, fileName) != UploadPath(userId, t2, fileName)
  {
    var head, tail := userId + "/", "." + Extension(fileName);
    var a, b := NatToString(t1), NatToString(t2);
    assert UploadPath(userId, t1, fileName) == head + a + tail;
    assert UploadPath(userId, t2, fileName) == head + b + tail;
    if head + a + tail == head + b + tail {
      MiddleEqual(head, a, b, tail);
      NatToStringInjective(t1, t2);
    }
  }

  lemma MiddleEqual(head: string, a: string, b: string, tail: string)
    requires head + a + tail == head + b + tail
    ensures a == b
  {
    assert |a| == |b|;
    assert (head + a + tail)[|head|..|head| + |a|] == a;
    assert (head + b + tail)[|head|..|head| + |b|] == b;
  }

  const NOT_AUTHENTICATED: string := "Not authenticated"
  const UPLOAD_FAILED: string := "שגיאה בהעלאת הקובץ: "
  const SAVE_FAILED: string := "שגיאה בשמירת המסמך: "

  /** What the caller passes: the document without its id. */
  datatype NewDocument = NewDocument(name: string, docType: string, category: string, uploadDate: Day, size: string)

  /** What the remote calls answer during one `addDocument`. */
  datatype Outcomes = Outcomes(
    user: Option<string>,
    uploadTime: nat,
    uploadError: Option<string>,
    publicUrl: string,
    insertError: Option<string>,
    newId: string,
    cleanupTime: nat)

  /** The row `addDocument` inserts. */
  function NewRow(doc: NewDocument, userId: string, fileUrl: Option<string>, id: string): DocRow
  {
    DocRow(id, userId, doc.name, doc.docType, doc.category, fileUrl, doc.uploadDate, doc.size)
  }

  /** The storage after a failed insert: the upload added its path, the
      clean-up removed the path it computed, which is the uploaded one only
      when both clock readings agree. */
  function AfterCleanup(storage: set<string>, uploaded: string, removed: string): set<string>
  {
    storage + {uploaded} - {removed}
  }

  /** As written, a failed insert can leave the uploaded file behind: once
      the clock has moved on, the clean-up removes a path that was never
      uploaded. */
  lemma OrphanedUpload(storage: set<string>, userId: string, fileName: string, t1: nat, t2: nat)
    requires t1 != t2
    ensures UploadPath(userId, t1, fileName) in
      AfterCleanup(storage, UploadPath(userId, t1, fileName), UploadPath(userId, t2, fileName))
  {
    UploadPathsDiffer(userId, t1, t2, fileName);
  }

  /** The same call when the clock has moved on: the file of `a.pdf`,
      uploaded at time 1000, is still stored after the clean-up at 1001. */
  lemma OrphanedUploadExample()
    ensures UploadPath("u1", 1000, "a.pdf") in AfterCleanup({}, UploadPath("u1", 1000, "a.pdf"), UploadPath("u1", 1001, "a.pdf"))
  {
    OrphanedUpload({}, "u1", "a.pdf", 1000, 1001);
  }

  class DocumentStore {
    /** The paths held by the `documents` storage bucket. */
    var storage: set<string>
    /** The rows of the `documents` table. */
    var table: seq<DocRow>

    constructor(storage0: set<string>, table0: seq<DocRow>)
      ensures storage == storage0 && table == table0
    {
      storage := storage0;
      table := table0;
    }

    /** `addDocument` as written: without a user nothing happens; a failed
        upload changes nothing; a successful insert appends one row, with the
        file's public URL when there was a file; a failed insert appends
        nothing, and its clean-up removes the path built from a second clock
        reading. */
    method AddDocument(doc: NewDocument, file: Option<string>, o: Outcomes) returns (r: Result<DocRow, string>)
      modifies this
      ensures o.user.None? ==> r == Err(NOT_AUTHENTICATED) && storage == old(storage) && table == old(table)
      ensures o.user.Some? && file.Some? && o.uploadError.Some? ==>
        r == Err(UPLOAD_FAILED + o.uploadError.value) && storage == old(storage) && table == old(table)
      ensures o.user.Some? && (file.None? || o.uploadError.None?) ==>
        var url := if file.Some? then Some(o.publicUrl) else None;
        var uploaded := if file.Some? then old(storage) + {UploadPath(o.user.value, o.uploadTime, file.value)} else old(storage);
        if o.insertError.None? then
          r == Ok(NewRow(doc, o.user.value, url, o.newId)) && table == old(table) + [r.value] && storage == uploaded
        else
          && r == Err(SAVE_FAILED + o.insertError.value)
          && table == old(table)
          && storage == (if file.Some? && o.publicUrl != "" then
                           AfterCleanup(old(storage), UploadPath(o.user.value, o.uploadTime, file.value),
                                        UploadPath(o.user.value, o.cleanupTime, file.value))
                         else uploaded)
    {
      if o.user.None? {
        return Err(NOT_AUTHENTICATED);
      }
      var userId := o.user.value;
      var fileUrl: Option<string> := None;
      if file.Some? {
        var fileName := UploadPath(userId, o.uploadTime, file.value);
        if o.uploadError.Some? {
          return Err(UPLOAD_FAILED + o.uploadError.value);
        }
        storage := storage + {fileName};
        fileUrl := Some(o.publicUrl);
      }
      if o.insertError.Some? {
        if fileUrl.Some? && fileUrl.value != "" && file.Some? {
          var fileName := UploadPath(userId, o.cleanupTime, file.value);
          storage := storage - {fileName};
        }
        return Err(SAVE_FAILED + o.insertError.value);
      }
      var row := NewRow(doc, userId, fileUrl, o.newId);
      table := table + [row];
      r := Ok(row);
    }

    /** `addDocument` with the clean-up the comment describes: it removes
        the path it uploaded to, so a failed add never leaves a file behind,
        whatever the clock says. */
    method AddDocumentCompensated(doc: NewDocument, file: Option<string>, o: Outcomes) returns (r: Result<DocRow, string>)
      modifies this
      ensures r.Err? ==> table == old(table) && storage <= old(storage)
      ensures r.Err? && o.user.Some? && file.Some? ==>
        old(storage) - {UploadPath(o.user.value, o.uploadTime, file.value)} <= storage
      ensures r.Err? && (o.user.None? || file.None?) ==> storage == old(storage)
      ensures o.user.Some? && file.Some? && o.uploadError.None? && o.insertError.Some? ==>
        storage == old(storage) - {UploadPath(o.user.value, o.uploadTime, file.value)}
      ensures o.user.Some? && (file.None? || o.uploadError.None?) && o.insertError.None? ==>
        && r == Ok(NewRow(doc, o.user.value, if file.Some? then Some(o.publicUrl) else None, o.newId))
        && table == old(table) + [r.value]
        && storage == (if file.Some? then old(storage) + {UploadPath(o.user.value, o.uploadTime, file.value)} else old(storage))
    {
      if o.user.None? {
        return Err(NOT_AUTHENTICATED);
      }
      var userId := o.user.value;
      var fileUrl: Option<string> := None;
      var uploadedTo: Option<string> := None;
      if file.Some? {
        var fileName := UploadPath(userId, o.uploadTime, file.value);
        if o.uploadError.Some? {
          return Err(UPLOAD_FAILED + o.uploadError.value);
        }
        storage := storage + {fileName};
        fileUrl := Some(o.publicUrl);
        uploadedTo := Some(fileName);
      }
      if o.insertError.Some? {
        if uploadedTo.Some? {
          storage := storage - {uploadedTo.value};
        }
        return Err(SAVE_FAILED + o.insertError.value);
      }
      var row := NewRow(doc, userId, fileUrl, o.newId);
      table := table + [row];
      r := Ok(row);
    }
  }
}
