/**
  * The document list panel (app/components/document-list.tsx): the user's
  * files in the `documents` storage bucket, listed under the folder named by
  * the user id, with download and delete buttons guarded by a one-action
  * lock, an icon chosen by file extension and a size label.
  */
module Documents {
  import opened Wrappers
  import opened Text

  /** One object as the storage `list` call returns it: its name and `metadata.size` when present. */
  datatype StorageEntry = StorageEntry(name: string, size: Option<nat>)

  /** A listed document; its display date is left out. */
  datatype Document = Document(name: string, path: string, size: nat)

  /** The storage key of object `name` in folder `folder`: `${folder}/${name}`. */
  function ObjectPath(folder: string, name: string): string {
    folder + "/" + name
  }

  /** Two names in one folder share a key only if they are the same name. */
  lemma ObjectPathInjective(folder: string, a: string, b: string)
    requires ObjectPath(folder, a) == ObjectPath(folder, b)
    ensures a == b
  {
    var n := |folder| + 1;
    assert ObjectPath(folder, a)[n..] == a;
    assert ObjectPath(folder, b)[n..] == b;
  }

  function FromEntry(userId: string, e: StorageEntry): Document {
    Document(e.name, ObjectPath(userId, e.name), e.size.GetOr(0))
  }

  /** The `data.map(...)` of `fetchDocuments`: one document per entry, in order. */
  function FormatDocuments(userId: string, entries: seq<StorageEntry>): (docs: seq<Document>)
    ensures |docs| == |entries|
    ensures forall i :: 0 <= i < |entries| ==>
              docs[i].name == entries[i].name &&
              docs[i].path == userId + "/" + entries[i].name &&
              docs[i].size == (if entries[i].size.Some? then entries[i].size.value else 0)
  {
    if entries == [] then []
    else [FromEntry(userId, entries[0])] + FormatDocuments(userId, entries[1..])
  }

  /** Listed documents with the same key are the same object. */
  lemma FormattedPathsDistinguishNames(userId: string, entries: seq<StorageEntry>, i: nat, j: nat)
    requires i < |entries| && j < |entries|
    requires FormatDocuments(userId, entries)[i].path == FormatDocuments(userId, entries)[j].path
    ensures entries[i].name == entries[j].name
  {
    ObjectPathInjective(userId, entries[i].name, entries[j].name);
  }

  /** `documents.filter((doc) => doc.path !== path)` */
  function RemovePath(docs: seq<Document>, p: string): (kept: seq<Document>)
    ensures |kept| <= |docs|
    ensures forall i :: 0 <= i < |kept| ==> kept[i].path != p
  {
    if docs == [] then []
    else (if docs[0].path == p then [] else [docs[0]]) + RemovePath(docs[1..], p)
  }

  /** Exactly the documents with key `p` go: every other document keeps its number of occurrences. */
  lemma {:induction false} RemovePathCounts(docs: seq<Document>, p: string, d: Document)
    ensures d.path == p ==> multiset(RemovePath(docs, p))[d] == 0
    ensures d.path != p ==> multiset(RemovePath(docs, p))[d] == multiset(docs)[d]
  {
    if docs != [] {
      RemovePathCounts(docs[1..], p, d);
      assert docs == [docs[0]] + docs[1..];
      var head := if docs[0].path == p then [] else [docs[0]];
      assert RemovePath(docs, p) == head + RemovePath(docs[1..], p);
      assert multiset(docs) == multiset([docs[0]]) + multiset(docs[1..]);
      assert multiset(RemovePath(docs, p)) == multiset(head) + multiset(RemovePath(docs[1..], p));
    }
  }

  /** Filtering distributes over concatenation, so the kept documents keep their relative order. */
  lemma {:induction false} RemovePathAppend(a: seq<Document>, b: seq<Document>, p: string)
    ensures RemovePath(a + b, p) == RemovePath(a, p) + RemovePath(b, p)
  {
    if a == [] {
      assert a + b == b;
    } else {
      var head := if a[0].path == p then [] else [a[0]];
      assert (a + b)[0] == a[0];
      assert (a + b)[1..] == a[1..] + b;
      assert RemovePath(a + b, p) == head + RemovePath(a[1..] + b, p);
      RemovePathAppend(a[1..], b, p);
      assert RemovePath(a, p) == head + RemovePath(a[1..], p);
    }
  }

  /** A key no listed document has leaves the list as it is. */
  lemma {:induction false} RemovePathAbsent(docs: seq<Document>, p: string)
    requires forall i :: 0 <= i < |docs| ==> docs[i].path != p
    ensures RemovePath(docs, p) == docs
  {
    if docs != [] {
      RemovePathAbsent(docs[1..], p);
      assert docs == [docs[0]] + docs[1..];
    }
  }

  /** Deleting the same key twice is deleting it once. */
  lemma RemovePathIdempotent(docs: seq<Document>, p: string)
    ensures RemovePath(RemovePath(docs, p), p) == RemovePath(docs, p)
  {
    RemovePathAbsent(RemovePath(docs, p), p);
  }

  /** The icons of `getFileIcon`: red, blue, indigo and green file icons, and a grey text icon. */
  datatype FileIcon = PdfIcon | ImageIcon | WordIcon | SpreadsheetIcon | GenericIcon

  /** The `switch` on the lower-cased extension: eight extensions in four groups, and a default. */
  function IconForExtension(ext: string): (icon: FileIcon)
    ensures icon == PdfIcon <==> ext == "pdf"
    ensures icon == ImageIcon <==> ext in {"jpg", "jpeg", "png"}
    ensures icon == WordIcon <==> ext in {"doc", "docx"}
    ensures icon == SpreadsheetIcon <==> ext in {"xls", "xlsx"}
    ensures icon == GenericIcon <==> ext !in {"pdf", "jpg", "jpeg", "png", "doc", "docx", "xls", "xlsx"}
  {
    if ext == "pdf" then PdfIcon
    else if ext == "jpg" || ext == "jpeg" || ext == "png" then ImageIcon
    else if ext == "doc" || ext == "docx" then WordIcon
    else if ext == "xls" || ext == "xlsx" then SpreadsheetIcon
    else GenericIcon
  }

  /** `getFileIcon(fileName)`: `fileName.split(".").pop()?.toLowerCase()` fed to the switch. */
  function FileIconFor(fileName: string): (icon: FileIcon)
    ensures icon == IconForExtension(Lower(Last(Split(fileName, '.'))))
  {
    AfterLastIsLastPart(fileName, '.');
    IconForExtension(Lower(AfterLast(fileName, '.')))
  }

  /** The icon of `stem.ext` depends on `ext` alone, lower-cased, whatever the stem holds. */
  lemma IconOfJoinedName(stem: string, ext: string)
    requires '.' !in ext
    ensures FileIconFor(stem + "." + ext) == IconForExtension(Lower(ext))
  {
    AfterLastOfJoin(stem, '.', ext);
  }

  /** A name without a `.` is classified by the whole name. */
  lemma IconOfDotlessName(name: string)
    requires '.' !in name
    ensures FileIconFor(name) == IconForExtension(Lower(name))
  {
    AfterLastWithoutSep(name, '.');
  }

  /** An upper-case extension is recognised, whatever the stem: `W2.PDF` gets the PDF icon. */
  lemma UpperCaseExtensionRecognised(stem: string)
    ensures FileIconFor(stem + ".PDF") == PdfIcon
  {
    IconOfJoinedName(stem, "PDF");
    assert stem + "." + "PDF" == stem + ".PDF";
    LowerPdf();
  }

  lemma LowerPdf()
    ensures Lower("PDF") == "pdf"
  {
    var ext := Lower("PDF");
    assert ext[0] == 'p' && ext[1] == 'd' && ext[2] == 'f';
  }

  /** A file named just `pdf` gets the PDF icon: without a dot, the whole name is the extension. */
  lemma BareExtensionNameRecognised()
    ensures FileIconFor("pdf") == PdfIcon
  {
    IconOfDotlessName("pdf");
    assert Lower("pdf") == "pdf";
  }

  /** `formatFileSize(bytes)`; the scaled label for a non-zero size is the parameter `scaled`. */
  function FormatFileSize(bytes: nat, scaled: nat -> string): (text: string)
    ensures bytes == 0 ==> text == "0 Bytes"
  {
    if bytes == 0 then "0 Bytes" else scaled(bytes)
  }

  /** What the storage `list` call gave: an error, no data, or the entries. */
  datatype ListResult = ListFailed | NoData | Listed(entries: seq<StorageEntry>)

  /** The panel's state: `documents`, `loading` and `actionInProgress`, for the `userId` prop. */
  class DocumentList {
    const userId: string
    var documents: seq<Document>
    var loading: bool
    var actionInProgress: Option<string>

    constructor (userId: string)
      ensures this.userId == userId
      ensures documents == [] && loading && actionInProgress == None
    {
      this.userId := userId;
      documents := [];
      loading := true;
      actionInProgress := None;
    }

    /**
      * The download and delete buttons of the document with key `docPath`
      * are disabled: exactly while an action on that key holds the lock, so
      * at most one document is disabled and none when the lock is free.
      */
    predicate IsDisabled(docPath: string): (disabled: bool)
      reads this
      ensures disabled ==> actionInProgress.Some? && actionInProgress.value == docPath
      ensures actionInProgress == Some(docPath) ==> disabled
    {
      actionInProgress == Some(docPath)
    }

    /** At most one document's buttons are disabled at a time. */
    lemma AtMostOneDisabled(q1: string, q2: string)
      requires IsDisabled(q1) && IsDisabled(q2)
      ensures q1 == q2
    {
    }

    /**
      * The mount effect: `fetchDocuments` runs only for a non-empty `userId`;
      * a listing replaces the documents, an error or an empty answer keeps
      * them, and `loading` ends false. With no user nothing runs and the
      * panel stays loading.
      */
    method FetchDocuments(result: ListResult)
      modifies this`documents, this`loading
      ensures userId == "" ==> documents == old(documents) && loading == old(loading)
      ensures userId != "" ==> !loading
      ensures userId != "" && result.Listed? ==> documents == FormatDocuments(userId, result.entries)
      ensures userId != "" && !result.Listed? ==> documents == old(documents)
    {
      if userId != "" {
        loading := true;
        match result {
          case Listed(entries) =>
            documents := FormatDocuments(userId, entries);
          case _ =>
        }
        loading := false;
      }
    }

    /** `setActionInProgress(path)` at the start of a download or delete: only that document's buttons are disabled. */
    method BeginAction(path: string)
      modifies this`actionInProgress
      ensures actionInProgress == Some(path)
      ensures forall q :: IsDisabled(q) <==> q == path
    {
      actionInProgress := Some(path);
    }

    /** The `finally` of `handleDownload`: the lock is released whether or not the download succeeded. */
    method FinishDownload(downloaded: bool)
      modifies this`actionInProgress
      ensures actionInProgress == None
      ensures forall q :: !IsDisabled(q)
    {
      actionInProgress := None;
    }

    /**
      * `handleDelete(path)` up to the `remove` call: the lock is taken, and
      * `captured` is the `documents` value the click's closure holds.
      */
    method BeginDelete(path: string) returns (captured: seq<Document>)
      modifies this`actionInProgress
      ensures captured == documents
      ensures actionInProgress == Some(path)
      ensures forall q :: IsDisabled(q) <==> q == path
    {
      BeginAction(path);
      captured := documents;
    }

    /**
      * The rest of `handleDelete` as written: a successful remove sets the
      * documents to the CAPTURED list without the key, whatever the list has
      * become meanwhile; the lock is released either way.
      */
    method FinishDelete(path: string, removed: bool, captured: seq<Document>)
      modifies this`documents, this`actionInProgress
      ensures documents == if removed then RemovePath(captured, path) else old(documents)
      ensures actionInProgress == None
    {
      if removed {
        documents := RemovePath(captured, path);
      }
      actionInProgress := None;
    }

    /**
      * The rest of `handleDelete` as evidently intended, with the updater
      * form `setDocuments((prev) => prev.filter(...))`: the current list
      * loses the key.
      */
    method FinishDeleteLatest(path: string, removed: bool)
      modifies this`documents, this`actionInProgress
      ensures documents == if removed then RemovePath(old(documents), path) else old(documents)
      ensures actionInProgress == None
    {
      if removed {
        documents := RemovePath(documents, path);
      }
      actionInProgress := None;
    }

    /** `handleDownload(path, name)` with the storage outcome `downloaded`: nothing but the lock changes, and it ends released. */
    method HandleDownload(path: string, downloaded: bool)
      modifies this`actionInProgress
      ensures actionInProgress == None
    {
      BeginAction(path);
      FinishDownload(downloaded);
    }

    /** `handleDelete(path)` with the storage outcome `removed` and nothing interleaved. */
    method HandleDelete(path: string, removed: bool)
      modifies this`documents, this`actionInProgress
      ensures removed ==> documents == RemovePath(old(documents), path)
      ensures !removed ==> documents == old(documents)
      ensures actionInProgress == None
    {
      var captured := BeginDelete(path);
      FinishDelete(path, removed, captured);
    }
  }

  /**
    * Two overlapping deletes as written: delete `a`, then delete `b` while
    * the first remove is pending. Both removes succeed, yet `a` is shown
    * again, because the second completion filters the list its click
    * captured, which still held `a`.
    */
  method OverlappingDeletesAsWritten(userId: string, a: Document, b: Document) returns (shown: seq<Document>)
    requires a.path != b.path
    ensures shown == [a]
  {
    var panel := new DocumentList(userId);
    panel.documents := [a, b];
    var capturedA := panel.BeginDelete(a.path);
    var capturedB := panel.BeginDelete(b.path);
    panel.FinishDelete(a.path, true, capturedA);
    panel.FinishDelete(b.path, true, capturedB);
    assert [a, b][1..] == [b];
    assert RemovePath([b], b.path) == [];
    shown := panel.documents;
  }

  /** The same two deletes with the updater form: both documents are gone. */
  method OverlappingDeletesLatest(userId: string, a: Document, b: Document) returns (shown: seq<Document>)
    requires a.path != b.path
    ensures shown == []
  {
    var panel := new DocumentList(userId);
    panel.documents := [a, b];
    var _ := panel.BeginDelete(a.path);
    var _ := panel.BeginDelete(b.path);
    panel.FinishDeleteLatest(a.path, true);
    panel.FinishDeleteLatest(b.path, true);
    assert [a, b][1..] == [b];
    assert RemovePath([b], b.path) == [];
    shown := panel.documents;
  }

  /**
    * In general, a completion that filters a list captured before an earlier
    * delete completed brings that delete's documents back.
    */
  lemma StaleFilterRestores(captured: seq<Document>, earlier: string, later: string, d: Document)
    requires d in captured && d.path == earlier && earlier != later
    ensures d in RemovePath(captured, later)
  {
    RemovePathCounts(captured, later, d);
  }

  /** Filtering the latest list each time removes both keys. */
  lemma LatestFilterRemovesBoth(docs: seq<Document>, first: string, second: string, d: Document)
    requires d in RemovePath(RemovePath(docs, first), second)
    ensures d.path != first && d.path != second && d in docs
  {
    var once := RemovePath(docs, first);
    RemovePathCounts(once, second, d);
    RemovePathCounts(docs, first, d);
  }
}
