/** src/components/modals/UploadDocumentModal.tsx: choosing a file guesses
    its category from the file name; submitting derives the document's name
    and type from the file name, adds it and resets the modal.

    A file is its name; its size, which the source prints in megabytes, is
    passed in already printed. */
module UploadDocumentModal {
  import opened Wrappers
  import opened Text
  import opened Domain
  import opened AppContext

  const INSURANCE_WORDS: seq<string> := ["ביטוח", "פוליסה"]
  const DOCUMENT_WORDS: seq<string> := ["דרכון", "תעודה"]
  const ASSET_WORDS: seq<string> := ["חוזה", "נכס"]

  const DEFAULT_TYPE: string := "FILE"

  predicate MentionsAny(name: string, words: seq<string>) {
    exists i :: 0 <= i < |words| && Contains(name, words[i])
  }

  /** The category a chosen file gets: from the lower-cased name, insurance
      words first, then document words, then asset words; with none of them
      the category chosen before stays. */
  function DetectCategory(fileName: string, current: string): (c: string)
    ensures var n := ToLower(fileName);
      && (MentionsAny(n, INSURANCE_WORDS) ==> c == INSURANCE)
      && (!MentionsAny(n, INSURANCE_WORDS) && MentionsAny(n, DOCUMENT_WORDS) ==> c == DOCUMENTS)
      && (!MentionsAny(n, INSURANCE_WORDS) && !MentionsAny(n, DOCUMENT_WORDS) && MentionsAny(n, ASSET_WORDS) ==> c == ASSETS)
      && (!MentionsAny(n, INSURANCE_WORDS) && !MentionsAny(n, DOCUMENT_WORDS) && !MentionsAny(n, ASSET_WORDS) ==> c == current)
  {
    var n := ToLower(fileName);
    if Contains(n, INSURANCE_WORDS[0]) || Contains(n, INSURANCE_WORDS[1]) then INSURANCE
    else if Contains(n, DOCUMENT_WORDS[0]) || Contains(n, DOCUMENT_WORDS[1]) then DOCUMENTS
    else if Contains(n, ASSET_WORDS[0]) || Contains(n, ASSET_WORDS[1]) then ASSETS
    else current
  }

  /** The extension the regular expression `/\.[^/.]+$/` matches: at least
      one character after the last dot, none of them a slash. */
  predicate HasExtension(fileName: string) {
    var k := LastIndexOfChar(fileName, '.');
    0 <= k < |fileName| - 1 && Lacks(fileName[k + 1..], '/')
  }

  predicate Lacks(s: string, c: char) {
    forall j :: 0 <= j < |s| ==> s[j] != c
  }

  /** `name.replace(/\.[^/.]+$/, "")`: the name without its extension. */
  function DocumentName(fileName: string): (name: string)
    ensures !HasExtension(fileName) ==> name == fileName
    ensures HasExtension(fileName) ==> |name| < |fileName| && fileName == name + "." + fileName[|name| + 1..]
  {
    if HasExtension(fileName) then
      var k := LastIndexOfChar(fileName, '.');
      assert fileName == fileName[..k] + "." + fileName[k + 1..];
      fileName[..k]
    else fileName
  }

  /** `name.split('.').pop()?.toUpperCase() || "FILE"`: the text after the
      last dot (the whole name when there is none), upper-cased, or `FILE`
      when that text is empty. */
  function DocumentType(fileName: string): (t: string)
    ensures t != ""
    ensures var k := LastIndexOfChar(fileName, '.');
      t == (if k == |fileName| - 1 then DEFAULT_TYPE else ToUpper(fileName[k + 1..]))
  {
    var ext := fileName[LastIndexOfChar(fileName, '.') + 1..];
    if ext == "" then DEFAULT_TYPE else ToUpper(ext)
  }

  /** A name without a dot is the document's name as it is, and its type
      is the whole name upper-cased. */
  lemma NoDotName(fileName: string)
    requires fileName != [] && Lacks(fileName, '.')
    ensures DocumentName(fileName) == fileName
    ensures DocumentType(fileName) == ToUpper(fileName)
  {
    assert LastIndexOfChar(fileName, '.') == -1;
    assert fileName[0..] == fileName;
  }

  /** For a plain `name.ext`, the document is called `name` and its type is
      `EXT`. */
  lemma SplitNameAndType(base: string, ext: string)
    requires ext != [] && Lacks(ext, '.') && Lacks(ext, '/')
    ensures DocumentName(base + "." + ext) == base
    ensures DocumentType(base + "." + ext) == ToUpper(ext)
  {
    var f := base + "." + ext;
    LastDot(base, ext);
    assert f[|base| + 1..] == ext;
    assert f[..|base|] == base;
  }

  lemma LastDot(base: string, ext: string)
    requires Lacks(ext, '.')
    ensures LastIndexOfChar(base + "." + ext, '.') == |base|
  {
    var f := base + "." + ext;
    var k := LastIndexOfChar(f, '.');
    assert f[|base|] == '.';
  }

  datatype Toast = MissingFileOrCategory | Uploaded(fileName: string) | Failed(message: string)

  const DEFAULT_FAILURE: string := "לא ניתן להעלות את הקובץ. נא לנסות שוב."

  class UploadDocumentModal {
    var selectedFile: Option<string>
    var category: string
    const app: AppState

    constructor(app: AppState)
      ensures selectedFile.None? && category == "" && this.app == app
    {
      selectedFile := None;
      category := "";
      this.app := app;
    }

    /** `handleFileSelect`: the file is chosen and the category guessed. */
    method HandleFileSelect(fileName: string)
      modifies this
      ensures selectedFile == Some(fileName)
      ensures category == DetectCategory(fileName, old(category))
    {
      selectedFile := Some(fileName);
      var name := ToLower(fileName);
      if Contains(name, "ביטוח") || Contains(name, "פוליסה") {
        category := INSURANCE;
      } else if Contains(name, "דרכון") || Contains(name, "תעודה") {
        category := DOCUMENTS;
      } else if Contains(name, "חוזה") || Contains(name, "נכס") {
        category := ASSETS;
      }
    }

    /** `handleSubmit`. Without a file or a category nothing changes.
        Otherwise the document is added (the clock reading `now` becomes
        its id); if that throws `failure`, nothing changes and its message
        (or a default) is shown; if not, the file and category are cleared
        and the modal closes. */
    method HandleSubmit(today: Day, now: nat, size: string, failure: Option<string>) returns (toast: Toast)
      modifies this, app
      ensures old(selectedFile).None? || old(category) == "" ==>
        toast == MissingFileOrCategory && selectedFile == old(selectedFile) && category == old(category)
        && app.State() == old(app.State())
      ensures old(selectedFile).Some? && old(category) != "" && failure.Some? ==>
        && toast == Failed(if failure.value != "" then failure.value else DEFAULT_FAILURE)
        && selectedFile == old(selectedFile) && category == old(category)
        && app.State() == old(app.State())
      ensures old(selectedFile).Some? && old(category) != "" && failure.None? ==>
        var f := old(selectedFile).value;
        var doc := Document(NatToString(now), DocumentName(f), DocumentType(f), old(category), today, size);
        && toast == Uploaded(f)
        && selectedFile.None? && category == ""
        && app.State() == old(app.State()).(documents := old(app.documents) + [doc], isUploadModalOpen := false)
    {
      if selectedFile.None? || category == "" {
        return MissingFileOrCategory;
      }
      var f := selectedFile.value;
      if failure.Some? {
        return Failed(if failure.value != "" then failure.value else DEFAULT_FAILURE);
      }
      var doc := Document("", DocumentName(f), DocumentType(f), category, today, size);
      app.AddDocument(doc, now);
      toast := Uploaded(f);
      selectedFile := None;
      category := "";
      app.SetUploadModalOpen(false);
    }
  }
}
