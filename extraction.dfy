/**
 * The upload gate and text extraction: `allowed_file` checks the part of
 * the client's file name after its last dot; `extract_text_from_file`
 * dispatches on the extension `os.path.splitext` finds in the saved path.
 */
module Extraction {
  import opened Wrappers
  import opened Text

  /** `app.config['ALLOWED_EXTENSIONS']`. */
  const AllowedExtensions: set<string> := {"txt", "pdf", "docx", "md"}

  /** `app.config['UPLOAD_FOLDER']`. */
  const UploadFolder: string := "uploads"

  /**
   * `allowed_file`: the name holds a dot, and what follows the last dot
   * (`rsplit('.', 1)[1]`), lower-cased, is an allowed extension.
   */
  function AllowedFile(filename: string): (ok: bool)
    ensures ok ==> '.' in filename
    ensures filename != [] && filename[|filename| - 1] == '.' ==> !ok
  {
    '.' in filename && Lower(filename[RFind(filename, '.') + 1..]) in AllowedExtensions
  }

  /** `i` is the position of the last dot in `filename`. */
  predicate IsLastDot(filename: string, i: int) {
    0 <= i < |filename| && filename[i] == '.' && forall j :: i < j < |filename| ==> filename[j] != '.'
  }

  /** The gate, stated without `rfind`: some dot is the last one and the rest is allowed. */
  lemma AllowedFileIff(filename: string)
    ensures AllowedFile(filename) <==>
      exists i :: IsLastDot(filename, i) && Lower(filename[i + 1..]) in AllowedExtensions
  {
    if AllowedFile(filename) {
      var k := AllowedAtLastDot(filename);
      assert IsLastDot(filename, k) && Lower(filename[k + 1..]) in AllowedExtensions;
    }
    if exists i :: IsLastDot(filename, i) && Lower(filename[i + 1..]) in AllowedExtensions {
      var i :| IsLastDot(filename, i) && Lower(filename[i + 1..]) in AllowedExtensions;
      LastDotAllowed(filename, i);
    }
  }

  lemma AllowedAtLastDot(filename: string) returns (k: int)
    requires AllowedFile(filename)
    ensures IsLastDot(filename, k) && Lower(filename[k + 1..]) in AllowedExtensions
  {
    k := RFind(filename, '.');
  }

  lemma LastDotAllowed(filename: string, i: int)
    requires IsLastDot(filename, i) && Lower(filename[i + 1..]) in AllowedExtensions
    ensures AllowedFile(filename)
  {
    RFindUnique(filename, '.', i);
  }

  /**
   * Where `upload_file` saves a file whose sanitised name is `name`
   * (`os.path.join`): inside the upload folder, with a slash-free name as
   * the last path component.
   */
  function UploadPath(name: string): (p: string)
    ensures |p| == |UploadFolder| + 1 + |name| && p[..|UploadFolder|] == UploadFolder
    ensures '/' !in name ==> RFind(p, '/') == |UploadFolder| && p[RFind(p, '/') + 1..] == name
  {
    var p := UploadFolder + "/" + name;
    if '/' in name then p else SavedRootSlash(name, p); p
  }

  /**
   * `os.path.splitext` on a POSIX path: the extension starts at the last dot
   * of the last path component, unless that component is only dots up to it
   * (so `.bashrc` has no extension).
   */
  function SplitExt(p: string): (r: (string, string))
    ensures r.0 + r.1 == p
    ensures r.1 != [] ==> r.1[0] == '.'
    ensures forall j :: 0 < j < |r.1| ==> r.1[j] != '.'
    ensures forall j :: 0 <= j < |r.1| ==> r.1[j] != '/'
  {
    var sep := RFind(p, '/');
    var dot := RFind(p, '.');
    if dot > sep && !AllDots(p, sep + 1, dot) then (p[..dot], p[dot..]) else (p, "")
  }

  /** Every character of `p[lo..hi]` is a dot. */
  predicate AllDots(p: string, lo: int, hi: int)
    requires 0 <= lo <= hi <= |p|
  {
    forall k :: lo <= k < hi ==> p[k] == '.'
  }

  /**
   * What the libraries give back for the saved file: the text a UTF-8
   * text-mode read returns, the text of each PDF page in page order, the
   * text of each DOCX paragraph in document order. `None` stands for the
   * exception the reader raises (a decode error, a container that cannot be
   * opened).
   */
  datatype FileView = FileView(
    text: Option<string>,
    pdfPages: Option<seq<string>>,
    docxParagraphs: Option<seq<string>>)

  /** The extension `extract_text_from_file` dispatches on, lower-cased. */
  function DispatchExt(path: string): string {
    Lower(SplitExt(path).1)
  }

  /** The specification of `extract_text_from_file`. */
  function Extracted(path: string, file: FileView): Option<string> {
    var ext := DispatchExt(path);
    if ext == ".txt" || ext == ".md" then file.text
    else if ext == ".pdf" then
      (match file.pdfPages
       case None => None
       case Some(pages) => Some(Join("\n", pages)))
    else if ext == ".docx" then
      (match file.docxParagraphs
       case None => None
       case Some(paras) => Some(Join("\n", paras)))
    else None
  }

  /** `extract_text_from_file`: PDF pages are collected one by one, then joined. */
  method ExtractText(path: string, file: FileView) returns (text: Option<string>)
    ensures text == Extracted(path, file)
  {
    var ext := Lower(SplitExt(path).1);
    if ext == ".txt" || ext == ".md" {
      text := file.text;
    } else if ext == ".pdf" {
      if file.pdfPages.None? {
        return None;
      }
      var pages := file.pdfPages.value;
      var collected: seq<string> := [];
      var i := 0;
      while i < |pages|
        invariant 0 <= i <= |pages|
        invariant collected == pages[..i]
      {
        collected := collected + [pages[i]];
        i := i + 1;
      }
      assert collected == pages;
      text := Some(Join("\n", collected));
    } else if ext == ".docx" {
      if file.docxParagraphs.None? {
        return None;
      }
      text := Some(Join("\n", file.docxParagraphs.value));
    } else {
      text := None;
    }
  }

  /** The segments a PDF or DOCX extraction joins, when the path dispatches there. */
  function Segments(path: string, file: FileView): Option<seq<string>> {
    var ext := DispatchExt(path);
    if ext == ".pdf" then file.pdfPages
    else if ext == ".docx" then file.docxParagraphs
    else None
  }

  /**
   * PDF pages and DOCX paragraphs come back in order, joined by newlines:
   * n segments give n - 1 added separators, and (when no segment holds a
   * newline of its own) splitting at newlines gives the segments back,
   * empty ones included.
   */
  lemma ExtractedJoinsSegments(path: string, file: FileView)
    requires Segments(path, file).Some? && |Segments(path, file).value| >= 1
    ensures Extracted(path, file).Some?
    ensures Count(Extracted(path, file).value, '\n')
      == CountAll(Segments(path, file).value, '\n') + |Segments(path, file).value| - 1
    ensures (forall i :: 0 <= i < |Segments(path, file).value| ==> '\n' !in Segments(path, file).value[i])
      ==> Split(Extracted(path, file).value, '\n') == Segments(path, file).value
  {
    var segs := Segments(path, file).value;
    JoinCount(segs, '\n');
    if forall i :: 0 <= i < |segs| ==> '\n' !in segs[i] {
      SplitJoin(segs, '\n');
    }
  }

  /** A PDF with no pages, or a DOCX with no paragraphs, extracts to the empty text. */
  lemma ExtractedNoSegments(path: string, file: FileView)
    requires Segments(path, file) == Some([])
    ensures Extracted(path, file) == Some("")
  {
  }

  /** Plain text and markdown are returned as read; a read failure gives `None`. */
  lemma ExtractedPlainText(path: string, file: FileView)
    requires DispatchExt(path) in {".txt", ".md"}
    ensures Extracted(path, file) == file.text
  {
  }

  /** Any other extension, an empty one included, gives `None` whatever the file holds. */
  lemma ExtractedUnsupported(path: string, file: FileView)
    requires DispatchExt(path) !in {".txt", ".md", ".pdf", ".docx"}
    ensures Extracted(path, file) == None
  {
  }

  /** The characterisation of `rfind` determines it. */
  lemma RFindUnique(s: string, c: char, k: int)
    requires 0 <= k < |s| && s[k] == c
    requires forall j :: k < j < |s| ==> s[j] != c
    ensures RFind(s, c) == k
  {
  }

  lemma RFindConcat(a: string, b: string, c: char)
    ensures RFind(b, c) >= 0 ==> RFind(a + b, c) == |a| + RFind(b, c)
    ensures RFind(b, c) == -1 ==> RFind(a + b, c) == RFind(a, c)
  {
    var s := a + b;
    var q := RFind(b, c);
    if q >= 0 {
      RFindUnique(s, c, |a| + q);
    } else if RFind(a, c) >= 0 {
      RFindUnique(s, c, RFind(a, c));
    } else {
      assert forall j :: 0 <= j < |s| ==> s[j] != c by {
        forall j | 0 <= j < |s| ensures s[j] != c {
          if j < |a| { assert s[j] == a[j]; } else { assert s[j] == b[j - |a|]; }
        }
      }
    }
  }

  lemma LowerConcat(a: string, b: string)
    ensures Lower(a + b) == Lower(a) + Lower(b)
  {
    assert forall i :: 0 <= i < |a + b| ==> Lower(a + b)[i] == (Lower(a) + Lower(b))[i];
  }

  lemma LastDotAt(name: string, k: int)
    requires 0 <= k < |name| && name[k] == '.'
    requires forall j :: k < j < |name| ==> name[j] != '.'
    ensures RFind(name, '.') == k
  {
    RFindUnique(name, '.', k);
  }

  lemma LastDotOfStemDotExt(stem: string, e: string, name: string)
    requires '.' !in e && name == stem + "." + e
    ensures RFind(name, '.') == |stem| && name[|stem| + 1..] == e
  {
    assert forall j :: |stem| < j < |name| ==> name[j] == e[j - |stem| - 1];
    LastDotAt(name, |stem|);
  }

  /** For a name `stem.e` whose extension has no dot, the gate admits it exactly when `e` is allowed. */
  lemma GateOnStemDotExt(stem: string, e: string)
    requires '.' !in e
    ensures AllowedFile(stem + "." + e) <==> Lower(e) in AllowedExtensions
  {
    LastDotOfStemDotExt(stem, e, stem + "." + e);
  }

  /** `ext` is what `splitext` can return as an extension: a dot, then neither dots nor slashes. */
  predicate IsExtension(ext: string) {
    ext != [] && ext[0] == '.' && (forall j :: 0 < j < |ext| ==> ext[j] != '.')
    && (forall j :: 0 <= j < |ext| ==> ext[j] != '/')
  }

  lemma RFindAbsent(s: string, c: char)
    requires forall j :: 0 <= j < |s| ==> s[j] != c
    ensures RFind(s, c) == -1
  {
  }

  /** Where the last dot and the last slash of `root + ext` are. */
  lemma SplitPoints(p: string, root: string, ext: string)
    requires p == root + ext && IsExtension(ext)
    ensures RFind(p, '/') == RFind(root, '/') && RFind(p, '.') == |root|
  {
    RFindAbsent(ext, '/');
    RFindConcat(root, ext, '/');
    RFindUnique(ext, '.', 0);
    RFindConcat(root, ext, '.');
  }

  /**
   * `splitext` finds the extension `ext` of `root + ext` exactly when the
   * last component of `root` holds a character other than a dot.
   */
  lemma SplitExtFinds(p: string, root: string, ext: string)
    requires p == root + ext && IsExtension(ext)
    requires exists k :: RFind(root, '/') < k < |root| && root[k] != '.'
    ensures SplitExt(p) == (root, ext)
  {
    SplitPoints(p, root, ext);
    var k :| RFind(root, '/') < k < |root| && root[k] != '.';
    assert p[k] == root[k];
    SplitAtDot(p, RFind(p, '/'), |root|);
    ConcatParts(root, ext);
  }

  lemma SplitAtDot(p: string, sep: int, dot: int)
    requires sep == RFind(p, '/') && dot == RFind(p, '.') && sep < dot
    requires exists k :: sep < k < dot && p[k] != '.'
    ensures SplitExt(p) == (p[..dot], p[dot..])
  {
    assert !AllDots(p, sep + 1, dot);
  }

  lemma ConcatParts(root: string, ext: string)
    ensures (root + ext)[..|root|] == root && (root + ext)[|root|..] == ext
  {
  }

  /** A last component made only of dots before its last dot has no extension (`.bashrc`, `..md`). */
  lemma SplitExtDotsOnly(p: string, root: string, ext: string)
    requires p == root + ext && IsExtension(ext)
    requires forall k :: RFind(root, '/') < k < |root| ==> root[k] == '.'
    ensures SplitExt(p) == (p, "")
  {
    SplitPoints(p, root, ext);
    assert forall k :: RFind(p, '/') < k < |root| ==> p[k] == root[k];
    assert AllDots(p, RFind(p, '/') + 1, RFind(p, '.'));
  }

  /** A last component without a dot has no extension. */
  lemma SplitExtNoDot(p: string)
    requires forall k :: RFind(p, '/') < k < |p| ==> p[k] != '.'
    ensures SplitExt(p) == (p, "")
  {
    var dot := RFind(p, '.');
    assert dot >= 0 ==> p[dot] == '.';
    assert dot <= RFind(p, '/');
  }

  /** After `join`, the last slash of the saved path is the folder's separator. */
  lemma SavedRootSlash(stem: string, root: string)
    requires '/' !in stem && root == UploadFolder + "/" + stem
    ensures RFind(root, '/') == |UploadFolder|
    ensures forall j :: |UploadFolder| < j < |root| ==> root[j] == stem[j - |UploadFolder| - 1]
  {
    assert forall j :: |UploadFolder| < j < |root| ==> root[j] == stem[j - |UploadFolder| - 1];
    RFindUnique(root, '/', |UploadFolder|);
  }

  lemma SavedPathShape(stem: string, e: string, path: string)
    requires path == UploadPath(stem + "." + e)
    ensures path == (UploadFolder + "/" + stem) + ("." + e)
  {
  }

  lemma DotExtension(e: string)
    requires '.' !in e && '/' !in e
    ensures IsExtension("." + e)
  {
    assert forall j :: 0 < j < |"." + e| ==> ("." + e)[j] == e[j - 1];
  }

  lemma LowerDotExt(e: string)
    ensures Lower("." + e) == "." + Lower(e)
  {
    LowerConcat(".", e);
  }

  /**
   * For a name `stem.e` whose stem holds no slash and some character other
   * than a dot (`notes.v2.pdf` included), extraction from the saved path
   * dispatches on `.e`, lower-cased: the gate and the dispatch agree.
   */
  lemma DispatchOnStemDotExt(stem: string, e: string)
    requires '/' !in stem && exists i :: 0 <= i < |stem| && stem[i] != '.'
    requires '.' !in e && '/' !in e
    ensures DispatchExt(UploadPath(stem + "." + e)) == "." + Lower(e)
  {
    var path := UploadPath(stem + "." + e);
    var root := UploadFolder + "/" + stem;
    SavedPathShape(stem, e, path);
    SavedRootSlash(stem, root);
    DotExtension(e);
    var i :| 0 <= i < |stem| && stem[i] != '.';
    assert root[|UploadFolder| + 1 + i] == stem[i];
    SplitExtFinds(path, root, "." + e);
    LowerDotExt(e);
  }

  /** A stem made only of dots (`.md`, `..md`) gives no extension, so nothing is extracted. */
  lemma DotsOnlyStemHasNoExtension(stem: string, e: string, file: FileView)
    requires forall i :: 0 <= i < |stem| ==> stem[i] == '.'
    requires '.' !in e && '/' !in e
    ensures SplitExt(UploadPath(stem + "." + e)).1 == ""
    ensures Extracted(UploadPath(stem + "." + e), file) == None
  {
    var path := UploadPath(stem + "." + e);
    var root := UploadFolder + "/" + stem;
    SavedPathShape(stem, e, path);
    SavedRootSlash(stem, root);
    DotExtension(e);
    SplitExtDotsOnly(path, root, "." + e);
    assert Lower("") == "";
  }

  /**
   * The gate and the dispatch disagree on a name whose only dot leads it:
   * `.md` passes `allowed_file` (the text after the last dot is `md`), but
   * `secure_filename` saves it as `md`, which has no extension, so
   * extraction gives `None`; had the leading dot been kept, `splitext`
   * would still find no extension.
   */
  lemma LeadingDotNamePassesGateButNotDispatch(file: FileView)
    ensures AllowedFile(".md")
    ensures SplitExt(UploadPath("md")).1 == "" && Extracted(UploadPath("md"), file) == None
    ensures SplitExt(UploadPath(".md")).1 == "" && Extracted(UploadPath(".md"), file) == None
  {
    LeadingDotGate();
    SanitisedLeadingDotName(file);
    UnsanitisedLeadingDotName(file);
  }

  lemma LeadingDotGate()
    ensures AllowedFile(".md")
  {
    assert RFind(".md", '.') == 0;
    assert ".md"[1..] == "md";
    assert Lower("md") == "md";
  }

  lemma SanitisedLeadingDotName(file: FileView)
    ensures SplitExt(UploadPath("md")).1 == "" && Extracted(UploadPath("md"), file) == None
  {
    SavedNameWithoutDot(UploadPath("md"));
    assert Lower("") == "";
  }

  lemma UnsanitisedLeadingDotName(file: FileView)
    ensures SplitExt(UploadPath(".md")).1 == "" && Extracted(UploadPath(".md"), file) == None
  {
    assert "" + "." + "md" == ".md";
    DotsOnlyStemHasNoExtension("", "md", file);
  }

  lemma SavedNameWithoutDot(path: string)
    requires path == UploadPath("md")
    ensures SplitExt(path) == (path, "")
  {
    SavedRootSlash("md", path);
    SplitExtNoDot(path);
  }
}
