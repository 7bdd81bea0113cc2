/**
 * The digital-file library (src/components/DigitalBookUpload.tsx): file
 * validation, the upload form, the simulated progress bar and the list of
 * shared files with their download counters.
 */
module DigitalBookUpload {
  import opened Optional
  import opened Text
  import opened Seqs

  /** A shared file. */
  datatype DigitalBook = DigitalBook(
    id: string,
    title: string,
    author: string,
    category: string,
    fileType: string,
    fileSize: nat,
    uploadDate: string,
    downloadCount: nat,
    description: string)

  /** What the browser reports about a chosen file. */
  datatype FileInfo = FileInfo(mimeType: string, size: nat)

  datatype UploadForm = UploadForm(title: string, author: string, category: string, description: string, file: Option<FileInfo>)

  const EmptyForm := UploadForm("", "", "", "", None)

  const AllowedTypes: seq<string> := ["application/pdf", "application/epub+zip", "text/plain"]

  /** 50 MiB. */
  const MaxFileSize: nat := 50 * 1024 * 1024

  /** The outcome of choosing a file. */
  datatype FileCheck = NoFile | InvalidType | TooLarge | Accepted

  /** `handleFileSelect`'s checks, in their order: the type first, then the size. */
  function CheckFile(file: Option<FileInfo>): FileCheck {
    if file.None? then NoFile
    else if file.value.mimeType !in AllowedTypes then InvalidType
    else if file.value.size > MaxFileSize then TooLarge
    else Accepted
  }

  /** A file is accepted exactly when its type is allowed and it is at most 50 MiB. */
  lemma AcceptedIff(f: FileInfo)
    ensures CheckFile(Some(f)) == Accepted <==> f.mimeType in AllowedTypes && f.size <= 52428800
  {
  }

  /** A file of the wrong type is reported as such even when it is also too large. */
  lemma TypeCheckedBeforeSize(f: FileInfo)
    requires f.mimeType !in AllowedTypes
    ensures CheckFile(Some(f)) == InvalidType
  {
  }

  lemma SizeLimitBoundary()
    ensures CheckFile(Some(FileInfo("application/pdf", 52428800))) == Accepted
    ensures CheckFile(Some(FileInfo("application/pdf", 52428801))) == TooLarge
  {
  }

  /** The upload needs a title, an author, a category and a file. */
  predicate ReadyToUpload(f: UploadForm) {
    f.title != "" && f.author != "" && f.category != "" && f.file.Some?
  }

  /** The type label stored with an upload, chosen by substring of the MIME type. */
  function FileTypeLabel(file: Option<FileInfo>): string {
    if file.Some? && Contains(file.value.mimeType, "pdf") then "PDF"
    else if file.Some? && Contains(file.value.mimeType, "epub") then "EPUB"
    else "TXT"
  }

  lemma PdfLabel(f: FileInfo)
    requires f.mimeType == "application/pdf"
    ensures FileTypeLabel(Some(f)) == "PDF"
  {
    ContainsAt(f.mimeType, "pdf", 12);
  }

  lemma EpubLabel(f: FileInfo)
    requires f.mimeType == "application/epub+zip"
    ensures FileTypeLabel(Some(f)) == "EPUB"
  {
    var m := f.mimeType;
    assert forall i :: 0 <= i < |m| ==> m[i] != 'd';
    NoSubstring(m, "pdf", 1);
    assert m[12..16] == "epub";
    ContainsAt(m, "epub", 12);
  }

  lemma TxtLabel(f: FileInfo)
    requires f.mimeType == "text/plain"
    ensures FileTypeLabel(Some(f)) == "TXT"
  {
    NoSubstring(f.mimeType, "pdf", 1);
    NoSubstring(f.mimeType, "epub", 2);
  }

  /** The entry added when an upload completes. */
  function UploadedBook(f: UploadForm, id: string, today: string): DigitalBook {
    DigitalBook(id, f.title, f.author, f.category, FileTypeLabel(f.file),
                if f.file.Some? then f.file.value.size else 0, today, 0, f.description)
  }

  /** The uploaded entry records the form, the file's size, and starts with no downloads. */
  lemma UploadedBookFields(f: UploadForm, id: string, today: string)
    requires ReadyToUpload(f) && CheckFile(f.file) == Accepted
    ensures var b := UploadedBook(f, id, today);
      && b.title == f.title && b.author == f.author && b.category == f.category
      && b.fileSize == f.file.value.size <= MaxFileSize && b.downloadCount == 0
      && b.fileType == if f.file.value.mimeType == "application/pdf" then "PDF"
                       else if f.file.value.mimeType == "application/epub+zip" then "EPUB"
                       else "TXT"
  {
    var file := f.file.value;
    if file.mimeType == "application/pdf" {
      PdfLabel(file);
    } else if file.mimeType == "application/epub+zip" {
      EpubLabel(file);
    } else {
      TxtLabel(file);
    }
  }

  /** One tick of the progress interval: up by ten, held at one hundred. */
  function ProgressStep(prev: int): int {
    if prev >= 100 then 100 else prev + 10
  }

  /** The list with one more download on the entry with id `id`. */
  function Downloaded(books: seq<DigitalBook>, id: string): (r: seq<DigitalBook>)
    ensures |r| == |books|
  {
    seq(|books|, i requires 0 <= i < |books| =>
      if books[i].id == id then books[i].(downloadCount := books[i].downloadCount + 1) else books[i])
  }

  function TotalDownloads(books: seq<DigitalBook>): nat {
    if books == [] then 0 else books[0].downloadCount + TotalDownloads(books[1..])
  }

  /** How many entries carry id `id`. */
  function CountId(books: seq<DigitalBook>, id: string): nat {
    Count(books, (b: DigitalBook) => b.id == id)
  }

  /** A download adds one to the total for every entry carrying the id, and nothing else. */
  lemma {:induction false} DownloadRaisesTotal(books: seq<DigitalBook>, id: string)
    ensures TotalDownloads(Downloaded(books, id)) == TotalDownloads(books) + CountId(books, id)
    decreases |books|
  {
    if books != [] {
      assert Downloaded(books, id)[1..] == Downloaded(books[1..], id);
      DownloadRaisesTotal(books[1..], id);
    }
  }

  /**
   * The progress interval from a fresh start: it ticks until it sees 100 and
   * clears itself on that tick. Returns how many ticks ran and the value after each.
   */
  method RunProgressInterval() returns (ticks: nat, trace: seq<int>)
    ensures ticks == 11 && |trace| == ticks
    ensures forall i :: 0 <= i < |trace| ==> 0 <= trace[i] <= 100
    ensures forall i :: 0 <= i < 10 ==> trace[i] == 10 * (i + 1)
    ensures trace[10] == 100
  {
    var progress := 0;
    var cleared := false;
    ticks, trace := 0, [];
    while !cleared
      invariant 0 <= progress <= 100 && progress % 10 == 0
      invariant !cleared ==> progress == 10 * ticks && ticks <= 10
      invariant cleared ==> ticks == 11 && progress == 100
      invariant |trace| == ticks
      invariant forall i :: 0 <= i < |trace| ==> 0 <= trace[i] <= 100
      invariant forall i :: 0 <= i < |trace| && i < 10 ==> trace[i] == 10 * (i + 1)
      invariant ticks == 11 ==> trace[10] == 100
      decreases 11 - ticks
    {
      if progress >= 100 {
        cleared := true;
      }
      progress := ProgressStep(progress);
      ticks, trace := ticks + 1, trace + [progress];
    }
  }

  /** The two files the panel starts with. */
  const SeedBooks: seq<DigitalBook> := [
    DigitalBook("1", "Introduction to Computer Science - Lecture Notes", "Prof. Smith",
                "Engineering & Technology", "PDF", 2500000, "2024-01-15", 45,
                "Complete lecture notes for CS101 course"),
    DigitalBook("2", "Organic Chemistry Lab Manual", "Dr. Johnson", "Natural Sciences",
                "PDF", 5200000, "2024-01-10", 23, "Lab procedures and safety guidelines")
  ]

  /** The upload panel. */
  class Library {
    var digitalBooks: seq<DigitalBook>
    var form: UploadForm
    var isUploading: bool
    var uploadProgress: int
    /** The form as the completion timer captured it when the upload started. */
    var pending: Option<UploadForm>

    ghost predicate Valid()
      reads this
    {
      && 0 <= uploadProgress <= 100 && uploadProgress % 10 == 0
      && (isUploading <==> pending.Some?)
      && (pending.Some? ==> ReadyToUpload(pending.value) && CheckFile(pending.value.file) == Accepted)
      && (form.file.Some? ==> CheckFile(form.file) == Accepted)
    }

    constructor ()
      ensures Valid() && form == EmptyForm && !isUploading && uploadProgress == 0
      ensures digitalBooks == SeedBooks
    {
      digitalBooks := SeedBooks;
      form := EmptyForm;
      isUploading, uploadProgress, pending := false, 0, None;
    }

    /** Editing the text fields of the form. */
    method EditFields(title: string, author: string, category: string, description: string)
      requires Valid()
      modifies this`form
      ensures Valid()
      ensures form == old(form).(title := title, author := author, category := category, description := description)
    {
      form := form.(title := title, author := author, category := category, description := description);
    }

    /** `handleFileSelect`: an accepted file replaces the form's file; anything else leaves it. */
    method SelectFile(file: Option<FileInfo>) returns (outcome: FileCheck)
      requires Valid()
      modifies this`form
      ensures Valid()
      ensures outcome == CheckFile(file)
      ensures form == if outcome == Accepted then old(form).(file := file) else old(form)
    {
      outcome := CheckFile(file);
      if outcome == Accepted {
        form := form.(file := file);
      }
    }

    /**
     * `handleSubmit`: with every required field present the simulated upload
     * starts from zero; otherwise nothing changes. The button is disabled
     * while an upload runs.
     */
    method Submit() returns (started: bool)
      requires Valid() && !isUploading
      modifies this
      ensures Valid()
      ensures started <==> ReadyToUpload(old(form))
      ensures started ==> isUploading && uploadProgress == 0 && pending == Some(old(form))
      ensures !started ==> isUploading == old(isUploading) && uploadProgress == old(uploadProgress)
      ensures form == old(form) && digitalBooks == old(digitalBooks)
    {
      if !ReadyToUpload(form) {
        return false;
      }
      isUploading, uploadProgress, pending := true, 0, Some(form);
      started := true;
    }

    /** One firing of the progress interval. */
    method Tick()
      requires Valid()
      modifies this`uploadProgress
      ensures Valid() && uploadProgress == ProgressStep(old(uploadProgress))
    {
      uploadProgress := ProgressStep(uploadProgress);
    }

    /**
     * The completion timer: the captured form becomes a new entry in front of
     * the list, the form is cleared and the progress bar reset.
     */
    method CompleteUpload(id: string, today: string)
      requires Valid() && isUploading
      modifies this
      ensures Valid() && !isUploading && uploadProgress == 0 && form == EmptyForm
      ensures digitalBooks == [UploadedBook(old(pending).value, id, today)] + old(digitalBooks)
      ensures var f := old(pending).value.file.value;
        && digitalBooks[0].fileSize == f.size <= MaxFileSize && digitalBooks[0].downloadCount == 0
        && digitalBooks[0].fileType == if f.mimeType == "application/pdf" then "PDF"
                                       else if f.mimeType == "application/epub+zip" then "EPUB"
                                       else "TXT"
    {
      UploadedBookFields(pending.value, id, today);
      isUploading, uploadProgress := false, 0;
      digitalBooks := [UploadedBook(pending.value, id, today)] + digitalBooks;
      form, pending := EmptyForm, None;
    }

    /** `handleDownload`: one more download on the entries with that id; the rest as they were. */
    method Download(id: string)
      modifies this`digitalBooks
      ensures digitalBooks == Downloaded(old(digitalBooks), id)
      ensures forall i :: 0 <= i < |digitalBooks| ==>
        digitalBooks[i].downloadCount == old(digitalBooks[i].downloadCount) + (if old(digitalBooks[i].id) == id then 1 else 0)
    {
      digitalBooks := Downloaded(digitalBooks, id);
    }
  }
}
