/**
 * The complaint registration form: seven text fields, an attachment list of at most five image
 * files, and a submit handler that prepends the new record to the stored `complaints` list.
 */
module RegisterComplaint {
  import opened Wrappers
  import opened Text
  import opened Seqs
  import opened Complaints
  import opened Storage

  /** What the page reads of a selected file: name, size in bytes and MIME type. */
  datatype UploadFile = UploadFile(name: string, size: int, fileType: string)

  /** 5 MB */
  const MaxFileSize := 5 * 1024 * 1024
  const MaxFiles := 5

  /** The verdict of `validateFile`: accepted, or the reason its toast gives. */
  datatype FileCheck = Accepted | TooLarge | InvalidFormat

  /** The MIME types the form accepts. */
  predicate AllowedType(t: string) {
    t == "image/jpeg" || t == "image/png" || t == "image/jpg"
  }

  /** `validateFile`: the size limit is checked before the type. */
  function ValidateFile(f: UploadFile): (r: FileCheck)
    ensures r == Accepted <==> f.size <= MaxFileSize && AllowedType(f.fileType)
    ensures r == TooLarge <==> f.size > MaxFileSize
  {
    if f.size > MaxFileSize then TooLarge
    else if !AllowedType(f.fileType) then InvalidFormat
    else Accepted
  }

  predicate IsValidFile(f: UploadFile) {
    ValidateFile(f) == Accepted
  }

  /** The loop of `handleFiles`: push every incoming file that passes `validateFile`. */
  method SelectValidFiles(files: seq<UploadFile>) returns (newFiles: seq<UploadFile>)
    ensures newFiles == Filter(files, IsValidFile)
  {
    newFiles := [];
    var i := 0;
    while i < |files|
      invariant 0 <= i <= |files|
      invariant newFiles == Filter(files[..i], IsValidFile)
    {
      var f := files[i];
      assert files[..i + 1] == files[..i] + [f];
      FilterAppend(files[..i], [f], IsValidFile);
      assert Filter([f], IsValidFile) == if IsValidFile(f) then [f] else [];
      if ValidateFile(f) == Accepted {
        newFiles := newFiles + [f];
      }
      i := i + 1;
    }
    assert files[..i] == files;
  }

  /** `[...uploadedFiles, ...newFiles]`, cut to its first five files when longer. */
  function Capped(existing: seq<UploadFile>, newFiles: seq<UploadFile>): (r: seq<UploadFile>)
    ensures |r| <= MaxFiles
    ensures |r| == if |existing| + |newFiles| > MaxFiles then MaxFiles else |existing| + |newFiles|
  {
    var updated := existing + newFiles;
    if |updated| > MaxFiles then updated[..MaxFiles] else updated
  }

  /** Earlier files take precedence: a list within the cap keeps all of its files at the front,
   *  and a new file is kept only while there is room for it. */
  lemma ExistingFilesWin(existing: seq<UploadFile>, newFiles: seq<UploadFile>)
    requires |existing| <= MaxFiles
    ensures existing <= Capped(existing, newFiles)
    ensures forall i :: 0 <= i < |newFiles| && |existing| + i < MaxFiles ==>
      Capped(existing, newFiles)[|existing| + i] == newFiles[i]
  {
  }

  /** `files.filter((_, i) => i !== index)`: drop the file at `index`; any other index drops nothing. */
  function RemoveAt(files: seq<UploadFile>, index: int): (r: seq<UploadFile>)
    ensures 0 <= index < |files| ==> |r| == |files| - 1
    ensures !(0 <= index < |files|) ==> r == files
    ensures 0 <= index < |files| ==> forall j :: 0 <= j < |r| ==> r[j] == files[if j < index then j else j + 1]
  {
    if 0 <= index < |files| then files[..index] + files[index + 1..] else files
  }

  /** Removal takes out exactly the one file at the index. */
  lemma RemoveAtTakesOne(files: seq<UploadFile>, index: int)
    requires 0 <= index < |files|
    ensures multiset(RemoveAt(files, index)) + multiset{files[index]} == multiset(files)
  {
    assert files == files[..index] + [files[index]] + files[index + 1..];
  }

  // ---------------------------------------------------------------- the record

  /** The decimal digit for `d`. */
  function DigitChar(d: nat): char
    requires d < 10
  {
    ('0' as int + d) as char
  }

  /** `n.toString()` for a non-negative integer: its decimal digits, without leading zeros. */
  function DecimalString(n: nat): (r: string)
    ensures r != ""
    ensures forall i :: 0 <= i < |r| ==> IsDigit(r[i])
    ensures |r| > 1 ==> r[0] != '0'
  {
    if n < 10 then [DigitChar(n)] else DecimalString(n / 10) + [DigitChar(n % 10)]
  }

  /** The value of a string of decimal digits. */
  function DecimalValue(s: string): nat
    requires forall i :: 0 <= i < |s| ==> IsDigit(s[i])
  {
    if s == "" then 0
    else
      assert IsDigit(s[|s| - 1]);
      DecimalValue(s[..|s| - 1]) * 10 + (s[|s| - 1] as int - '0' as int)
  }

  /** Complaint ids are the timestamp in decimal, so reading the id back gives the timestamp. */
  lemma {:induction false} DecimalRoundTrip(n: nat)
    ensures DecimalValue(DecimalString(n)) == n
  {
    if n >= 10 {
      var s := DecimalString(n);
      DecimalRoundTrip(n / 10);
      assert s[..|s| - 1] == DecimalString(n / 10);
    }
  }

  /** Distinct timestamps give distinct ids. */
  lemma DistinctIds(n: nat, m: nat)
    requires n != m
    ensures DecimalString(n) != DecimalString(m)
  {
    DecimalRoundTrip(n);
    DecimalRoundTrip(m);
  }

  /** The seven fields of the form, every one required. */
  const FormFields := ["name", "email", "phone", "department", "subject", "description", "location"]

  /** The submit guard: no field is the empty string. Whitespace counts as filled. */
  predicate AllFilled(form: map<string, string>) {
    forall k :: k in FormFields ==> Field(form, k) != ""
  }

  /** The stored metadata of the uploaded files, one entry per file in order, all stamped with
   *  the same upload instant. */
  function Metadata(files: seq<UploadFile>, uploadedAt: string): seq<FileMeta> {
    seq(|files|, i requires 0 <= i < |files| => FileMeta(files[i].name, files[i].size, files[i].fileType, uploadedAt))
  }

  /** The record `handleSubmit` builds at instant `now` (ms). */
  function NewComplaint(form: map<string, string>, files: seq<UploadFile>, now: nat, nowIso: string): Complaint {
    Complaint(
      DecimalString(now), Field(form, "subject"), Field(form, "department"), "In Progress", now / MsPerDay, 15,
      None, None, None, None, Some(Field(form, "location")),
      Some(Filing(Field(form, "description"), Field(form, "name"), Field(form, "email"), Field(form, "phone"),
                  Metadata(files, nowIso), |files|)),
      None, None)
  }

  /**
   * The new record is "In Progress" at 15%, titled by the subject and filed under the
   * department, dated on the day of `now`, and carries one metadata entry per uploaded file in
   * order, with the attachment count equal to the number of files. It has no registration date,
   * so the tracking page computes no SLA for it.
   */
  lemma NewComplaintFacts(form: map<string, string>, files: seq<UploadFile>, now: nat, nowIso: string)
    ensures var c := NewComplaint(form, files, now, nowIso);
      && c.status == "In Progress" && c.progress == 15
      && c.title == Field(form, "subject") && c.category == Field(form, "department")
      && c.date * MsPerDay <= now < (c.date + 1) * MsPerDay
      && c.registeredDate.None? && c.filing.Some?
      && c.filing.value.attachmentCount == |c.filing.value.attachments| == |files|
      && (forall i :: 0 <= i < |files| ==>
            c.filing.value.attachments[i].name == files[i].name
            && c.filing.value.attachments[i].size == files[i].size
            && c.filing.value.attachments[i].fileType == files[i].fileType)
  {
  }

  /** After a submit, looking the new id up in the reconciled list finds the new record. */
  lemma NewRecordIsFound(c: Complaint, stored: seq<Complaint>, seeds: seq<Complaint>)
    ensures FindById(Merge([c] + stored, seeds), c.id) == Some(c)
  {
    assert c in [c] + stored;
    StoredRecordWins([c] + stored, seeds, c.id);
  }

  // ---------------------------------------------------------------- page

  class RegisterComplaintPage {
    var formData: map<string, string>
    var uploadedFiles: seq<UploadFile>
    var isSubmitting: bool

    constructor()
      ensures forall k :: k in FormFields ==> k in formData && formData[k] == ""
      ensures |formData| == |FormFields|
      ensures uploadedFiles == [] && !isSubmitting
    {
      formData := map["name" := "", "email" := "", "phone" := "", "department" := "", "subject" := "",
                      "description" := "", "location" := ""];
      uploadedFiles := [];
      isSubmitting := false;
    }

    /** `handleChange`: set one field and keep the others. */
    method HandleChange(field: string, value: string)
      modifies this`formData
      ensures formData == old(formData)[field := value]
    {
      formData := formData[field := value];
    }

    /** `handleFiles`: append the valid incoming files after the current ones, keeping the first five. */
    method HandleFiles(files: seq<UploadFile>)
      modifies this`uploadedFiles
      ensures uploadedFiles == Capped(old(uploadedFiles), Filter(files, IsValidFile))
    {
      var newFiles := SelectValidFiles(files);
      uploadedFiles := Capped(uploadedFiles, newFiles);
    }

    /** `removeFile` */
    method RemoveFile(index: int)
      modifies this`uploadedFiles
      ensures uploadedFiles == RemoveAt(old(uploadedFiles), index)
    {
      uploadedFiles := RemoveAt(uploadedFiles, index);
    }

    /**
     * `handleSubmit` at instant `now`. With a field left empty nothing is stored. Otherwise the
     * new record goes to the front of the stored list, every earlier record follows it unchanged,
     * and the attachment list is emptied; the form keeps its values.
     */
    method HandleSubmit(storage: BrowserStorage, now: nat, nowIso: string) returns (submitted: bool)
      modifies this`isSubmitting, this`uploadedFiles, storage`complaints
      ensures submitted <==> AllFilled(formData)
      ensures !submitted ==> storage.complaints == old(storage.complaints) && uploadedFiles == old(uploadedFiles)
      ensures submitted ==>
        && storage.complaints == [NewComplaint(formData, old(uploadedFiles), now, nowIso)] + old(storage.complaints)
        && uploadedFiles == []
      ensures !submitted ==> isSubmitting == old(isSubmitting)
      ensures submitted ==> !isSubmitting
    {
      if !AllFilled(formData) {
        return false;
      }
      isSubmitting := true;
      var record := NewComplaint(formData, uploadedFiles, now, nowIso);
      storage.complaints := [record] + storage.complaints;
      isSubmitting := false;
      uploadedFiles := [];
      submitted := true;
    }
  }
}
