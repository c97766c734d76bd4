/**
 * The `_files` field of the DCAT export of a record: one export entry per
 * file entry of the record, with its download URL under the site's UI URL
 * and, when the record has a DOI, the DOI's HTTPS URL as access URL.
 *
 * The record is a value here, so the export cannot change it. The site UI URL
 * and the identifier-to-URL conversion are parameters.
 */
module DcatSchema {
  import opened Wrappers

  /** A file entry's value: its `key` (the file name) and its `size` in bytes. */
  datatype FileEntry = FileEntry(key: string, size: int)

  /**
   * `obj["files"]`: the `enabled` flag and the `entries` dictionary, given as
   * its (dictionary key, value) pairs in iteration order; either may be absent.
   */
  datatype FilesField = FilesField(enabled: Option<bool>, entries: Option<seq<(string, FileEntry)>>)

  datatype Pid = Pid(identifier: string)

  /** The serialized record the schema reads: its id, files and persistent identifiers by scheme. */
  datatype RecordDump = RecordDump(id: string, files: FilesField, pids: map<string, Pid>)

  datatype ExportEntry = ExportEntry(size: string, accessUrl: Option<string>, downloadUrl: string, key: string)

  /** The field's value: `Missing` (the field is left out of the export) or a non-empty list. */
  datatype FilesValue = Missing | FileList(entries: seq<ExportEntry>)

  /** Files enabled without an `entries` dictionary: iterating over the absent value raises. */
  datatype SchemaError = EntriesAbsent

  /** Identifier-to-URL conversion: (identifier, scheme, URL scheme) to a URL. */
  type ToUrl = (string, string, string) -> string

  // ---------------------------------------------------------------------------
  // `str` of an integer

  function DigitChar(d: nat): (c: char)
    requires d < 10
    ensures '0' <= c <= '9'
  {
    (48 + d) as char
  }

  function DigitValue(c: char): nat
    requires '0' <= c <= '9'
  {
    (c as int) - 48
  }

  predicate AllDigits(s: string) {
    forall i :: 0 <= i < |s| ==> '0' <= s[i] <= '9'
  }

  /** The decimal numeral of `n`: digits only, and no leading zero unless it is "0". */
  function NatToDecimal(n: nat): (s: string)
    ensures |s| >= 1 && AllDigits(s)
    ensures |s| > 1 ==> s[0] != '0'
    ensures s == "0" <==> n == 0
    decreases n
  {
    if n < 10 then [DigitChar(n)]
    else NatToDecimal(n / 10) + [DigitChar(n % 10)]
  }

  /** Python's `str` of an integer: a minus sign before the numeral of a negative one. */
  function IntToDecimal(n: int): (s: string)
    ensures |s| >= 1
    ensures n < 0 <==> s[0] == '-'
  {
    if n < 0 then "-" + NatToDecimal(-n) else NatToDecimal(n)
  }

  /** The value of a numeral, the inverse of `NatToDecimal`. */
  function DecimalValue(s: string): nat
    requires AllDigits(s)
    decreases |s|
  {
    if s == [] then 0
    else
      var n := |s| - 1;
      assert AllDigits(s[..n]);
      DecimalValue(s[..n]) * 10 + DigitValue(s[n])
  }

  function ParseInt(s: string): int
    requires |s| >= 1
    requires s[0] == '-' ==> AllDigits(s[1..])
    requires s[0] != '-' ==> AllDigits(s)
  {
    if s[0] == '-' then 0 - DecimalValue(s[1..]) else DecimalValue(s)
  }

  lemma {:induction false} NatToDecimalRoundTrip(n: nat)
    ensures DecimalValue(NatToDecimal(n)) == n
    decreases n
  {
    if n >= 10 {
      NatToDecimalRoundTrip(n / 10);
      var s := NatToDecimal(n);
      assert s[..|s| - 1] == NatToDecimal(n / 10);
    }
  }

  /** The `size` string determines the size: reading it back gives the integer. */
  lemma IntToDecimalRoundTrip(n: int)
    ensures ParseInt(IntToDecimal(n)) == n
  {
    if n < 0 {
      NatToDecimalRoundTrip(-n);
      assert IntToDecimal(n)[1..] == NatToDecimal(-n);
    } else {
      NatToDecimalRoundTrip(n);
    }
  }

  // ---------------------------------------------------------------------------
  // the export

  /** The download URL of a file: `<site>/records/<record id>/files/<file key>`. */
  function DownloadUrl(siteUiUrl: string, recordId: string, fileKey: string): string {
    siteUiUrl + "/records/" + recordId + "/files/" + fileKey
  }

  /** The download URL: the site UI URL, "/records/", the record id, "/files/" and the file key, in that order. */
  lemma DownloadUrlShape(siteUiUrl: string, recordId: string, fileKey: string)
    ensures var u := DownloadUrl(siteUiUrl, recordId, fileKey);
            && |u| == |siteUiUrl| + 9 + |recordId| + 7 + |fileKey|
            && u[..|siteUiUrl|] == siteUiUrl
            && u[|siteUiUrl|..|siteUiUrl| + 9] == "/records/"
            && u[|siteUiUrl| + 9..|siteUiUrl| + 9 + |recordId|] == recordId
            && u[|u| - |fileKey| - 7..|u| - |fileKey|] == "/files/"
            && u[|u| - |fileKey|..] == fileKey
  {
  }

  /** The access URL: the HTTPS URL of the DOI when the record has one. */
  function AccessUrl(pids: map<string, Pid>, toUrl: ToUrl): (u: Option<string>)
    ensures u.Some? <==> "doi" in pids
    ensures u.Some? ==> u.value == toUrl(pids["doi"].identifier, "doi", "https")
  {
    if "doi" in pids then Some(toUrl(pids["doi"].identifier, "doi", "https")) else None
  }

  /** The export entries of the given file entries, in the same order. */
  function ExportEntries(obj: RecordDump, entries: seq<(string, FileEntry)>, siteUiUrl: string, toUrl: ToUrl)
    : (r: seq<ExportEntry>)
    ensures |r| == |entries|
    ensures forall i :: 0 <= i < |entries| ==>
              && r[i].size == IntToDecimal(entries[i].1.size)
              && r[i].key == entries[i].1.key
              && r[i].downloadUrl == siteUiUrl + "/records/" + obj.id + "/files/" + entries[i].1.key
              && r[i].accessUrl == AccessUrl(obj.pids, toUrl)
    decreases |entries|
  {
    if entries == [] then []
    else
      var n := |entries| - 1;
      var file := entries[n].1;
      ExportEntries(obj, entries[..n], siteUiUrl, toUrl) +
        [ExportEntry(IntToDecimal(file.size), AccessUrl(obj.pids, toUrl), DownloadUrl(siteUiUrl, obj.id, file.key), file.key)]
  }

  /** `get_files` as a function of the record, the site UI URL and the URL conversion. */
  function Files(obj: RecordDump, siteUiUrl: string, toUrl: ToUrl): (r: Result<FilesValue, SchemaError>)
    // disabled or unset: the field is missing, whatever the entries
    ensures obj.files.enabled != Some(true) ==> r == Success(Missing)
    ensures obj.files.enabled == Some(true) && obj.files.entries.None? ==> r == Failure(EntriesAbsent)
    ensures obj.files.enabled == Some(true) && obj.files.entries.Some? ==>
              && r.Success?
              // an empty list is missing, never []
              && (r.value.Missing? <==> |obj.files.entries.value| == 0)
              && (r.value.FileList? ==> r.value.entries == ExportEntries(obj, obj.files.entries.value, siteUiUrl, toUrl))
    ensures r.Success? && r.value.FileList? ==> |r.value.entries| > 0
  {
    match obj.files.enabled
    case None => Success(Missing)
    case Some(enabled) =>
      if !enabled then Success(Missing)
      else
        match obj.files.entries
        case None => Failure(EntriesAbsent)
        case Some(entries) =>
          var list := ExportEntries(obj, entries, siteUiUrl, toUrl);
          if list == [] then Success(Missing) else Success(FileList(list))
  }

  /** `DcatSchema.get_files`: a loop that appends one export entry per file entry. */
  method GetFiles(obj: RecordDump, siteUiUrl: string, toUrl: ToUrl) returns (r: Result<FilesValue, SchemaError>)
    ensures r == Files(obj, siteUiUrl, toUrl)
  {
    var filesEnabled := match obj.files.enabled case Some(b) => b case None => false;
    if !filesEnabled {
      return Success(Missing);
    }
    if obj.files.entries.None? {
      return Failure(EntriesAbsent);
    }
    var filesEntries := obj.files.entries.value;
    var recordId := obj.id;
    var filesList: seq<ExportEntry> := [];
    for i := 0 to |filesEntries|
      invariant filesList == ExportEntries(obj, filesEntries[..i], siteUiUrl, toUrl)
    {
      var value := filesEntries[i].1;
      var url := siteUiUrl + "/records/" + recordId + "/files/" + value.key;
      var accessUrl: Option<string> := None;
      if "doi" in obj.pids {
        accessUrl := Some(toUrl(obj.pids["doi"].identifier, "doi", "https"));
      }
      assert filesEntries[..i + 1][..i] == filesEntries[..i];
      filesList := filesList + [ExportEntry(IntToDecimal(value.size), accessUrl, url, value.key)];
    }
    assert filesEntries[..|filesEntries|] == filesEntries;
    if filesList == [] {
      r := Success(Missing);
    } else {
      r := Success(FileList(filesList));
    }
  }

  /** Every exported file carries the same access URL. */
  lemma AccessUrlShared(obj: RecordDump, siteUiUrl: string, toUrl: ToUrl)
    requires Files(obj, siteUiUrl, toUrl).Success? && Files(obj, siteUiUrl, toUrl).value.FileList?
    ensures var list := Files(obj, siteUiUrl, toUrl).value.entries;
            forall i, j :: 0 <= i < j < |list| ==> list[i].accessUrl == list[j].accessUrl
  {
  }

  /** The dictionary keys play no part: only the entries' values are exported. */
  lemma ExportIgnoresDictionaryKeys(obj: RecordDump, a: seq<(string, FileEntry)>, b: seq<(string, FileEntry)>,
                                    siteUiUrl: string, toUrl: ToUrl)
    requires |a| == |b|
    requires forall i :: 0 <= i < |a| ==> a[i].1 == b[i].1
    ensures ExportEntries(obj, a, siteUiUrl, toUrl) == ExportEntries(obj, b, siteUiUrl, toUrl)
  {
  }

  /** A record with one enabled file `a.pdf` of 100 bytes and no DOI. */
  lemma SingleFileWithoutDoi(id: string, siteUiUrl: string, toUrl: ToUrl, pids: map<string, Pid>)
    requires "doi" !in pids
    ensures var obj := RecordDump(id, FilesField(Some(true), Some([("a.pdf", FileEntry("a.pdf", 100))])), pids);
            Files(obj, siteUiUrl, toUrl) ==
              Success(FileList([ExportEntry("100", None, siteUiUrl + "/records/" + id + "/files/a.pdf", "a.pdf")]))
  {
    var obj := RecordDump(id, FilesField(Some(true), Some([("a.pdf", FileEntry("a.pdf", 100))])), pids);
    var entries := [("a.pdf", FileEntry("a.pdf", 100))];
    assert NatToDecimal(10) == "1" + "0";
    assert NatToDecimal(100) == "100";
    assert entries[..0] == [];
    assert ExportEntries(obj, entries, siteUiUrl, toUrl) ==
             [ExportEntry("100", None, DownloadUrl(siteUiUrl, id, "a.pdf"), "a.pdf")];
    var prefix := siteUiUrl + "/records/" + id;
    assert "/files/" + "a.pdf" == "/files/a.pdf";
    assert DownloadUrl(siteUiUrl, id, "a.pdf") == prefix + ("/files/" + "a.pdf");
  }
}
