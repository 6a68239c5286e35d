/**
 * Where an accepted sheet is stored: a folder named after the month that
 * follows the upload date, and a file named after the sheet's site.
 */
module Destination {
  import opened Wrappers
  import opened Sequences

  /** The date the script reads from the clock; only its year and month are used. */
  datatype Date = Date(year: int, month: int, day: int) {
    /**
     * Year, month and day lie in the ranges a Python `datetime` allows. The
     * day is not checked against the month's length; it plays no part.
     */
    predicate Valid() {
      1 <= year <= 9999 && 1 <= month <= 12 && 1 <= day <= 31
    }
  }

  /** English month names indexed 1 to 12; index 0 holds the empty name, as in Python's calendar. */
  const MonthNames: seq<string> := [
    "", "January", "February", "March", "April", "May", "June",
    "July", "August", "September", "October", "November", "December"]

  /** The number of the calendar month after `month`, wrapping December to January. */
  function NextMonth(month: int): (next: int)
    ensures 1 <= next <= 12
    ensures 1 <= month <= 11 ==> next == month + 1
    ensures month == 12 ==> next == 1
    ensures (next - (month + 1)) % 12 == 0
  {
    month % 12 + 1
  }

  // ---------------------------------------------------------------------
  // Decimal text of the year

  predicate IsDigits(s: string) {
    forall i :: 0 <= i < |s| ==> '0' <= s[i] <= '9'
  }

  function DigitChar(d: int): (c: char)
    requires 0 <= d < 10
    ensures '0' <= c <= '9' && c as int - '0' as int == d
  {
    ('0' as int + d) as char
  }

  /** The decimal text Python prints for a non-negative integer: digits, no leading zero. */
  function DecimalText(n: nat): (s: string)
    ensures |s| >= 1 && IsDigits(s)
    ensures s[0] == '0' ==> s == "0"
    ensures n == 0 <==> s == "0"
  {
    if n < 10 then [DigitChar(n)] else DecimalText(n / 10) + [DigitChar(n % 10)]
  }

  /** The number a string of digits denotes. */
  function DigitsValue(s: string): nat
    requires IsDigits(s)
  {
    if s == [] then 0 else 10 * DigitsValue(s[..|s| - 1]) + (s[|s| - 1] as int - '0' as int)
  }

  /** Reads back a decimal numeral in the form DecimalText writes. */
  function ParseDecimal(s: string): (r: Option<nat>)
    ensures r.Some? <==> |s| >= 1 && IsDigits(s) && (s[0] == '0' ==> |s| == 1)
  {
    if |s| >= 1 && IsDigits(s) && (s[0] != '0' || |s| == 1) then Some(DigitsValue(s)) else None
  }

  /** The year text reads back as the year: distinct years print distinctly. */
  lemma {:induction false} DecimalTextRoundTrip(n: nat)
    ensures ParseDecimal(DecimalText(n)) == Some(n)
  {
    DigitsValueOfDecimalText(n);
  }

  lemma {:induction false} DigitsValueOfDecimalText(n: nat)
    ensures DigitsValue(DecimalText(n)) == n
  {
    var s := DecimalText(n);
    if n >= 10 {
      DigitsValueOfDecimalText(n / 10);
      assert s[..|s| - 1] == DecimalText(n / 10);
    }
  }

  // ---------------------------------------------------------------------
  // Month names

  predicate IsLetters(s: string) {
    forall j :: 0 <= j < |s| ==> 'A' <= s[j] <= 'Z' || 'a' <= s[j] <= 'z'
  }

  /** Every month name is a word of letters, and no two months share a name. */
  lemma MonthNamesAreDistinctWords()
    ensures forall m :: 0 <= m < |MonthNames| ==> IsLetters(MonthNames[m])
    ensures forall m, n :: 0 <= m < n < |MonthNames| ==> MonthNames[m] != MonthNames[n]
  {
  }

  /** The number of the month called `name`, searching months `from` to 12. */
  function MonthNumberFrom(name: string, from: nat): (r: Option<int>)
    requires 1 <= from
    ensures r.Some? ==> from <= r.value <= 12 && MonthNames[r.value] == name
    ensures r.None? ==> forall m :: from <= m <= 12 ==> MonthNames[m] != name
    decreases 13 - from
  {
    if from > 12 then None
    else if MonthNames[from] == name then Some(from)
    else MonthNumberFrom(name, from + 1)
  }

  /** The number of the month called `name`, if it is one. */
  function MonthNumber(name: string): (r: Option<int>)
  {
    MonthNumberFrom(name, 1)
  }

  /** Looking a month's name up gives back that month. */
  lemma MonthNumberOfName(m: int)
    requires 1 <= m <= 12
    ensures MonthNumber(MonthNames[m]) == Some(m)
  {
    MonthNamesAreDistinctWords();
  }

  // ---------------------------------------------------------------------
  // Folder name

  /**
   * `"<next month's name> - <year>"`: the folder an upload on `today` goes
   * to. The name reads back as exactly that month and year, and it is a
   * single path segment.
   */
  function FolderName(today: Date): (name: string)
    requires today.Valid()
    ensures ParseFolderName(name) == Some((NextMonth(today.month), today.year))
    ensures '/' !in name
  {
    MonthFolderNameParses(NextMonth(today.month), today.year);
    MonthNames[NextMonth(today.month)] + " - " + DecimalText(today.year)
  }

  /** Reads a folder name back into the month number and year it names. */
  function ParseFolderName(name: string): Option<(int, nat)>
  {
    var k := IndexOf(name, ' ');
    if k + 3 <= |name| && name[k..k + 3] == " - " then
      match (MonthNumber(name[..k]), ParseDecimal(name[k + 3..]))
      case (Some(m), Some(y)) => Some((m, y))
      case _ => None
    else None
  }

  /**
   * A month's name, `" - "` and a year's digits read back as that month and
   * that year, and hold no slash.
   */
  lemma MonthFolderNameParses(m: int, year: nat)
    requires 1 <= m <= 12
    ensures ParseFolderName(MonthNames[m] + " - " + DecimalText(year)) == Some((m, year))
    ensures '/' !in MonthNames[m] + " - " + DecimalText(year)
  {
    var month, digits := MonthNames[m], DecimalText(year);
    var name := month + " - " + digits;
    MonthNamesAreDistinctWords();
    assert IsLetters(month);
    var k := IndexOf(name, ' ');
    assert name[|month|] == ' ';
    assert k == |month|;
    assert name[..k] == month;
    assert name[k..k + 3] == " - ";
    assert name[k + 3..] == digits;
    MonthNumberOfName(m);
    DecimalTextRoundTrip(year);
    forall i | 0 <= i < |name|
      ensures name[i] != '/'
    {
      if i >= |month| + 3 {
        assert name[i] == digits[i - |month| - 3];
      }
    }
  }

  /** Two upload dates share a folder exactly when they have the same next month and the same year. */
  lemma FolderNameDistinguishesMonths(d1: Date, d2: Date)
    requires d1.Valid() && d2.Valid()
    ensures FolderName(d1) == FolderName(d2) <==> NextMonth(d1.month) == NextMonth(d2.month) && d1.year == d2.year
  {
  }

  /** A December upload is filed under January of the same year. */
  lemma DecemberFolderKeepsYear(today: Date)
    requires today.Valid() && today.month == 12
    ensures ParseFolderName(FolderName(today)) == Some((1, today.year))
    ensures FolderName(today) == "January - " + DecimalText(today.year)
  {
  }

  /** The year 2024 is written with its four digits. */
  lemma YearText2024()
    ensures DecimalText(2024) == "2024"
  {
    assert DecimalText(2) == "2";
    assert DecimalText(20) == "20";
    assert DecimalText(202) == "202";
  }

  /** A mid-year upload names the following month of the same year. */
  lemma MarchUploadGoesToApril()
    ensures FolderName(Date(2024, 3, 15)) == "April - 2024"
  {
    YearText2024();
    assert NextMonth(3) == 4 && MonthNames[4] == "April";
  }

  /** A December upload names January of the same year, not of the next. */
  lemma DecemberUploadGoesToJanuarySameYear()
    ensures FolderName(Date(2024, 12, 10)) == "January - 2024"
  {
    YearText2024();
    assert NextMonth(12) == 1 && MonthNames[1] == "January";
  }

  // ---------------------------------------------------------------------
  // Paths in the storage

  /** The storage path of the month folder: the folder name directly under the root. */
  function FolderPath(folderName: string): (path: string)
    ensures |path| == |folderName| + 1 && path[0] == '/' && path[1..] == folderName
  {
    "/" + folderName
  }

  /** The spreadsheet's file name: the site followed by the Excel extension, which strips back off. */
  function FileName(site: string): (name: string)
    ensures SiteOfFileName(name) == Some(site)
  {
    var name := site + ".xlsx";
    assert name[|name| - 5..] == ".xlsx";
    assert name[..|name| - 5] == site;
    name
  }

  /** The storage path of the file: the folder's path, a slash, then the file name. */
  function FilePath(folderPath: string, fileName: string): (path: string)
    ensures |folderPath| < |path| && path[|folderPath|] == '/'
    ensures path[..|folderPath|] == folderPath && path[|folderPath| + 1..] == fileName
  {
    folderPath + "/" + fileName
  }

  /** Splits `"/<folder>/<file>"` at its second slash into folder name and file name. */
  function SplitFilePath(path: string): Option<(string, string)>
  {
    if |path| >= 1 && path[0] == '/' then
      var rest := path[1..];
      var k := IndexOf(rest, '/');
      if k < |rest| then Some((rest[..k], rest[k + 1..])) else None
    else None
  }

  /** The site a file is named after: its name less the `.xlsx` extension. */
  function SiteOfFileName(fileName: string): Option<string>
  {
    var n := |fileName|;
    if n >= 5 && fileName[n - 5..] == ".xlsx" then Some(fileName[..n - 5]) else None
  }

  /** A file path built from a one-segment folder name splits back into that folder and file. */
  lemma FilePathSplits(folderName: string, fileName: string)
    requires '/' !in folderName
    ensures SplitFilePath(FilePath(FolderPath(folderName), fileName)) == Some((folderName, fileName))
  {
    var rest := FilePath(FolderPath(folderName), fileName)[1..];
    assert rest == folderName + "/" + fileName;
    assert rest[|folderName|] == '/';
    var k := IndexOf(rest, '/');
    assert k == |folderName| by {
      assert forall i :: 0 <= i < |folderName| ==> rest[i] == folderName[i];
    }
    assert rest[..k] == folderName;
    assert rest[k + 1..] == fileName;
  }

  /** Where one accepted sheet goes: the month folder, its path, the file name and the file path. */
  datatype Target = Target(folderName: string, folderPath: string, fileName: string, filePath: string) {
    /** The file path names an entry inside the (non-root) folder path. */
    predicate FileInFolder() {
      && 0 < |folderPath| < |filePath|
      && filePath[|folderPath|] == '/'
      && filePath[..|folderPath|] == folderPath
    }
  }

  /**
   * The destination of a sheet uploaded on `today` whose first row names
   * `site`: the folder names the next month and this year, the file lies
   * inside that folder, and its name gives back the site.
   */
  function Resolve(today: Date, site: string): (t: Target)
    requires today.Valid()
    ensures ParseFolderName(t.folderName) == Some((NextMonth(today.month), today.year))
    ensures t.folderPath == FolderPath(t.folderName)
    ensures SplitFilePath(t.filePath) == Some((t.folderName, t.fileName))
    ensures t.FileInFolder()
    ensures SiteOfFileName(t.fileName) == Some(site)
  {
    FilePathSplits(FolderName(today), FileName(site));
    var folderName := FolderName(today);
    var folderPath := FolderPath(folderName);
    var fileName := FileName(site);
    Target(folderName, folderPath, fileName, FilePath(folderPath, fileName))
  }
}
