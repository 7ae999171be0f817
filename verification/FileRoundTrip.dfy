/**
 * Exporting a list of accounts as a text file (pkg/service/account_export.go) and reading the file
 * line by line as the import does.
 */
module FileRoundTrip {
  import opened Common
  import opened Text
  import opened Fields
  import opened Importer
  import opened Exporter
  import opened RoundTrip
  import opened ImportModel

  datatype Exported = Exported(account: Account, line: string)

  /** Accounts that cannot be written are left out of the file. */
  ghost function ExportList(accounts: seq<Account>): seq<Exported> {
    if accounts == [] then []
    else
      var line := FormatLine(accounts[0]);
      (if line.Ok? then [Exported(accounts[0], line.value)] else []) + ExportList(accounts[1..])
  }

  function FileText(file: seq<Exported>): string {
    if file == [] then "" else file[0].line + "\n" + FileText(file[1..])
  }

  ghost predicate OneLine(s: string) {
    forall i :: 0 <= i < |s| ==> s[i] != '\n'
  }

  lemma {:induction false} LinesOfPrefixed(line: string, rest: string)
    requires OneLine(line)
    ensures Lines(line + "\n" + rest) == [line] + Lines(rest)
  {
    var s := line + "\n" + rest;
    if line == "" {
      assert s[1..] == rest;
    } else {
      assert s[1..] == line[1..] + "\n" + rest;
      LinesOfPrefixed(line[1..], rest);
      assert [line[0]] + line[1..] == line;
    }
  }

  function LinesIn(file: seq<Exported>): (r: seq<string>)
    ensures |r| == |file|
  {
    seq(|file|, i requires 0 <= i < |file| => file[i].line)
  }

  /** The file splits into the exported lines and one empty line at the end. */
  lemma {:induction false} LinesOfFile(file: seq<Exported>)
    requires forall i :: 0 <= i < |file| ==> OneLine(file[i].line)
    ensures Lines(FileText(file)) == LinesIn(file) + [""]
  {
    if file == [] {
    } else {
      LinesOfPrefixed(file[0].line, FileText(file[1..]));
      LinesOfFile(file[1..]);
      assert LinesIn(file) == [file[0].line] + LinesIn(file[1..]);
    }
  }

  lemma NotBlank(s: string, i: nat)
    requires i < |s| && s[i] == '@'
    ensures Trim(s) != ""
  {
    var j, k := TrimCut(s);
  }

  lemma ExportedIsNotBlank(a: Account)
    requires FormatLine(a).Ok?
    ensures Trim(FormatLine(a).value) != ""
  {
    var fields := ExportFields(a).value;
    var i :| 0 <= i < |fields[0]| && fields[0][i] == '@';
    assert Join(fields)[i] == fields[0][i];
    NotBlank(Join(fields), i);
  }

  lemma {:induction false} ExportListShape(accounts: seq<Account>)
    ensures forall i :: 0 <= i < |ExportList(accounts)| ==>
              FormatLine(ExportList(accounts)[i].account) == Ok(ExportList(accounts)[i].line)
  {
    if accounts == [] {
    } else {
      ExportListShape(accounts[1..]);
    }
  }

  /**
   * The k-th exported account is on the k-th line of the file, and nothing else is in it: the import
   * counts as many lines as the export did, and each gives the account back exactly under the condition
   * for its own line.
   */
  lemma ExportedFileReadsBack(accounts: seq<Account>, opts: Options, k: nat)
    requires Auto(opts) && forall i :: 0 <= i < |ExportList(accounts)| ==> OneLine(ExportList(accounts)[i].line)
    requires k < |ExportList(accounts)|
    ensures var file := ExportList(accounts);
            var entries := ReadAll(Lines(FileText(file)), opts);
            && |entries| == |file| + 1 && entries[|file|].Blank? && entries[k].Line?
            && var a, fields := file[k].account, ExportFields(file[k].account);
               && fields.Ok?
               && (ComesBack(a, ProviderForEmail(Trim(a.email)), entries[k].parsed) <==>
                   Clean(fields.value) && NoClash(a, fields.value))
  {
    var file := ExportList(accounts);
    LinesOfFile(file);
    ExportListShape(accounts);
    var a := file[k].account;
    ExportedIsNotBlank(a);
    ImportUndoesExport(a, file[k].line, opts);
    assert Lines(FileText(file))[k] == file[k].line;
  }
}
