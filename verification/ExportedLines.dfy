/** Which line an account becomes, in plain terms, and which accounts cannot be exported. */
module ExportedLines {
  import opened Common
  import opened Text
  import opened Fields
  import opened Importer
  import opened Exporter
  import opened ParsedLines

  /** With a token: four fields, an Outlook account without a client id getting the common one. */
  ghost predicate WritesToken(a: Account, r: Result<seq<string>, Problem>) {
    var id := if a.clientID == "" && a.provider == "outlook" then "9e5f94bc-e8a4-4e73-b8be-63364c29d753" else a.clientID;
    r == Ok([Trim(a.email), a.password, id, a.refreshToken])
  }

  /** With a password: two fields where the domain tells the server, otherwise server and port as well. */
  ghost predicate WritesPassword(a: Account, r: Result<seq<string>, Problem>) {
    var server := ServerOf(Domain(Trim(a.email)));
    if server.code != "custom" && server.host == a.host && server.port == a.port then r == Ok([Trim(a.email), a.password])
    else if a.host == "" then r == Err(NoHost)
    else r == Ok([Trim(a.email), a.password, a.host, Itoa(if a.port == 0 then 993 else a.port)])
  }

  /** For every account: what it is written as, or why it cannot be. */
  lemma AccountIsWritten(a: Account)
    ensures var r := ExportFields(a);
            if '@' !in Trim(a.email) then r == Err(NotAnEmail)
            else if a.refreshToken != "" then WritesToken(a, r)
            else if a.password == "" then r == Err(NothingToExport)
            else WritesPassword(a, r)
  {
    var email := Trim(a.email);
    EmailIsServed(email);
    assert Has(email, '@') <==> '@' in email;
  }

  ghost predicate HoldsFourDashes(s: string) {
    exists before: string, after: string :: s == before + "----" + after
  }

  lemma DashesSeparate(before: string, after: string)
    ensures HasSep(before + "----" + after)
  {
    assert SepAt(before + "----" + after, |before|);
  }

  lemma FourDashes(s: string)
    ensures HasSep(s) <==> HoldsFourDashes(s)
  {
    if HasSep(s) {
      var j :| SepAt(s, j);
      assert s == s[..j] + "----" + s[j + 4..];
    }
    forall before: string, after: string ensures HasSep(before + "----" + after) {
      DashesSeparate(before, after);
    }
  }

  /** The fields are joined by four dashes, unless one of them holds four dashes itself. */
  lemma FieldsAreJoined(a: Account)
    requires ExportFields(a).Ok?
    ensures var fields := ExportFields(a).value;
            if exists i :: 0 <= i < |fields| && HoldsFourDashes(fields[i])
            then FormatLine(a) == Err(ContainsSeparator)
            else FormatLine(a) == Ok(if |fields| == 2 then fields[0] + "----" + fields[1]
                                     else fields[0] + "----" + fields[1] + "----" + fields[2] + "----" + fields[3])
  {
    var fields := ExportFields(a).value;
    forall i | 0 <= i < |fields| ensures HasSep(fields[i]) <==> HoldsFourDashes(fields[i]) {
      FourDashes(fields[i]);
    }
    JoinedByDashes(fields);
  }

  lemma JoinedByDashes(fields: seq<string>)
    requires |fields| == 2 || |fields| == 4
    ensures |fields| == 2 ==> Join(fields) == fields[0] + "----" + fields[1]
    ensures |fields| == 4 ==> Join(fields) == fields[0] + "----" + fields[1] + "----" + fields[2] + "----" + fields[3]
  {
    assert fields[1..][0] == fields[1];
    if |fields| == 4 {
      assert fields[1..][1..] == fields[2..] && fields[2..][1..] == fields[3..];
      assert Join(fields[3..]) == fields[3];
      assert Join(fields[2..]) == fields[2] + "----" + fields[3];
      assert Join(fields[1..]) == fields[1] + "----" + (fields[2] + "----" + fields[3]);
    }
  }
}
