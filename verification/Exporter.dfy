/** Writing one account back as a line of import text (pkg/mailer/exporter.go). */
module Exporter {
  import opened Common
  import opened Text
  import opened Fields
  import opened Importer

  /** The client id a line carries. */
  function SentClientID(a: Account): string {
    if a.clientID == "" && a.provider == "outlook" then DEFAULT_CLIENT_ID else a.clientID
  }

  function SentPort(a: Account): int {
    if a.port == 0 then DEFAULT_IMAP_PORT else a.port
  }

  /** Here `p` is the provider told from the email. */
  function ExportAs(a: Account, email: string, p: Provider): Result<seq<string>, Problem> {
    if a.refreshToken != "" then Ok([email, a.password, SentClientID(a), a.refreshToken])
    else if a.password == "" then Err(NothingToExport)
    else if p.code != CUSTOM && p.host == a.host && p.port == a.port then Ok([email, a.password])
    else if a.host == "" then Err(NoHost)
    else Ok([email, a.password, a.host, Itoa(SentPort(a))])
  }

  function ExportFields(a: Account): Result<seq<string>, Problem> {
    var email := Trim(a.email);
    if !Has(email, '@') then Err(NotAnEmail) else ExportAs(a, email, ProviderForEmail(email))
  }

  ghost function FormatLine(a: Account): Result<string, Problem> {
    var fields :- ExportFields(a);
    if exists i :: 0 <= i < |fields| && HasSep(fields[i]) then Err(ContainsSeparator) else Ok(Join(fields))
  }
}
