/**
 * Reading one line of imported accounts (pkg/mailer/importer.go) and telling a mail provider
 * from the address (pkg/mailer/provider.go).
 */
module Importer {
  import opened Common
  import opened Text
  import opened Fields

  // ---------- providers ----------

  datatype AccountType = Outlook | Imap

  datatype Provider = Provider(code: string, host: string, port: int, kind: AccountType)

  const CUSTOM := "custom"
  const DEFAULT_IMAP_PORT := 993
  const IMAP_SERVER_NEW := "outlook.live.com"
  const IMAP_SERVER_GMAIL := "imap.gmail.com"
  const DEFAULT_CLIENT_ID := "9e5f94bc-e8a4-4e73-b8be-63364c29d753"

  const CUSTOM_PROVIDER := Provider(CUSTOM, "", DEFAULT_IMAP_PORT, Imap)
  const OUTLOOK := Provider("outlook", IMAP_SERVER_NEW, DEFAULT_IMAP_PORT, Outlook)
  const GMAIL := Provider("gmail", IMAP_SERVER_GMAIL, DEFAULT_IMAP_PORT, Imap)
  const QQ := Provider("qq", "imap.qq.com", DEFAULT_IMAP_PORT, Imap)
  const NETEASE_163 := Provider("163", "imap.163.com", DEFAULT_IMAP_PORT, Imap)
  const NETEASE_126 := Provider("126", "imap.126.com", DEFAULT_IMAP_PORT, Imap)
  const YAHOO := Provider("yahoo", "imap.mail.yahoo.com", DEFAULT_IMAP_PORT, Imap)
  const MAIL_2925 := Provider("2925", "imap.2925.com", DEFAULT_IMAP_PORT, Imap)

  const DOMAINS: map<string, Provider> :=
    map["outlook.com" := OUTLOOK, "hotmail.com" := OUTLOOK, "live.com" := OUTLOOK, "live.cn" := OUTLOOK,
        "gmail.com" := GMAIL, "googlemail.com" := GMAIL,
        "qq.com" := QQ, "foxmail.com" := QQ,
        "163.com" := NETEASE_163, "126.com" := NETEASE_126,
        "yahoo.com" := YAHOO, "yahoo.co.jp" := YAHOO, "yahoo.co.uk" := YAHOO,
        "2925.com" := MAIL_2925]

  function ProviderForDomain(domain: string): Provider {
    if domain in DOMAINS then DOMAINS[domain] else CUSTOM_PROVIDER
  }

  function ProviderForEmail(email: string): Provider {
    var at := LastIndex(email, '@');
    if at < 0 then CUSTOM_PROVIDER else ProviderForDomain(Lower(Trim(email[at + 1..])))
  }

  // ---------- shapes ----------

  predicate IsHex(c: char) {
    '0' <= c <= '9' || 'a' <= c <= 'f' || 'A' <= c <= 'F'
  }

  /** The 8-4-4-4-12 shape of a client id. */
  predicate IsProbableClientID(s: string) {
    && |s| == 36
    && forall i :: 0 <= i < 36 ==> if i == 8 || i == 13 || i == 18 || i == 23 then s[i] == '-' else IsHex(s[i])
  }

  predicate HostChar(c: char) {
    c == '.' || c == '-' || '0' <= c <= '9' || 'a' <= c <= 'z' || 'A' <= c <= 'Z'
  }

  predicate LooksLikeHost(s: string) {
    && s != ""
    && !(Has(s, '@') || Has(s, ' ') || Has(s, '\t'))
    && Has(s, '.')
    && forall i :: 0 <= i < |s| ==> HostChar(s[i])
  }

  predicate PortInRange(v: int) {
    0 < v <= 65535
  }

  predicate IsPort(raw: string) {
    var port := Atoi(Trim(raw));
    port.Some? && PortInRange(port.value)
  }

  // ---------- parsing ----------

  datatype Account = Account(
    email: string, password: string, clientID: string, refreshToken: string,
    host: string, port: int, provider: string, kind: AccountType)

  datatype Options = Options(format: string, clientIDFirst: bool, host: string, port: int)

  datatype Problem =
    | TooFewFields | NotAnEmail | UnknownFormat | NoPassword | UnknownProvider
    | BadPort | NoHost | NoToken | NothingToExport | ContainsSeparator

  datatype Format = IMAP | CustomIMAP | OutlookOAuth

  function DetectFormat(parts: seq<string>): Format {
    if |parts| < 4 then IMAP
    else
      var third := Trim(parts[2]);
      if !IsProbableClientID(third) && LooksLikeHost(third) && IsPort(parts[3]) then CustomIMAP else OutlookOAuth
  }

  function ChosenFormat(name: string, parts: seq<string>): Option<Format> {
    if name == "" || name == "auto" then Some(DetectFormat(parts))
    else if name == "imap" then Some(IMAP)
    else if name == "custom_imap" then Some(CustomIMAP)
    else if name == "outlook_oauth" then Some(OutlookOAuth)
    else None
  }

  /** In the next three `p` is the provider told from the email. */
  function ParseIMAP(email: string, p: Provider, parts: seq<string>): Result<Account, Problem>
    requires |parts| >= 2
  {
    var password := Trim(parts[1]);
    if password == "" then Err(NoPassword)
    else if p.code == CUSTOM then Err(UnknownProvider)
    else Ok(Account(email, password, "", "", p.host, p.port, p.code, p.kind))
  }

  function ParseCustomIMAP(email: string, parts: seq<string>, opts: Options): Result<Account, Problem>
    requires |parts| >= 2
  {
    var password := Trim(parts[1]);
    if password == "" then Err(NoPassword)
    else
      var host := if |parts| >= 3 && Trim(parts[2]) != "" then Trim(parts[2]) else opts.host;
      var given := |parts| >= 4 && Trim(parts[3]) != "";
      var v := if given then Atoi(Trim(parts[3])) else Some(opts.port);
      if given && (v.None? || !PortInRange(v.value)) then Err(BadPort)
      else if host == "" then Err(NoHost)
      else
        var port := if v.value == 0 then DEFAULT_IMAP_PORT else v.value;
        Ok(Account(email, password, "", "", host, port, CUSTOM, Imap))
  }

  /** Which of two strings is the client id and which the refresh token. */
  function TellApart(a: string, b: string, clientIDFirst: bool): (string, string) {
    if IsProbableClientID(a) && !IsProbableClientID(b) then (a, b)
    else if IsProbableClientID(b) && !IsProbableClientID(a) then (b, a)
    else if clientIDFirst then (a, b)
    else (b, a)
  }

  function ParseOutlookOAuth(email: string, p: Provider, parts: seq<string>, opts: Options): Result<Account, Problem>
    requires |parts| >= 2
  {
    if |parts| < 4 then Err(TooFewFields)
    else
      var password := Trim(parts[1]);
      var (id, token) := TellApart(Trim(parts[2]), Trim(parts[3]), opts.clientIDFirst);
      if token == "" then Err(NoToken)
      else
        var clientID := if id == "" && p.code == "outlook" then DEFAULT_CLIENT_ID else id;
        var provider := if p.code == CUSTOM then "outlook" else p.code;
        if p.code == "gmail"
        then Ok(Account(email, password, clientID, token, IMAP_SERVER_GMAIL, DEFAULT_IMAP_PORT, provider, Imap))
        else Ok(Account(email, password, clientID, token, IMAP_SERVER_NEW, DEFAULT_IMAP_PORT, provider, Outlook))
  }

  function ParseAs(email: string, p: Provider, parts: seq<string>, opts: Options): Result<Account, Problem>
    requires |parts| >= 2
  {
    match ChosenFormat(opts.format, parts)
    case None => Err(UnknownFormat)
    case Some(IMAP) => ParseIMAP(email, p, parts)
    case Some(CustomIMAP) => ParseCustomIMAP(email, parts, opts)
    case Some(OutlookOAuth) => ParseOutlookOAuth(email, p, parts, opts)
  }

  function ParseParts(parts: seq<string>, opts: Options): Result<Account, Problem> {
    if |parts| < 2 then Err(TooFewFields)
    else
      var email := Lower(Trim(parts[0]));
      if !Has(email, '@') then Err(NotAnEmail) else ParseAs(email, ProviderForEmail(email), parts, opts)
  }

  function ParseLine(line: string, opts: Options): Result<Account, Problem> {
    ParseParts(Parts(line), opts)
  }
}
