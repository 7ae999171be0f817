/**
 * What an imported line becomes, in plain terms: which lines are accepted, which of the three formats they
 * are read in, and where the account connects.
 */
module ParsedLines {
  import opened Common
  import opened Text
  import opened Fields
  import opened Importer

  // ---------- the words and shapes ----------

  function Domain(email: string): string {
    var at := LastIndex(email, '@');
    if at < 0 then "" else Lower(Trim(email[at + 1..]))
  }

  /** Who serves a domain, and where. */
  function ServerOf(domain: string): Provider {
    if domain == "outlook.com" || domain == "hotmail.com" || domain == "live.com" || domain == "live.cn" then
      Provider("outlook", "outlook.live.com", 993, Outlook)
    else if domain == "gmail.com" || domain == "googlemail.com" then
      Provider("gmail", "imap.gmail.com", 993, Imap)
    else if domain == "qq.com" || domain == "foxmail.com" then
      Provider("qq", "imap.qq.com", 993, Imap)
    else if domain == "163.com" then
      Provider("163", "imap.163.com", 993, Imap)
    else if domain == "126.com" then
      Provider("126", "imap.126.com", 993, Imap)
    else if domain == "yahoo.com" || domain == "yahoo.co.jp" || domain == "yahoo.co.uk" then
      Provider("yahoo", "imap.mail.yahoo.com", 993, Imap)
    else if domain == "2925.com" then
      Provider("2925", "imap.2925.com", 993, Imap)
    else
      Provider("custom", "", 993, Imap)
  }

  /** Letters, digits, dots and dashes, with a dot among them. */
  predicate HostShaped(s: string) {
    && (exists i :: 0 <= i < |s| && s[i] == '.')
    && forall i :: 0 <= i < |s| ==>
         'a' <= s[i] <= 'z' || 'A' <= s[i] <= 'Z' || '0' <= s[i] <= '9' || s[i] == '.' || s[i] == '-'
  }

  predicate PortShaped(s: string) {
    Atoi(s).Some? && 1 <= Atoi(s).value <= 65535
  }

  /** Thirty-two hexadecimal digits in groups of 8, 4, 4, 4 and 12. */
  predicate UuidShaped(s: string) {
    && |s| == 36 && s[8] == '-' && s[13] == '-' && s[18] == '-' && s[23] == '-'
    && forall i :: 0 <= i < 36 && i != 8 && i != 13 && i != 18 && i != 23 ==>
         '0' <= s[i] <= '9' || 'a' <= s[i] <= 'f' || 'A' <= s[i] <= 'F'
  }

  predicate Automatic(opts: Options) {
    opts.format == "" || opts.format == "auto"
  }

  predicate InPlainFormat(parts: seq<string>, opts: Options) {
    opts.format == "imap" || (Automatic(opts) && |parts| < 4)
  }

  predicate InCustomFormat(parts: seq<string>, opts: Options) {
    opts.format == "custom_imap" || (Automatic(opts) && |parts| >= 4 && HostShaped(parts[2]) && PortShaped(parts[3]))
  }

  predicate InOAuthFormat(parts: seq<string>, opts: Options) {
    opts.format == "outlook_oauth" || (Automatic(opts) && |parts| >= 4 && !(HostShaped(parts[2]) && PortShaped(parts[3])))
  }

  /** The client id is the one of the two that has its shape; if that does not tell, the option does. */
  predicate IdComesFirst(parts: seq<string>, opts: Options)
    requires |parts| >= 4
  {
    if UuidShaped(parts[2]) == UuidShaped(parts[3]) then opts.clientIDFirst else UuidShaped(parts[2])
  }

  predicate PortGiven(parts: seq<string>) {
    |parts| >= 4 && parts[3] != ""
  }

  // ---------- they are what the parser looks at ----------

  lemma ShapesAgree(s: string)
    ensures LooksLikeHost(s) <==> HostShaped(s)
    ensures IsProbableClientID(s) <==> UuidShaped(s)
    ensures IsProbableClientID(s) ==> !HostShaped(s)
  {
    if IsProbableClientID(s) {
      forall i | 0 <= i < |s| ensures s[i] != '.' {
        assert s[i] == '-' || IsHex(s[i]);
      }
    }
    if UuidShaped(s) {
      assert forall i :: 0 <= i < 36 ==> if i == 8 || i == 13 || i == 18 || i == 23 then s[i] == '-' else IsHex(s[i]);
    }
  }

  lemma MicrosoftsDomains(d: string)
    requires d == "outlook.com" || d == "hotmail.com" || d == "live.com" || d == "live.cn"
    ensures ProviderForDomain(d) == Provider("outlook", "outlook.live.com", 993, Outlook)
  {
  }

  lemma GooglesDomains(d: string)
    requires d == "gmail.com" || d == "googlemail.com"
    ensures ProviderForDomain(d) == Provider("gmail", "imap.gmail.com", 993, Imap)
  {
  }

  lemma TencentsDomains(d: string)
    requires d == "qq.com" || d == "foxmail.com"
    ensures ProviderForDomain(d) == Provider("qq", "imap.qq.com", 993, Imap)
  {
  }

  lemma YahoosDomains(d: string)
    requires d == "yahoo.com" || d == "yahoo.co.jp" || d == "yahoo.co.uk"
    ensures ProviderForDomain(d) == Provider("yahoo", "imap.mail.yahoo.com", 993, Imap)
  {
  }

  lemma SingleDomains()
    ensures ProviderForDomain("163.com") == Provider("163", "imap.163.com", 993, Imap)
    ensures ProviderForDomain("126.com") == Provider("126", "imap.126.com", 993, Imap)
    ensures ProviderForDomain("2925.com") == Provider("2925", "imap.2925.com", 993, Imap)
  {
  }

  lemma DomainIsServed(d: string)
    ensures ProviderForDomain(d) == ServerOf(d)
  {
    if d == "outlook.com" || d == "hotmail.com" || d == "live.com" || d == "live.cn" {
      MicrosoftsDomains(d);
    } else if d == "gmail.com" || d == "googlemail.com" {
      GooglesDomains(d);
    } else if d == "qq.com" || d == "foxmail.com" {
      TencentsDomains(d);
    } else if d == "yahoo.com" || d == "yahoo.co.jp" || d == "yahoo.co.uk" {
      YahoosDomains(d);
    } else {
      SingleDomains();
    }
  }

  lemma EmailIsServed(email: string)
    ensures ProviderForEmail(email) == ServerOf(Domain(email))
  {
    DomainIsServed(Domain(email));
    if LastIndex(email, '@') < 0 {
      assert Domain(email) == "";
    }
  }

  ghost predicate Fixed(parts: seq<string>) {
    forall i :: 0 <= i < |parts| ==> Trim(parts[i]) == parts[i]
  }

  lemma PartsAreFixed(line: string)
    ensures Fixed(Parts(line))
  {
    PartsAreTidy(line);
    forall i | 0 <= i < |Parts(line)| ensures Trim(Parts(line)[i]) == Parts(line)[i] {
      TrimFixed(Parts(line)[i]);
    }
  }

  lemma FormatIsChosen(parts: seq<string>, opts: Options)
    requires Fixed(parts)
    ensures ChosenFormat(opts.format, parts) == Some(IMAP) <==> InPlainFormat(parts, opts)
    ensures ChosenFormat(opts.format, parts) == Some(CustomIMAP) <==> InCustomFormat(parts, opts)
    ensures ChosenFormat(opts.format, parts) == Some(OutlookOAuth) <==> InOAuthFormat(parts, opts)
  {
    if |parts| >= 4 {
      ShapesAgree(parts[2]);
      assert Trim(parts[2]) == parts[2] && Trim(parts[3]) == parts[3];
    }
  }

  // ---------- one format at a time ----------

  /** A password line: the provider is told from the domain, and says where to connect. */
  ghost predicate ReadsPlain(email: string, parts: seq<string>, r: Result<Account, Problem>)
    requires |parts| >= 2
  {
    var server := ServerOf(Domain(email));
    if parts[1] == "" then r == Err(NoPassword)
    else if server.code == "custom" then r == Err(UnknownProvider)
    else r == Ok(Account(email, parts[1], "", "", server.host, server.port, server.code, server.kind))
  }

  /** A line with its own server: the fields on the line come before the defaults of the import. */
  ghost predicate ReadsCustom(email: string, parts: seq<string>, opts: Options, r: Result<Account, Problem>)
    requires |parts| >= 2
  {
    var host := if |parts| >= 3 && parts[2] != "" then parts[2] else opts.host;
    if parts[1] == "" then r == Err(NoPassword)
    else if PortGiven(parts) && !PortShaped(parts[3]) then r == Err(BadPort)
    else if host == "" then r == Err(NoHost)
    else
      && r.Ok?
      && r.value == Account(email, parts[1], "", "", host, r.value.port, "custom", Imap)
      && if PortGiven(parts) then Some(r.value.port) == Atoi(parts[3])
         else r.value.port == if opts.port == 0 then 993 else opts.port
  }

  /** A line with a token: Google's addresses connect to Google by IMAP, all others to Outlook. */
  ghost predicate ReadsOAuth(email: string, parts: seq<string>, opts: Options, r: Result<Account, Problem>)
    requires |parts| >= 2
  {
    var name := ServerOf(Domain(email)).code;
    if |parts| < 4 then r == Err(TooFewFields)
    else
      var id := if IdComesFirst(parts, opts) then parts[2] else parts[3];
      var token := if IdComesFirst(parts, opts) then parts[3] else parts[2];
      if token == "" then r == Err(NoToken)
      else
        var sent := if id == "" && name == "outlook" then "9e5f94bc-e8a4-4e73-b8be-63364c29d753" else id;
        r == Ok(if name == "gmail"
                then Account(email, parts[1], sent, token, "imap.gmail.com", 993, "gmail", Imap)
                else Account(email, parts[1], sent, token, "outlook.live.com", 993, if name == "custom" then "outlook" else name, Outlook))
  }

  lemma PlainIsRead(email: string, parts: seq<string>)
    requires |parts| >= 2 && Fixed(parts)
    ensures ReadsPlain(email, parts, ParseIMAP(email, ProviderForEmail(email), parts))
  {
    EmailIsServed(email);
  }

  lemma CustomIsRead(email: string, parts: seq<string>, opts: Options)
    requires |parts| >= 2 && Fixed(parts)
    ensures ReadsCustom(email, parts, opts, ParseCustomIMAP(email, parts, opts))
  {
    assert |parts| >= 3 ==> Trim(parts[2]) == parts[2];
    assert |parts| >= 4 ==> Trim(parts[3]) == parts[3];
  }

  lemma OAuthIsRead(email: string, parts: seq<string>, opts: Options)
    requires |parts| >= 2 && Fixed(parts)
    ensures ReadsOAuth(email, parts, opts, ParseOutlookOAuth(email, ProviderForEmail(email), parts, opts))
  {
    EmailIsServed(email);
    if |parts| >= 4 {
      ShapesAgree(parts[2]);
      ShapesAgree(parts[3]);
      assert Trim(parts[2]) == parts[2] && Trim(parts[3]) == parts[3];
    }
  }

  // ---------- the whole line ----------

  lemma PartsAreRead(email: string, parts: seq<string>, opts: Options)
    requires |parts| >= 2 && Fixed(parts)
    ensures var r := ParseAs(email, ProviderForEmail(email), parts, opts);
            if InPlainFormat(parts, opts) then ReadsPlain(email, parts, r)
            else if InCustomFormat(parts, opts) then ReadsCustom(email, parts, opts, r)
            else if InOAuthFormat(parts, opts) then ReadsOAuth(email, parts, opts, r)
            else r == Err(UnknownFormat)
  {
    FormatIsChosen(parts, opts);
    PlainIsRead(email, parts);
    CustomIsRead(email, parts, opts);
    OAuthIsRead(email, parts, opts);
  }

  /**
   * For every line and every option: what it takes to be accepted, in which format it is read, and the
   * account it becomes.
   */
  lemma LineIsRead(line: string, opts: Options)
    ensures var parts, r := Parts(line), ParseLine(line, opts);
            if |parts| < 2 then r == Err(TooFewFields)
            else if '@' !in parts[0] then r == Err(NotAnEmail)
            else
              var email := Lower(parts[0]);
              if InPlainFormat(parts, opts) then ReadsPlain(email, parts, r)
              else if InCustomFormat(parts, opts) then ReadsCustom(email, parts, opts, r)
              else if InOAuthFormat(parts, opts) then ReadsOAuth(email, parts, opts, r)
              else r == Err(UnknownFormat)
  {
    var parts := Parts(line);
    PartsAreFixed(line);
    if |parts| >= 2 {
      assert Trim(parts[0]) == parts[0];
      AtSignStays(parts[0]);
      PartsAreRead(Lower(parts[0]), parts, opts);
    }
  }

  lemma AtSignStays(s: string)
    ensures Has(Lower(s), '@') <==> '@' in s
  {
    if Has(Lower(s), '@') {
      var i :| 0 <= i < |s| && Lower(s)[i] == '@';
      assert s[i] == '@';
    }
    if '@' in s {
      var i :| 0 <= i < |s| && s[i] == '@';
      assert Lower(s)[i] == '@';
    }
  }

  lemma OnlyGoogleIsGmail(d: string)
    ensures ServerOf(d).code == "gmail" <==> d == "gmail.com" || d == "googlemail.com"
  {
    assert "outlook"[0] == 'o' && "qq"[0] == 'q' && "163"[0] == '1' && "126"[0] == '1' && "yahoo"[0] == 'y'
        && "2925"[0] == '2' && "custom"[0] == 'c' && "gmail"[0] == 'g';
  }

  /** An account with a token connects to Google exactly when its address is there, otherwise to Outlook. */
  lemma TokensConnect(line: string, opts: Options)
    requires ParseLine(line, opts).Ok? && ParseLine(line, opts).value.refreshToken != ""
    ensures var b := ParseLine(line, opts).value;
            if Domain(b.email) == "gmail.com" || Domain(b.email) == "googlemail.com"
            then b.host == "imap.gmail.com" && b.port == 993 && b.kind == Imap && b.provider == "gmail"
            else b.host == "outlook.live.com" && b.port == 993 && b.kind == Outlook
                 && (ServerOf(Domain(b.email)).code == "custom" ==> b.provider == "outlook")
  {
    LineIsRead(line, opts);
    OnlyGoogleIsGmail(Domain(ParseLine(line, opts).value.email));
  }
}
