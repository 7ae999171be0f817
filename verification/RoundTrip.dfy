/** Exporting an account and importing the line again: when it gives the same credentials back. */
module RoundTrip {
  import opened Common
  import opened Text
  import opened Fields
  import opened Importer
  import opened Exporter

  // ---------- the address ----------

  lemma LastIndexLower(s: string)
    ensures LastIndex(Lower(s), '@') == LastIndex(s, '@')
    ensures Has(Lower(s), '@') <==> Has(s, '@')
  {
    var i, j := LastIndex(Lower(s), '@'), LastIndex(s, '@');
    assert i >= 0 ==> s[i] == '@';
    assert j >= 0 ==> Lower(s)[j] == '@';
  }

  lemma LowerTwice(s: string)
    ensures Lower(Lower(s)) == Lower(s)
  {
  }

  /** Lower-casing an address does not change the provider told from it. */
  lemma ProviderIgnoresCase(email: string)
    ensures ProviderForEmail(Lower(email)) == ProviderForEmail(email)
  {
    LastIndexLower(email);
    var at := LastIndex(email, '@');
    if at >= 0 {
      var domain := email[at + 1..];
      assert Lower(email)[at + 1..] == Lower(domain);
      LowerTrim(domain);
      LowerTwice(Trim(domain));
    }
  }

  // ---------- what should come back ----------

  /**
   * The same credentials: email in lower case, an absent Outlook client id and an absent port as the
   * defaults. `p` is the provider told from the email.
   */
  ghost predicate SameCredentials(a: Account, p: Provider, b: Account) {
    && b.email == Lower(Trim(a.email))
    && b.password == a.password
    && b.refreshToken == a.refreshToken
    && if a.refreshToken != "" then
         b.clientID == if SentClientID(a) == "" && p.code == "outlook" then DEFAULT_CLIENT_ID else SentClientID(a)
       else
         b.clientID == "" && b.host == a.host && b.port == SentPort(a)
  }

  ghost predicate ComesBack(a: Account, p: Provider, parsed: Result<Account, Problem>) {
    parsed.Ok? && SameCredentials(a, p, parsed.value)
  }

  /** No field is mistaken for another kind of field when the line is read back. */
  ghost predicate NoClash(a: Account, fields: seq<string>) {
    if a.refreshToken != "" then
      var id := SentClientID(a);
      && (IsProbableClientID(a.refreshToken) ==> IsProbableClientID(id))
      && (IsProbableClientID(id) || !LooksLikeHost(id) || !IsPort(a.refreshToken))
    else
      |fields| == 4 ==> LooksLikeHost(a.host) && PortInRange(SentPort(a))
  }

  ghost predicate Auto(opts: Options) {
    (opts.format == "" || opts.format == "auto") && opts.clientIDFirst
  }

  // ---------- clean fields ----------

  ghost predicate AllTrimmed(fields: seq<string>) {
    forall i :: 0 <= i < |fields| ==> Trim(fields[i]) == fields[i]
  }

  lemma CleanFieldsAreFixed(fields: seq<string>)
    requires Clean(fields)
    ensures AllTrimmed(fields)
  {
    forall i | 0 <= i < |fields| ensures Trim(fields[i]) == fields[i] {
      TrimFixed(fields[i]);
    }
  }

  lemma Swapped(id: string, token: string)
    ensures TellApart(id, token, true) ==
            if IsProbableClientID(token) && !IsProbableClientID(id) then (token, id) else (id, token)
  {
  }

  lemma OAuthParsed(a: Account, p: Provider, fields: seq<string>, opts: Options)
    requires fields == [Trim(a.email), a.password, SentClientID(a), a.refreshToken]
    requires a.refreshToken != "" && AllTrimmed(fields) && opts.clientIDFirst
    ensures ComesBack(a, p, ParseOutlookOAuth(Lower(Trim(a.email)), p, fields, opts)) <==>
            (IsProbableClientID(a.refreshToken) ==> IsProbableClientID(SentClientID(a)))
  {
    var id, token := SentClientID(a), a.refreshToken;
    assert Trim(fields[1]) == a.password && Trim(fields[2]) == id && Trim(fields[3]) == token;
    Swapped(id, token);
  }

  lemma OAuthDetected(fields: seq<string>, opts: Options)
    requires |fields| == 4 && AllTrimmed(fields) && Auto(opts)
    ensures ChosenFormat(opts.format, fields) ==
            Some(if !IsProbableClientID(fields[2]) && LooksLikeHost(fields[2]) && IsPort(fields[3])
                 then CustomIMAP else OutlookOAuth)
  {
    assert Trim(fields[2]) == fields[2];
  }

  /** Read as a custom IMAP line, the refresh token is lost. */
  lemma CustomLosesToken(a: Account, p: Provider, email: string, fields: seq<string>, opts: Options)
    requires a.refreshToken != "" && |fields| >= 2
    ensures !ComesBack(a, p, ParseCustomIMAP(email, fields, opts))
  {
  }

  lemma OAuthFields(a: Account, p: Provider, fields: seq<string>, opts: Options)
    requires fields == [Trim(a.email), a.password, SentClientID(a), a.refreshToken]
    requires a.refreshToken != "" && AllTrimmed(fields) && Auto(opts)
    ensures ComesBack(a, p, ParseAs(Lower(Trim(a.email)), p, fields, opts)) <==> NoClash(a, fields)
  {
    var email, id, token := Lower(Trim(a.email)), SentClientID(a), a.refreshToken;
    OAuthDetected(fields, opts);
    if !IsProbableClientID(id) && LooksLikeHost(id) && IsPort(token) {
      assert ParseAs(email, p, fields, opts) == ParseCustomIMAP(email, fields, opts);
      CustomLosesToken(a, p, email, fields, opts);
    } else {
      assert ParseAs(email, p, fields, opts) == ParseOutlookOAuth(email, p, fields, opts);
      OAuthParsed(a, p, fields, opts);
    }
  }

  lemma PasswordFields(a: Account, p: Provider, fields: seq<string>, opts: Options)
    requires ExportAs(a, Trim(a.email), p) == Ok(fields) && a.refreshToken == "" && AllTrimmed(fields) && Auto(opts)
    requires p.port == DEFAULT_IMAP_PORT
    ensures ComesBack(a, p, ParseAs(Lower(Trim(a.email)), p, fields, opts)) <==> NoClash(a, fields)
  {
    ItoaRoundTrip(SentPort(a));
  }

  // ---------- fields that are not clean ----------

  ghost predicate PlainHost(p: Provider) {
    Trimmed(p.host) && !EndsInDash(p.host) && p.port == DEFAULT_IMAP_PORT
  }

  lemma ProvidersHavePlainHosts(email: string)
    ensures PlainHost(ProviderForEmail(email))
  {
  }

  ghost predicate Tidy(parts: seq<string>) {
    forall i :: 0 <= i < |parts| ==> Trimmed(parts[i])
  }

  lemma TidyIsFixed(parts: seq<string>)
    requires Tidy(parts)
    ensures AllTrimmed(parts)
  {
    forall i | 0 <= i < |parts| ensures Trim(parts[i]) == parts[i] {
      TrimFixed(parts[i]);
    }
  }

  /** Where the values of a parsed account can have come from. */
  ghost predicate TakenFrom(parts: seq<string>, q: Provider, b: Account) {
    && |parts| >= 2 && b.password == parts[1]
    && if b.refreshToken != "" then
         && |parts| >= 4
         && (|| (b.refreshToken == parts[3] && (b.clientID == parts[2] || b.clientID == DEFAULT_CLIENT_ID))
             || (b.refreshToken == parts[2] && b.clientID == parts[3] && IsProbableClientID(parts[3])))
       else
         b.host == q.host || (|parts| >= 4 && b.host == parts[2])
  }

  lemma ParsedShape(email: string, q: Provider, parts: seq<string>, opts: Options)
    requires |parts| >= 2 && Tidy(parts) && Auto(opts) && ParseAs(email, q, parts, opts).Ok?
    ensures ParseAs(email, q, parts, opts).value.email == email
    ensures TakenFrom(parts, q, ParseAs(email, q, parts, opts).value)
  {
    TidyIsFixed(parts);
  }

  /** A field that ends in a dash and lost it cannot be what was parsed. */
  lemma DashIsMissed(a: Account, p: Provider, fields: seq<string>, q: Provider, parts: seq<string>, b: Account, k: nat)
    requires ExportAs(a, Trim(a.email), p) == Ok(fields) && SameCredentials(a, p, b)
    requires TakenFrom(parts, q, b) && PlainHost(q) && b.email == Lower(parts[0])
    requires k < |fields| - 1 && EndsInDash(fields[k])
    ensures k < |parts| && |parts[k]| >= |fields[k]|
  {
    assert |parts[0]| == |b.email| == |fields[0]|;
    if k == 2 && a.refreshToken != "" {
      assert !EndsInDash(DEFAULT_CLIENT_ID);
      assert b.clientID == fields[2];
      assert IsProbableClientID(b.clientID) ==> IsHex(b.clientID[35]);
    }
  }

  lemma SameOAuthFieldsAreTrimmed(a: Account, p: Provider, fields: seq<string>, parts: seq<string>, q: Provider,
                                  b: Account)
    requires ExportAs(a, Trim(a.email), p) == Ok(fields) && a.refreshToken != "" && SameCredentials(a, p, b)
    requires TakenFrom(parts, q, b) && Tidy(parts)
    ensures Tidy(fields) && fields[|fields| - 1] != ""
  {
    TrimFixed(a.email);
    assert Trimmed(DEFAULT_CLIENT_ID);
    assert Trimmed(b.clientID) && Trimmed(b.refreshToken);
    assert fields == [Trim(a.email), a.password, SentClientID(a), a.refreshToken];
  }

  lemma SamePasswordFieldsAreTrimmed(a: Account, p: Provider, fields: seq<string>, parts: seq<string>, q: Provider,
                                     b: Account)
    requires ExportAs(a, Trim(a.email), p) == Ok(fields) && a.refreshToken == "" && SameCredentials(a, p, b)
    requires TakenFrom(parts, q, b) && Tidy(parts) && PlainHost(q)
    ensures Tidy(fields) && fields[|fields| - 1] != ""
  {
    TrimFixed(a.email);
    ItoaRoundTrip(SentPort(a));
    assert Trimmed(b.password) && Trimmed(b.host);
  }

  /** What a parsed line's account is made of, without how. */
  lemma ParsedLine(line: string, opts: Options) returns (q: Provider)
    requires Auto(opts) && ParseLine(line, opts).Ok?
    ensures PlainHost(q) && Tidy(Parts(line)) && TakenFrom(Parts(line), q, ParseLine(line, opts).value)
    ensures ParseLine(line, opts).value.email == Lower(Parts(line)[0])
  {
    var parts := Parts(line);
    PartsAreTidy(line);
    TidyIsFixed(parts);
    var email := Lower(Trim(parts[0]));
    q := ProviderForEmail(email);
    ProvidersHavePlainHosts(email);
    ParsedShape(email, q, parts, opts);
  }

  /** An account that came back the same had only clean fields. */
  lemma SameMeansClean(a: Account, p: Provider, fields: seq<string>, line: string, b: Account, opts: Options)
    requires ExportAs(a, Trim(a.email), p) == Ok(fields) && Auto(opts)
    requires forall i :: 0 <= i < |fields| ==> !HasSep(fields[i])
    requires line == Join(fields) && ParseLine(line, opts) == Ok(b) && SameCredentials(a, p, b)
    ensures Clean(fields)
  {
    var q := ParsedLine(line, opts);
    var parts := Parts(line);
    if a.refreshToken != "" {
      SameOAuthFieldsAreTrimmed(a, p, fields, parts, q, b);
    } else {
      SamePasswordFieldsAreTrimmed(a, p, fields, parts, q, b);
    }
    JoinTrimmed(fields);
    TrimFixed(line);
    if k: nat :| k < |fields| - 1 && EndsInDash(fields[k]) {
      var i := ShortPiece(fields);
      DashIsMissed(a, p, fields, q, parts, b, i);
    }
  }

  // ---------- the theorem ----------

  lemma CleanLineParses(a: Account, p: Provider, fields: seq<string>, opts: Options)
    requires Has(Trim(a.email), '@') && p == ProviderForEmail(Trim(a.email)) && ExportAs(a, Trim(a.email), p) == Ok(fields)
    requires Clean(fields)
    ensures AllTrimmed(fields)
    ensures ParseLine(Join(fields), opts) == ParseAs(Lower(Trim(a.email)), p, fields, opts)
  {
    SplitInvertsJoin(fields);
    CleanFieldsAreFixed(fields);
    LastIndexLower(Trim(a.email));
    ProviderIgnoresCase(Trim(a.email));
  }

  /**
   * For every account that can be exported: importing its line gives the same credentials if and only
   * if its fields are clean and none is mistaken for another kind of field.
   */
  lemma ImportUndoesExport(a: Account, line: string, opts: Options)
    requires FormatLine(a) == Ok(line) && Auto(opts)
    ensures ComesBack(a, ProviderForEmail(Trim(a.email)), ParseLine(line, opts)) <==>
            var fields := ExportFields(a).value; Clean(fields) && NoClash(a, fields)
  {
    var p := ProviderForEmail(Trim(a.email));
    var fields := ExportFields(a).value;
    var parsed := ParseLine(line, opts);
    if Clean(fields) {
      CleanLineParses(a, p, fields, opts);
      ProvidersHavePlainHosts(Trim(a.email));
      if a.refreshToken != "" {
        OAuthFields(a, p, fields, opts);
      } else {
        PasswordFields(a, p, fields, opts);
      }
    } else if ComesBack(a, p, parsed) {
      SameMeansClean(a, p, fields, line, parsed.value, opts);
    }
  }

  // ---------- either order of the credentials ----------

  /** When exactly one of the two has the shape of a client id, their order and the option do not matter. */
  lemma EitherOrderParses(email: string, p: Provider, parts: seq<string>, opts: Options)
    requires |parts| == 4 && IsProbableClientID(Trim(parts[2])) != IsProbableClientID(Trim(parts[3]))
    ensures ParseOutlookOAuth(email, p, parts, opts) ==
            ParseOutlookOAuth(email, p, [parts[0], parts[1], parts[3], parts[2]],
                              opts.(clientIDFirst := !opts.clientIDFirst))
  {
    var a, b := Trim(parts[2]), Trim(parts[3]);
    assert TellApart(a, b, opts.clientIDFirst) == TellApart(b, a, !opts.clientIDFirst);
  }

  /** A client id's shape has no dot, so detection would be the same without asking for it. */
  lemma ClientIDsAreNotHosts(parts: seq<string>)
    requires |parts| >= 4
    ensures IsProbableClientID(Trim(parts[2])) ==> !LooksLikeHost(Trim(parts[2]))
    ensures DetectFormat(parts) == CustomIMAP <==> LooksLikeHost(Trim(parts[2])) && IsPort(parts[3])
  {
    var third := Trim(parts[2]);
    if IsProbableClientID(third) {
      forall i | 0 <= i < |third| ensures third[i] != '.' {
        assert third[i] == '-' || IsHex(third[i]);
      }
    }
  }
}
