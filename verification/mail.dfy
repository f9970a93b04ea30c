/** `normalizeMail`, the duplicate-account key (the same code in both AuthEngine files). */
module Mail {
  import opened Wrappers
  import opened Text

  const GMAIL := "gmail.com"

  /** The TypeError thrown when the address has no '@' and `domain` is undefined. */
  const UNDEFINED_DOMAIN := "Cannot read properties of undefined (reading 'toLowerCase')"

  function NormalizeMail(email: string): (r: Result<string, string>)
    ensures r.Err? <==> '@' !in email
    ensures r.Ok? ==> '@' in r.value
  {
    var (localPart, domain) := SplitTwo(email, '@');
    if domain.None? then Err(UNDEFINED_DOMAIN)
    else if Lower(domain.value) == GMAIL then Ok(RemoveAll(localPart, '.') + "@gmail.com")
    else
      var i :| 0 <= i < |email| && email[i] == '@';
      assert Lower(email)[i] == '@';
      Ok(Lower(email))
  }

  /** How `split('@')` cuts an address written as local@domain followed by more '@'-fields. */
  lemma SplitAddress(localPart: string, domain: string, rest: string)
    requires '@' !in localPart && '@' !in domain && (rest == [] || rest[0] == '@')
    ensures SplitTwo(localPart + "@" + domain + rest, '@') == (localPart, Some(domain))
  {
    var s := localPart + "@" + domain + rest;
    var n := |localPart|;
    assert s[n] == '@' && s[..n] == localPart;
    var tail := s[n + 1..];
    assert tail == domain + rest;
    if rest != [] {
      assert tail[|domain|] == '@' && tail[..|domain|] == domain;
    } else {
      assert tail == domain;
    }
  }

  /** A gmail address (domain compared case-insensitively) normalises to its local
      part without dots, case kept, followed by "@gmail.com". */
  lemma NormalizeGmail(localPart: string, domain: string, rest: string)
    requires '@' !in localPart && '@' !in domain && (rest == [] || rest[0] == '@')
    requires Lower(domain) == GMAIL
    ensures NormalizeMail(localPart + "@" + domain + rest) == Ok(RemoveAll(localPart, '.') + "@gmail.com")
  {
    SplitAddress(localPart, domain, rest);
  }

  /** Any other address normalises to the whole address in lower case. */
  lemma NormalizeOther(localPart: string, domain: string, rest: string)
    requires '@' !in localPart && '@' !in domain && (rest == [] || rest[0] == '@')
    requires Lower(domain) != GMAIL
    ensures NormalizeMail(localPart + "@" + domain + rest) == Ok(Lower(localPart + "@" + domain + rest))
  {
    SplitAddress(localPart, domain, rest);
  }

  /** A gmail domain in any case, written after the local part: the
      address normalises to the local part without dots, followed by
      "@gmail.com". */
  lemma GmailDomainAddress(l: string, d: string)
    requires '@' !in l && '@' !in d && Lower(d) == GMAIL
    ensures NormalizeMail(l + ("@" + d)) == Ok(RemoveAll(l, '.') + "@gmail.com")
  {
    assert l + "@" + d + "" == l + ("@" + d);
    NormalizeGmail(l, d, "");
  }

  /** A local part followed by "@gmail.com" normalises to the local part
      without dots, followed by "@gmail.com". */
  lemma GmailAddress(l: string)
    requires '@' !in l
    ensures NormalizeMail(l + "@gmail.com") == Ok(RemoveAll(l, '.') + "@gmail.com")
  {
    assert Lower(GMAIL) == GMAIL by { LowerUnchanged(GMAIL); }
    assert l + "@gmail.com" == l + ("@" + GMAIL) by { assert "@gmail.com" == "@" + GMAIL; }
    GmailDomainAddress(l, GMAIL);
  }

  /** Gmail addresses whose local parts differ only in dots collide. */
  lemma GmailDotsIgnored(a: string, b: string)
    requires '@' !in a && '@' !in b && RemoveAll(a, '.') == RemoveAll(b, '.')
    ensures NormalizeMail(a + "@gmail.com") == NormalizeMail(b + "@gmail.com")
  {
    GmailAddress(a);
    GmailAddress(b);
  }

  /** Dropping the dot between two dot-free parts joins them. */
  lemma DotDropped(x: string, y: string)
    requires '.' !in x && '.' !in y
    ensures RemoveAll(x + "." + y, '.') == x + y
  {
    var dot := ".";
    assert RemoveAll(dot, '.') == [] by { assert dot[0] == '.' && dot[1..] == []; }
    RemoveAllConcat(x + dot, y, '.');
    RemoveAllConcat(x, dot, '.');
    RemoveAllAbsent(x, '.');
    RemoveAllAbsent(y, '.');
    assert x + [] == x;
  }

  /** The two addresses of the sign-up scenario normalise identically. */
  lemma DottedGmailExample()
    ensures NormalizeMail("a.da@gmail.com") == NormalizeMail("ada@gmail.com") == Ok("ada@gmail.com")
  {
    assert "a.da" + "@gmail.com" == "a.da@gmail.com";
    assert "ada" + "@gmail.com" == "ada@gmail.com";
    assert '@' !in "a.da" && '@' !in "ada" && '.' !in "ada";
    assert "a.da" == "a" + "." + "da" && "a" + "da" == "ada";
    DotDropped("a", "da");
    RemoveAllAbsent("ada", '.');
    GmailDotsIgnored("a.da", "ada");
    GmailAddress("ada");
  }

  /** The gmail rule keeps the case of the local part. */
  lemma GmailCaseKept()
    ensures NormalizeMail("Ada@GMAIL.com") == Ok("Ada@gmail.com")
  {
    var l, d := "Ada", "GMAIL.com";
    assert l + "@" + d + "" == "Ada@GMAIL.com";
    assert l + "@gmail.com" == "Ada@gmail.com";
    assert Lower(d) == GMAIL;
    RemoveAllAbsent(l, '.');
    NormalizeGmail(l, d, "");
  }

  /** A lower-cased address whose domain is not gmail normalises to itself. */
  lemma LoweredOtherFixed(email: string)
    requires '@' in email && Lower(SplitTwo(email, '@').1.value) != GMAIL
    ensures NormalizeMail(Lower(email)) == Ok(Lower(Lower(email)))
  {
    SplitTwoLower(email);
    LowerIdempotent(SplitTwo(email, '@').1.value);
  }

  /** Normalising a normalised address changes nothing. */
  lemma NormalizeIdempotent(email: string)
    requires '@' in email
    ensures NormalizeMail(NormalizeMail(email).value) == NormalizeMail(email)
  {
    var (localPart, domain) := SplitTwo(email, '@');
    if Lower(domain.value) == GMAIL {
      var l := RemoveAll(localPart, '.');
      assert NormalizeMail(email) == Ok(l + "@gmail.com");
      GmailAddress(l);
      RemoveAllAbsent(l, '.');
    } else {
      assert NormalizeMail(email) == Ok(Lower(email));
      LoweredOtherFixed(email);
      LowerIdempotent(email);
    }
  }
}
