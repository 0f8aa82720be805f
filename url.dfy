/** The locator recogniser of the bot: a play request is treated as a URL when it
    starts with an optional `http://` or `https://`, then an optional `www.`, then
    one of four media domains. The match is anchored at the start only, so anything
    may follow the domain. */
module Url {

  const Schemes: seq<string> := ["", "http://", "https://"]
  const Subdomains: seq<string> := ["", "www."]
  const Domains: seq<string> := ["youtube.com", "youtu.be", "spotify.com", "soundcloud.com"]

  /** `(https?://)?`: the scheme the pattern consumes, empty when there is none. */
  function SchemeOf(s: string): (a: string)
    ensures a in Schemes && a <= s
  {
    if "https://" <= s then "https://" else if "http://" <= s then "http://" else ""
  }

  /** `(www\.)?`: the subdomain the pattern consumes, empty when there is none. */
  function SubdomainOf(s: string): (b: string)
    ensures b in Subdomains && b <= s
  {
    if "www." <= s then "www." else ""
  }

  predicate StartsWithDomain(s: string) {
    exists d | d in Domains :: d <= s
  }

  /** The recogniser as the pattern runs it, left to right. Neither optional group can
      be skipped to good effect when it is present: what follows each group never
      starts with the group's own first letter, so consuming greedily loses no match. */
  predicate IsUrl(s: string) {
    var s1 := s[|SchemeOf(s)|..];
    StartsWithDomain(s1[|SubdomainOf(s1)|..])
  }

  /** The 24 prefixes the pattern can match: scheme, subdomain and domain, each
      chosen independently. */
  function Prefixes(): set<string> {
    set a, b, d | a in Schemes && b in Subdomains && d in Domains :: a + b + d
  }

  lemma DomainStart(d: string)
    requires d in Domains
    ensures |d| > 0 && d[0] != 'h' && d[0] != 'w'
  {
  }

  /** In `b + t`, where `t` starts with a domain, the subdomain consumed is `b`. */
  lemma SubdomainOfPrefixed(b: string, t: string)
    requires b in Subdomains
    requires |t| > 0 && t[0] != 'w'
    ensures SubdomainOf(b + t) == b
  {
    if b == "" {
      assert b + t == t;
      assert !("www." <= t) by { assert "www."[0] != t[0]; }
    } else {
      assert "www." <= b + t;
    }
  }

  /** In `a + t`, where `t` starts with a subdomain or a domain, the scheme consumed
      is `a`. */
  lemma SchemeOfPrefixed(a: string, t: string)
    requires a in Schemes
    requires |t| > 0 && t[0] != 'h'
    ensures SchemeOf(a + t) == a
  {
    if a == "" {
      assert a + t == t;
      assert !("https://" <= t) by { assert "https://"[0] != t[0]; }
      assert !("http://" <= t) by { assert "http://"[0] != t[0]; }
    } else if a == "http://" {
      assert !("https://" <= a + t) by { assert "https://"[4] != (a + t)[4]; }
      assert "http://" <= a + t;
    } else {
      assert "https://" <= a + t;
    }
  }

  /** A prefix of `s` followed by a prefix of what remains is a prefix of `s`. */
  lemma PrefixThen(x: string, y: string, s: string)
    requires x <= s && y <= s[|x|..]
    ensures x + y <= s
  {
    assert (x + y) == s[..|x| + |y|];
  }

  /** Every string the recogniser accepts starts with one of the prefixes. */
  lemma AcceptedHasPrefix(s: string)
    requires IsUrl(s)
    ensures exists p | p in Prefixes() :: p <= s
  {
    var a := SchemeOf(s);
    var s1 := s[|a|..];
    var b := SubdomainOf(s1);
    var s2 := s1[|b|..];
    var d :| d in Domains && d <= s2;
    PrefixThen(b, d, s1);
    PrefixThen(a, b + d, s);
    assert a + (b + d) == a + b + d;
    assert a + b + d in Prefixes();
  }

  /** A string that starts with one of the prefixes is accepted. */
  lemma PrefixAccepted(a: string, b: string, d: string, rest: string)
    requires a in Schemes && b in Subdomains && d in Domains
    ensures IsUrl(a + (b + (d + rest)))
  {
    DomainStart(d);
    SubdomainOfPrefixed(b, d + rest);
    assert (b + (d + rest))[0] != 'h' by {
      if b == "" { assert b + (d + rest) == d + rest; }
      else { assert (b + (d + rest))[0] == 'w'; }
    }
    SchemeOfPrefixed(a, b + (d + rest));
    var s := a + (b + (d + rest));
    assert s[|a|..] == b + (d + rest);
    assert (b + (d + rest))[|b|..] == d + rest;
    assert d <= d + rest;
  }

  lemma Split(a: string, b: string, d: string, s: string)
    requires a + b + d <= s
    ensures s == a + (b + (d + s[|a + b + d|..]))
  {
    var rest := s[|a + b + d|..];
    assert s == (a + b + d) + rest;
    assert (a + b + d) + rest == a + (b + (d + rest));
  }

  lemma PrefixesChosen(p: string)
    requires p in Prefixes()
    ensures exists a, b, d :: a in Schemes && b in Subdomains && d in Domains && p == a + b + d
  {
  }

  /** A string that starts with a member of `Prefixes()` is accepted. */
  lemma MemberPrefixAccepted(p: string, s: string)
    requires p in Prefixes() && p <= s
    ensures IsUrl(s)
  {
    PrefixesChosen(p);
    var a, b, d :| a in Schemes && b in Subdomains && d in Domains && p == a + b + d;
    Split(a, b, d, s);
    PrefixAccepted(a, b, d, s[|p|..]);
  }

  /** The recogniser accepts exactly the strings that start with one of the 24
      prefixes. */
  lemma {:induction false} IsUrlIffPrefix(s: string)
    ensures IsUrl(s) <==> exists p | p in Prefixes() :: p <= s
  {
    if IsUrl(s) {
      AcceptedHasPrefix(s);
    }
    if p :| p in Prefixes() && p <= s {
      MemberPrefixAccepted(p, s);
    }
  }
}
