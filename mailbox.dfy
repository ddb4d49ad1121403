/** Where the cron job keeps a fetcher's mail: the account e-mail is split by
    the pattern (.+)@(.+)$ into a login and a domain, the maildir is
    <data folder>/<domain>/<login>, and the retrieval tool's UIDL file sits in
    that maildir under a name keyed by the fetcher id. */
module Mailbox {
  import opened Text
  import opened Fetchers

  predicate NoNewline(s: string) { forall i :: 0 <= i < |s| ==> s[i] != '\n' }

  /** The pattern (.+)@(.+)$ matches `email` from position `start`, with
      group 1 = login and group 2 = domain. As in PCRE's default mode, '.' is
      any character but a newline and '$' matches at the very end of the
      subject or just before a final newline. */
  ghost predicate MatchAt(email: string, start: int, login: string, domain: string)
  {
    && 0 <= start <= |email|
    && login != [] && domain != []
    && NoNewline(login) && NoNewline(domain)
    && (email[start..] == login + "@" + domain || email[start..] == login + "@" + domain + "\n")
  }

  /** The match PCRE reports: no match starts further left, and among those
      starting at the same place, none has a longer (greedier) group 1. */
  ghost predicate ReportedMatch(email: string, start: int, login: string, domain: string)
  {
    && MatchAt(email, start, login, domain)
    && forall s, l, d :: MatchAt(email, s, l, d) ==> start < s || (start == s && |l| <= |login|)
  }

  /** The subject without the one final newline that '$' may stand before. */
  function StripFinalNewline(s: string): (t: string)
    ensures t == s || (|s| > 0 && s[|s| - 1] == '\n' && t == s[..|s| - 1])
  {
    if |s| > 0 && s[|s| - 1] == '\n' then s[..|s| - 1] else s
  }

  /** The text after the last newline of t. */
  function LastLine(t: string): (l: string)
    ensures |l| <= |t|
    ensures NoNewline(l)
    ensures |l| < |t| ==> t[|t| - |l| - 1] == '\n'
  {
    if t == [] || t[|t| - 1] == '\n' then []
    else
      LastLine(t[..|t| - 1]) + [t[|t| - 1]]
  }

  /** The right-most '@' of l at an index in [1, k]. */
  function LastAtUpTo(l: string, k: int): (r: Option<nat>)
    requires k < |l|
    ensures r.Some? ==> 1 <= r.value <= k && l[r.value] == '@'
    ensures r.Some? ==> forall j :: r.value < j <= k ==> l[j] != '@'
    ensures r.None? ==> forall j :: 1 <= j <= k ==> l[j] != '@'
    decreases k
  {
    if k < 1 then None
    else if l[k] == '@' then Some(k)
    else LastAtUpTo(l, k - 1)
  }

  /** preg_match('/(.+)@(.+)$/', email): the login and domain it captures, or
      two empty strings when it does not match. */
  function SplitEmail(email: string): (r: (string, string))
    ensures r.0 == [] <==> r.1 == []
  {
    var l := LastLine(StripFinalNewline(email));
    match LastAtUpTo(l, |l| - 2)
    case Some(k) => (l[..k], l[k + 1..])
    case None => ("", "")
  }

  /** Where the reported match starts: at the beginning of the last line. */
  function MatchStart(email: string): int
  {
    var t := StripFinalNewline(email);
    |t| - |LastLine(t)|
  }

  /** Any match lies within the last line and reaches its end. */
  lemma {:induction false} MatchInLastLine(email: string, start: int, login: string, domain: string)
    requires MatchAt(email, start, login, domain)
    ensures var t := StripFinalNewline(email);
      && MatchStart(email) <= start
      && start + |login| + 1 + |domain| == |t|
      && t[start..] == login + "@" + domain
  {
    var t := StripFinalNewline(email);
    var m := login + "@" + domain;
    assert m[|m| - 1] == domain[|domain| - 1];
    if email[start..] == m {
      assert email[|email| - 1] == m[|m| - 1];
      assert t == email;
    } else {
      assert email[start..] == m + "\n";
      assert email[|email| - 1] == '\n';
      assert t == email[..|email| - 1];
      assert t[start..] == email[start..][..|m|];
    }
    assert NoNewline(m) by {
      forall i | 0 <= i < |m| ensures m[i] != '\n' {
        if i < |login| { assert m[i] == login[i]; }
        else if i > |login| { assert m[i] == domain[i - |login| - 1]; }
      }
    }
  }

  /** A match anywhere puts an '@' into the last line at an index the search
      for the right-most '@' covers, and no further right than that '@'. */
  lemma {:induction false} MatchIsFound(email: string, s: int, l: string, d: string)
    requires MatchAt(email, s, l, d)
    ensures var line := LastLine(StripFinalNewline(email));
      var found := LastAtUpTo(line, |line| - 2);
      found.Some? && MatchStart(email) <= s && (s == MatchStart(email) ==> |l| <= found.value)
  {
    var t := StripFinalNewline(email);
    var line := LastLine(t);
    var ls := |t| - |line|;
    MatchInLastLine(email, s, l, d);
    LastLineIsSuffix(t);
    var at := s + |l| - ls;
    assert t[s..][|l|] == '@';
    assert line[at] == t[s + |l|];
  }

  /** When the search finds an '@', the split around it is a match starting
      at the beginning of the last line. */
  lemma {:induction false} FoundIsMatch(email: string)
    requires var line := LastLine(StripFinalNewline(email)); LastAtUpTo(line, |line| - 2).Some?
    ensures MatchAt(email, MatchStart(email), SplitEmail(email).0, SplitEmail(email).1)
  {
    var t := StripFinalNewline(email);
    var line := LastLine(t);
    var k := LastAtUpTo(line, |line| - 2).value;
    var start := |t| - |line|;
    SplitAround(line, k);
    assert SplitEmail(email) == (line[..k], line[k + 1..]);
    LastLineIsSuffix(t);
    assert t[start..] == line;
    StrippedSuffix(email, start);
    assert email[start..] == line || email[start..] == line + "\n";
  }

  /** Splitting a newline-free line around an '@' at index k, 1 <= k <= |line| - 2,
      gives two non-empty newline-free parts that put the line back together. */
  lemma {:induction false} SplitAround(line: string, k: int)
    requires NoNewline(line) && 1 <= k <= |line| - 2 && line[k] == '@'
    ensures line[..k] != [] && line[k + 1..] != []
    ensures NoNewline(line[..k]) && NoNewline(line[k + 1..])
    ensures line == line[..k] + "@" + line[k + 1..]
  {
    NoNewlineSlice(line, 0, k);
    NoNewlineSlice(line, k + 1, |line|);
  }

  /** A suffix of the subject without its final newline is a suffix of the
      subject, up to that newline. */
  lemma {:induction false} StrippedSuffix(email: string, i: int)
    requires 0 <= i <= |StripFinalNewline(email)|
    ensures var t := StripFinalNewline(email);
      email[i..] == t[i..] || email[i..] == t[i..] + "\n"
  {
    var t := StripFinalNewline(email);
    if t != email {
      assert email == t + "\n";
      SliceOfAppend(t, "\n", i);
    }
  }

  lemma {:induction false} LastLineIsSuffix(t: string)
    ensures LastLine(t) == t[|t| - |LastLine(t)|..]
  {
    if t != [] && t[|t| - 1] != '\n' {
      var p := t[..|t| - 1];
      LastLineIsSuffix(p);
      assert p[|p| - |LastLine(p)|..] + [t[|t| - 1]] == t[|t| - |LastLine(t)|..];
    }
  }

  lemma {:induction false} NoNewlineSlice(s: string, i: int, j: int)
    requires NoNewline(s) && 0 <= i <= j <= |s|
    ensures NoNewline(s[i..j])
  {
    forall k | 0 <= k < j - i ensures s[i..j][k] != '\n' {
      assert s[i..j][k] == s[i + k];
    }
  }

  /** Slicing a concatenation inside its first part. */
  lemma {:induction false} SliceOfAppend(a: string, b: string, i: int)
    requires 0 <= i <= |a|
    ensures (a + b)[i..] == a[i..] + b
  {
    forall k | 0 <= k < |a| - i + |b| ensures (a + b)[i..][k] == (a[i..] + b)[k] {
      if k < |a| - i { assert (a + b)[i + k] == a[i + k]; }
    }
  }

  /** When the search finds an '@', the split around it is the match PCRE
      reports. */
  lemma {:induction false} FoundIsReported(email: string)
    requires var line := LastLine(StripFinalNewline(email)); LastAtUpTo(line, |line| - 2).Some?
    ensures SplitEmail(email).0 != [] && SplitEmail(email).1 != []
    ensures ReportedMatch(email, MatchStart(email), SplitEmail(email).0, SplitEmail(email).1)
  {
    var line := LastLine(StripFinalNewline(email));
    var k := LastAtUpTo(line, |line| - 2).value;
    forall s, l, d | MatchAt(email, s, l, d)
      ensures MatchStart(email) < s || (MatchStart(email) == s && |l| <= k)
    {
      MatchIsFound(email, s, l, d);
    }
    SplitAround(line, k);
    FoundIsMatch(email);
    assert |SplitEmail(email).0| == k;
  }

  /** When the search finds no '@', the pattern matches nowhere. */
  lemma {:induction false} NotFoundIsNoMatch(email: string)
    requires var line := LastLine(StripFinalNewline(email)); LastAtUpTo(line, |line| - 2).None?
    ensures SplitEmail(email) == ("", "")
    ensures forall s, l, d :: !MatchAt(email, s, l, d)
  {
    forall s, l, d ensures !MatchAt(email, s, l, d) {
      if MatchAt(email, s, l, d) {
        MatchIsFound(email, s, l, d);
      }
    }
  }

  /** SplitEmail gives exactly what preg_match captures: the reported match
      when there is one, and two empty strings when there is none. */
  lemma {:induction false} SplitEmailIsReportedMatch(email: string)
    ensures var (login, domain) := SplitEmail(email);
      && (login == [] <==> domain == [])
      && (login != [] ==> ReportedMatch(email, MatchStart(email), login, domain))
      && (login == [] ==> forall s, l, d :: !MatchAt(email, s, l, d))
  {
    var line := LastLine(StripFinalNewline(email));
    if LastAtUpTo(line, |line| - 2).Some? {
      FoundIsReported(email);
    } else {
      NotFoundIsNoMatch(email);
    }
  }

  /** The match PCRE reports is unique, and it is SplitEmail's. */
  lemma {:induction false} ReportedMatchIsSplitEmail(email: string, start: int, login: string, domain: string)
    requires ReportedMatch(email, start, login, domain)
    ensures SplitEmail(email) == (login, domain)
    ensures start == MatchStart(email)
  {
    SplitEmailIsReportedMatch(email);
    var (l, d) := SplitEmail(email);
    var s := MatchStart(email);
    assert l != [];
    assert s == start && |l| == |login|;
    MatchInLastLine(email, start, login, domain);
    MatchInLastLine(email, s, l, d);
    var t := StripFinalNewline(email);
    assert login + "@" + domain == l + "@" + d;
    assert login == (login + "@" + domain)[..|login|];
    assert l == (l + "@" + d)[..|l|];
    assert domain == (login + "@" + domain)[|login| + 1..];
    assert d == (l + "@" + d)[|l| + 1..];
  }

  /** The domain holds no '@' except possibly as its last character (the
      pattern backtracks past an '@' that ends the subject, so "a@b@" gives
      login "a" and domain "b@"), and neither part holds a newline. */
  lemma {:induction false} SplitEmailParts(email: string)
    ensures var (login, domain) := SplitEmail(email);
      && NoNewline(login) && NoNewline(domain)
      && forall j :: 0 <= j < |domain| - 1 ==> domain[j] != '@'
  {
    var line := LastLine(StripFinalNewline(email));
    var found := LastAtUpTo(line, |line| - 2);
    if found.Some? {
      var k := found.value;
      var domain := line[k + 1..];
      forall j | 0 <= j < |domain| - 1 ensures domain[j] != '@' {
        assert domain[j] == line[k + 1 + j];
      }
    }
  }

  /** The maildir of an account: data folder, then domain, then login. */
  function Maildir(dataFolder: string, email: string): (r: string)
  {
    var (login, domain) := SplitEmail(email);
    dataFolder + "/" + domain + "/" + login
  }

  /** The retrieval tool's UIDL file of a fetcher, inside the maildir. */
  function UidlsFile(maildir: string, fetcherId: int): (r: string)
  {
    maildir + "/fetcher-id" + Decimal(fetcherId) + "-uidls"
  }

  /** The maildir lies in the data folder, in the domain's directory, and
      ends with the login. */
  lemma {:induction false} MaildirLayout(dataFolder: string, email: string)
    ensures var (login, domain) := SplitEmail(email); var r := Maildir(dataFolder, email);
      && |r| == |dataFolder| + |domain| + |login| + 2
      && r[..|dataFolder| + 1] == dataFolder + "/"
      && r[|dataFolder| + 1..|dataFolder| + 1 + |domain|] == domain
      && r[|r| - |login| - 1..] == "/" + login
  {
  }

  /** The UIDL file lies directly in the maildir, and its name is the fetcher
      id in decimal between "fetcher-id" and "-uidls". */
  lemma {:induction false} UidlsFileLayout(maildir: string, fetcherId: int)
    ensures var r := UidlsFile(maildir, fetcherId); var d := Decimal(fetcherId);
      && |r| == |maildir| + |d| + 17
      && r[..|maildir| + 11] == maildir + "/fetcher-id"
      && r[|maildir| + 11..|maildir| + 11 + |d|] == d
      && r[|r| - 6..] == "-uidls"
  {
  }

  /** Two fetchers delivering into the same maildir never share a UIDL file. */
  lemma {:induction false} UidlsFileDistinct(maildir: string, a: int, b: int)
    requires a != b
    ensures UidlsFile(maildir, a) != UidlsFile(maildir, b)
  {
    var prefix := maildir + "/fetcher-id";
    if UidlsFile(maildir, a) == UidlsFile(maildir, b) {
      var u := UidlsFile(maildir, a);
      assert |Decimal(a)| == |Decimal(b)|;
      assert Decimal(a) == u[|prefix|..|prefix| + |Decimal(a)|];
      assert Decimal(b) == UidlsFile(maildir, b)[|prefix|..|prefix| + |Decimal(b)|];
      DecimalInjective(a, b);
    }
  }

  /** A subject without newlines is its own last line. */
  lemma {:induction false} LastLineOfOneLine(t: string)
    requires NoNewline(t)
    ensures LastLine(t) == t
  {
    if t != [] {
      LastLineOfOneLine(t[..|t| - 1]);
    }
  }

  /** A subject without newlines is the line the pattern searches. */
  lemma {:induction false} OneLine(e: string)
    requires NoNewline(e)
    ensures LastLine(StripFinalNewline(e)) == e
  {
    if e != [] { assert e[|e| - 1] != '\n'; }
    LastLineOfOneLine(e);
  }

  /** Greedy group 1: the login runs up to the last usable '@'. */
  lemma {:induction false} SplitEmailGreedyExample()
    ensures SplitEmail("a@b@c") == ("a@b", "c")
  {
    var e := "a@b@c";
    OneLine(e);
    assert LastAtUpTo(e, 3) == Some(3);
    assert e[..3] == "a@b" && e[4..] == "c";
  }

  /** An '@' that ends the subject cannot end group 1: the split backs off to the previous one. */
  lemma {:induction false} SplitEmailTrailingAtExample()
    ensures SplitEmail("a@b@") == ("a", "b@")
  {
    var e := "a@b@";
    OneLine(e);
    assert LastAtUpTo(e, 2) == Some(1);
    assert e[..1] == "a" && e[2..] == "b@";
  }

  /** An ordinary address splits at its only '@'. */
  lemma {:induction false} SplitEmailExample()
    ensures SplitEmail("bob@ex.io") == ("bob", "ex.io")
  {
    var e := "bob@ex.io";
    OneLine(e);
    assert LastAtUpTo(e, 7) == Some(3);
    assert e[..3] == "bob" && e[4..] == "ex.io";
  }

  /** The maildir of bob@ex.io under /var/mpop. */
  lemma {:induction false} MaildirExample()
    ensures Maildir("/var/mpop", "bob@ex.io") == "/var/mpop/ex.io/bob"
  {
    SplitEmailExample();
  }

  /** The UIDL file of fetcher 14 of bob@ex.io under /var/mpop. */
  lemma {:induction false} UidlsFileExample()
    ensures UidlsFile(Maildir("/var/mpop", "bob@ex.io"), 14) == "/var/mpop/ex.io/bob/fetcher-id14-uidls"
  {
    MaildirExample();
    DecimalExample();
  }

  /** Subjects the pattern does not match give an empty login and domain. */
  lemma {:induction false} SplitEmailNoMatchExamples()
    ensures SplitEmail("not-an-email") == ("", "")
    ensures SplitEmail("@x") == ("", "") && SplitEmail("x@") == ("", "")
  {
    var e := "not-an-email";
    OneLine(e);
  }
}
