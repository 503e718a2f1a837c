/**
 * The `elasticsearch-url` configuration value: the validity test of
 * `_elasticsearch_url_is_valid` (the regular expression `^[a-zA-Z0-9._-]+:[0-9]+$`
 * under Python's `re.match`), the split of `_get_elasticsearch_config` and the
 * `int()` applied to the port when the layer is built.
 */
module Endpoint {
  import opened Wrappers
  import opened Text

  /** The character class `[a-zA-Z0-9._-]`. */
  predicate HostChar(c: char) {
    ('a' <= c <= 'z') || ('A' <= c <= 'Z') || ('0' <= c <= '9') || c == '.' || c == '_' || c == '-'
  }

  /** The character class `[0-9]`. */
  predicate DigitChar(c: char) {
    '0' <= c <= '9'
  }

  predicate AllHost(t: string) {
    forall k :: 0 <= k < |t| ==> HostChar(t[k])
  }

  predicate AllDigits(t: string) {
    forall k :: 0 <= k < |t| ==> DigitChar(t[k])
  }

  /**
   * What `[0-9]+$` accepts after the colon: one or more digits, optionally followed
   * by one newline, since Python's `$` also matches just before a final "\n".
   */
  predicate PortField(t: string) {
    || (|t| > 0 && AllDigits(t))
    || (|t| > 1 && t[|t| - 1] == '\n' && AllDigits(t[..|t| - 1]))
  }

  /** `s` has its host/port colon at index `i`. */
  ghost predicate ColonAt(s: string, i: int) {
    0 <= i < |s| && s[i] == ':' && AllHost(s[..i]) && PortField(s[i + 1..])
  }

  /** The language of the pattern: a non-empty host, a colon, a port field. */
  ghost predicate UrlPattern(s: string) {
    exists i :: 0 < i && ColonAt(s, i)
  }

  // ---------------------------------------------------------------------------
  // The matcher: a deterministic automaton for the same regular expression.

  datatype MatchState = Start | InHost | AfterColon | InPort | AfterNewline

  function Step(q: MatchState, c: char): Option<MatchState> {
    match q
    case Start => if HostChar(c) then Some(InHost) else None
    case InHost =>
      if HostChar(c) then Some(InHost) else if c == ':' then Some(AfterColon) else None
    case AfterColon => if DigitChar(c) then Some(InPort) else None
    case InPort =>
      if DigitChar(c) then Some(InPort) else if c == '\n' then Some(AfterNewline) else None
    case AfterNewline => None
  }

  predicate Accepting(q: MatchState) {
    q == InPort || q == AfterNewline
  }

  /** Runs the automaton over `s` from state `q`. */
  predicate Run(s: string, q: MatchState)
    decreases |s|
  {
    if s == [] then Accepting(q)
    else
      match Step(q, s[0])
      case None => false
      case Some(next) => Run(s[1..], next)
  }

  /**
   * `_elasticsearch_url_is_valid`: a present, non-empty value the automaton accepts.
   * It is valid exactly when it is present and is one or more `[a-zA-Z0-9._-]`
   * characters, a colon, one or more digits, and at most one trailing newline.
   */
  function UrlIsValid(config: Option<string>): (valid: bool)
    ensures valid <==> config.Some? && UrlPattern(config.value)
  {
    match config
    case None => false
    case Some(url) => RunStart(url); url != [] && Run(url, Start)
  }

  // ---------------------------------------------------------------------------
  // The automaton recognises the pattern.

  /**
   * What the automaton still accepts once it has read a port digit: the rest of a
   * port field. Unlike `PortField` it admits the empty string and a lone newline,
   * since the digit already read makes the field non-empty.
   */
  predicate DigitsThenNewline(t: string) {
    || AllDigits(t)
    || (|t| > 0 && t[|t| - 1] == '\n' && AllDigits(t[..|t| - 1]))
  }

  /** The rest of a port field is a port field, the empty string or a lone newline. */
  lemma DigitsThenNewlinePortField(t: string)
    ensures DigitsThenNewline(t) <==> t == [] || t == "\n" || PortField(t)
  {
    if |t| == 1 && t[0] == '\n' {
      assert t == "\n";
    }
  }

  lemma {:induction false} RunAfterNewline(t: string)
    ensures Run(t, AfterNewline) <==> t == []
  {
  }

  lemma {:induction false} RunInPort(t: string)
    ensures Run(t, InPort) <==> DigitsThenNewline(t)
    decreases |t|
  {
    if t != [] {
      var u := t[1..];
      RunInPort(u);
      if DigitChar(t[0]) {
        assert AllDigits(t) <==> AllDigits(u) by {
          assert forall k :: 0 < k < |t| ==> t[k] == u[k - 1];
        }
        if |t| > 1 {
          assert t[..|t| - 1] == [t[0]] + u[..|u| - 1];
          assert t[|t| - 1] == u[|u| - 1];
        }
      } else if t[0] == '\n' {
        RunAfterNewline(u);
        assert !AllDigits(t) by { assert !DigitChar(t[0]); }
        if |t| > 1 {
          assert t[..|t| - 1][0] == t[0];
        }
      } else {
        assert !AllDigits(t) by { assert !DigitChar(t[0]); }
        if |t| > 1 {
          assert t[..|t| - 1][0] == t[0];
        }
      }
    }
  }

  lemma {:induction false} RunAfterColon(t: string)
    ensures Run(t, AfterColon) <==> PortField(t)
  {
    if t != [] {
      var u := t[1..];
      RunInPort(u);
      if DigitChar(t[0]) {
        assert AllDigits(t) <==> AllDigits(u) by {
          assert forall k :: 0 < k < |t| ==> t[k] == u[k - 1];
        }
        if |t| > 1 {
          assert t[..|t| - 1] == [t[0]] + u[..|u| - 1];
          assert t[|t| - 1] == u[|u| - 1];
        }
      } else {
        assert !AllDigits(t) by { assert !DigitChar(t[0]); }
        if |t| > 1 {
          assert t[..|t| - 1][0] == t[0];
        }
      }
    }
  }

  /** Dropping a leading host character moves the host/port colon one place left. */
  lemma ColonAtShift(s: string, i: int)
    requires s != [] && HostChar(s[0]) && 0 <= i
    ensures ColonAt(s, i + 1) <==> ColonAt(s[1..], i)
  {
    var u := s[1..];
    if i < |u| {
      var host, rest := s[..i + 1], u[..i];
      assert host == [s[0]] + rest;
      assert s[i + 2..] == u[i + 1..];
      if AllHost(rest) {
        forall k | 0 < k < |host| ensures HostChar(host[k]) {
          assert host[k] == rest[k - 1];
        }
      }
      if AllHost(host) {
        forall k | 0 <= k < |rest| ensures HostChar(rest[k]) {
          assert rest[k] == host[k + 1];
        }
      }
    }
  }

  lemma {:induction false} RunInHost(s: string)
    ensures Run(s, InHost) <==> exists i :: 0 <= i && ColonAt(s, i)
    decreases |s|
  {
    if s != [] {
      var u := s[1..];
      if HostChar(s[0]) {
        assert Run(s, InHost) == Run(u, InHost);
        RunInHost(u);
        if j :| 0 <= j && ColonAt(u, j) {
          ColonAtShift(s, j);
        }
        if i :| 0 <= i && ColonAt(s, i) {
          ColonAtShift(s, i - 1);
        }
      } else if s[0] == ':' {
        assert Run(s, InHost) == Run(u, AfterColon);
        RunAfterColon(u);
        if Run(s, InHost) {
          assert ColonAt(s, 0);
        }
      }
    }
  }

  lemma {:induction false} RunStart(s: string)
    ensures Run(s, Start) <==> UrlPattern(s)
  {
    if s != [] {
      var u := s[1..];
      if HostChar(s[0]) {
        assert Run(s, Start) == Run(u, InHost);
        RunInHost(u);
        if j :| 0 <= j && ColonAt(u, j) {
          ColonAtShift(s, j);
        }
        if i :| 0 < i && ColonAt(s, i) {
          ColonAtShift(s, i - 1);
        }
      }
    }
  }

  /** The unset default, the empty string and a value without a colon are rejected. */
  lemma MissingOrColonlessRejected()
    ensures !UrlIsValid(None)
    ensures !UrlIsValid(Some(""))
    ensures !UrlIsValid(Some("abcd1234"))
  {
  }

  /** An empty host, an empty port or a port that is not all digits is rejected. */
  lemma MalformedRejected()
    ensures !UrlIsValid(Some(":80"))
    ensures !UrlIsValid(Some("abcd:"))
    ensures !UrlIsValid(Some("abcd:12a"))
  {
  }

  /** A port field may gain one final newline, provided it does not end in one already. */
  lemma PortFieldNewline(t: string)
    requires t == [] || t[|t| - 1] != '\n'
    ensures PortField(t + "\n") <==> PortField(t)
    ensures !PortField(t + "\n\n")
  {
    var u := t + "\n";
    assert !DigitChar(u[|u| - 1]);
    assert u[..|u| - 1] == t;
    assert !AllDigits(u) by { assert !DigitChar(u[|u| - 1]); }
    var v := t + "\n\n";
    assert v[..|v| - 1] == u;
    assert !AllDigits(v) by { assert !DigitChar(v[|v| - 1]); }
  }

  /** Appending text after the colon moves the port field and keeps the host. */
  lemma ColonAtAppend(s: string, tail: string, i: int)
    requires 0 <= i < |s|
    ensures ColonAt(s + tail, i) <==> s[i] == ':' && AllHost(s[..i]) && PortField(s[i + 1..] + tail)
  {
    var w := s + tail;
    assert w[..i] == s[..i];
    assert w[i + 1..] == s[i + 1..] + tail;
  }

  /**
   * Python's `$` also matches before one final newline: for a value that does not
   * end in a newline, appending one keeps it valid or invalid as it was, and a value
   * ending in two newlines is never valid.
   */
  lemma {:induction false} TrailingNewline(s: string)
    requires s == [] || s[|s| - 1] != '\n'
    ensures UrlIsValid(Some(s + "\n")) <==> UrlIsValid(Some(s))
    ensures !UrlIsValid(Some(s + "\n\n"))
  {
    forall i | 0 <= i < |s|
      ensures ColonAt(s + "\n", i) <==> ColonAt(s, i)
      ensures !ColonAt(s + "\n\n", i)
    {
      ColonAtAppend(s, "\n", i);
      ColonAtAppend(s, "\n\n", i);
      assert s[i + 1..] + "\n\n" == (s[i + 1..] + "\n") + "\n";
      var t := s[i + 1..];
      assert t == [] || t[|t| - 1] == s[|s| - 1];
      PortFieldNewline(t);
    }
    assert !ColonAt(s + "\n", |s|) by { assert (s + "\n")[|s|] == '\n'; }
    assert !ColonAt(s + "\n\n", |s|) by { assert (s + "\n\n")[|s|] == '\n'; }
    assert !ColonAt(s + "\n\n", |s| + 1) by { assert (s + "\n\n")[|s| + 1] == '\n'; }
  }

  // ---------------------------------------------------------------------------
  // Splitting the value into host and port.

  /**
   * `_get_elasticsearch_config`: the first two pieces of `url.split(":")`. `None`
   * stands for the exceptions Python raises on a missing value (calling `split` on
   * None) or on a value with no colon (indexing past the single piece).
   */
  function ElasticsearchConfig(config: Option<string>): (r: Option<(string, string)>)
    ensures r.Some? <==> config.Some? && ':' in config.value
    ensures r.Some? ==> ':' !in r.value.0 && ':' !in r.value.1
    ensures r.Some? ==> r.value.0 + ":" + r.value.1 <= config.value
  {
    match config
    case None => None
    case Some(url) =>
      var parts := Split(url, ':');
      if |parts| < 2 then None else Some((parts[0], parts[1]))
  }

  /** The host/port colon of a matching value is its only colon. */
  lemma ColonAtUnique(s: string, i: int, j: int)
    requires ColonAt(s, i) && ColonAt(s, j)
    ensures i == j
  {
  }

  lemma PortFieldHasNoColon(t: string)
    requires PortField(t)
    ensures ':' !in t
  {
  }

  /**
   * For a valid value, splitting on ":" yields exactly two parts: the host before the
   * colon (non-empty, of host characters, without a colon) and the port field after
   * it, and joining them back with ":" restores the value.
   */
  lemma ValidUrlSplits(config: Option<string>)
    requires UrlIsValid(config)
    ensures |Split(config.value, ':')| == 2
    ensures ElasticsearchConfig(config).Some?
    ensures var (host, port) := ElasticsearchConfig(config).value;
      && host + ":" + port == config.value
      && host != [] && AllHost(host) && ':' !in host
      && PortField(port)
      && forall i :: ColonAt(config.value, i) ==> host == config.value[..i] && port == config.value[i + 1..]
  {
    var url := config.value;
    var i :| 0 < i && ColonAt(url, i);
    var host, port := url[..i], url[i + 1..];
    assert url == host + [':'] + port;
    PortFieldHasNoColon(port);
    SplitAfter(host, ':', port);
    SplitWithout(port, ':');
    assert Split(url, ':') == [host, port];
    forall j | ColonAt(url, j) ensures host == url[..j] && port == url[j + 1..] {
      ColonAtUnique(url, i, j);
    }
  }

  // ---------------------------------------------------------------------------
  // Python's int() on the port string.

  /** The ASCII whitespace `int()` ignores around its argument. */
  predicate Space(c: char) {
    c == ' ' || c == '\t' || c == '\n' || c == '\r' || c as int == 11 || c as int == 12
  }

  function TrimStart(t: string): (r: string)
    ensures |r| <= |t|
    ensures r != [] ==> !Space(r[0])
  {
    if t != [] && Space(t[0]) then TrimStart(t[1..]) else t
  }

  function TrimEnd(t: string): (r: string)
    ensures |r| <= |t|
    ensures r != [] ==> !Space(r[|r| - 1])
  {
    if t != [] && Space(t[|t| - 1]) then TrimEnd(t[..|t| - 1]) else t
  }

  /** The value of a string of decimal digits, most significant first. */
  function DigitsValue(d: string): (n: int)
    ensures AllDigits(d) ==> n >= 0
  {
    if d == [] then 0
    else DigitsValue(d[..|d| - 1]) * 10 + (d[|d| - 1] as int - '0' as int)
  }

  /**
   * `int(t)` for a string: surrounding whitespace, an optional sign, then one or more
   * decimal digits; `None` stands for the ValueError raised on anything else.
   */
  function ParseInt(t: string): (n: Option<int>)
    ensures t != [] && AllDigits(t) ==> n == Some(DigitsValue(t))
  {
    var u := TrimEnd(TrimStart(t));
    if |u| > 0 && (u[0] == '+' || u[0] == '-') then
      if |u| > 1 && AllDigits(u[1..]) then
        Some(if u[0] == '-' then -DigitsValue(u[1..]) else DigitsValue(u[1..]))
      else None
    else if |u| > 0 && AllDigits(u) then Some(DigitsValue(u))
    else None
  }

  /** The digits of a port field, without its optional trailing newline. */
  function PortDigits(t: string): (d: string)
    requires PortField(t)
    ensures d != [] && AllDigits(d)
    ensures t == d || t == d + "\n"
  {
    if AllDigits(t) then t else t[..|t| - 1]
  }

  /** Trimming leaves a string that starts and ends with a digit unchanged. */
  lemma {:induction false} TrimDigitEnds(d: string)
    requires d != [] && DigitChar(d[0]) && DigitChar(d[|d| - 1])
    ensures TrimStart(d) == d && TrimEnd(d) == d
  {
  }

  /** Trimming drops a final newline after a digit. */
  lemma {:induction false} TrimNewline(d: string)
    requires d != [] && DigitChar(d[0]) && DigitChar(d[|d| - 1])
    ensures TrimEnd(TrimStart(d + "\n")) == d
  {
    var t := d + "\n";
    assert t[0] == d[0];
    assert TrimStart(t) == t;
    assert t[..|t| - 1] == d;
    TrimDigitEnds(d);
  }

  /** `int()` of a string that trims to a plain digit string is its digit value. */
  lemma {:induction false} ParseTrimmedDigits(t: string, d: string)
    requires TrimEnd(TrimStart(t)) == d && d != [] && AllDigits(d)
    ensures ParseInt(t) == Some(DigitsValue(d))
  {
    assert DigitChar(d[0]);
  }

  /** `int()` of a port field is the value of its digits: the newline is stripped. */
  lemma ParsePortField(t: string)
    requires PortField(t)
    ensures ParseInt(t) == Some(DigitsValue(PortDigits(t)))
    ensures DigitsValue(PortDigits(t)) >= 0
  {
    var d := PortDigits(t);
    assert DigitChar(d[0]) && DigitChar(d[|d| - 1]);
    if t == d {
      TrimDigitEnds(d);
    } else {
      TrimNewline(d);
    }
    ParseTrimmedDigits(t, d);
  }

  function DigitOf(k: nat): (c: char)
    requires k < 10
    ensures DigitChar(c) && c as int - '0' as int == k
  {
    ('0' as int + k) as char
  }

  /** The decimal representation of `n`, without leading zeros. */
  function Decimal(n: nat): (d: string)
    decreases n
  {
    if n < 10 then [DigitOf(n)] else Decimal(n / 10) + [DigitOf(n % 10)]
  }

  /** Reading back the decimal representation of `n` gives `n`. */
  lemma {:induction false} DecimalRoundTrip(n: nat)
    ensures Decimal(n) != [] && AllDigits(Decimal(n))
    ensures DigitsValue(Decimal(n)) == n
    decreases n
  {
    if n >= 10 {
      DecimalRoundTrip(n / 10);
      var d := Decimal(n);
      assert d[..|d| - 1] == Decimal(n / 10);
    }
  }

  /** The value "host:port", with one trailing newline when `newline` holds. */
  function FormatUrl(host: string, port: nat, newline: bool): string {
    host + ":" + Decimal(port) + (if newline then "\n" else "")
  }

  /**
   * A host of host characters and a natural port, written as "host:port" with or
   * without one trailing newline, is a valid value that splits back into that host
   * and a port string whose `int()` is the port.
   */
  lemma FormattedUrl(host: string, port: nat, newline: bool)
    requires host != [] && AllHost(host)
    ensures UrlIsValid(Some(FormatUrl(host, port, newline)))
    ensures ElasticsearchConfig(Some(FormatUrl(host, port, newline))).Some?
    ensures ElasticsearchConfig(Some(FormatUrl(host, port, newline))).value.0 == host
    ensures ParseInt(ElasticsearchConfig(Some(FormatUrl(host, port, newline))).value.1) == Some(port)
  {
    var p := FormattedPort(port, newline);
    var url := FormatUrl(host, port, newline);
    assert url == host + ":" + p;
    assert url[..|host|] == host && url[|host| + 1..] == p;
    assert ColonAt(url, |host|);
    ValidUrlSplits(Some(url));
    ParsePortField(p);
  }

  /** The port as written in a formatted value: a port field whose `int()` is the port. */
  lemma FormattedPort(port: nat, newline: bool) returns (p: string)
    ensures p == Decimal(port) + (if newline then "\n" else "")
    ensures PortField(p) && PortDigits(p) == Decimal(port)
    ensures DigitsValue(PortDigits(p)) == port
  {
    p := Decimal(port) + (if newline then "\n" else "");
    DecimalRoundTrip(port);
    if newline {
      assert p[..|p| - 1] == Decimal(port);
      assert !AllDigits(p) by { assert !DigitChar(p[|p| - 1]); }
    }
  }
}
