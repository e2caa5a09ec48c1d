/**
 * The hosts-file check (src-tauri/src/utils/hosts.rs): the lines of the Windows hosts
 * file that redirect a Mojang or Minecraft domain are collected, and the check fails
 * listing them if there is any. Reading the file is a parameter.
 */
module Hosts {
  import opened Wrappers
  import opened Strings

  const HOSTS_PATH: string := "C:\\Windows\\System32\\drivers\\etc\\hosts"

  /** Drops one trailing carriage return. */
  function StripCR(s: string): (r: string)
    ensures |s| > 0 && s[|s| - 1] == '\r' ==> r == s[..|s| - 1]
    ensures !(|s| > 0 && s[|s| - 1] == '\r') ==> r == s
  {
    if |s| > 0 && s[|s| - 1] == '\r' then s[..|s| - 1] else s
  }

  /**
   * The pieces of a '\n'-split: every piece but the last was followed by '\n' and loses a
   * trailing '\r'; the last one is a line only if it is not empty.
   */
  function LinesOfPieces(pieces: seq<string>): seq<string>
    requires |pieces| >= 1
    decreases |pieces|
  {
    if |pieces| == 1 then (if pieces[0] == "" then [] else [pieces[0]])
    else [StripCR(pieces[0])] + LinesOfPieces(pieces[1..])
  }

  /** `str::lines`: split at "\n" or "\r\n"; a final line ending is optional. */
  function Lines(s: string): seq<string> {
    LinesOfPieces(Split(s, '\n'))
  }

  /** A line ends at the first '\n', and "\r\n" counts as one line ending. */
  lemma LinesCons(a: string, b: string)
    requires '\n' !in a
    ensures Lines(a + "\n" + b) == [StripCR(a)] + Lines(b)
  {
    SplitAppend(a, '\n', b);
    assert Split(a + "\n" + b, '\n') == [a] + Split(b, '\n');
    assert ([a] + Split(b, '\n'))[1..] == Split(b, '\n');
    if b == "" {
      assert Split(b, '\n') == [""];
    }
  }

  /** The last line needs no line ending, and the empty file has no lines. */
  lemma LastLine(a: string)
    requires '\n' !in a
    ensures Lines(a) == if a == "" then [] else [a]
  {
    SplitFree(a, '\n');
  }

  /** Rust's `char::is_whitespace`: the Unicode White_Space property. */
  predicate IsWhitespace(c: char) {
    '\t' <= c <= '\r' || c == ' ' || c == '\U{0085}' || c == '\U{00A0}' || c == '\U{1680}'
    || ('\U{2000}' <= c <= '\U{200A}') || c == '\U{2028}' || c == '\U{2029}' || c == '\U{202F}'
    || c == '\U{205F}' || c == '\U{3000}'
  }

  predicate IsToken(t: string) {
    |t| > 0 && forall i :: 0 <= i < |t| ==> !IsWhitespace(t[i])
  }

  predicate AllWhitespace(w: string) {
    forall i :: 0 <= i < |w| ==> IsWhitespace(w[i])
  }

  /** The length of the run of non-whitespace characters at the front of `s`. */
  function TokenLength(s: string): (k: nat)
    ensures k <= |s|
    ensures forall i :: 0 <= i < k ==> !IsWhitespace(s[i])
    ensures k < |s| ==> IsWhitespace(s[k])
    decreases |s|
  {
    if |s| == 0 || IsWhitespace(s[0]) then 0 else 1 + TokenLength(s[1..])
  }

  /** `str::split_whitespace`: the maximal runs of non-whitespace characters, in order. */
  function Tokens(s: string): (ts: seq<string>)
    ensures forall i :: 0 <= i < |ts| ==> IsToken(ts[i])
    decreases |s|
  {
    if |s| == 0 then []
    else if IsWhitespace(s[0]) then Tokens(s[1..])
    else
      var k := TokenLength(s);
      [s[..k]] + Tokens(s[k..])
  }

  lemma {:induction false} TokensSkipWhitespace(w: string, s: string)
    requires AllWhitespace(w)
    ensures Tokens(w + s) == Tokens(s)
    decreases |w|
  {
    if |w| > 0 {
      assert (w + s)[1..] == w[1..] + s;
      TokensSkipWhitespace(w[1..], s);
    } else {
      assert w + s == s;
    }
  }

  lemma {:induction false} TokenLengthOf(t: string, rest: string)
    requires forall i :: 0 <= i < |t| ==> !IsWhitespace(t[i])
    requires |rest| == 0 || IsWhitespace(rest[0])
    ensures TokenLength(t + rest) == |t|
    decreases |t|
  {
    if |t| > 0 {
      assert (t + rest)[1..] == t[1..] + rest;
      TokenLengthOf(t[1..], rest);
    } else {
      assert t + rest == rest;
    }
  }

  /** A token followed by whitespace or the end of the line is the next token. */
  lemma TokensCons(t: string, rest: string)
    requires IsToken(t)
    requires |rest| == 0 || IsWhitespace(rest[0])
    ensures Tokens(t + rest) == [t] + Tokens(rest)
  {
    TokenLengthOf(t, rest);
    assert (t + rest)[..|t|] == t;
    assert (t + rest)[|t|..] == rest;
  }

  /** A line made of optional indentation, an address, whitespace, a domain and anything after. */
  lemma SecondToken(w0: string, ip: string, w1: string, domain: string, rest: string)
    requires AllWhitespace(w0) && AllWhitespace(w1) && |w1| > 0
    requires IsToken(ip) && IsToken(domain)
    requires |rest| == 0 || IsWhitespace(rest[0])
    ensures |Tokens(w0 + ip + w1 + domain + rest)| >= 2
    ensures Tokens(w0 + ip + w1 + domain + rest)[1] == domain
  {
    var afterSpace := domain + rest;
    var afterIp := w1 + afterSpace;
    var fromIp := ip + afterIp;
    LineShape(w0, ip, w1, domain, rest);
    TokensFromIp(ip, w1, domain, rest);
    TokensSkipWhitespace(w0, fromIp);
  }

  lemma LineShape(w0: string, ip: string, w1: string, domain: string, rest: string)
    ensures w0 + ip + w1 + domain + rest == w0 + (ip + (w1 + (domain + rest)))
  {
  }

  lemma TokensFromIp(ip: string, w1: string, domain: string, rest: string)
    requires AllWhitespace(w1) && |w1| > 0
    requires IsToken(ip) && IsToken(domain)
    requires |rest| == 0 || IsWhitespace(rest[0])
    ensures Tokens(ip + (w1 + (domain + rest))) == [ip] + ([domain] + Tokens(rest))
  {
    SpaceThenDomain(w1, domain, rest);
    IpThenSpace(ip, w1, domain + rest);
  }

  lemma SpaceThenDomain(w1: string, domain: string, rest: string)
    requires AllWhitespace(w1)
    requires IsToken(domain)
    requires |rest| == 0 || IsWhitespace(rest[0])
    ensures Tokens(w1 + (domain + rest)) == [domain] + Tokens(rest)
  {
    TokensSkipWhitespace(w1, domain + rest);
    TokensCons(domain, rest);
  }

  lemma IpThenSpace(ip: string, w1: string, after: string)
    requires AllWhitespace(w1) && |w1| > 0
    requires IsToken(ip)
    ensures Tokens(ip + (w1 + after)) == [ip] + Tokens(w1 + after)
  {
    assert (w1 + after)[0] == w1[0];
    TokensCons(ip, w1 + after);
  }

  /**
   * The filter of `check_hosts_file`: a line is flagged unless it starts with '#' (no
   * trimming first) or has fewer than two tokens; otherwise exactly when its second
   * token contains `mojang.com` or `minecraft.net`.
   */
  predicate IsFlagged(line: string) {
    if StartsWith(line, "#") then false
    else
      var parts := Tokens(line);
      if |parts| < 2 then false
      else Contains(parts[1], "mojang.com") || Contains(parts[1], "minecraft.net")
  }

  /** The flagged lines, in file order. */
  function FlaggedLines(lines: seq<string>): (r: seq<string>)
    ensures forall i :: 0 <= i < |r| ==> r[i] in lines && IsFlagged(r[i])
    ensures forall i :: 0 <= i < |lines| && IsFlagged(lines[i]) ==> lines[i] in r
    decreases |lines|
  {
    if |lines| == 0 then []
    else if IsFlagged(lines[0]) then [lines[0]] + FlaggedLines(lines[1..])
    else FlaggedLines(lines[1..])
  }

  /** Filtering distributes over concatenation, so flagged lines keep their relative order. */
  lemma {:induction false} FlaggedLinesAppend(a: seq<string>, b: seq<string>)
    ensures FlaggedLines(a + b) == FlaggedLines(a) + FlaggedLines(b)
    decreases |a|
  {
    if |a| == 0 {
      assert a + b == b;
    } else {
      assert (a + b)[1..] == a[1..] + b;
      FlaggedLinesAppend(a[1..], b);
    }
  }

  function FlaggedEntries(hostsFile: string): seq<string> {
    FlaggedLines(Lines(hostsFile))
  }

  function HostsError(entries: seq<string>): LauncherError {
    Message("The hosts file has been modified to block the Minecraft authentication server.\n\n"
            + "Please remove the following entries from the hosts file:\n"
            + Join(entries, "\n") + "\n\n"
            + "The file is located at:\n" + HOSTS_PATH)
  }

  /** `check_hosts_file`: fails exactly when some line is flagged, listing all flagged lines. */
  function CheckHostsFile(hostsFile: Result<string, LauncherError>): (r: Result<(), LauncherError>)
    ensures hostsFile.Err? ==> r == Err(hostsFile.error)
    ensures hostsFile.Ok? ==>
      (r.Err? <==> exists i :: 0 <= i < |Lines(hostsFile.value)| && IsFlagged(Lines(hostsFile.value)[i]))
    ensures hostsFile.Ok? && r.Err? ==> r.error == HostsError(FlaggedEntries(hostsFile.value))
  {
    if hostsFile.Err? then Err(hostsFile.error)
    else
      var flagged := FlaggedEntries(hostsFile.value);
      if |flagged| != 0 then
        Err(HostsError(flagged))
      else
        Ok(())
  }

  /** A comment line is never flagged, but an indented '#' does not make a comment. */
  lemma CommentLines(line: string, w: string)
    requires |line| > 0 && line[0] == '#'
    requires AllWhitespace(w) && |w| > 0
    ensures !IsFlagged(line)
    ensures !StartsWith(w + line, "#")
  {
    assert (w + line)[0] == w[0];
  }

  /**
   * For an uncommented line of an address and a domain, the verdict depends on the
   * domain alone; whatever follows it is ignored.
   */
  lemma FlaggedByDomain(w0: string, ip: string, w1: string, domain: string, rest: string)
    requires AllWhitespace(w0) && AllWhitespace(w1) && |w1| > 0
    requires IsToken(ip) && IsToken(domain)
    requires |rest| == 0 || IsWhitespace(rest[0])
    requires !StartsWith(w0 + ip, "#")
    ensures IsFlagged(w0 + ip + w1 + domain + rest)
        <==> Contains(domain, "mojang.com") || Contains(domain, "minecraft.net")
  {
    var line := w0 + ip + w1 + domain + rest;
    SecondToken(w0, ip, w1, domain, rest);
    assert line[..|w0 + ip|] == w0 + ip;
  }

  /** A line with a single token (or none) is never flagged. */
  lemma SingleTokenNotFlagged(w0: string, t: string, w1: string)
    requires AllWhitespace(w0) && AllWhitespace(w1) && IsToken(t)
    ensures !IsFlagged(w0 + t + w1)
    ensures !IsFlagged(w0)
  {
    assert w0 + t + w1 == w0 + (t + w1);
    TokensSkipWhitespace(w0, t + w1);
    if |w1| > 0 {
      TokensCons(t, w1);
    } else {
      assert t + w1 == t;
      TokensCons(t, "");
    }
    TokensSkipWhitespace(w1, "");
    TokensSkipWhitespace(w0, "");
    assert w0 + "" == w0 && w1 + "" == w1;
  }
}
