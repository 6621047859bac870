// The server-side authentication and channel policy that the SSH transport
// library consults during the handshake. Every decision is a comparison with a
// constant or a constant itself, so the whole policy is a set of functions.
//
// The result constants belong to the SSH library; they are enumerations here,
// not the integers the library happens to use.

module SshServerInterface {

  /** Outcome of a channel-open request (section 5.1 of RFC 4254). */
  datatype ChannelOpenResult =
    | OpenSucceeded
    | OpenFailedAdministrativelyProhibited
    | OpenFailedConnectFailed
    | OpenFailedUnknownChannelType
    | OpenFailedResourceShortage

  /** Outcome of one authentication attempt (section 5.1 of RFC 4252). */
  datatype AuthResult = AuthSuccessful | AuthPartiallySuccessful | AuthFailed

  /** The one credential pair the server accepts. */
  const Username: string := "admin"
  const Password: string := "password"

  /** The only channel type the server opens. */
  const SessionKind: string := "session"

  /** A channel number, and the bytes of the encoded terminal modes of a pty-req. */
  type ChannelId = nat
  type byte = x: int | 0 <= x < 256

  /**
   * Channel-open approval: a "session" channel is opened, every other kind is
   * refused as administratively prohibited; the channel number plays no part.
   */
  function CheckChannelRequest(kind: string, chanid: ChannelId): (r: ChannelOpenResult)
    ensures r == OpenSucceeded <==> kind == SessionKind
    ensures r != OpenSucceeded ==> r == OpenFailedAdministrativelyProhibited
  {
    if kind == SessionKind then OpenSucceeded else OpenFailedAdministrativelyProhibited
  }

  /** The decision depends on the kind alone, never on the channel number. */
  lemma ChannelRequestIgnoresChanid(kind: string, a: ChannelId, b: ChannelId)
    ensures CheckChannelRequest(kind, a) == CheckChannelRequest(kind, b)
  {
  }

  /** Pseudo-terminal allocation is granted whatever is asked for. */
  function CheckChannelPtyRequest(channel: ChannelId, term: string, width: nat, height: nat,
                                  pixelWidth: nat, pixelHeight: nat, modes: seq<byte>): (granted: bool)
    ensures granted
  {
    true
  }

  /** A shell is granted on every channel. */
  function CheckChannelShellRequest(channel: ChannelId): (granted: bool)
    ensures granted
  {
    true
  }

  /**
   * Password authentication: exact, case-sensitive match of both fields
   * against the one configured pair; never a partial success.
   */
  function CheckAuthPassword(username: string, password: string): (r: AuthResult)
    ensures r == AuthSuccessful <==> username == Username && password == Password
    ensures r == AuthFailed <==> username != Username || password != Password
    ensures r != AuthPartiallySuccessful
  {
    if username == Username && password == Password then AuthSuccessful else AuthFailed
  }

  /** At most one credential pair is ever accepted. */
  lemma OnlyOneCredential(u1: string, p1: string, u2: string, p2: string)
    requires CheckAuthPassword(u1, p1) == AuthSuccessful
    requires CheckAuthPassword(u2, p2) == AuthSuccessful
    ensures u1 == u2 && p1 == p2
  {
  }

  /**
   * Whether the policy approves all four of its decisions for one client: the
   * password, the channel open, the pty request and the shell request.
   */
  predicate AdmitsShell(username: string, password: string, kind: string, chanid: ChannelId,
                        term: string, width: nat, height: nat,
                        pixelWidth: nat, pixelHeight: nat, modes: seq<byte>)
  {
    && CheckAuthPassword(username, password) == AuthSuccessful
    && CheckChannelRequest(kind, chanid) == OpenSucceeded
    && CheckChannelPtyRequest(chanid, term, width, height, pixelWidth, pixelHeight, modes)
    && CheckChannelShellRequest(chanid)
  }

  /** All four decisions approve exactly with the configured credential and a session channel. */
  lemma AdmitsShellIff(username: string, password: string, kind: string, chanid: ChannelId,
                       term: string, width: nat, height: nat,
                       pixelWidth: nat, pixelHeight: nat, modes: seq<byte>)
    ensures AdmitsShell(username, password, kind, chanid, term, width, height, pixelWidth, pixelHeight, modes)
        <==> username == Username && password == Password && kind == SessionKind
  {
  }

  // ---------------------------------------------------------------------------
  // The pre-authentication banner (section 5.4 of RFC 4252): a message and a
  // language tag in the syntax of RFC 3066.
  // ---------------------------------------------------------------------------

  predicate IsAlpha(c: char) { 'a' <= c <= 'z' || 'A' <= c <= 'Z' }
  predicate IsDigit(c: char) { '0' <= c <= '9' }

  /** Primary-subtag = 1*8ALPHA (section 2.1 of RFC 3066). */
  predicate IsPrimarySubtag(s: string)
  {
    1 <= |s| <= 8 && forall i :: 0 <= i < |s| ==> IsAlpha(s[i])
  }

  /** Subtag = 1*8(ALPHA / DIGIT) (section 2.1 of RFC 3066). */
  predicate IsSubtag(s: string)
  {
    1 <= |s| <= 8 && forall i :: 0 <= i < |s| ==> IsAlpha(s[i]) || IsDigit(s[i])
  }

  /** The pieces of s between occurrences of sep, in order. */
  function Split(s: string, sep: char): (parts: seq<string>)
    ensures |parts| >= 1
    ensures forall i :: 0 <= i < |parts| ==> sep !in parts[i]
  {
    if s == [] then [""]
    else
      var rest := Split(s[1..], sep);
      if s[0] == sep then [""] + rest
      else [[s[0]] + rest[0]] + rest[1..]
  }

  /** The pieces glued back together with sep between neighbours. */
  function Join(parts: seq<string>, sep: char): string
    requires |parts| >= 1
  {
    if |parts| == 1 then parts[0] else parts[0] + [sep] + Join(parts[1..], sep)
  }

  lemma {:induction false} JoinSplit(s: string, sep: char)
    ensures Join(Split(s, sep), sep) == s
  {
    if s != [] {
      JoinSplit(s[1..], sep);
      var rest := Split(s[1..], sep);
      if s[0] != sep {
        if |rest| == 1 {
        } else {
          assert ([[s[0]] + rest[0]] + rest[1..])[1..] == rest[1..];
          assert Join(rest, sep) == rest[0] + [sep] + Join(rest[1..], sep);
        }
      } else {
        assert ([""] + rest)[1..] == rest;
      }
    }
  }

  lemma {:induction false} SplitJoin(parts: seq<string>, sep: char)
    requires |parts| >= 1
    requires forall i :: 0 <= i < |parts| ==> sep !in parts[i]
    ensures Split(Join(parts, sep), sep) == parts
  {
    if |parts| == 1 {
      SplitNoSep(parts[0], sep);
    } else {
      SplitJoin(parts[1..], sep);
      SplitPrefix(parts[0], [sep] + Join(parts[1..], sep), sep);
      assert parts[0] + [sep] + Join(parts[1..], sep) == parts[0] + ([sep] + Join(parts[1..], sep));
      assert ([sep] + Join(parts[1..], sep))[1..] == Join(parts[1..], sep);
      assert [parts[0]] + parts[1..] == parts;
    }
  }

  /** A string without sep splits into itself. */
  lemma {:induction false} SplitNoSep(s: string, sep: char)
    requires sep !in s
    ensures Split(s, sep) == [s]
  {
    if s != [] {
      assert sep !in s[1..];
      SplitNoSep(s[1..], sep);
      assert [s[0]] + s[1..] == s;
    }
  }

  /** A sep-free prefix joins onto the first piece of what follows it. */
  lemma {:induction false} SplitPrefix(p: string, t: string, sep: char)
    requires sep !in p
    requires t != [] && t[0] == sep
    ensures Split(p + t, sep) == [p] + Split(t[1..], sep)
  {
    if p == [] {
      assert p + t == t;
    } else {
      assert (p + t)[1..] == p[1..] + t;
      assert sep !in p[1..];
      SplitPrefix(p[1..], t, sep);
      assert [p[0]] + p[1..] == p;
    }
  }

  /** Language-Tag = Primary-subtag *( "-" Subtag ) (section 2.1 of RFC 3066). */
  predicate IsLanguageTag(s: string)
  {
    var parts := Split(s, '-');
    IsPrimarySubtag(parts[0]) && forall i :: 1 <= i < |parts| ==> IsSubtag(parts[i])
  }

  /** A message that is one line, terminated by CR LF and with no other CR or LF. */
  predicate IsCrlfLine(s: string)
  {
    |s| >= 2 && s[|s| - 2..] == "\r\n" && '\r' !in s[..|s| - 2] && '\n' !in s[..|s| - 2]
  }

  /**
   * The banner shown before authentication: the fixed one-line message
   * "My SSH Server" and the language tag "en-US".
   */
  function GetBanner(): (banner: (string, string))
    ensures IsCrlfLine(banner.0) && banner.0[..|banner.0| - 2] == "My SSH Server"
    ensures IsLanguageTag(banner.1) && Split(banner.1, '-') == ["en", "US"]
  {
    var tag := "en-US";
    SplitJoin(["en", "US"], '-');
    assert Join(["en", "US"], '-') == tag;
    ("My SSH Server\r\n", tag)
  }
}
