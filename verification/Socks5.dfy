/**
 The SOCKS5 client handshake of the egress proxy (sections 3, 4 and 6 of RFC 1928, section 2 of
 RFC 1929): what is written, what is consumed, and when the tunnel is handed over.
 */
module Socks5 {
  import opened Common
  import opened Streams

  /** The connect target, as the proxy classifies it: a name left to the upstream, or an IP literal. */
  datatype Target = Name(host: Octets) | V4(address: Octets) | V6(address: Octets)

  datatype SocksError =
    | ReplyTruncated | BadVersion | NoAcceptableMethod | UnofferedMethod | AuthFailed
    | InvalidHostLength | BadReplyVersion | NonzeroReserved | ConnectRefused | EmptyBoundName | UnknownAddressType
    /** A credential longer than 255 octets makes the encoder raise ValueError before it can close the writer. */
    | CredentialTooLong

  const NO_AUTH: Octet := '\0'
  const USER_PASS: Octet := '\U{02}'
  const VERSION: Octet := '\U{05}'

  predicate TargetOk(t: Target) {
    match t
    case Name(_) => true
    case V4(a) => |a| == 4
    case V6(a) => |a| == 16
  }

  predicate Offered(withAuth: bool, choice: Octet) {
    choice == NO_AUTH || (withAuth && choice == USER_PASS)
  }

  // ---- What the client writes ----

  function Greeting(withAuth: bool): Octets {
    if withAuth then [VERSION, '\U{02}', NO_AUTH, USER_PASS] else [VERSION, '\U{01}', NO_AUTH]
  }

  function Counted(s: Octets): Octets
    requires |s| < 256
  {
    [|s| as char] + s
  }

  function AuthRequest(username: Octets, password: Octets): Octets
    requires |username| < 256 && |password| < 256
  {
    ['\U{01}'] + (Counted(username) + Counted(password))
  }

  function PortOctets(port: nat): Octets
    requires port < 0x10000
  {
    [(port / 256) as char, (port % 256) as char]
  }

  predicate Encodable(t: Target) {
    TargetOk(t) && (t.Name? ==> 0 < |t.host| < 256)
  }

  function ConnectRequest(t: Target, port: nat): Octets
    requires Encodable(t) && port < 0x10000
  {
    [VERSION, '\U{01}', '\0']
    + match t
      case Name(host) => ['\U{03}'] + (Counted(host) + PortOctets(port))
      case V4(a) => ['\U{01}'] + (a + PortOctets(port))
      case V6(a) => ['\U{04}'] + (a + PortOctets(port))
  }

  // ---- What the server reads in them: the partners of the writers above ----

  function DecodePort(s: Octets): Option<nat> {
    if |s| == 2 then Some((s[0] as int) * 256 + (s[1] as int)) else None
  }

  /** The methods a client offers in its greeting. */
  function DecodeGreeting(s: Octets): Option<Octets> {
    if |s| < 2 || s[0] != '\U{05}' || |s| != 2 + (s[1] as int) then None else Some(s[2..])
  }

  /** The greeting offers no authentication, and the username method exactly when there are credentials. */
  lemma {:induction false} GreetingOffers(withAuth: bool, choice: Octet)
    ensures var methods := DecodeGreeting(Greeting(withAuth));
            && methods.Some? && (choice in methods.value <==> Offered(withAuth, choice))
            && (choice in methods.value <==> choice == '\0' || (withAuth && choice == '\U{02}'))
  {
    assert Greeting(withAuth)[2..] == if withAuth then [NO_AUTH, USER_PASS] else [NO_AUTH];
  }

  /** Reads a CONNECT request back. */
  function DecodeRequest(s: Octets): Option<(Target, nat)> {
    if |s| < 5 || s[..3] != [VERSION, '\U{01}', '\0'] then None
    else if s[3] == '\U{01}' && |s| == 10 then
      Some((V4(s[4..8]), DecodePort(s[8..]).value))
    else if s[3] == '\U{04}' && |s| == 22 then
      Some((V6(s[4..20]), DecodePort(s[20..]).value))
    else if s[3] == '\U{03}' && |s| == 7 + (s[4] as int) then
      Some((Name(s[5..5 + (s[4] as int)]), DecodePort(s[5 + (s[4] as int)..]).value))
    else None
  }

  function DecodeAuth(s: Octets): Option<(Octets, Octets)> {
    if |s| < 2 || s[0] != '\U{01}' then None
    else
      var n := s[1] as int;
      if |s| < 3 + n then None
      else
        var m := s[2 + n] as int;
        if |s| != 3 + n + m then None else Some((s[2..2 + n], s[3 + n..]))
  }

  /** The written request decodes to the same target and port. */
  lemma {:induction false} RequestRoundTrip(t: Target, port: nat)
    requires Encodable(t) && port < 0x10000
    ensures DecodeRequest(ConnectRequest(t, port)) == Some((t, port))
  {
    var s, p := ConnectRequest(t, port), PortOctets(port);
    assert DecodePort(p) == Some(port);
    assert s[..3] == [VERSION, '\U{01}', '\0'];
    match t
    case Name(host) =>
      assert s[4] as int == |host| && s[5..5 + |host|] == host && s[5 + |host|..] == p;
    case V4(a) =>
      assert s[4..8] == a && s[8..] == p;
    case V6(a) =>
      assert s[4..20] == a && s[20..] == p;
  }

  lemma {:induction false} AuthRoundTrip(username: Octets, password: Octets)
    requires |username| < 256 && |password| < 256
    ensures DecodeAuth(AuthRequest(username, password)) == Some((username, password))
  {
    var s, n := AuthRequest(username, password), |username|;
    assert s[1] as int == n && s[2..2 + n] == username;
    assert s[2 + n] as int == |password| && s[3 + n..] == password;
  }

  // ---- What the server must answer ----

  /** The server's side of a successful handshake. */
  datatype Bound = BoundV4(octets: Octets) | BoundName(name: Octets, port: Octets) | BoundV6(octets: Octets)

  datatype Replies = Replies(choice: Octet, bound: Bound)

  predicate RepliesOk(r: Replies, withAuth: bool) {
    && Offered(withAuth, r.choice)
    && match r.bound
       case BoundV4(o) => |o| == 6
       case BoundName(name, port) => 0 < |name| < 256 && |port| == 2
       case BoundV6(o) => |o| == 18
  }

  function ShowBound(b: Bound): Octets
    requires b.BoundName? ==> |b.name| < 256
  {
    match b
    case BoundV4(o) => ['\U{01}'] + o
    case BoundName(name, port) => ['\U{03}'] + (Counted(name) + port)
    case BoundV6(o) => ['\U{04}'] + o
  }

  /** Method reply, optional authentication reply, and the full connect reply. */
  function ShowReplies(r: Replies): Octets
    requires r.bound.BoundName? ==> |r.bound.name| < 256
  {
    [VERSION, r.choice]
    + ((if r.choice == USER_PASS then ['\U{01}', '\0'] else [])
       + ([VERSION, '\0', '\0'] + ShowBound(r.bound)))
  }

  /** Length of the address type, bound address and port at the front of s. */
  function BoundExtent(s: Octets): (k: Option<nat>)
    ensures k.Some? ==> 0 < k.value <= |s|
  {
    if s == [] then None
    else
      var k :=
        if s[0] == '\U{01}' then 7
        else if s[0] == '\U{04}' then 19
        else if s[0] == '\U{03}' && |s| > 1 && s[1] != '\0' then 2 + (s[1] as int) + 2
        else |s| + 1;
      if k <= |s| then Some(k) else None
  }

  function ReplyExtent(s: Octets): (k: Option<nat>)
    ensures k.Some? ==> k.value <= |s|
  {
    if |s| < 4 || s[0] != VERSION || s[1] != '\0' || s[2] != '\0' then None
    else
      var k := BoundExtent(s[3..]);
      if k.None? then None else Some(3 + k.value)
  }

  /** Length of the complete server side at the front of s, None when s does not begin with one. */
  function HandshakeExtent(s: Octets, withAuth: bool): (k: Option<nat>)
    ensures k.Some? ==> k.value <= |s|
  {
    if |s| < 2 || s[0] != VERSION || !Offered(withAuth, s[1]) then None
    else if s[1] != USER_PASS then
      var k := ReplyExtent(s[2..]);
      if k.None? then None else Some(2 + k.value)
    else if |s| < 4 || s[2] != '\U{01}' || s[3] != '\0' then None
    else
      var k := ReplyExtent(s[4..]);
      if k.None? then None else Some(4 + k.value)
  }

  lemma {:induction false} ShownBoundMeasures(b: Bound, rest: Octets)
    requires RepliesOk(Replies(NO_AUTH, b), false)
    ensures BoundExtent(ShowBound(b) + rest) == Some(|ShowBound(b)|)
  {
  }

  lemma {:induction false} ShownReplyMeasures(b: Bound, rest: Octets)
    requires RepliesOk(Replies(NO_AUTH, b), false)
    ensures ReplyExtent([VERSION, '\0', '\0'] + ShowBound(b) + rest) == Some(3 + |ShowBound(b)|)
  {
    hide ShowBound, BoundExtent;
    ShownBoundMeasures(b, rest);
    var s := [VERSION, '\0', '\0'] + ShowBound(b) + rest;
    assert s[3..] == ShowBound(b) + rest;
  }

  lemma {:induction false} ShownRepliesMeasure(r: Replies, withAuth: bool, rest: Octets)
    requires RepliesOk(r, withAuth)
    ensures HandshakeExtent(ShowReplies(r) + rest, withAuth) == Some(|ShowReplies(r)|)
  {
    hide ShowBound, ReplyExtent;
    var s := ShowReplies(r) + rest;
    ShownReplyMeasures(r.bound, rest);
    var reply := [VERSION, '\0', '\0'] + ShowBound(r.bound);
    if r.choice == USER_PASS {
      assert s[4..] == reply + rest;
    } else {
      assert s[2..] == reply + rest;
    }
  }

  lemma {:induction false} MeasuredBoundIsShown(s: Octets) returns (b: Bound)
    requires BoundExtent(s).Some?
    ensures RepliesOk(Replies(NO_AUTH, b), false) && ShowBound(b) == s[..BoundExtent(s).value]
  {
    var k := BoundExtent(s).value;
    if s[0] == '\U{01}' {
      b := BoundV4(s[1..k]);
    } else if s[0] == '\U{04}' {
      b := BoundV6(s[1..k]);
    } else {
      b := BoundName(s[2..k - 2], s[k - 2..k]);
    }
  }

  lemma {:induction false} MeasuredRepliesAreShown(s: Octets, withAuth: bool) returns (r: Replies)
    requires HandshakeExtent(s, withAuth).Some?
    ensures RepliesOk(r, withAuth) && ShowReplies(r) == s[..HandshakeExtent(s, withAuth).value]
  {
    hide BoundExtent, ShowBound;
    var k := HandshakeExtent(s, withAuth).value;
    var at := if s[1] == USER_PASS then 4 else 2;
    var b := MeasuredBoundIsShown(s[at..][3..]);
    r := Replies(s[1], b);
    assert s[at..][3..] == s[at + 3..];
    assert s[..k] == s[..at + 3] + s[at + 3..][..k - at - 3];
  }

  /** The measure is the grammar: exactly the complete server sides are measured. */
  lemma {:induction false} HandshakeExtentExact(s: Octets, withAuth: bool, k: nat)
    requires k <= |s|
    ensures HandshakeExtent(s, withAuth) == Some(k)
       <==> exists r :: RepliesOk(r, withAuth) && ShowReplies(r) == s[..k]
  {
    if HandshakeExtent(s, withAuth) == Some(k) {
      var r := MeasuredRepliesAreShown(s, withAuth);
    }
    forall r | RepliesOk(r, withAuth) && ShowReplies(r) == s[..k]
      ensures HandshakeExtent(s, withAuth) == Some(k)
    {
      ShownRepliesMeasure(r, withAuth, s[k..]);
      assert s[..k] + s[k..] == s;
    }
  }

  // ---- The handshake ----

  /** Which handshakes the client can complete: its own messages must be encodable. */
  predicate ClientCan(t: Target, username: Octets, password: Octets, choice: Octet) {
    Encodable(t) && (choice == USER_PASS ==> |username| < 256 && |password| < 256)
  }

  /** The credentials the start-up check lets reach a handshake; the Tor route passes none. */
  predicate CredentialsAdmitted(username: Octets, password: Octets) {
    |username| <= 255 && |password| <= 255
  }

  function ClientSide(t: Target, port: nat, username: Octets, password: Octets, choice: Octet): Octets
    requires ClientCan(t, username, password, choice) && port < 0x10000
  {
    Greeting(username != [] && password != [])
    + (if choice == USER_PASS then AuthRequest(username, password) else [])
    + ConnectRequest(t, port)
  }

  /** The server reads the client's side as a greeting, the credentials if it chose them, and the request, in this order. */
  lemma {:induction false} ClientSideReads(t: Target, port: nat, username: Octets, password: Octets, choice: Octet)
    requires ClientCan(t, username, password, choice) && port < 0x10000
    ensures var s := ClientSide(t, port, username, password, choice);
            var withAuth := username != [] && password != [];
            var n := if withAuth then 4 else 3;
            var m := if choice == USER_PASS then n + 3 + |username| + |password| else n;
            && n <= m <= |s| && DecodeGreeting(s[..n]).Some?
            && (choice in DecodeGreeting(s[..n]).value <==> Offered(withAuth, choice))
            && (choice == USER_PASS ==> DecodeAuth(s[n..m]) == Some((username, password)))
            && DecodeRequest(s[m..]) == Some((t, port))
  {
    hide DecodeRequest, DecodeAuth, ConnectRequest, AuthRequest, DecodeGreeting, Greeting;
    var withAuth := username != [] && password != [];
    var g, r := Greeting(withAuth), ConnectRequest(t, port);
    GreetingOffers(withAuth, choice);
    GreetingLength(withAuth);
    RequestRoundTrip(t, port);
    if choice == USER_PASS {
      AuthRoundTrip(username, password);
      AuthLength(username, password);
      Three(g, AuthRequest(username, password), r);
    } else {
      Three(g, [], r);
    }
  }

  lemma GreetingLength(withAuth: bool)
    ensures |Greeting(withAuth)| == if withAuth then 4 else 3
  {
  }

  lemma AuthLength(username: Octets, password: Octets)
    requires |username| < 256 && |password| < 256
    ensures |AuthRequest(username, password)| == 3 + |username| + |password|
  {
  }

  lemma Three(a: Octets, b: Octets, c: Octets)
    ensures var s := a + b + c; s[..|a|] == a && s[|a|..|a| + |b|] == b && s[|a| + |b|..] == c
  {
  }

  method ReadReply(reader: StreamReader, writer: StreamWriter) returns (error: Option<SocksError>)
    requires reader.Valid()
    modifies reader, writer`closed
    ensures reader.Valid()
    ensures error.None? <==> ReplyExtent(old(reader.Rest())).Some?
    ensures error.None? ==> reader.pos == old(reader.pos) + ReplyExtent(old(reader.Rest())).value
    ensures error.None? ==> writer.closed == old(writer.closed)
    ensures error.Some? ==> writer.closed && error.value != CredentialTooLong
  {
    ghost var rest := reader.Rest();
    var reply := reader.ReadExactly(4);
    if reply.None? {
      writer.Close();
      return Some(ReplyTruncated);
    }
    var r := reply.value;
    if r[0] != VERSION || r[2] != '\0' || r[1] != '\0' {
      writer.Close();
      return Some(if r[0] != VERSION then BadReplyVersion
                  else if r[2] != '\0' then NonzeroReserved else ConnectRefused);
    }
    assert reader.Rest() == rest[4..];
    assert rest[3..][1..] == rest[4..];
    var left;
    if r[3] == '\U{01}' {
      left := 4 + 2;
    } else if r[3] == '\U{03}' {
      var counted := reader.ReadExactly(1);
      if counted.None? || counted.value[0] == '\0' {
        writer.Close();
        return Some(if counted.None? then ReplyTruncated else EmptyBoundName);
      }
      assert counted.value[0] == rest[4];
      left := (counted.value[0] as int) + 2;
    } else if r[3] == '\U{04}' {
      left := 16 + 2;
    } else {
      writer.Close();
      return Some(UnknownAddressType);
    }
    var bound := reader.ReadExactly(left);
    if bound.None? {
      writer.Close();
      return Some(ReplyTruncated);
    }
    return None;
  }

  /**
   Runs the handshake on an open stream. It succeeds exactly when the server's bytes begin with a
   complete server side for the offered methods and the client's own messages are encodable; then the
   reader stands at the first tunnel byte. With credentials the start-up check admits every refusal and every
   truncated stream closes the writer; only a server that selects a longer credential makes the helper raise with
   the writer left open.
   */
  method Socks5Connect(
    reader: StreamReader, writer: StreamWriter, t: Target, port: nat, username: Octets, password: Octets)
    returns (error: Option<SocksError>)
    requires reader.Valid() && TargetOk(t) && port < 0x10000
    modifies reader, writer
    ensures reader.Valid()
    ensures var rest, withAuth := old(reader.Rest()), username != [] && password != [];
      && (error.None? <==>
            HandshakeExtent(rest, withAuth).Some? && ClientCan(t, username, password, rest[1]))
      && (error.None? ==>
            && reader.pos == old(reader.pos) + HandshakeExtent(rest, withAuth).value
            && writer.written == old(writer.written) + ClientSide(t, port, username, password, rest[1])
            && writer.closed == old(writer.closed))
    ensures error.Some? && error.value != CredentialTooLong ==> writer.closed
    ensures error == Some(CredentialTooLong) ==> writer.closed == old(writer.closed)
    ensures var rest := old(reader.Rest());
      error == Some(CredentialTooLong) <==>
        && |rest| >= 2 && rest[0] == VERSION && rest[1] == USER_PASS
        && username != [] && password != [] && (|username| > 255 || |password| > 255)
    ensures CredentialsAdmitted(username, password) && error.Some? ==> writer.closed
  {
    hide ReplyExtent, AuthRequest, ConnectRequest;
    ghost var rest, before := reader.Rest(), writer.written;
    var withAuth := username != [] && password != [];
    writer.Write(Greeting(withAuth));
    var choice := reader.ReadExactly(2);
    if choice.None? {
      writer.Close();
      return Some(ReplyTruncated);
    }
    if choice.value[0] != VERSION {
      writer.Close();
      return Some(BadVersion);
    }
    var selected := choice.value[1];
    assert selected == rest[1];
    if selected == '\U{FF}' {
      writer.Close();
      return Some(NoAcceptableMethod);
    }
    if !Offered(withAuth, selected) {
      writer.Close();
      return Some(UnofferedMethod);
    }
    assert reader.Rest() == rest[2..];
    if selected == USER_PASS {
      if |username| > 255 || |password| > 255 {
        return Some(CredentialTooLong);
      }
      writer.Write(AuthRequest(username, password));
      var auth := reader.ReadExactly(2);
      if auth.None? || auth.value[0] != '\U{01}' || auth.value[1] != '\0' {
        writer.Close();
        assert auth.Some? ==> auth.value[0] == rest[2] && auth.value[1] == rest[3];
        return Some(if auth.None? then ReplyTruncated else AuthFailed);
      }
      assert auth.value[0] == rest[2] && auth.value[1] == rest[3];
      assert reader.Rest() == rest[4..];
    }
    if t.Name? && (t.host == [] || |t.host| > 255) {
      writer.Close();
      return Some(InvalidHostLength);
    }
    writer.Write(ConnectRequest(t, port));
    assert writer.written == before + ClientSide(t, port, username, password, selected);
    error := ReadReply(reader, writer);
  }
}
