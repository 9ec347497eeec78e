/**
 The destination decision of the egress proxy: validation of a target, the two connection openers and
 the plain-HTTP rule. Host names are taken already normalized. Address classes and name classes are
 functions of the environment, and resolver answers are arbitrary.
 */
module Destination {
  import opened Common

  type Host = string

  datatype Scheme = Socks5 | Socks5h | Http | Https

  datatype Policy = Policy(
    hostRoute: bool,
    allowLan: bool,
    allowHttpUrls: bool,
    allHostPorts: bool,
    hostPorts: set<int>,
    embedding: Option<(Host, int)>,
    trusted: set<(Host, int)>,
    upstream: Option<Scheme>,
    torSocket: bool,
    vpn: bool)

  /** Trusted internal destinations are refused at startup on every route but the host route. */
  predicate PolicyOk(p: Policy) {
    p.trusted != {} ==> p.hostRoute
  }

  /** The address and name classes the decision consults. */
  datatype Classes = Classes(
    isLiteral: Host -> bool,
    isRfc1918: Host -> bool,
    isBlocked: Host -> bool,
    loose: Host -> Option<Host>,
    isDockerHost: Host -> bool,
    isLocalName: Host -> bool,
    isOnion: Host -> bool,
    isBlockedName: Host -> bool,
    isForbiddenGateway: Host -> bool)

  /** What address classification guarantees: only literals have an address class. */
  ghost predicate ClassesOk(c: Classes) {
    && (forall h :: c.isRfc1918(h) ==> c.isLiteral(h))
    && (forall h :: c.isBlocked(h) ==> c.isLiteral(h))
  }

  /** Which resolver is asked for a name. */
  datatype Lookup = System(host: Host) | Vpn(host: Host)

  /** Resolver answers; None stands for a resolver failure. */
  type Answers = Lookup -> Option<set<Host>>

  datatype Reason =
    | InvalidPort | EndpointFailed | HostPortDenied | ResolutionFailed | NoAddresses
    | BlockedAddress | BlockedShorthand | BlockedName | MixedAnswers | ForbiddenGateway

  datatype Verdict = Rejected(reason: Reason) | Accepted(addresses: set<Host>)

  /** A verdict and the lookups made for it, in order. */
  datatype Checked = Checked(verdict: Verdict, asked: seq<Lookup>)

  // ---- The named exceptions ----

  predicate IsTrusted(p: Policy, h: Host, port: int) {
    (h, port) in p.trusted
  }

  predicate IsAllowedDockerHost(p: Policy, c: Classes, h: Host, port: int) {
    p.hostRoute && c.isDockerHost(h) && (p.allHostPorts || port in p.hostPorts)
  }

  predicate IsLocalEmbedding(p: Policy, c: Classes, h: Host, port: int) {
    && p.hostRoute && p.embedding == Some((h, port))
    && (c.isDockerHost(h) || c.isRfc1918(h) || c.isLocalName(h))
  }

  predicate AllRfc1918(c: Classes, addresses: set<Host>) {
    addresses != {} && forall a | a in addresses :: c.isRfc1918(a)
  }

  predicate IsLan(p: Policy, c: Classes, addresses: set<Host>) {
    p.hostRoute && p.allowLan && AllRfc1918(c, addresses)
  }

  // ---- Validation ----

  function ResolveDockerHost(c: Classes, answers: Answers, h: Host): Checked {
    var q := System(h);
    var found := answers(q);
    Checked(
      if found.None? then Rejected(ResolutionFailed)
      else if found.value == {} then Rejected(NoAddresses)
      else if exists a | a in found.value :: c.isForbiddenGateway(a) then Rejected(ForbiddenGateway)
      else Accepted(found.value),
      [q])
  }

  function TargetLookup(p: Policy, h: Host): Lookup {
    if p.vpn then Vpn(h) else System(h)
  }

  /** An ordinary name: resolved by the selected resolver, every answer classified. */
  function ResolveOrdinary(p: Policy, c: Classes, answers: Answers, h: Host): Checked {
    var q := TargetLookup(p, h);
    var found := answers(q);
    Checked(
      if found.None? then Rejected(ResolutionFailed)
      else if found.value == {} then Rejected(NoAddresses)
      else if exists a | a in found.value :: c.isBlocked(a) then Rejected(BlockedAddress)
      else Accepted(found.value),
      [q])
  }

  /** The configured embedding endpoint, pinned without a broad LAN grant. */
  function ResolveEndpoint(p: Policy, c: Classes, answers: Answers, h: Host): Checked {
    if c.isLiteral(h) then
      Checked(if c.isRfc1918(h) || !c.isBlocked(h) then Accepted({h}) else Rejected(EndpointFailed), [])
    else if c.isDockerHost(h) then ResolveDockerHost(c, answers, h)
    else if c.isLocalName(h) then
      var found := answers(System(h));
      Checked(
        if found.Some? && AllRfc1918(c, found.value) then Accepted(found.value) else Rejected(EndpointFailed),
        [System(h)])
    else if c.isBlockedName(h) then Checked(Rejected(EndpointFailed), [])
    else ResolveOrdinary(p, c, answers, h)
  }

  /** The last steps: leave the name to the upstream, or resolve it as an ordinary name. */
  function FinishName(p: Policy, c: Classes, answers: Answers, h: Host, asked: seq<Lookup>): Checked {
    if p.upstream.Some? || p.torSocket then Checked(Accepted({}), asked)
    else
      var r := ResolveOrdinary(p, c, answers, h);
      Checked(r.verdict, asked + r.asked)
  }

  function ValidateName(p: Policy, c: Classes, answers: Answers, h: Host): Checked {
    if c.isBlockedName(h) then Checked(Rejected(BlockedName), [])
    else if p.hostRoute && p.allowLan && c.isLocalName(h) then
      var q := System(h);
      var found := answers(q);
      if found.None? then Checked(Rejected(ResolutionFailed), [q])
      else if found.value == {} then Checked(Rejected(NoAddresses), [q])
      else if AllRfc1918(c, found.value) then Checked(Accepted(found.value), [q])
      else if exists a | a in found.value :: c.isRfc1918(a) then Checked(Rejected(MixedAnswers), [q])
      else FinishName(p, c, answers, h, [q])
    else FinishName(p, c, answers, h, [])
  }

  function Validate(p: Policy, c: Classes, answers: Answers, h: Host, port: int): Checked {
    if !(0 < port <= 65535) then Checked(Rejected(InvalidPort), [])
    else if IsLocalEmbedding(p, c, h, port) then ResolveEndpoint(p, c, answers, h)
    else if p.hostRoute && c.isDockerHost(h) then
      if IsAllowedDockerHost(p, c, h, port) then ResolveDockerHost(c, answers, h)
      else Checked(Rejected(HostPortDenied), [])
    else if IsTrusted(p, h, port) then
      var found := answers(System(h));
      Checked(
        if found.None? then Rejected(ResolutionFailed)
        else if found.value == {} then Rejected(NoAddresses)
        else Accepted(found.value),
        [System(h)])
    else if p.hostRoute && p.allowLan && c.isRfc1918(h) then Checked(Accepted({h}), [])
    else if c.isLiteral(h) then Checked(if c.isBlocked(h) then Rejected(BlockedAddress) else Accepted({h}), [])
    else if c.loose(h).Some? then
      var address := c.loose(h).value;
      Checked(if c.isBlocked(address) then Rejected(BlockedShorthand) else Accepted({address}), [])
    else ValidateName(p, c, answers, h)
  }

  // ---- The openers ----

  /** How a connection is opened: straight to validated addresses, or through the upstream by name. */
  datatype Opening =
    | Direct(addresses: set<Host>)
    | ThroughTor(host: Host)
    | ThroughSocks(host: Host)
    | HttpTunnel(host: Host)
    | HttpForward(host: Host)

  /** The opener for CONNECT and TLS origins. */
  function OpenTunnel(p: Policy, c: Classes, h: Host, port: int, addresses: set<Host>): Opening {
    if IsTrusted(p, h, port) then Direct(addresses)
    else if IsLocalEmbedding(p, c, h, port) then Direct(addresses)
    else if IsAllowedDockerHost(p, c, h, port) then Direct(addresses)
    else if IsLan(p, c, addresses) then Direct(addresses)
    else if p.upstream.None? && !p.torSocket then Direct(addresses)
    else if p.torSocket then ThroughTor(h)
    else
      match p.upstream.value
      case Socks5 | Socks5h => ThroughSocks(h)
      case Http | Https => HttpTunnel(h)
  }

  /** The opener for plain HTTP requests; an HTTP upstream gets the absolute request target. */
  function OpenPlain(p: Policy, c: Classes, h: Host, port: int, addresses: set<Host>): Opening {
    if IsTrusted(p, h, port) || IsLocalEmbedding(p, c, h, port) || IsAllowedDockerHost(p, c, h, port)
       || IsLan(p, c, addresses)
    then Direct(addresses)
    else if p.upstream.None? && !p.torSocket then Direct(addresses)
    else if p.torSocket then OpenTunnel(p, c, h, port, addresses)
    else
      match p.upstream.value
      case Http | Https => HttpForward(h)
      case Socks5 | Socks5h => ThroughSocks(h)
  }

  predicate PlainHttpAllowed(p: Policy, c: Classes, h: Host, port: int, addresses: set<Host>) {
    || p.allowHttpUrls
    || (p.torSocket && c.isOnion(h))
    || IsTrusted(p, h, port)
    || IsLocalEmbedding(p, c, h, port)
    || IsAllowedDockerHost(p, c, h, port)
    || IsLan(p, c, addresses)
  }

  // ---- What holds for every policy, classification and resolver ----

  /** The destinations that may carry addresses an ordinary destination may not. */
  predicate IsException(p: Policy, c: Classes, h: Host, port: int, addresses: set<Host>) {
    IsTrusted(p, h, port) || IsLocalEmbedding(p, c, h, port) || IsAllowedDockerHost(p, c, h, port)
    || IsLan(p, c, addresses)
  }

  /** An accepted destination that is dialled directly always has an address to dial. */
  lemma {:induction false} DirectDialHasAddress(p: Policy, c: Classes, answers: Answers, h: Host, port: int)
    requires Validate(p, c, answers, h, port).verdict.Accepted?
    ensures var a := Validate(p, c, answers, h, port).verdict.addresses;
            OpenTunnel(p, c, h, port, a).Direct? ==> a != {} && OpenTunnel(p, c, h, port, a).addresses == a
  {
  }

  /** Acceptance comes without addresses exactly when an upstream is left to resolve an ordinary name. */
  lemma {:induction false} EmptyExactlyWhenUpstreamResolves(
    p: Policy, c: Classes, answers: Answers, h: Host, port: int)
    requires Validate(p, c, answers, h, port).verdict.Accepted?
    ensures var a := Validate(p, c, answers, h, port).verdict.addresses;
            a == {} <==>
              && (p.upstream.Some? || p.torSocket)
              && !IsTrusted(p, h, port) && !IsLocalEmbedding(p, c, h, port) && !(p.hostRoute && c.isDockerHost(h))
              && !c.isLiteral(h) && !(p.hostRoute && p.allowLan && c.isRfc1918(h)) && c.loose(h).None?
              && !(p.hostRoute && p.allowLan && c.isLocalName(h) && answers(System(h)).Some?
                   && AllRfc1918(c, answers(System(h)).value))
  {
  }

  /** A blocked-class address is accepted only under one of the named exceptions. */
  lemma {:induction false} BlockedOnlyByException(p: Policy, c: Classes, answers: Answers, h: Host, port: int, a: Host)
    requires ClassesOk(c)
    requires Validate(p, c, answers, h, port).verdict.Accepted?
    requires a in Validate(p, c, answers, h, port).verdict.addresses && c.isBlocked(a)
    ensures IsException(p, c, h, port, Validate(p, c, answers, h, port).verdict.addresses)
  {
  }

  /** On the public route no accepted address is in a blocked class. */
  lemma {:induction false} PublicRouteIsUnblocked(p: Policy, c: Classes, answers: Answers, h: Host, port: int)
    requires PolicyOk(p) && ClassesOk(c) && !p.hostRoute
    requires Validate(p, c, answers, h, port).verdict.Accepted?
    ensures forall a | a in Validate(p, c, answers, h, port).verdict.addresses :: !c.isBlocked(a)
  {
    forall a | a in Validate(p, c, answers, h, port).verdict.addresses ensures !c.isBlocked(a) {
      if c.isBlocked(a) {
        BlockedOnlyByException(p, c, answers, h, port, a);
      }
    }
  }

  /** Both openers make the same choice; only the form of an HTTP upstream request differs. */
  lemma {:induction false} OpenersAgree(p: Policy, c: Classes, h: Host, port: int, addresses: set<Host>)
    ensures var tunnel, plain := OpenTunnel(p, c, h, port, addresses), OpenPlain(p, c, h, port, addresses);
            plain == (if tunnel.HttpTunnel? then HttpForward(tunnel.host) else tunnel)
            && (tunnel.Direct? <==>
                  IsException(p, c, h, port, addresses) || (p.upstream.None? && !p.torSocket))
  {
  }

  /** What is not dialled directly goes through Tor if its socket is set, else through the upstream in its own protocol. */
  lemma {:induction false} OpenerFollowsRoute(p: Policy, c: Classes, h: Host, port: int, addresses: set<Host>)
    requires !IsException(p, c, h, port, addresses) && (p.upstream.Some? || p.torSocket)
    ensures var tunnel := OpenTunnel(p, c, h, port, addresses);
            && (tunnel == ThroughTor(h) <==> p.torSocket)
            && (tunnel == ThroughSocks(h) <==> !p.torSocket && p.upstream.value in {Socks5, Socks5h})
            && (tunnel == HttpTunnel(h) <==> !p.torSocket && p.upstream.value in {Http, Https})
  {
  }

  /** Plain HTTP is allowed by the general permission, to onion names through Tor, and to what a permission names. */
  lemma {:induction false} PlainHttpExactly(p: Policy, c: Classes, h: Host, port: int, addresses: set<Host>)
    ensures PlainHttpAllowed(p, c, h, port, addresses) <==>
            || p.allowHttpUrls || (p.torSocket && c.isOnion(h)) || (h, port) in p.trusted
            || (p.hostRoute && p.allowLan && addresses != {} && forall a | a in addresses :: c.isRfc1918(a))
            || (p.hostRoute && c.isDockerHost(h) && (p.allHostPorts || port in p.hostPorts))
            || (p.hostRoute && p.embedding == Some((h, port)) && (c.isDockerHost(h) || c.isRfc1918(h) || c.isLocalName(h)))
  {
  }

  /** With an upstream or Tor, a name is looked up locally only under an exception for its name. */
  lemma {:induction false} UpstreamNamesStayUnresolved(p: Policy, c: Classes, answers: Answers, h: Host, port: int)
    requires p.upstream.Some? || p.torSocket
    requires Validate(p, c, answers, h, port).asked != []
    ensures || IsLocalEmbedding(p, c, h, port) || IsAllowedDockerHost(p, c, h, port) || IsTrusted(p, h, port)
            || (p.hostRoute && p.allowLan && c.isLocalName(h))
  {
  }

  /** In VPN mode the system resolver sees a name only under a named permission for it, never an ordinary one. */
  lemma {:induction false} VpnKeepsNamesFromSystem(p: Policy, c: Classes, answers: Answers, h: Host, port: int, i: nat)
    requires p.vpn && i < |Validate(p, c, answers, h, port).asked| && Validate(p, c, answers, h, port).asked[i].System?
    ensures || IsLocalEmbedding(p, c, h, port) || IsAllowedDockerHost(p, c, h, port) || IsTrusted(p, h, port)
            || (p.hostRoute && p.allowLan && c.isLocalName(h))
  {
  }

  /** An ordinary name: nothing but its own answers decides about it. */
  predicate IsOrdinary(p: Policy, c: Classes, h: Host, port: int) {
    && 0 < port <= 65535 && p.embedding != Some((h, port)) && (h, port) !in p.trusted
    && !(p.hostRoute && c.isDockerHost(h)) && !c.isLiteral(h) && !c.isRfc1918(h) && c.loose(h).None?
    && !c.isBlockedName(h) && !(p.hostRoute && p.allowLan && c.isLocalName(h))
  }

  /**
   An ordinary name without an upstream is accepted exactly when the resolver of its mode answers with addresses none
   of which is blocked, and then with all of them; with an upstream or Tor it is accepted unresolved.
   */
  lemma {:induction false} OrdinaryNameDecided(p: Policy, c: Classes, answers: Answers, h: Host, port: int)
    requires IsOrdinary(p, c, h, port)
    ensures var r := Validate(p, c, answers, h, port);
            if p.upstream.Some? || p.torSocket then r == Checked(Accepted({}), [])
            else
              var q := if p.vpn then Vpn(h) else System(h);
              && r.asked == [q]
              && (r.verdict.Accepted? <==>
                    answers(q).Some? && answers(q).value != {} && forall a | a in answers(q).value :: !c.isBlocked(a))
              && (r.verdict.Accepted? ==> r.verdict.addresses == answers(q).value)
  {
  }

  /** A literal is accepted, as itself, exactly when it is not blocked or a permission names it; shorthand as what it means. */
  lemma {:induction false} LiteralDecided(p: Policy, c: Classes, answers: Answers, h: Host, port: int)
    requires ClassesOk(c) && 0 < port <= 65535 && (h, port) !in p.trusted && !c.isDockerHost(h)
    requires c.isLiteral(h) || (c.loose(h).Some? && p.embedding != Some((h, port)))
    ensures var r := Validate(p, c, answers, h, port);
            && r.asked == []
            && (c.isLiteral(h) ==>
                  && (r.verdict.Accepted? <==>
                        !c.isBlocked(h)
                        || (c.isRfc1918(h) && p.hostRoute && (p.allowLan || p.embedding == Some((h, port)))))
                  && (r.verdict.Accepted? ==> r.verdict.addresses == {h}))
            && (!c.isLiteral(h) ==>
                  && (r.verdict.Accepted? <==> !c.isBlocked(c.loose(h).value))
                  && (r.verdict.Accepted? ==> r.verdict.addresses == {c.loose(h).value}))
  {
  }

  /** A permitted name gets exactly what the system resolver answers, when that is acceptable for its permission. */
  lemma {:induction false} PermittedNameDecided(p: Policy, c: Classes, answers: Answers, h: Host, port: int)
    requires 0 < port <= 65535 && p.embedding != Some((h, port)) && !c.isLiteral(h) && !c.isRfc1918(h) && c.loose(h).None?
    ensures var r, found := Validate(p, c, answers, h, port), answers(System(h));
            && (p.hostRoute && c.isDockerHost(h) ==>
                  && (r.verdict.Accepted? <==>
                        && (p.allHostPorts || port in p.hostPorts) && found.Some? && found.value != {}
                        && forall a | a in found.value :: !c.isForbiddenGateway(a))
                  && (r.verdict.Accepted? ==> r.verdict.addresses == found.value))
            && (!(p.hostRoute && c.isDockerHost(h)) && (h, port) in p.trusted ==>
                  && (r.verdict.Accepted? <==> found.Some? && found.value != {})
                  && (r.verdict.Accepted? ==> r.verdict.addresses == found.value))
            && (!(p.hostRoute && c.isDockerHost(h)) && (h, port) !in p.trusted
                && p.hostRoute && p.allowLan && c.isLocalName(h) && !c.isBlockedName(h)
                && found.Some? && found.value != {} && (exists a | a in found.value :: c.isRfc1918(a)) ==>
                  && (r.verdict.Accepted? <==> forall a | a in found.value :: c.isRfc1918(a))
                  && (r.verdict.Accepted? ==> r.verdict.addresses == found.value))
  {
  }

  /** No name is ever asked twice, none but the target is asked, and the VPN resolver only in VPN mode. */
  lemma {:induction false} LookupsAreOfTheTarget(p: Policy, c: Classes, answers: Answers, h: Host, port: int)
    ensures var asked := Validate(p, c, answers, h, port).asked;
            |asked| <= 2
            && (forall i | 0 <= i < |asked| :: asked[i].host == h && (asked[i].Vpn? ==> p.vpn))
            && (|asked| == 2 ==> asked[0] == System(h) && asked[1] == TargetLookup(p, h)
                                 && p.upstream.None? && !p.torSocket && p.hostRoute && p.allowLan)
  {
  }

  /** Plain HTTP without the general permission stays on a direct connection or inside the Tor network. */
  lemma {:induction false} PlainHttpStaysLocal(
    p: Policy, c: Classes, answers: Answers, h: Host, port: int)
    requires !p.allowHttpUrls
    requires Validate(p, c, answers, h, port).verdict.Accepted?
    requires PlainHttpAllowed(p, c, h, port, Validate(p, c, answers, h, port).verdict.addresses)
    ensures var a := Validate(p, c, answers, h, port).verdict.addresses;
            OpenPlain(p, c, h, port, a) == Direct(a)
            || (c.isOnion(h) && OpenPlain(p, c, h, port, a) == ThroughTor(h))
  {
  }
}
