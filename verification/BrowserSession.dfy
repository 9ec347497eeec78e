/**
 One retained browser generation: a connection, its target, and at most one pending proof-of-work
 continuation. Every await of a transaction may succeed, fail with a category, break, or be cancelled; the
 ghost fields follow what the browser holds: the document shown and the installed worker preload.
 */
module BrowserSession {
  import opened Common

  type Token = nat

  datatype Category =
    | Finalized | HttpStatus | AccessDenied | RateLimited | Captcha
    | Protocol | Transport | PreNavigationTimeout | NavigationTimeout | PostNavigationTimeout | PolicyDenied | Oversize

  /** Categories after which the generation is known to be usable again once parked. */
  predicate Clean(c: Category) {
    c.Finalized? || c.HttpStatus? || c.AccessDenied? || c.RateLimited? || c.Captcha?
  }

  /** How an await ends; Broken is any exception that is not a client error. */
  datatype Await = Done | TimedOut | Rejected | Broken | Cancelled

  datatype Guard = Permitted | Denied | GuardRaises(category: Category) | GuardBroken | GuardCancelled

  /** What a page turns out to be, or how the steps up to its classification failed. */
  datatype Document =
    | Content
    | Challenge(category: Category)
    | TerminalStatus
    | Anubis
    | UnsupportedAnubis
    | Unreadable(category: Category)
    | PageBroken
    | PageCancelled

  datatype Failure = Failed(category: Category) | WasCancelled | WasBroken

  datatype Answer = Result(challenge: Option<Category>) | PendingPow(token: Token)

  datatype Doc = BlankDoc | ProviderDoc

  function Thrown(a: Await, timeout: Category): (f: Failure)
    requires !a.Done?
  {
    match a
    case TimedOut => Failed(timeout)
    case Rejected => Failed(Protocol)
    case Broken => WasBroken
    case Cancelled => WasCancelled
  }

  /** A transaction's environment: how each of its awaits ends, in the order the code reaches them. */
  datatype Script = Script(
    connect: Await,
    parametersMatch: bool,
    create: Await,
    attached: bool,
    enable: Await,
    frameTree: Await,
    frame: Option<nat>,
    install: Await,
    guard: Guard,
    navigate: Await,
    homepage: Document,
    workerStatus: Await,
    submit: Await,
    submitCategory: Category,
    result: Document,
    removal: Await,
    removed: bool,
    park: Await,
    closing: Await)

  // ---- What a transaction comes to ----

  predicate Prepares(connected: bool, target: bool, frame: Option<nat>, w: Script) {
    && (if connected then w.parametersMatch else w.connect.Done?)
    && (target || (w.create.Done? && w.attached))
    && w.enable.Done? && w.frameTree.Done? && w.frame.Some? && (frame.None? || frame == w.frame)
  }

  predicate PreloadGoes(w: Script) {
    w.workerStatus.Done? && w.removed && w.removal.Done?
  }

  /** What the result page is answered with; every blocking class but a solvable proof of work is a result. */
  function ResultOf(document: Document, anubisSpec: bool, w: Script, unused: Token): Option<Answer> {
    match document
    case Content => Some(Result(None))
    case TerminalStatus => Some(Result(None))
    case Challenge(c) => Some(Result(Some(c)))
    case UnsupportedAnubis => if anubisSpec then None else Some(Result(Some(Captcha)))
    case Anubis =>
      if !anubisSpec then Some(Result(Some(Captcha)))
      else if w.workerStatus.Done? then Some(PendingPow(unused)) else None
    case _ => None
  }

  /** The answer of a whole search, given whether its target could be prepared; None when it throws. */
  function Reply(prepared: bool, anubisSpec: bool, w: Script, unused: Token): Option<Answer> {
    if !prepared || (anubisSpec && !w.install.Done?) || !w.guard.Permitted? || !w.navigate.Done? then None
    else if w.homepage.Anubis? && anubisSpec then
      if w.workerStatus.Done? then Some(PendingPow(unused)) else None
    else if !w.homepage.Content? || !w.submit.Done? then None
    else
      var answer := ResultOf(w.result, anubisSpec, w, unused);
      if answer.Some? && answer.value.Result? && !((anubisSpec ==> PreloadGoes(w)) && w.park.Done?) then None
      else answer
  }

  predicate Continues(final: Document, w: Script) {
    && w.navigate.Done? && (final.Content? || final.TerminalStatus?) && w.submit.Done? && PreloadGoes(w) && w.park.Done?
  }

  // ---- What the caller is told ----

  /** Nothing stops the search before its homepage is shown. */
  predicate Opens(connected: bool, target: bool, frame: Option<nat>, anubisSpec: bool, w: Script) {
    && (if connected then w.parametersMatch else w.connect.Done?)
    && (target || (w.create.Done? && w.attached))
    && w.enable.Done? && w.frameTree.Done? && w.frame.Some? && (frame.None? || frame == w.frame)
    && (anubisSpec ==> w.install.Done?) && w.guard.Permitted? && w.navigate.Done?
  }

  /** Whatever came before a plain answer succeeded, and so did what follows the result page. */
  predicate Finishes(anubisSpec: bool, w: Script) {
    && w.homepage.Content? && w.submit.Done?
    && (anubisSpec ==> w.workerStatus.Done? && w.removed && w.removal.Done?) && w.park.Done?
  }

  /** A challenge is reported exactly for a challenged result page, plain results exactly for content or a terminal status. */
  predicate Reports(answer: Option<Answer>, opens: bool, anubisSpec: bool, w: Script, unused: Token) {
    && (forall c :: answer == Some(Result(Some(c))) <==>
          && opens && Finishes(anubisSpec, w)
          && (w.result == Challenge(c)
              || (c == Captcha && !anubisSpec && (w.result.Anubis? || w.result.UnsupportedAnubis?))))
    && (answer == Some(Result(None)) <==>
          opens && Finishes(anubisSpec, w) && (w.result.Content? || w.result.TerminalStatus?))
    && (answer == Some(PendingPow(unused)) <==>
          && opens && anubisSpec && w.workerStatus.Done?
          && (w.homepage.Anubis? || (w.homepage.Content? && w.submit.Done? && w.result.Anubis?)))
    && (answer.Some? && answer.value.PendingPow? ==> answer.value.token == unused)
  }

  /** The failure a page is answered with. */
  predicate Blames(thrown: Option<Failure>, document: Document, anubisSpec: bool) {
    && (document.Challenge? || document.Unreadable? ==> thrown == Some(Failed(document.category)))
    && (document.TerminalStatus? ==> thrown == Some(Failed(HttpStatus)))
    && (document.UnsupportedAnubis? || (document.Anubis? && !anubisSpec) ==> thrown == Some(Failed(Captcha)))
    && (document.PageBroken? ==> thrown == Some(WasBroken)) && (document.PageCancelled? ==> thrown == Some(WasCancelled))
  }

  /** A denied destination, a lost navigation, a blocking homepage and a failed submission are reported as what they are. */
  predicate TellsWhy(thrown: Option<Failure>, prepared: bool, anubisSpec: bool, w: Script) {
    prepared && (anubisSpec ==> w.install.Done?) ==>
      && (w.guard.Denied? ==> thrown == Some(Failed(Finalized)))
      && (w.guard.GuardRaises? ==> thrown == Some(Failed(w.guard.category)))
      && (w.guard.GuardCancelled? ==> thrown == Some(WasCancelled)) && (w.guard.GuardBroken? ==> thrown == Some(WasBroken))
      && (w.guard.Permitted? && w.navigate.TimedOut? ==> thrown == Some(Failed(NavigationTimeout)))
      && (w.guard.Permitted? && w.navigate.Rejected? ==> thrown == Some(Failed(Protocol)))
      && (w.guard.Permitted? && w.navigate.Done? && !w.homepage.Content? ==>
            (w.homepage.Anubis? && anubisSpec) || Blames(thrown, w.homepage, anubisSpec))
      && (w.guard.Permitted? && w.navigate.Done? && w.homepage.Content? ==>
            && (w.submit.Rejected? ==> thrown == Some(Failed(w.submitCategory)))
            && (w.submit.TimedOut? ==> thrown == Some(Failed(PostNavigationTimeout)))
            && (w.submit.Done? && (w.result.Unreadable? || w.result.PageBroken? || w.result.PageCancelled?
                                   || (w.result.UnsupportedAnubis? && anubisSpec)) ==>
                  Blames(thrown, w.result, anubisSpec)))
  }

  class Session {
    var connected: bool
    var target: bool
    var frame: Option<nat>
    var pending: Option<Token>
    ghost var doc: Doc
    ghost var preload: bool
    ghost var redeemed: set<Token>

    constructor ()
      ensures Closed() && redeemed == {}
    {
      connected, target, frame, pending := false, false, None, None;
      doc, preload, redeemed := BlankDoc, false, {};
    }

    /** Nothing is retained: no connection, target, frame or continuation. */
    ghost predicate Closed()
      reads this
    {
      !connected && !target && frame.None? && pending.None? && doc == BlankDoc && !preload
    }

    /** The target is kept on a local blank document without a preload. */
    ghost predicate Inert()
      reads this
    {
      connected && target && pending.None? && doc == BlankDoc && !preload
    }

    /** The target is kept on the challenged document for exactly the token handed out. */
    ghost predicate Waiting(token: Token)
      reads this
    {
      connected && target && frame.Some? && pending == Some(token) && preload && token !in redeemed
    }

    ghost predicate Settled()
      reads this
    {
      Closed() || Inert() || (pending.Some? && Waiting(pending.value))
    }

    /** Clears the owner's fields before its first await, so a failed or cancelled close is still a close. */
    method Close(closeTarget: Await) returns (confirmed: bool)
      modifies this
      ensures Closed() && redeemed == old(redeemed)
      ensures confirmed <==> !old(target) || !old(connected) || closeTarget.Done?
    {
      var hadTarget := target;
      target, frame, pending := false, None, None;
      confirmed := !hadTarget || !connected || closeTarget.Done?;
      connected := false;
      doc, preload := BlankDoc, false;
    }

    /** Navigates the target to a blank document; when that is not confirmed the generation is closed. */
    method Park(park: Await, closing: Await) returns (thrown: Option<Failure>)
      modifies this
      ensures redeemed == old(redeemed)
      ensures thrown.None? <==> Parkable(old(connected), old(target), old(frame), old(pending)) && park.Done?
      ensures thrown.None? ==> Kept()
      ensures thrown.None? ==> preload == old(preload) && frame == old(frame)
      ensures thrown.Some? && thrown.value.Failed? ==> !Clean(thrown.value.category)
      ensures thrown.Some? && Parkable(old(connected), old(target), old(frame), old(pending)) ==> Closed()
      ensures !Parkable(old(connected), old(target), old(frame), old(pending)) ==>
              thrown == Some(Failed(Protocol)) && connected == old(connected) && target == old(target)
              && frame == old(frame) && pending == old(pending) && doc == old(doc) && preload == old(preload)
    {
      if !connected || !target || frame.None? || pending.Some? {
        return Some(Failed(Protocol));
      }
      if !park.Done? {
        var confirmed := Close(closing);
        return Some(Thrown(park, Protocol));
      }
      doc := BlankDoc;
      return None;
    }

    ghost predicate Kept()
      reads this
    {
      connected && target && frame.Some? && pending.None? && doc == BlankDoc
    }

    /** Connects, creates or reuses the target, and confirms its frame. The document is not touched. */
    method Prepare(w: Script) returns (thrown: Option<Failure>)
      requires Closed() || Inert()
      modifies this
      ensures doc == BlankDoc && !preload && pending.None? && redeemed == old(redeemed)
      ensures thrown.None? <==> Prepares(old(connected), old(target), old(frame), w)
      ensures thrown.None? <==>
              && (if old(connected) then w.parametersMatch else w.connect.Done?)
              && (old(target) || (w.create.Done? && w.attached))
              && w.enable.Done? && w.frameTree.Done? && w.frame.Some? && (old(frame).None? || old(frame) == w.frame)
      ensures thrown.None? ==> Kept()
      ensures thrown.Some? && thrown.value.Failed? ==> !Clean(thrown.value.category)
    {
      if connected {
        if !w.parametersMatch {
          return Some(Failed(Protocol));
        }
      } else {
        if !w.connect.Done? {
          return Some(Thrown(w.connect, PreNavigationTimeout));
        }
        connected := true;
      }
      if !target {
        if !w.create.Done? {
          return Some(Thrown(w.create, PreNavigationTimeout));
        }
        if !w.attached {
          return Some(Failed(Protocol));
        }
        target := true;
      }
      if !w.enable.Done? {
        return Some(Thrown(w.enable, PreNavigationTimeout));
      }
      if !w.frameTree.Done? {
        return Some(Thrown(w.frameTree, PreNavigationTimeout));
      }
      if w.frame.None? || (frame.Some? && frame != w.frame) {
        return Some(Failed(Protocol));
      }
      frame := w.frame;
      return None;
    }

    /** Removing the preload takes three acknowledged commands; until the last one it may still be installed. */
    method RemovePreload(w: Script) returns (thrown: Option<Failure>)
      modifies this`preload
      ensures thrown.None? <==> PreloadGoes(w)
      ensures thrown.None? <==> w.workerStatus.Done? && w.removed && w.removal.Done?
      ensures preload == (old(preload) && !PreloadGoes(w))
      ensures thrown.Some? && thrown.value.Failed? ==> !Clean(thrown.value.category)
    {
      if !w.workerStatus.Done? {
        return Some(Thrown(w.workerStatus, PostNavigationTimeout));
      }
      if !w.removed {
        return Some(Failed(Protocol));
      }
      if !w.removal.Done? {
        return Some(Thrown(w.removal, PostNavigationTimeout));
      }
      preload := false;
      return None;
    }

    /** What a classified page does to a transaction: nothing, a pending continuation, or a failure. */
    method Classify(document: Document, anubisSpec: bool, final: bool, w: Script, unused: Token)
      returns (answer: Option<Answer>, thrown: Option<Failure>)
      requires connected && target && frame.Some? && pending.None? && unused !in redeemed
      requires anubisSpec ==> preload
      modifies this`pending
      ensures answer == if final then ResultOf(document, anubisSpec, w, unused)
                        else if document.Anubis? && anubisSpec && w.workerStatus.Done? then Some(PendingPow(unused))
                        else None
      ensures thrown.None? <==> answer.Some? || (document.Content? && !final)
      ensures forall c :: answer == Some(Result(Some(c))) <==>
                final && (document == Challenge(c)
                          || (c == Captcha && !anubisSpec && (document.Anubis? || document.UnsupportedAnubis?)))
      ensures answer == Some(Result(None)) <==> final && (document.Content? || document.TerminalStatus?)
      ensures answer == Some(PendingPow(unused)) <==> document.Anubis? && anubisSpec && w.workerStatus.Done?
      ensures thrown.Some? && !(document.Anubis? && anubisSpec) ==> Blames(thrown, document, anubisSpec)
      ensures pending == if answer == Some(PendingPow(unused)) then Some(unused) else None
    {
      answer, thrown := None, None;
      match document {
        case PageCancelled => thrown := Some(WasCancelled);
        case PageBroken => thrown := Some(WasBroken);
        case Unreadable(c) => thrown := Some(Failed(c));
        case Content => if final { answer := Some(Result(None)); }
        case TerminalStatus =>
          if final { answer := Some(Result(None)); } else { thrown := Some(Failed(HttpStatus)); }
        case Challenge(c) =>
          if final { answer := Some(Result(Some(c))); } else { thrown := Some(Failed(c)); }
        case UnsupportedAnubis =>
          if final && !anubisSpec { answer := Some(Result(Some(Captcha))); } else { thrown := Some(Failed(Captcha)); }
        case Anubis =>
          if !anubisSpec {
            if final { answer := Some(Result(Some(Captcha))); } else { thrown := Some(Failed(Captcha)); }
          } else if !w.workerStatus.Done? {
            thrown := Some(Thrown(w.workerStatus, PostNavigationTimeout));
          } else {
            pending := Some(unused);
            answer := Some(PendingPow(unused));
          }
      }
    }

    /** The transaction proper; park tells whether the document may be the provider's when it throws. */
    method Transact(anubisSpec: bool, w: Script, unused: Token)
      returns (answer: Option<Answer>, thrown: Option<Failure>, park: bool)
      requires (Closed() || Inert()) && unused !in redeemed
      modifies this
      ensures redeemed == old(redeemed)
      ensures answer == Reply(Prepares(old(connected), old(target), old(frame), w), anubisSpec, w, unused)
      ensures Reports(answer, Opens(old(connected), old(target), old(frame), anubisSpec, w), anubisSpec, w, unused)
      ensures TellsWhy(thrown, Prepares(old(connected), old(target), old(frame), w), anubisSpec, w)
      ensures answer.Some? <==> thrown.None?
      ensures answer.Some? && answer.value.PendingPow? ==> answer.value.token == unused && Waiting(unused) && !park
      ensures answer.Some? && answer.value.Result? ==> Inert() && !park
      ensures thrown.Some? ==> pending.None?
      ensures thrown.Some? && thrown.value.Failed? && Clean(thrown.value.category) && !anubisSpec ==>
              connected && target && frame.Some? && !preload && (!park ==> doc == BlankDoc)
    {
      answer, park := None, false;
      thrown := Prepare(w);
      if thrown.Some? {
        return;
      }
      if anubisSpec {
        if !w.install.Done? {
          preload := w.install.Cancelled? || w.install.TimedOut?;
          thrown := Some(Thrown(w.install, PreNavigationTimeout));
          return;
        }
        preload := true;
      }
      match w.guard {
        case GuardCancelled => thrown := Some(WasCancelled);
        case GuardBroken => thrown := Some(WasBroken);
        case GuardRaises(c) => thrown := Some(Failed(c));
        case Denied => thrown := Some(Failed(Finalized));
        case Permitted =>
      }
      if thrown.Some? {
        return;
      }
      park := true;
      doc := ProviderDoc;
      if !w.navigate.Done? {
        thrown := Some(Thrown(w.navigate, NavigationTimeout));
        return;
      }
      answer, thrown := Classify(w.homepage, anubisSpec, false, w, unused);
      if answer.Some? {
        park := false;
        return;
      }
      if thrown.Some? {
        return;
      }
      if !w.submit.Done? {
        thrown := Some(if w.submit.Rejected? then Failed(w.submitCategory) else Thrown(w.submit, PostNavigationTimeout));
        return;
      }
      answer, thrown := Classify(w.result, anubisSpec, true, w, unused);
      if thrown.Some? {
        return;
      }
      if answer.value.PendingPow? {
        park := false;
        return;
      }
      if anubisSpec {
        thrown := RemovePreload(w);
        if thrown.Some? {
          answer := None;
          return;
        }
      }
      thrown := Park(w.park, w.closing);
      if thrown.Some? {
        answer := None;
        return;
      }
      park := false;
    }

    /**
     One search on this generation. With a continuation pending it changes nothing; otherwise, whatever the
     awaits do, it leaves the generation closed, inert, or pending on exactly the token it returns.
     */
    method Submit(anubisSpec: bool, w: Script, unused: Token) returns (answer: Option<Answer>, thrown: Option<Failure>)
      requires Settled() && unused !in redeemed
      modifies this
      ensures Settled() && redeemed == old(redeemed)
      ensures answer.Some? <==> thrown.None?
      ensures old(pending).Some? ==>
              thrown == Some(Failed(Protocol)) && pending == old(pending) && doc == old(doc) && connected
      ensures old(pending).None? ==>
              answer == Reply(Prepares(old(connected), old(target), old(frame), w), anubisSpec, w, unused)
      ensures old(pending).None? ==>
              Reports(answer, Opens(old(connected), old(target), old(frame), anubisSpec, w), anubisSpec, w, unused)
      ensures old(pending).None? ==>
              TellsWhy(thrown, Prepares(old(connected), old(target), old(frame), w), anubisSpec, w)
      ensures old(pending).None? && thrown.Some? ==>
              if !anubisSpec && thrown.value.Failed?
                 && thrown.value.category in {Finalized, HttpStatus, AccessDenied, RateLimited, Captcha}
              then w.park.Done? ==> Inert()
              else Closed()
      ensures old(pending).None? ==> (pending.Some? <==> answer == Some(PendingPow(unused)))
      ensures old(pending).None? && pending.Some? ==> pending == Some(unused) && Waiting(unused)
      ensures answer.Some? && answer.value.Result? ==> Inert()
      ensures old(pending).None? && thrown.Some? && Ambiguous(thrown.value, anubisSpec) ==> Closed()
      ensures old(pending).None? && thrown.Some? && !Ambiguous(thrown.value, anubisSpec) && w.park.Done? ==> Inert()
    {
      if pending.Some? {
        return None, Some(Failed(Protocol));
      }
      var park;
      answer, thrown, park := Transact(anubisSpec, w, unused);
      if thrown.Some? {
        if Ambiguous(thrown.value, anubisSpec) {
          var confirmed := Close(w.closing);
        } else if park {
          var parking := Park(w.park, w.closing);
        }
      }
    }

    /** Redeems the continuation's token for one resumed transaction; any other outcome closes the generation. */
    method Resume(token: Token, solved: bool, final: Document, w: Script)
      returns (answer: Option<Answer>, thrown: Option<Failure>)
      requires Settled()
      modifies this
      ensures Closed() || Inert()
      ensures answer.Some? <==> thrown.None?
      ensures answer.Some? <==> old(pending) == Some(token) && solved && Continues(final, w)
      ensures answer.Some? <==>
              && old(pending) == Some(token) && solved && w.navigate.Done? && (final.Content? || final.TerminalStatus?)
              && w.submit.Done? && w.workerStatus.Done? && w.removed && w.removal.Done? && w.park.Done?
      ensures answer.Some? ==> answer == Some(Result(None))
      ensures old(pending) == Some(token) && solved && w.navigate.Done? ==>
              && (final.Challenge? || final.Unreadable? ==> thrown == Some(Failed(final.category)))
              && (final.Anubis? || final.UnsupportedAnubis? ==> thrown == Some(Failed(Captcha)))
      ensures answer.Some? ==> token !in old(redeemed) && Inert()
      ensures redeemed == if old(pending) == Some(token) && solved then old(redeemed) + {token} else old(redeemed)
      ensures thrown.Some? ==> Closed()
    {
      answer := None;
      if pending != Some(token) {
        var confirmed := Close(w.closing);
        return None, Some(Failed(Protocol));
      }
      if !solved {
        pending := None;
        var confirmed := Close(w.closing);
        return None, Some(Failed(Protocol));
      }
      pending := None;
      redeemed := redeemed + {token};
      thrown := Continue(final, w);
      if thrown.Some? {
        var confirmed := Close(w.closing);
        return None, thrown;
      }
      answer := Some(Result(None));
    }

    method Continue(final: Document, w: Script) returns (thrown: Option<Failure>)
      requires connected && target && frame.Some? && pending.None?
      modifies this
      ensures redeemed == old(redeemed)
      ensures thrown.None? <==> Continues(final, w)
      ensures thrown.None? ==> Inert()
      ensures w.navigate.Done? ==>
              && (final.Challenge? || final.Unreadable? ==> thrown == Some(Failed(final.category)))
              && (final.Anubis? || final.UnsupportedAnubis? ==> thrown == Some(Failed(Captcha)))
    {
      doc := ProviderDoc;
      if !w.navigate.Done? {
        return Some(Thrown(w.navigate, PostNavigationTimeout));
      }
      match final {
        case Content | TerminalStatus =>
        case Challenge(c) => return Some(Failed(c));
        case Unreadable(c) => return Some(Failed(c));
        case Anubis | UnsupportedAnubis => return Some(Failed(Captcha));
        case PageBroken => return Some(WasBroken);
        case PageCancelled => return Some(WasCancelled);
      }
      if !w.submit.Done? {
        return Some(if w.submit.Rejected? then Failed(w.submitCategory) else Thrown(w.submit, PostNavigationTimeout));
      }
      thrown := RemovePreload(w);
      if thrown.Some? {
        return;
      }
      thrown := Park(w.park, w.closing);
    }

    /** Gives a continuation up: the generation is closed, and the token can no longer be redeemed. */
    method Abort(token: Token, w: Script) returns (thrown: Option<Failure>)
      requires Settled()
      modifies this
      ensures Closed() && redeemed == old(redeemed)
      ensures thrown.Some? <==> old(pending) != Some(token)
    {
      var matches := pending == Some(token);
      pending := None;
      var confirmed := Close(w.closing);
      thrown := if matches then None else Some(Failed(Protocol));
    }
  }

  predicate Parkable(connected: bool, target: bool, frame: Option<nat>, pending: Option<Token>) {
    connected && target && frame.Some? && pending.None?
  }

  /** After a failure like this the browser's state is unknown, so the generation is given up. */
  predicate Ambiguous(f: Failure, anubisSpec: bool) {
    !f.Failed? || anubisSpec || !Clean(f.category)
  }
}
