/**
 Progress-gated continuation of an interrupted inference stream. The script holds the upstream attempts in
 order: the packets each delivers and how it ends. What is proved is about the packets that reach the
 consumer, the prompts sent upstream, and how often the upstream is asked at all.
 */
module Continuation {
  import opened Common

  /** One packet; a missing text is None, which differs from an empty one. */
  datatype Packet = Packet(content: Option<string>, reasoning: Option<string>, tools: bool, usage: bool, finish: bool)

  datatype AttemptEnd = Completes | Breaks(retryable: bool)

  datatype Attempt = Attempt(packets: seq<Packet>, end: AttemptEnd)

  datatype Notice = ContinuationNotice | ReasoningNotice | RecoveryFailed | FinalizationFailed

  datatype Output = Sent(packet: Packet) | Note(notice: Notice)

  /** What the upstream is asked: the original prompt, or it followed by everything received and one instruction. */
  datatype Request = Original | Continue(answer: string, reasoning: string)

  datatype Ending = Done | Warned | GaveUp | Raised | Unanswered

  function Text(t: Option<string>): string {
    if t.Some? then t.value else ""
  }

  function Answer(ps: seq<Packet>): string {
    if ps == [] then "" else Answer(ps[..|ps| - 1]) + Text(ps[|ps| - 1].content)
  }

  function Reasoning(ps: seq<Packet>): string {
    if ps == [] then "" else Reasoning(ps[..|ps| - 1]) + Text(ps[|ps| - 1].reasoning)
  }

  function Received(attempts: seq<Attempt>): seq<Packet> {
    if attempts == [] then [] else Received(attempts[..|attempts| - 1]) + attempts[|attempts| - 1].packets
  }

  function Packets(out: seq<Output>): seq<Packet> {
    if out == [] then []
    else Packets(out[..|out| - 1]) + (if out[|out| - 1].Sent? then [out[|out| - 1].packet] else [])
  }

  lemma AddPacket(ps: seq<Packet>, p: Packet)
    ensures Answer(ps + [p]) == Answer(ps) + Text(p.content) && Reasoning(ps + [p]) == Reasoning(ps) + Text(p.reasoning)
  {
    assert (ps + [p])[..|ps|] == ps;
  }

  lemma NextPacket(ps: seq<Packet>, i: nat)
    requires i < |ps|
    ensures Answer(ps[..i + 1]) == Answer(ps[..i]) + Text(ps[i].content)
    ensures Reasoning(ps[..i + 1]) == Reasoning(ps[..i]) + Text(ps[i].reasoning)
  {
    assert ps[..i + 1] == ps[..i] + [ps[i]];
    AddPacket(ps[..i], ps[i]);
  }

  lemma NoPackets()
    ensures Answer([]) == "" && Reasoning([]) == "" && Packets([]) == [] && Received([]) == []
  {
  }

  lemma NextAttempt(script: seq<Attempt>, k: nat)
    requires k < |script|
    ensures Received(script[..k + 1]) == Received(script[..k]) + script[k].packets
    ensures Answer(Received(script[..k + 1])) == Answer(Received(script[..k])) + Answer(script[k].packets)
    ensures Reasoning(Received(script[..k + 1])) == Reasoning(Received(script[..k])) + Reasoning(script[k].packets)
  {
    hide Answer, Reasoning;
    assert script[..k + 1][..k] == script[..k];
    AnswerAppend(Received(script[..k]), script[k].packets);
    ReasoningAppend(Received(script[..k]), script[k].packets);
  }

  lemma {:induction false} AnswerAppend(xs: seq<Packet>, ys: seq<Packet>)
    ensures Answer(xs + ys) == Answer(xs) + Answer(ys)
    decreases |ys|
  {
    if ys == [] {
      assert xs + ys == xs;
    } else {
      assert (xs + ys)[..|xs + ys| - 1] == xs + ys[..|ys| - 1];
      AnswerAppend(xs, ys[..|ys| - 1]);
    }
  }

  lemma {:induction false} ReasoningAppend(xs: seq<Packet>, ys: seq<Packet>)
    ensures Reasoning(xs + ys) == Reasoning(xs) + Reasoning(ys)
    decreases |ys|
  {
    if ys == [] {
      assert xs + ys == xs;
    } else {
      assert (xs + ys)[..|xs + ys| - 1] == xs + ys[..|ys| - 1];
      ReasoningAppend(xs, ys[..|ys| - 1]);
    }
  }

  lemma {:induction false} PacketsAppend(xs: seq<Output>, ys: seq<Output>)
    ensures Packets(xs + ys) == Packets(xs) + Packets(ys)
    decreases |ys|
  {
    if ys == [] {
      assert xs + ys == xs;
    } else {
      assert (xs + ys)[..|xs + ys| - 1] == xs + ys[..|ys| - 1];
      PacketsAppend(xs, ys[..|ys| - 1]);
    }
  }

  function Sends(ps: seq<Packet>): seq<Output> {
    if ps == [] then [] else Sends(ps[..|ps| - 1]) + [Sent(ps[|ps| - 1])]
  }

  lemma {:induction false} SendsPackets(ps: seq<Packet>)
    ensures |Sends(ps)| == |ps| && Packets(Sends(ps)) == ps
    ensures forall i | 0 <= i < |ps| :: Sends(ps)[i] == Sent(ps[i])
    decreases |ps|
  {
    if ps != [] {
      SendsPackets(ps[..|ps| - 1]);
      assert Sends(ps)[..|Sends(ps)| - 1] == Sends(ps[..|ps| - 1]);
      assert ps == ps[..|ps| - 1] + [ps[|ps| - 1]];
    }
  }

  // ---- One attempt ----

  predicate Silent(p: Packet) {
    Text(p.reasoning) == ""
  }

  /** Nothing after the first answer text carries reasoning; answered tells whether some came before. */
  predicate Quiet(sent: seq<Packet>, answered: bool) {
    forall i | 0 <= i < |sent| && (answered || Answer(sent[..i]) != "") :: Silent(sent[i])
  }

  /** Reasoning that a continuation must not show any more: answer text came before it. */
  predicate Withheld(packets: seq<Packet>, continuing: bool, answered: bool, i: nat)
    requires i < |packets|
  {
    continuing && (answered || Answer(packets[..i]) != "") && Text(packets[i].reasoning) != ""
  }

  /** The packet carries something for the consumer. */
  predicate Carries(packets: seq<Packet>, continuing: bool, answered: bool, i: nat)
    requires i < |packets|
  {
    || Text(packets[i].content) != "" || packets[i].tools || packets[i].usage || packets[i].finish
    || (packets[i].reasoning.Some? && !Withheld(packets, continuing, answered, i))
  }

  /** Of the first n packets exactly those that carry something were sent, in order, withheld reasoning removed. */
  predicate SentAt(packets: seq<Packet>, n: nat, continuing: bool, answered: bool, sent: seq<Packet>, kept: seq<nat>)
    requires n <= |packets|
  {
    && |kept| == |sent|
    && (forall j | 0 <= j < |kept| :: kept[j] < n)
    && (forall j, l | 0 <= j < l < |kept| :: kept[j] < kept[l])
    && (forall i: nat | i < n :: i in kept <==> Carries(packets, continuing, answered, i))
    && (forall j | 0 <= j < |kept| ::
          sent[j] == if Withheld(packets, continuing, answered, kept[j]) then packets[kept[j]].(reasoning := None)
                     else packets[kept[j]])
  }

  ghost predicate Relayed(packets: seq<Packet>, continuing: bool, answered: bool, sent: seq<Packet>) {
    exists kept :: SentAt(packets, |packets|, continuing, answered, sent, kept)
  }

  lemma {:induction false} SentAtNext(packets: seq<Packet>, n: nat, continuing: bool, answered: bool, sent: seq<Packet>,
                                      kept: seq<nat>, p: Packet)
    requires n < |packets| && SentAt(packets, n, continuing, answered, sent, kept)
    requires p == if Withheld(packets, continuing, answered, n) then packets[n].(reasoning := None) else packets[n]
    ensures if Carries(packets, continuing, answered, n)
            then SentAt(packets, n + 1, continuing, answered, sent + [p], kept + [n])
            else SentAt(packets, n + 1, continuing, answered, sent, kept)
  {
    hide Withheld, Carries;
    if Carries(packets, continuing, answered, n) {
      var more := kept + [n];
      forall i: nat | i < n + 1 ensures i in more <==> Carries(packets, continuing, answered, i) {
        assert i in more <==> i in kept || i == n;
      }
    }
  }

  /**
   Relays one attempt. A packet is passed on when it carries anything; in a continuation, reasoning that comes
   after answer text is withheld but still remembered for the next prompt.
   */
  method Relay(packets: seq<Packet>, continuing: bool, answered: bool)
    returns (sent: seq<Packet>, tools: bool, finish: bool, progress: bool)
    ensures Answer(sent) == Answer(packets) && |sent| <= |packets|
    ensures !continuing ==> Reasoning(sent) == Reasoning(packets)
    ensures continuing ==> Quiet(sent, answered)
    ensures tools <==> exists i :: 0 <= i < |packets| && packets[i].tools
    ensures finish <==> exists i :: 0 <= i < |packets| && packets[i].finish
    ensures progress <==> continuing && (Answer(packets) != "" || Reasoning(packets) != "")
    ensures Relayed(packets, continuing, answered, sent)
  {
    hide Answer, Reasoning, SentAt;
    NoPackets();
    ghost var kept: seq<nat> := [];
    NothingSent(packets, continuing, answered);
    sent, tools, finish, progress := [], false, false, false;
    var started := answered;
    assert packets[..0] == [];
    var i := 0;
    while i < |packets|
      invariant 0 <= i <= |packets| && |sent| <= i
      invariant Answer(sent) == Answer(packets[..i])
      invariant !continuing ==> Reasoning(sent) == Reasoning(packets[..i])
      invariant continuing ==> Quiet(sent, answered)
      invariant SentAt(packets, i, continuing, answered, sent, kept)
      invariant started <==> answered || Answer(packets[..i]) != ""
      invariant tools <==> exists j :: 0 <= j < i && packets[j].tools
      invariant finish <==> exists j :: 0 <= j < i && packets[j].finish
      invariant progress <==> continuing && (Answer(packets[..i]) != "" || Reasoning(packets[..i]) != "")
    {
      var packet := packets[i];
      NextPacket(packets, i);
      tools := tools || packet.tools;
      if Text(packet.reasoning) != "" {
        progress := progress || continuing;
        if continuing && started {
          packet := packet.(reasoning := None);
        }
      }
      if Text(packet.content) != "" {
        started := true;
        progress := progress || continuing;
      }
      finish := finish || packet.finish;
      SentAtNext(packets, i, continuing, answered, sent, kept, packet);
      if Text(packet.content) != "" || packet.reasoning.Some? || packet.tools || packet.usage || packet.finish {
        AddPacket(sent, packet);
        QuietExtends(sent, packet, answered, continuing);
        sent, kept := sent + [packet], kept + [i];
      }
      i := i + 1;
    }
    assert packets[..i] == packets;
  }

  lemma NothingSent(packets: seq<Packet>, continuing: bool, answered: bool)
    ensures SentAt(packets, 0, continuing, answered, [], [])
  {
  }

  lemma {:induction false} QuietExtends(sent: seq<Packet>, p: Packet, answered: bool, continuing: bool)
    requires continuing ==> Quiet(sent, answered)
    requires continuing && (answered || Answer(sent) != "") ==> Silent(p)
    ensures continuing ==> Quiet(sent + [p], answered)
  {
    hide Answer;
    if continuing {
      forall i | 0 <= i < |sent| + 1 && (answered || Answer((sent + [p])[..i]) != "") ensures Silent((sent + [p])[i]) {
        if i < |sent| {
          assert (sent + [p])[..i] == sent[..i];
        } else {
          assert (sent + [p])[..i] == sent;
        }
      }
    }
  }

  // ---- The whole stream ----

  /** Once a notice has been shown and answer text exists, neither a packet nor a notice adds to the reasoning. */
  predicate QuietAt(before: seq<Output>, o: Output) {
    Answer(Packets(before)) != "" ==>
      if o.Note? then o.notice != ReasoningNotice
      else (exists k :: 0 <= k < |before| && before[k].Note?) ==> Silent(o.packet)
  }

  predicate OneReasoning(out: seq<Output>) {
    forall j | 0 <= j < |out| :: QuietAt(out[..j], out[j])
  }

  predicate Progress(a: Attempt) {
    Answer(a.packets) != "" || Reasoning(a.packets) != ""
  }

  predicate HasTools(a: Attempt) {
    exists i :: 0 <= i < |a.packets| && a.packets[i].tools
  }

  predicate HasFinish(a: Attempt) {
    exists i :: 0 <= i < |a.packets| && a.packets[i].finish
  }

  /** The k-th attempt may be continued: a retryable break, no tool or finish, and progress if it continued another. */
  predicate Continuable(a: Attempt, k: nat) {
    a.end == Breaks(true) && !HasTools(a) && !HasFinish(a) && (k > 0 ==> Progress(a))
  }

  /** Request k carries all that was received before it, and follows only attempts that may be continued. */
  predicate RequestOk(r: Request, script: seq<Attempt>, k: nat)
    requires k <= |script|
  {
    if k == 0 then r == Original
    else
      && r == Continue(Answer(Received(script[..k])), Reasoning(Received(script[..k])))
      && r != Continue("", "")
      && forall i | 0 <= i < k :: Continuable(script[i], i)
  }

  /** The packets of each attempt, followed by the notice that came after it. */
  function Woven(parts: seq<seq<Packet>>, notes: seq<Notice>): seq<Output> {
    if parts == [] then []
    else
      var n := |parts| - 1;
      Woven(parts[..n], notes) + Sends(parts[n]) + (if n < |notes| then [Note(notes[n])] else [])
  }

  lemma {:induction false} WovenPrefix(parts: seq<seq<Packet>>, notes: seq<Notice>, more: seq<Notice>)
    requires |parts| <= |notes|
    ensures Woven(parts, notes + more) == Woven(parts, notes)
    decreases |parts|
  {
    hide Sends;
    if parts != [] {
      WovenPrefix(parts[..|parts| - 1], notes, more);
    }
  }

  lemma {:induction false} WeavePart(parts: seq<seq<Packet>>, notes: seq<Notice>, sent: seq<Packet>)
    requires |parts| == |notes|
    ensures Woven(parts + [sent], notes) == Woven(parts, notes) + Sends(sent)
    ensures forall note :: Woven(parts + [sent], notes + [note]) == Woven(parts + [sent], notes) + [Note(note)]
  {
    hide Sends;
    assert (parts + [sent])[..|parts|] == parts;
    forall note ensures Woven(parts + [sent], notes + [note]) == Woven(parts + [sent], notes) + [Note(note)] {
      WovenPrefix(parts, notes, [note]);
    }
  }

  /** Each part is what was sent of its attempt. */
  ghost predicate PartsOk(script: seq<Attempt>, parts: seq<seq<Packet>>) {
    |parts| <= |script| && forall k | 0 <= k < |parts| ::
      Relayed(script[k].packets, k > 0, Answer(Received(script[..k])) != "", parts[k])
  }

  /** Each of the first n notices says whether answer text had been received by then. */
  predicate NotesOk(script: seq<Attempt>, notes: seq<Notice>, n: nat) {
    n <= |notes| && n <= |script| && forall k | 0 <= k < n ::
      notes[k] == if Answer(Received(script[..k + 1])) != "" then ContinuationNotice else ReasoningNotice
  }

  lemma PartsOkNext(script: seq<Attempt>, parts: seq<seq<Packet>>, sent: seq<Packet>)
    requires PartsOk(script, parts) && |parts| < |script|
    requires Relayed(script[|parts|].packets, |parts| > 0, Answer(Received(script[..|parts|])) != "", sent)
    ensures PartsOk(script, parts + [sent])
  {
    hide Relayed, Answer, Received;
  }

  lemma NotesOkNext(script: seq<Attempt>, notes: seq<Notice>, n: nat, note: Notice)
    requires NotesOk(script, notes, n) && |notes| == n
    ensures NotesOk(script, notes + [note], n)
    ensures n < |script| && note == (if Answer(Received(script[..n + 1])) != "" then ContinuationNotice else ReasoningNotice)
            ==> NotesOk(script, notes + [note], n + 1)
  {
    hide Answer, Received;
  }

  /** A broken attempt may be continued: retryable, no tool call or finish, unstructured, and something was received. */
  predicate Preserved(a: Attempt, all: seq<Packet>, structured: bool) {
    a.end == Breaks(true) && !HasFinish(a) && !HasTools(a) && !structured && (Answer(all) != "" || Reasoning(all) != "")
  }

  method Stream(script: seq<Attempt>, structured: bool)
    returns (out: seq<Output>, requests: seq<Request>, end: Ending, ghost parts: seq<seq<Packet>>, ghost notes: seq<Notice>)
    ensures 1 <= |requests| <= |script| + 1 && (structured ==> |requests| == 1)
    ensures forall k | 0 <= k < |requests| :: RequestOk(requests[k], script, k)
    ensures end.Unanswered? <==> |requests| == |script| + 1
    ensures Answer(Packets(out)) == Answer(Received(if end.Unanswered? then script else script[..|requests|]))
    ensures OneReasoning(out)
    ensures !end.Unanswered? ==>
            var last := script[|requests| - 1];
            && (end.Done? <==> last.end.Completes?)
            && (end.Warned? <==> last.end.Breaks? && HasFinish(last))
            && (end.GaveUp? <==>
                  && Preserved(last, Received(script[..|requests|]), structured)
                  && |requests| > 1 && !Progress(last))
            && (end.Raised? <==>
                  last.end.Breaks? && !HasFinish(last) && !Preserved(last, Received(script[..|requests|]), structured))
    ensures out == Woven(parts, notes) && |parts| == if end.Unanswered? then |script| else |requests|
    ensures PartsOk(script, parts) && NotesOk(script, notes, |requests| - 1)
    ensures |notes| == |requests| - 1 + if end.Warned? || end.GaveUp? then 1 else 0
    ensures end.Warned? ==> notes[|requests| - 1] == FinalizationFailed
    ensures end.GaveUp? ==> notes[|requests| - 1] == RecoveryFailed
  {
    hide Answer, Reasoning, Packets, Received, OneReasoning, Sends, Relayed, Woven, PartsOk, NotesOk;
    NoPackets();
    out, requests, parts, notes := [], [Original], [], [];
    NothingWoven(script);
    var answer, thoughts: string := "", "";
    assert OneReasoning(out) by { NothingIsQuiet(); }
    assert script[..0] == [];
    var k := 0;
    while k < |script|
      invariant 0 <= k <= |script| && |requests| == k + 1 && (structured ==> k == 0)
      invariant forall j | 0 <= j <= k :: RequestOk(requests[j], script, j)
      invariant answer == Answer(Received(script[..k])) && thoughts == Reasoning(Received(script[..k]))
      invariant Answer(Packets(out)) == answer && OneReasoning(out)
      invariant out == Woven(parts, notes) && |parts| == |notes| == k
      invariant PartsOk(script, parts) && NotesOk(script, notes, k)
      invariant k == 0 ==> out == []
      invariant k > 0 ==> |answer| + |thoughts| > 0
    {
      var a := script[k];
      var sent, tools, finish, progress := Relay(a.packets, k > 0, answer != "");
      NextAttempt(script, k);
      SendExtends(out, sent, k > 0);
      WeavePart(parts, notes, sent);
      PartsOkNext(script, parts, sent);
      out, parts := out + Sends(sent), parts + [sent];
      answer := answer + Answer(a.packets);
      thoughts := thoughts + Reasoning(a.packets);
      if a.end.Completes? {
        return out, requests, Done, parts, notes;
      }
      if finish {
        NoteExtends(out, FinalizationFailed);
        NotesOkNext(script, notes, k, FinalizationFailed);
        return out + [Note(FinalizationFailed)], requests, Warned, parts, notes + [FinalizationFailed];
      }
      if (answer == "" && thoughts == "") || tools || structured || !a.end.retryable {
        return out, requests, Raised, parts, notes;
      }
      if k > 0 && !progress {
        NoteExtends(out, RecoveryFailed);
        NotesOkNext(script, notes, k, RecoveryFailed);
        return out + [Note(RecoveryFailed)], requests, GaveUp, parts, notes + [RecoveryFailed];
      }
      var notice := if answer != "" then ContinuationNotice else ReasoningNotice;
      NoteExtends(out, notice);
      NotesOkNext(script, notes, k, notice);
      out, notes := out + [Note(notice)], notes + [notice];
      NextRequest(requests[k], script, k, answer, thoughts);
      requests := requests + [Continue(answer, thoughts)];
      k := k + 1;
    }
    assert script[..k] == script;
    end := Unanswered;
  }

  lemma NothingWoven(script: seq<Attempt>)
    ensures Woven([], []) == [] && PartsOk(script, []) && NotesOk(script, [], 0)
  {
  }

  lemma NothingIsQuiet()
    ensures OneReasoning([])
  {
  }

  lemma NextRequest(r: Request, script: seq<Attempt>, k: nat, answer: string, thoughts: string)
    requires k < |script| && RequestOk(r, script, k) && Continuable(script[k], k)
    requires answer == Answer(Received(script[..k + 1])) && thoughts == Reasoning(Received(script[..k + 1]))
    requires answer != "" || thoughts != ""
    ensures RequestOk(Continue(answer, thoughts), script, k + 1)
  {
    hide Answer, Reasoning, Received, Continuable;
  }

  lemma {:induction false} SendExtends(out: seq<Output>, sent: seq<Packet>, continuing: bool)
    requires OneReasoning(out)
    requires continuing ==> Quiet(sent, Answer(Packets(out)) != "")
    requires !continuing ==> out == []
    ensures OneReasoning(out + Sends(sent))
    ensures Answer(Packets(out + Sends(sent))) == Answer(Packets(out)) + Answer(sent)
  {
    hide Answer, Packets, Sends, QuietAt;
    SendsPackets(sent);
    PacketsAppend(out, Sends(sent));
    AnswerAppend(Packets(out), sent);
    var all := out + Sends(sent);
    forall j | 0 <= j < |all| ensures QuietAt(all[..j], all[j]) {
      if j < |out| {
        assert all[..j] == out[..j];
      } else {
        SentIsQuiet(out, sent, continuing, j - |out|);
        Cut(out, Sends(sent), j - |out|);
      }
    }
  }

  lemma Cut<T>(xs: seq<T>, ys: seq<T>, i: nat)
    requires i <= |ys|
    ensures (xs + ys)[..|xs| + i] == xs + ys[..i]
  {
  }

  lemma {:induction false} SentIsQuiet(out: seq<Output>, sent: seq<Packet>, continuing: bool, i: nat)
    requires continuing ==> Quiet(sent, Answer(Packets(out)) != "")
    requires !continuing ==> out == []
    requires i < |sent| == |Sends(sent)|
    ensures QuietAt(out + Sends(sent)[..i], Sent(sent[i]))
  {
    hide Answer, Packets, Sends;
    SendsPrefix(sent, i);
    SendsPackets(sent[..i]);
    PacketsAppend(out, Sends(sent[..i]));
    AnswerAppend(Packets(out), sent[..i]);
    if !continuing {
      assert out + Sends(sent)[..i] == Sends(sent[..i]);
    }
  }

  lemma {:induction false} SendsPrefix(sent: seq<Packet>, i: nat)
    requires i <= |sent|
    ensures |Sends(sent)| == |sent| && Sends(sent)[..i] == Sends(sent[..i])
  {
    SendsPackets(sent);
    SendsPackets(sent[..i]);
    forall j | 0 <= j < i ensures Sends(sent)[..i][j] == Sends(sent[..i])[j] {
      assert Sends(sent)[j] == Sent(sent[j]);
    }
  }

  lemma {:induction false} NoteExtends(out: seq<Output>, n: Notice)
    requires OneReasoning(out) && (n == ReasoningNotice ==> Answer(Packets(out)) == "")
    ensures OneReasoning(out + [Note(n)]) && Packets(out + [Note(n)]) == Packets(out)
  {
    hide Answer;
    var all := out + [Note(n)];
    assert all[..|out|] == out;
    forall j | 0 <= j < |all| ensures QuietAt(all[..j], all[j]) {
      if j < |out| {
        assert all[..j] == out[..j];
      }
    }
  }

  // ---- How often the upstream is asked ----

  function ProgressPackets(ps: seq<Packet>): nat {
    if ps == [] then 0
    else ProgressPackets(ps[..|ps| - 1])
         + (if Text(ps[|ps| - 1].content) != "" || Text(ps[|ps| - 1].reasoning) != "" then 1 else 0)
  }

  lemma {:induction false} ProgressCounts(ps: seq<Packet>)
    requires Answer(ps) != "" || Reasoning(ps) != ""
    ensures ProgressPackets(ps) >= 1
    decreases |ps|
  {
    var last := ps[|ps| - 1];
    if Text(last.content) == "" && Text(last.reasoning) == "" {
      assert Answer(ps) == Answer(ps[..|ps| - 1]) && Reasoning(ps) == Reasoning(ps[..|ps| - 1]);
      ProgressCounts(ps[..|ps| - 1]);
    }
  }

  /** Progress packets of the continuations among attempts 1 to n. */
  function ContinuationProgress(script: seq<Attempt>, n: nat): nat
    requires n < |script| || n == 0
  {
    if n == 0 then 0 else ContinuationProgress(script, n - 1) + ProgressPackets(script[n].packets)
  }

  /** Every continuation that was itself continued delivered a packet of progress. */
  lemma {:induction false} ContinuedMadeProgress(script: seq<Attempt>, n: nat)
    requires n < |script| && forall i | 0 <= i <= n :: Continuable(script[i], i)
    ensures n <= ContinuationProgress(script, n)
    decreases n
  {
    if n > 0 {
      ContinuedMadeProgress(script, n - 1);
      assert Continuable(script[n], n);
      ProgressCounts(script[n].packets);
    }
  }

  /** Upstream requests number at most two more than the progress-making packets of the continuations. */
  lemma {:induction false} RequestsAtMostProgress(requests: seq<Request>, script: seq<Attempt>)
    requires 2 <= |requests| <= |script| + 1
    requires RequestOk(requests[|requests| - 1], script, |requests| - 1)
    ensures |requests| <= 2 + ContinuationProgress(script, |requests| - 2)
  {
    ContinuedMadeProgress(script, |requests| - 2);
  }
}
