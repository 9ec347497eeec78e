/**
 One search run over a pool of providers: scan, choose a tier, reserve, dispatch, and go on with an untried
 provider until an attempt brings a main result. The script holds what each successive scan observes.
 */
module SearchRun {
  import opened Common
  import opened Rotation

  /**
   One scan and what follows it: which processors are not suspended, which providers can be reserved, whether
   the paid wait (if it is reached) yields a token, whether the chosen provider is found suspended at dispatch,
   and whether its attempt brings a main result.
   */
  datatype Scan = Scan(
    unsuspended: set<Name>,
    free: set<Name>,
    paidWait: bool,
    suspendedAtDispatch: bool,
    main: bool)

  datatype Selection = Chosen(name: Name) | NoneLeft | Wait(names: seq<Name>)

  predicate Regular(n: Name, lastResort: set<Name>) {
    n != PAID && n !in lastResort
  }

  /** No candidate of this kind was unsuspended when the scan looked. */
  predicate NoRegular(candidates: seq<Name>, lastResort: set<Name>, scan: Scan) {
    forall n | n in candidates && Regular(n, lastResort) :: n !in scan.unsuspended
  }

  predicate NoLastResort(candidates: seq<Name>, lastResort: set<Name>, scan: Scan) {
    forall n | n in candidates && n in lastResort :: n !in scan.unsuspended
  }

  /** A last-resort choice needs every regular candidate suspended, the paid choice every last-resort one too. */
  predicate TierRule(n: Name, candidates: seq<Name>, lastResort: set<Name>, scan: Scan) {
    && n in candidates && n in scan.unsuspended
    && (!Regular(n, lastResort) ==> NoRegular(candidates, lastResort, scan))
    && (n == PAID && n !in lastResort ==> NoLastResort(candidates, lastResort, scan))
  }

  /** The candidates the tier rule allows, in their order. */
  ghost predicate IsTier(tier: seq<Name>, candidates: seq<Name>, lastResort: set<Name>, scan: Scan) {
    && (forall n :: n in tier <==> TierRule(n, candidates, lastResort, scan))
    && exists kept :: tier == Keep(candidates, kept)
  }

  /** The choice is the first free one of the tier around the list from the cursor, which moves behind it. */
  predicate PickedFrom(tier: seq<Name>, at: nat, after: nat, free: set<Name>, name: Name, offset: nat) {
    && tier != [] && offset < |tier| && FirstFree(tier, at, free, offset)
    && name == tier[(at + offset) % |tier|] && after == (at + offset) % |tier| + 1
  }

  method SelectRef(cursor: Cursor, candidates: seq<Name>, lastResort: set<Name>, scan: Scan)
    returns (s: Selection, ghost tier: seq<Name>, ghost offset: nat)
    modifies cursor
    ensures IsTier(tier, candidates, lastResort, scan)
    ensures s.Chosen? <==> (exists n :: n in tier && n in scan.free) || (tier == [PAID] && scan.paidWait)
    ensures s.Chosen? && (exists n :: n in tier && n in scan.free) ==>
              PickedFrom(tier, old(cursor.at), cursor.at, scan.free, s.name, offset)
    ensures s.Chosen? && !(exists n :: n in tier && n in scan.free) ==> s.name == PAID && cursor.at == old(cursor.at)
    ensures s.Wait? ==> s.names == tier && tier != []
    ensures s.Chosen? ==> TierRule(s.name, candidates, lastResort, scan)
    ensures s.Chosen? ==> s.name in scan.free || (s.name == PAID && scan.paidWait)
    ensures s.NoneLeft? <==> forall n | n in candidates :: n !in scan.unsuspended
    ensures s.Wait? ==> s.names != [] && forall n | n in s.names ::
              TierRule(n, candidates, lastResort, scan) && n !in scan.free
    ensures s.Wait? ==> forall n | TierRule(n, candidates, lastResort, scan) :: n !in scan.free
    ensures !s.Chosen? ==> cursor.at == old(cursor.at)
  {
    var regular := Keep(candidates, scan.unsuspended - lastResort - {PAID});
    var last := Keep(candidates, scan.unsuspended * lastResort);
    var paid := Keep(candidates, scan.unsuspended * {PAID});
    var names := if regular != [] then regular else if last != [] then last else paid;
    tier := names;
    TierIsLowest(candidates, lastResort, scan);
    hide TierRule, Keep, IsTier;
    var chosen;
    chosen, offset := cursor.Reserve(regular, scan.free);
    if chosen.None? && regular == [] {
      chosen, offset := cursor.Reserve(last, scan.free);
    }
    if chosen.None? && regular == [] && last == [] {
      chosen, offset := cursor.Reserve(paid, scan.free);
    }
    TierMeans(tier, candidates, lastResort, scan);
    if chosen.Some? {
      return Chosen(chosen.value), tier, offset;
    }
    if names == [] {
      return NoneLeft, tier, offset;
    }
    assert names[0] in names;
    if names == [PAID] {
      if scan.paidWait {
        return Chosen(PAID), tier, offset;
      }
    }
    return Wait(names), tier, offset;
  }

  /** The lowest nonempty kind of unsuspended candidates is the tier. */
  lemma TierIsLowest(candidates: seq<Name>, lastResort: set<Name>, scan: Scan)
    ensures var regular := Keep(candidates, scan.unsuspended - lastResort - {PAID});
            var last := Keep(candidates, scan.unsuspended * lastResort);
            var paid := Keep(candidates, scan.unsuspended * {PAID});
            IsTier(if regular != [] then regular else if last != [] then last else paid, candidates, lastResort, scan)
  {
    var regular := Keep(candidates, scan.unsuspended - lastResort - {PAID});
    var last := Keep(candidates, scan.unsuspended * lastResort);
    if regular != [] {
      assert regular[0] in regular && Regular(regular[0], lastResort);
    } else {
      KeptNone(candidates, scan.unsuspended - lastResort - {PAID});
      if last != [] {
        assert last[0] in last;
      } else {
        KeptNone(candidates, scan.unsuspended * lastResort);
      }
    }
  }

  lemma TierMeans(tier: seq<Name>, candidates: seq<Name>, lastResort: set<Name>, scan: Scan)
    requires IsTier(tier, candidates, lastResort, scan)
    ensures forall n :: n in tier <==> TierRule(n, candidates, lastResort, scan)
    ensures tier == [] <==> forall n | n in candidates :: n !in scan.unsuspended
  {
    if n :| n in candidates && n in scan.unsuspended {
      LowestExists(candidates, lastResort, scan, n);
    }
    if tier != [] {
      assert tier[0] in tier;
    }
  }

  lemma LowestExists(candidates: seq<Name>, lastResort: set<Name>, scan: Scan, n: Name)
    requires n in candidates && n in scan.unsuspended
    ensures exists m :: TierRule(m, candidates, lastResort, scan)
  {
    if !NoRegular(candidates, lastResort, scan) {
      var m :| m in candidates && Regular(m, lastResort) && m in scan.unsuspended;
      assert TierRule(m, candidates, lastResort, scan);
    } else if !NoLastResort(candidates, lastResort, scan) {
      var m :| m in candidates && m in lastResort && m in scan.unsuspended;
      assert TierRule(m, candidates, lastResort, scan);
    } else {
      assert TierRule(n, candidates, lastResort, scan);
    }
  }

  lemma KeptNone(names: seq<Name>, kept: set<Name>)
    requires Keep(names, kept) == []
    ensures forall n | n in names :: n !in kept
  {
    forall n | n in names ensures n !in kept {
      assert n in kept ==> n in Keep(names, kept);
    }
  }

  // ---- The run ----

  /** One dispatched provider: which scan chose it and which providers had been tried before. */
  datatype Dispatch = Dispatch(name: Name, at: nat, tried: set<Name>)

  datatype Ending = FoundMain | PoolTried | NothingLeft | StillWaiting

  function Names(trace: seq<Dispatch>): set<Name> {
    set i | 0 <= i < |trace| :: trace[i].name
  }

  /** Each dispatch follows the tier rule of its own scan, over the eligible providers not tried before it. */
  ghost predicate Follows(d: Dispatch, order: seq<Name>, eligible: set<Name>, lastResort: set<Name>, script: seq<Scan>) {
    && d.at < |script| && d.name !in d.tried
    && TierRule(d.name, Keep(order, eligible - d.tried), lastResort, script[d.at])
    && !script[d.at].suspendedAtDispatch
  }

  ghost predicate Legal(trace: seq<Dispatch>, order: seq<Name>, eligible: set<Name>, lastResort: set<Name>,
                        script: seq<Scan>)
  {
    && (forall i | 0 <= i < |trace| ::
          Follows(trace[i], order, eligible, lastResort, script) && trace[i].tried == Names(trace[..i]))
    && (forall i, j | 0 <= i < j < |trace| :: trace[i].at < trace[j].at)
    && (forall i | 0 <= i < |trace| - 1 :: !script[trace[i].at].main)
  }

  /** The providers dispatched by scans before k. */
  function TriedBefore(trace: seq<Dispatch>, k: nat): set<Name> {
    set i | 0 <= i < |trace| && trace[i].at < k :: trace[i].name
  }

  /** Scan k was not passed over: it dispatched, its choice was found suspended, or nothing it may choose was free. */
  ghost predicate Spent(trace: seq<Dispatch>, order: seq<Name>, eligible: set<Name>, lastResort: set<Name>,
                        script: seq<Scan>, k: nat)
    requires k < |script|
  {
    || (exists i :: 0 <= i < |trace| && trace[i].at == k)
    || script[k].suspendedAtDispatch
    || forall n | TierRule(n, Keep(order, eligible - TriedBefore(trace, k)), lastResort, script[k]) ::
         n !in script[k].free
  }

  method SearchStandard(cursor: Cursor, order: seq<Name>, eligible: set<Name>, lastResort: set<Name>, script: seq<Scan>)
    returns (end: Ending, ghost trace: seq<Dispatch>, rounds: nat)
    modifies cursor
    ensures Legal(trace, order, eligible, lastResort, script) && rounds == |trace|
    ensures end.FoundMain? <==> trace != [] && script[trace[|trace| - 1].at].main
    ensures end.PoolTried? ==> forall n | n in order :: n in Names(trace)
    ensures end.NothingLeft? ==>
            || Keep(order, eligible - Names(trace)) == []
            || exists k :: 0 <= k < |script| && (forall i | 0 <= i < |trace| :: trace[i].at < k)
                 && forall n | n in Keep(order, eligible - Names(trace)) :: n !in script[k].unsuspended
    ensures end.StillWaiting? ==>
            forall k | 0 <= k < |script| :: Spent(trace, order, eligible, lastResort, script, k)
  {
    hide Spent, Legal, Follows, TierRule, Names, Keep;
    NothingDispatched(order, eligible, lastResort, script);
    var attempted: set<Name> := {};
    trace, rounds := [], 0;
    var k := 0;
    while k < |script|
      invariant 0 <= k <= |script| && rounds == |trace| && attempted == Names(trace)
      invariant Legal(trace, order, eligible, lastResort, script)
      invariant forall i | 0 <= i < |trace| :: trace[i].at < k && !script[trace[i].at].main
      invariant forall j | 0 <= j < k :: Spent(trace, order, eligible, lastResort, script, j)
    {
      var candidates := Keep(order, eligible - attempted);
      if candidates == [] {
        return NothingLeft, trace, rounds;
      }
      var s;
      ghost var tier, offset;
      s, tier, offset := SelectRef(cursor, candidates, lastResort, script[k]);
      if s.NoneLeft? {
        return NothingLeft, trace, rounds;
      }
      if s.Chosen? && !script[k].suspendedAtDispatch {
        var d := Dispatch(s.name, k, attempted);
        FollowsNow(d, order, eligible, lastResort, script);
        Extend(trace, d, order, eligible, lastResort, script);
        forall j | 0 <= j <= k ensures Spent(trace + [d], order, eligible, lastResort, script, j) {
          DispatchSpends(trace, d, order, eligible, lastResort, script, j);
        }
        trace, rounds := trace + [d], rounds + 1;
        attempted := attempted + {s.name};
        if script[k].main {
          return FoundMain, trace, rounds;
        }
        if forall n | n in order :: n in attempted {
          return PoolTried, trace, rounds;
        }
      } else {
        OtherwiseSpent(trace, order, eligible, lastResort, script, k);
      }
      k := k + 1;
    }
    end := StillWaiting;
  }

  lemma NothingDispatched(order: seq<Name>, eligible: set<Name>, lastResort: set<Name>, script: seq<Scan>)
    ensures Legal([], order, eligible, lastResort, script) && Names([]) == {}
  {
  }

  lemma FollowsNow(d: Dispatch, order: seq<Name>, eligible: set<Name>, lastResort: set<Name>, script: seq<Scan>)
    requires d.at < |script| && !script[d.at].suspendedAtDispatch
    requires TierRule(d.name, Keep(order, eligible - d.tried), lastResort, script[d.at])
    ensures Follows(d, order, eligible, lastResort, script)
  {
  }

  lemma DispatchSpends(trace: seq<Dispatch>, d: Dispatch, order: seq<Name>, eligible: set<Name>,
                       lastResort: set<Name>, script: seq<Scan>, j: nat)
    requires d.at < |script| && j <= d.at
    requires j < d.at ==> Spent(trace, order, eligible, lastResort, script, j)
    ensures Spent(trace + [d], order, eligible, lastResort, script, j)
  {
    hide TierRule, Keep;
    var longer := trace + [d];
    assert longer[|trace|] == d;
    if j < d.at {
      if i :| 0 <= i < |trace| && trace[i].at == j {
        assert longer[i].at == j;
      } else {
        SameBefore(trace, d, j);
      }
    }
  }

  lemma SameBefore(trace: seq<Dispatch>, d: Dispatch, j: nat)
    requires j <= d.at
    ensures TriedBefore(trace + [d], j) == TriedBefore(trace, j)
  {
    var longer := trace + [d];
    forall n | n in TriedBefore(trace, j) ensures n in TriedBefore(longer, j) {
      var i :| 0 <= i < |trace| && trace[i].at < j && trace[i].name == n;
      assert longer[i].at < j && longer[i].name == n;
    }
  }

  lemma OtherwiseSpent(trace: seq<Dispatch>, order: seq<Name>, eligible: set<Name>, lastResort: set<Name>,
                       script: seq<Scan>, k: nat)
    requires k < |script| && forall i | 0 <= i < |trace| :: trace[i].at < k
    requires script[k].suspendedAtDispatch
             || forall n | TierRule(n, Keep(order, eligible - Names(trace)), lastResort, script[k]) :: n !in script[k].free
    ensures Spent(trace, order, eligible, lastResort, script, k)
  {
    hide TierRule, Keep;
    assert TriedBefore(trace, k) == Names(trace);
  }

  lemma {:induction false} Extend(trace: seq<Dispatch>, d: Dispatch, order: seq<Name>, eligible: set<Name>,
                                  lastResort: set<Name>, script: seq<Scan>)
    requires Legal(trace, order, eligible, lastResort, script) && Follows(d, order, eligible, lastResort, script)
    requires d.tried == Names(trace) && forall i | 0 <= i < |trace| :: trace[i].at < d.at && !script[trace[i].at].main
    ensures Legal(trace + [d], order, eligible, lastResort, script)
    ensures Names(trace + [d]) == Names(trace) + {d.name}
  {
    hide Follows;
    var longer := trace + [d];
    forall i | 0 <= i < |longer|
      ensures Follows(longer[i], order, eligible, lastResort, script) && longer[i].tried == Names(longer[..i])
    {
      if i < |trace| {
        assert longer[..i] == trace[..i];
      } else {
        assert longer[..i] == trace;
      }
    }
    assert longer[|trace|] == d;
    forall n | n in Names(trace) ensures n in Names(longer) {
      var i :| 0 <= i < |trace| && trace[i].name == n;
      assert longer[i].name == n;
    }
  }

  /** A legal run dispatches no provider twice, so it has at most as many rounds as the pool has providers. */
  lemma {:induction false} DispatchedAtMostOnce(trace: seq<Dispatch>, order: seq<Name>, eligible: set<Name>,
                                                lastResort: set<Name>, script: seq<Scan>)
    requires Legal(trace, order, eligible, lastResort, script)
    ensures forall i, j | 0 <= i < j < |trace| :: trace[i].name != trace[j].name
    ensures |trace| <= |order|
  {
    forall i, j | 0 <= i < j < |trace| ensures trace[i].name != trace[j].name {
      assert Follows(trace[j], order, eligible, lastResort, script);
      assert trace[..j][i].name in Names(trace[..j]);
    }
    var names := seq(|trace|, i requires 0 <= i < |trace| => trace[i].name);
    forall i | 0 <= i < |names| ensures names[i] in order {
      assert Follows(trace[i], order, eligible, lastResort, script);
    }
    Pigeonhole(names, order);
  }

  lemma {:induction false} Pigeonhole(some: seq<Name>, all: seq<Name>)
    requires Distinct(some) && forall i | 0 <= i < |some| :: some[i] in all
    ensures |some| <= |all|
    decreases |some|
  {
    if some != [] {
      var last := some[|some| - 1];
      var at :| 0 <= at < |all| && all[at] == last;
      var others := all[..at] + all[at + 1..];
      var front := some[..|some| - 1];
      forall i | 0 <= i < |front| ensures front[i] in others {
        var k :| 0 <= k < |all| && all[k] == some[i];
        assert k != at;
        assert if k < at then others[k] == all[k] else others[k - 1] == all[k];
      }
      Pigeonhole(front, others);
    }
  }

  /** A paid dispatch means that no regular and no last-resort provider still untried was unsuspended. */
  lemma PaidIsLast(trace: seq<Dispatch>, order: seq<Name>, eligible: set<Name>, lastResort: set<Name>,
                   script: seq<Scan>, i: nat, n: Name)
    requires Legal(trace, order, eligible, lastResort, script) && i < |trace|
    requires trace[i].name == PAID && PAID !in lastResort
    requires n in order && n in eligible && n != PAID && n in script[trace[i].at].unsuspended
    ensures exists j :: 0 <= j < i && trace[j].name == n
  {
    assert Follows(trace[i], order, eligible, lastResort, script);
    var untried := eligible - trace[i].tried;
    assert n in Keep(order, untried) <==> n in order && n in untried;
    var j :| 0 <= j < |trace[..i]| && trace[..i][j].name == n;
    assert trace[j].name == n;
  }

  /** A last-resort dispatch means that every eligible regular provider was suspended or already dispatched. */
  lemma LastResortWaitsForRegular(trace: seq<Dispatch>, order: seq<Name>, eligible: set<Name>, lastResort: set<Name>,
                                  script: seq<Scan>, i: nat, n: Name)
    requires Legal(trace, order, eligible, lastResort, script) && i < |trace| && trace[i].name in lastResort
    requires n in order && n in eligible && Regular(n, lastResort) && n in script[trace[i].at].unsuspended
    ensures exists j :: 0 <= j < i && trace[j].name == n
  {
    assert Follows(trace[i], order, eligible, lastResort, script);
    var untried := eligible - trace[i].tried;
    assert n in Keep(order, untried) <==> n in order && n in untried;
    var j :| 0 <= j < |trace[..i]| && trace[..i][j].name == n;
    assert trace[j].name == n;
  }
}
