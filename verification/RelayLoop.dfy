/** The loop over the candidates of one request (internal/gateway/handler.go), with the cooldown table
    shared: other requests, probes and administrators may change it arbitrarily between any two of the
    loop's own steps. */
module RelayLoop {
  import opened Chunks
  import opened Cooldown
  import opened Relay

  datatype Request = Request(cands: seq<Candidate>, looks: seq<Look>, cfg: Config)
  {
    /** One look a candidate, in order of time. */
    predicate Proper() {
      && |looks| == |cands| && Contiguous(cands)
      && (forall i :: 0 <= i < |looks| ==> looks[i].now <= looks[i].finished)
      && (forall i, j :: 0 <= i < j < |looks| ==> looks[i].finished <= looks[j].now)
    }
  }

  /** A change others made to the table. */
  datatype Deed = Deed(before: Table, after: Table)

  /** Their changes up to each look the loop came to, and during each attempt that failed. */
  datatype History = History(met: map<nat, Deed>, during: map<nat, Deed>)

  const NOTHING := History(map[], map[])

  predicate Within(h: History, met: nat, during: nat) {
    (forall k :: k in h.met ==> k < met) && (forall k :: k in h.during ==> k < during)
  }

  /** The changes are those of the looks, and nothing else. */
  ghost predicate Honest(h: History, looks: seq<Look>) {
    && (forall k :: k in h.met ==> k < |looks| && h.met[k].after == looks[k].others(h.met[k].before))
    && (forall k :: k in h.during ==> k < |looks| && h.during[k].after == looks[k].meanwhile(h.during[k].before))
  }

  predicate Ends(d: Deed, s: string, t: int) { Live(d.before, s, t).Some? && Live(d.after, s, t).None? }

  predicate Begins(d: Deed, s: string, t: int) { Live(d.before, s, t).None? && Live(d.after, s, t).Some? }

  /** Others took away the scope's cooling at time t, after the attempt at `from` and before the loop
      met candidate `to`. */
  ghost predicate Shortened(h: History, from: nat, to: nat, s: string, t: int) {
    || (exists k :: k in h.met && from < k <= to && Ends(h.met[k], s, t))
    || (exists k :: k in h.during && from < k < to && Ends(h.during[k], s, t))
  }

  /** Others set the scope cooling at time t before the loop met candidate `to`. */
  ghost predicate Brought(h: History, to: nat, s: string, t: int) {
    || (exists k :: k in h.met && k <= to && Begins(h.met[k], s, t))
    || (exists k :: k in h.during && k < to && Begins(h.during[k], s, t))
  }

  /** More has happened. */
  predicate Extends(h: History, h': History) {
    && (forall k :: k in h.met ==> k in h'.met && h'.met[k] == h.met[k])
    && (forall k :: k in h.during ==> k in h'.during && h'.during[k] == h.during[k])
  }

  lemma ShortenedStays(h: History, h': History, from: nat, to: nat, to': nat, s: string, t: int)
    requires Shortened(h, from, to, s, t) && Extends(h, h') && to <= to'
    ensures Shortened(h', from, to', s, t)
  {
    hide Ends;
  }

  lemma BroughtStays(h: History, h': History, to: nat, to': nat, s: string, t: int)
    requires Brought(h, to, s, t) && Extends(h, h') && to <= to'
    ensures Brought(h', to', s, t)
  {
    hide Begins;
  }

  // ---- What a history of attempts is like ----

  predicate Indexed(q: Request, tries: seq<Try>) {
    |q.looks| == |q.cands| && forall a :: 0 <= a < |tries| ==> tries[a].index < |q.cands|
  }

  /** Every attempt was made once, in order, as the loop met the candidates. */
  predicate Faithful(q: Request, tries: seq<Try>, next: nat)
    requires Indexed(q, tries)
  {
    && (forall a :: 0 <= a < |tries| ==> tries[a].index < next && q.looks[tries[a].index].outcome == tries[a].outcome)
    && (forall a, b :: 0 <= a < b < |tries| ==> tries[a].index < tries[b].index)
  }

  predicate WithinBudget(tries: seq<Try>, cfg: Config) {
    cfg.maxCandidates > 0 ==> |tries| <= cfg.maxCandidates
  }

  predicate Spent(tries: seq<Try>, cfg: Config) { cfg.maxCandidates > 0 && |tries| >= cfg.maxCandidates }

  /** No key of a channel is tried after the channel itself has failed. */
  predicate ChannelsDropped(q: Request, tries: seq<Try>)
    requires Indexed(q, tries)
  {
    forall a, b :: 0 <= a < b < |tries| && After(tries[a].outcome) == NextChannel ==>
      q.cands[tries[a].index].channel != q.cands[tries[b].index].channel
  }

  /** The loop has left behind every channel that failed. */
  predicate Behind(q: Request, tries: seq<Try>, next: nat)
    requires Indexed(q, tries)
  {
    forall a, j :: 0 <= a < |tries| && After(tries[a].outcome) == NextChannel && next <= j < |q.cands| ==>
      q.cands[j].channel != q.cands[tries[a].index].channel
  }

  /** What the attempt applied, to the key as it was when the attempt ended. */
  predicate AppliedRightOf(q: Request, x: Try, h: History)
    requires |q.looks| == |q.cands| && x.index < |q.cands|
  {
    if After(x.outcome) == Finish then x.applied == 0
    else
      && x.index in h.during
      && var e := Live(h.during[x.index].after, q.cands[x.index].KeyScope(), q.looks[x.index].finished);
         x.applied == AppliedBy(x.outcome, e, q.cfg.keyCooldown)
  }

  predicate AppliedRight(q: Request, tries: seq<Try>, h: History)
    requires Indexed(q, tries)
  {
    forall a :: 0 <= a < |tries| ==> AppliedRightOf(q, tries[a], h)
  }

  /** The scope should be cooling at time t after this attempt. */
  ghost predicate Due(q: Request, x: Try, s: string, t: int)
    requires |q.looks| == |q.cands| && x.index < |q.cands|
  {
    && x.outcome.Rate429? && x.outcome.cooldown > 0
    && t <= q.looks[x.index].finished + x.outcome.cooldown
    && Pooled(s, q.cands[x.index], q.cands, q.cfg.wholeVendor)
  }

  /** An ordinary 429 stops its key, or its whole vendor, for as long as the cooldown lasts, unless
      others take it away. */
  ghost predicate PoolsRest(q: Request, tries: seq<Try>, h: History)
    requires Indexed(q, tries)
  {
    forall a, b :: 0 <= a < b < |tries|
                   && Due(q, tries[a], q.cands[tries[b].index].KeyScope(), q.looks[tries[b].index].now)
      ==> Shortened(h, tries[a].index, tries[b].index,
                    q.cands[tries[b].index].KeyScope(), q.looks[tries[b].index].now)
  }

  /** The cooldowns set by this request's ordinary 429s, as of `now`, before candidate `to`. */
  ghost predicate Resting(q: Request, tries: seq<Try>, h: History, table: Table, to: nat, now: int)
    requires Indexed(q, tries)
  {
    forall a, s, t :: 0 <= a < |tries| && Due(q, tries[a], s, t) && now <= t ==>
      Live(table, s, t).Some? || Shortened(h, tries[a].index, to, s, t)
  }

  lemma RestingLater(q: Request, tries: seq<Try>, h: History, before: Table, after: Table, to: nat, to': nat,
                     now: int, later: int)
    requires Indexed(q, tries) && Resting(q, tries, h, before, to, now) && KeepsCooling(before, after, now)
    requires to <= to' && now <= later
    ensures Resting(q, tries, h, after, to', later)
  {
    hide Due, Live, Shortened;
    forall a, s, t | 0 <= a < |tries| && Due(q, tries[a], s, t) && later <= t
      ensures Live(after, s, t).Some? || Shortened(h, tries[a].index, to', s, t) {
      if Live(before, s, t).None? { ShortenedStays(h, h, tries[a].index, to, to', s, t); }
    }
  }

  /** Others change the table before the loop meets candidate i. */
  lemma RestingMet(q: Request, tries: seq<Try>, h: History, d: Deed, i: nat, now: int)
    requires Indexed(q, tries) && Resting(q, tries, h, d.before, i, now) && i !in h.met
    requires forall a :: 0 <= a < |tries| ==> tries[a].index < i
    ensures Resting(q, tries, h.(met := h.met[i := d]), d.after, i, now)
  {
    hide Due, Live, Shortened;
    var h' := h.(met := h.met[i := d]);
    forall a, s, t | 0 <= a < |tries| && Due(q, tries[a], s, t) && now <= t
      ensures Live(d.after, s, t).Some? || Shortened(h', tries[a].index, i, s, t) {
      if Shortened(h, tries[a].index, i, s, t) {
        ShortenedStays(h, h', tries[a].index, i, i, s, t);
      } else if Live(d.after, s, t).None? {
        ShortenedByMet(h', tries[a].index, i, s, t);
      }
    }
  }

  lemma ShortenedByMet(h: History, from: nat, i: nat, s: string, t: int)
    requires i in h.met && from < i && Live(h.met[i].before, s, t).Some? && Live(h.met[i].after, s, t).None?
    ensures Shortened(h, from, i, s, t)
  {
    assert Ends(h.met[i], s, t);
  }

  lemma ShortenedDuring(h: History, from: nat, i: nat, s: string, t: int)
    requires i in h.during && from < i && Live(h.during[i].before, s, t).Some? && Live(h.during[i].after, s, t).None?
    ensures Shortened(h, from, i + 1, s, t)
  {
    assert Ends(h.during[i], s, t);
  }

  /** Others change the table while candidate i is tried. */
  lemma RestingDuring(q: Request, tries: seq<Try>, h: History, d: Deed, i: nat, now: int)
    requires Indexed(q, tries) && Resting(q, tries, h, d.before, i, now) && i !in h.during
    requires forall a :: 0 <= a < |tries| ==> tries[a].index < i
    ensures Resting(q, tries, h.(during := h.during[i := d]), d.after, i + 1, now)
  {
    hide Due, Live, Shortened;
    var h' := h.(during := h.during[i := d]);
    forall a, s, t | 0 <= a < |tries| && Due(q, tries[a], s, t) && now <= t
      ensures Live(d.after, s, t).Some? || Shortened(h', tries[a].index, i + 1, s, t) {
      if Shortened(h, tries[a].index, i, s, t) {
        ShortenedStays(h, h', tries[a].index, i, i + 1, s, t);
      } else if Live(d.after, s, t).None? {
        ShortenedDuring(h', tries[a].index, i, s, t);
      }
    }
  }

  /** Where a key was found free, everything due to it by then has been taken away by others. */
  ghost predicate FreeOf(q: Request, tries: seq<Try>, h: History, s: string, i: nat, now: int)
    requires Indexed(q, tries)
  {
    forall a, t :: 0 <= a < |tries| && Due(q, tries[a], s, t) && now <= t ==> Shortened(h, tries[a].index, i, s, t)
  }

  lemma FoundFree(q: Request, tries: seq<Try>, h: History, table: Table, s: string, i: nat, now: int)
    requires Indexed(q, tries) && Resting(q, tries, h, table, i, now) && Live(table, s, now).None?
    ensures FreeOf(q, tries, h, s, i, now)
  {
    hide Due, Shortened;
    forall a, t | 0 <= a < |tries| && Due(q, tries[a], s, t) && now <= t
      ensures Shortened(h, tries[a].index, i, s, t) {
      assert Live(table, s, t).None?;
    }
  }

  /** What a failed attempt at i does to the table, found like this when it ends. */
  ghost predicate Cools(q: Request, i: nat, before: Table, after: Table)
    requires |q.looks| == |q.cands| && i < |q.cands|
  {
    var c, o, now := q.cands[i], q.looks[i].outcome, q.looks[i].finished;
    && (o.Rate429? ==>
          && KeepsCooling(before, after, now) && CoolsOnly(before, after, now, c, q.cands, q.cfg.wholeVendor)
          && (o.cooldown > 0 ==> PoolCools(after, now + o.cooldown, c, q.cands, q.cfg.wholeVendor)))
    && (o.Quota429? ==> forall s, t :: s != c.KeyScope() ==> Live(after, s, t) == Live(before, s, t))
    && (!Limits(o) ==> after == before)
  }

  lemma CoolsIs(q: Request, i: nat, before: Table, after: Table)
    requires |q.looks| == |q.cands| && i < |q.cands|
    requires var c, o, now := q.cands[i], q.looks[i].outcome, q.looks[i].finished;
             && (o.Rate429? ==>
                   && KeepsCooling(before, after, now) && CoolsOnly(before, after, now, c, q.cands, q.cfg.wholeVendor)
                   && (o.cooldown > 0 ==> PoolCools(after, now + o.cooldown, c, q.cands, q.cfg.wholeVendor)))
             && (o.Quota429? ==> forall s, t :: s != c.KeyScope() ==> Live(after, s, t) == Live(before, s, t))
             && (!Limits(o) ==> after == before)
    ensures Cools(q, i, before, after)
  {
  }

  /** A failed attempt keeps the pools at rest: its backoff can only cut short what others had already
      taken away. */
  lemma RestingCooled(q: Request, tries: seq<Try>, h: History, before: Table, after: Table, i: nat)
    requires Indexed(q, tries) && i < |q.cands| && Cools(q, i, before, after)
    requires Resting(q, tries, h, before, i + 1, q.looks[i].finished)
    requires FreeOf(q, tries, h, q.cands[i].KeyScope(), i + 1, q.looks[i].finished)
    ensures Resting(q, tries, h, after, i + 1, q.looks[i].finished)
  {
    hide Due, Shortened, PoolCools, CoolsOnly, Live;
  }

  lemma RestingSnoc(q: Request, tries: seq<Try>, x: Try, h: History, table: Table, to: nat, now: int)
    requires Indexed(q, tries) && x.index < |q.cands| && Indexed(q, tries + [x]) && Resting(q, tries, h, table, to, now)
    requires x.outcome.Rate429? && x.outcome.cooldown > 0 ==>
      PoolCools(table, q.looks[x.index].finished + x.outcome.cooldown, q.cands[x.index], q.cands, q.cfg.wholeVendor)
    ensures Resting(q, tries + [x], h, table, to, now)
  {
    hide Shortened, Pooled;
    var all := tries + [x];
    forall a, s, t | 0 <= a < |all| && Due(q, all[a], s, t) && now <= t
      ensures Live(table, s, t).Some? || Shortened(h, all[a].index, to, s, t) {
      if a < |tries| {
        assert Due(q, tries[a], s, t);
      } else {
        assert Live(table, s, q.looks[x.index].finished + x.outcome.cooldown).Some?;
      }
    }
  }

  lemma PoolsRestSnoc(q: Request, tries: seq<Try>, x: Try, h: History, h': History)
    requires Indexed(q, tries) && x.index < |q.cands| && Indexed(q, tries + [x])
    requires PoolsRest(q, tries, h) && Extends(h, h')
    requires FreeOf(q, tries, h, q.cands[x.index].KeyScope(), x.index, q.looks[x.index].now)
    ensures PoolsRest(q, tries + [x], h')
  {
    hide Shortened, Due, Extends;
    var all := tries + [x];
    forall a, b | 0 <= a < b < |all|
                  && Due(q, all[a], q.cands[all[b].index].KeyScope(), q.looks[all[b].index].now)
      ensures Shortened(h', all[a].index, all[b].index,
                        q.cands[all[b].index].KeyScope(), q.looks[all[b].index].now) {
      var s, t := q.cands[all[b].index].KeyScope(), q.looks[all[b].index].now;
      assert all[a] == tries[a];
      if b < |tries| { assert all[b] == tries[b]; }
      assert Shortened(h, all[a].index, all[b].index, s, t);
      ShortenedStays(h, h', all[a].index, all[b].index, all[b].index, s, t);
    }
  }

  lemma PoolsRestLater(q: Request, tries: seq<Try>, h: History, h': History)
    requires Indexed(q, tries) && PoolsRest(q, tries, h) && Extends(h, h')
    ensures PoolsRest(q, tries, h')
  {
    hide Shortened, Due, Extends;
    forall a, b | 0 <= a < b < |tries|
                  && Due(q, tries[a], q.cands[tries[b].index].KeyScope(), q.looks[tries[b].index].now)
      ensures Shortened(h', tries[a].index, tries[b].index,
                        q.cands[tries[b].index].KeyScope(), q.looks[tries[b].index].now) {
      var s, t := q.cands[tries[b].index].KeyScope(), q.looks[tries[b].index].now;
      ShortenedStays(h, h', tries[a].index, tries[b].index, tries[b].index, s, t);
    }
  }

  // ---- What the loop keeps ----

  /** The attempts so far, the loop being at `next`; none of them has ended it. */
  predicate Orderly(q: Request, tries: seq<Try>, next: nat) {
    && Indexed(q, tries) && Faithful(q, tries, next)
    && ChannelsDropped(q, tries) && Behind(q, tries, next)
    && (forall a :: 0 <= a < |tries| ==> After(tries[a].outcome) != Finish)
  }

  predicate Counted(q: Request, tries: seq<Try>, flags: Flags, applied: int) {
    WithinBudget(tries, q.cfg) && Recorded(flags, tries) && applied == MaxApplied(tries)
  }

  ghost predicate Explained(q: Request, tries: seq<Try>, h: History) {
    Indexed(q, tries) && PoolsRest(q, tries, h) && AppliedRight(q, tries, h)
  }

  ghost predicate Tracked(q: Request, tries: seq<Try>, h: History, flags: Flags, applied: int, next: nat) {
    && Orderly(q, tries, next) && Counted(q, tries, flags, applied)
    && Explained(q, tries, h) && Honest(h, q.looks)
  }

  /** The loop comes to candidate `next`. */
  ghost predicate Going(q: Request, tries: seq<Try>, h: History, flags: Flags, applied: int, next: nat, table: Table) {
    && Tracked(q, tries, h, flags, applied, next) && Within(h, next, next)
    && (next < |q.cands| ==> Resting(q, tries, h, table, next, q.looks[next].now))
  }

  /** It has met candidate i, the changes of others included. */
  ghost predicate Arrived(q: Request, tries: seq<Try>, h: History, flags: Flags, applied: int, i: nat, table: Table) {
    && Tracked(q, tries, h, flags, applied, i) && Within(h, i + 1, i) && i in h.met
    && i < |q.cands| && Resting(q, tries, h, table, i, q.looks[i].now)
  }

  /** What the history of a run is like: candidates in order and each at most once, within the
      budget, failed channels dropped, limited keys left to rest, nothing after an answer. */
  ghost predicate WellTried(q: Request, tries: seq<Try>, h: History) {
    && Indexed(q, tries) && Faithful(q, tries, |q.cands|) && WithinBudget(tries, q.cfg)
    && ChannelsDropped(q, tries)
    && PoolsRest(q, tries, h) && AppliedRight(q, tries, h) && Honest(h, q.looks)
    && (forall a :: 0 <= a < |tries| && After(tries[a].outcome) == Finish ==> a == |tries| - 1)
  }

  lemma Start(q: Request, table: Table)
    requires q.Proper()
    ensures Going(q, [], NOTHING, Flags(true, true, true, true), 0, 0, table)
  {
  }

  lemma OrderlySnoc(q: Request, tries: seq<Try>, x: Try, next: nat)
    requires q.Proper() && Orderly(q, tries, x.index) && x.index < |q.cands| && x.index < next
    requires x.outcome == q.looks[x.index].outcome
    requires After(x.outcome) == NextChannel && next < |q.cands| ==> q.cands[next].channel != q.cands[x.index].channel
    ensures Indexed(q, tries + [x]) && Faithful(q, tries + [x], next)
    ensures ChannelsDropped(q, tries + [x]) && Behind(q, tries + [x], next)
    ensures After(x.outcome) != Finish ==> Orderly(q, tries + [x], next)
  {
    FaithfulSnoc(q, tries, x, next);
    DroppedSnoc(q, tries, x, next);
    hide Faithful, ChannelsDropped, Behind;
  }

  lemma FaithfulSnoc(q: Request, tries: seq<Try>, x: Try, next: nat)
    requires Indexed(q, tries) && Faithful(q, tries, x.index) && x.index < |q.cands| && x.index < next
    requires x.outcome == q.looks[x.index].outcome
    ensures Indexed(q, tries + [x]) && Faithful(q, tries + [x], next)
  {
  }

  lemma DroppedSnoc(q: Request, tries: seq<Try>, x: Try, next: nat)
    requires Indexed(q, tries) && x.index < |q.cands| && x.index < next
    requires forall a :: 0 <= a < |tries| ==> tries[a].index < x.index
    requires ChannelsDropped(q, tries) && Behind(q, tries, x.index) && Contiguous(q.cands)
    requires After(x.outcome) == NextChannel && next < |q.cands| ==> q.cands[next].channel != q.cands[x.index].channel
    ensures Indexed(q, tries + [x]) && ChannelsDropped(q, tries + [x]) && Behind(q, tries + [x], next)
  {
  }

  lemma CountedSnoc(q: Request, tries: seq<Try>, flags: Flags, flags': Flags, applied: int, applied': int, x: Try)
    requires Counted(q, tries, flags, applied) && FlagsStep(flags, flags', x.outcome) && !Spent(tries, q.cfg)
    requires applied' == if x.applied > applied then x.applied else applied
    ensures Counted(q, tries + [x], flags', applied')
  {
    assert forall y :: y in tries + [x] <==> y in tries || y == x;
    assert (tries + [x])[..|tries|] == tries;
  }

  lemma ExplainedSnoc(q: Request, tries: seq<Try>, x: Try, h: History, h': History)
    requires Explained(q, tries, h) && Extends(h, h') && Indexed(q, tries) && x.index < |q.cands|
    requires FreeOf(q, tries, h, q.cands[x.index].KeyScope(), x.index, q.looks[x.index].now)
    requires AppliedRightOf(q, x, h')
    ensures Indexed(q, tries + [x]) && Explained(q, tries + [x], h')
  {
    PoolsRestSnoc(q, tries, x, h, h');
    AppliedLater(q, tries, h, h');
    hide PoolsRest, FreeOf, AppliedRightOf, Extends;
  }

  lemma AppliedLater(q: Request, tries: seq<Try>, h: History, h': History)
    requires Indexed(q, tries) && AppliedRight(q, tries, h) && Extends(h, h')
    ensures AppliedRight(q, tries, h')
  {
    hide Live;
  }

  /** History that only grows changes nothing about the attempts. */
  lemma ExplainedLater(q: Request, tries: seq<Try>, h: History, h': History)
    requires Explained(q, tries, h) && Extends(h, h')
    ensures Explained(q, tries, h')
  {
    PoolsRestLater(q, tries, h, h');
    AppliedLater(q, tries, h, h');
    hide PoolsRest, AppliedRight;
  }

  lemma SameKeeps(before: Table, after: Table, now: int)
    requires Same(before, after, now)
    ensures KeepsCooling(before, after, now)
  {
    hide Live;
  }

  function Meeting(q: Request, h: History, i: nat, table: Table): History
    requires i < |q.looks|
  {
    h.(met := h.met[i := Deed(table, q.looks[i].others(table))])
  }

  lemma MeetingIs(q: Request, h: History, i: nat, table: Table)
    requires i < |q.looks| && Honest(h, q.looks) && Within(h, i, i)
    ensures var h' := Meeting(q, h, i, table);
            && Extends(h, h') && Honest(h', q.looks) && Within(h', i + 1, i)
            && i in h'.met && h'.met[i] == Deed(table, q.looks[i].others(table))
            && h' == h.(met := h.met[i := h'.met[i]]) && i !in h.met
  {
  }

  lemma OrderlyBelow(q: Request, tries: seq<Try>, i: nat)
    requires Orderly(q, tries, i)
    ensures Indexed(q, tries) && forall a :: 0 <= a < |tries| ==> tries[a].index < i
    ensures forall a :: 0 <= a < |tries| ==> After(tries[a].outcome) != Finish
  {
  }

  lemma Arrives(q: Request, tries: seq<Try>, h: History, flags: Flags, applied: int, i: nat, table: Table, after: Table)
    requires q.Proper() && i < |q.cands| && Going(q, tries, h, flags, applied, i, table)
    requires Same(q.looks[i].others(table), after, q.looks[i].now)
    ensures Arrived(q, tries, Meeting(q, h, i, table), flags, applied, i, after)
  {
    hide Resting, Explained, Orderly, Counted, Live, KeepsCooling, Same, Honest, Within, Meeting, Extends;
    var h', now := Meeting(q, h, i, table), q.looks[i].now;
    MeetingIs(q, h, i, table);
    OrderlyBelow(q, tries, i);
    ExplainedLater(q, tries, h, h');
    RestingMet(q, tries, h, h'.met[i], i, now);
    SameKeeps(h'.met[i].after, after, now);
    RestingLater(q, tries, h', h'.met[i].after, after, i, i, now, now);
  }

  lemma OrderlyLater(q: Request, tries: seq<Try>, i: nat, next: nat)
    requires Orderly(q, tries, i) && i <= next
    ensures Orderly(q, tries, next)
  {
  }

  lemma Passed(q: Request, tries: seq<Try>, h: History, flags: Flags, applied: int, i: nat, table: Table)
    requires q.Proper() && Arrived(q, tries, h, flags, applied, i, table)
    ensures Going(q, tries, h, flags, applied, i + 1, table)
  {
    hide Resting, Explained, Counted, Honest, KeepsCooling;
    OrderlyLater(q, tries, i, i + 1);
    if i + 1 < |q.cands| {
      KeepsAll(table, q.looks[i].now);
      RestingLater(q, tries, h, table, table, i, i + 1, q.looks[i].now, q.looks[i + 1].now);
    }
  }

  /** The attempt at i, if the table is like this when it ends. */
  function TryOf(q: Request, i: nat, table: Table): Try
    requires |q.looks| == |q.cands| && i < |q.cands|
  {
    var o := q.looks[i].outcome;
    Try(i, o, AppliedBy(o, Live(table, q.cands[i].KeyScope(), q.looks[i].finished), q.cfg.keyCooldown))
  }

  function Later(q: Request, h: History, i: nat, table: Table): History
    requires i < |q.looks|
  {
    h.(during := h.during[i := Deed(table, q.looks[i].meanwhile(table))])
  }

  lemma LaterIs(q: Request, h: History, i: nat, next: nat, table: Table)
    requires i < |q.looks| && Honest(h, q.looks) && Within(h, i + 1, i) && i < next
    ensures var h' := Later(q, h, i, table);
            && Extends(h, h') && Honest(h', q.looks) && Within(h', next, next)
            && i in h'.during && h'.during[i] == Deed(table, q.looks[i].meanwhile(table))
            && h' == h.(during := h.during[i := h'.during[i]]) && i !in h.during
  {
  }

  /** A failed attempt at i; the loop goes on at `next`. */
  lemma Tried(q: Request, tries: seq<Try>, h: History, flags: Flags, flags': Flags, applied: int, applied': int,
              i: nat, next: nat, table: Table, after: Table, x: Try)
    requires q.Proper() && Arrived(q, tries, h, flags, applied, i, table) && i < next <= |q.cands|
    requires Live(table, q.cands[i].KeyScope(), q.looks[i].now).None?
    requires After(x.outcome) != Finish && !Spent(tries, q.cfg)
    requires After(x.outcome) == NextChannel && next < |q.cands| ==> q.cands[next].channel != q.cands[i].channel
    requires FlagsStep(flags, flags', x.outcome) && x == TryOf(q, i, q.looks[i].meanwhile(table))
    requires Cools(q, i, q.looks[i].meanwhile(table), after)
    requires applied' == if x.applied > applied then x.applied else applied
    ensures Going(q, tries + [x], Later(q, h, i, table), flags', applied', next, after)
  {
    hide Honest, Within, Resting, Cools, Live, FreeOf, Explained, Orderly, Counted, FlagsStep, AppliedBy;
    hide Later, Extends, KeepsCooling;
    var h' := Later(q, h, i, table);
    LaterIs(q, h, i, next, table);
    OrderlyBelow(q, tries, i);
    FoundFree(q, tries, h, table, q.cands[i].KeyScope(), i, q.looks[i].now);
    assert AppliedRightOf(q, x, h');
    hide AppliedRightOf;
    OrderlySnoc(q, tries, x, next);
    CountedSnoc(q, tries, flags, flags', applied, applied', x);
    ExplainedSnoc(q, tries, x, h, h');
    RestsAfter(q, tries, h, i, table, after, x);
    RestsOn(q, tries + [x], h', after, i, next);
  }

  lemma RestsOn(q: Request, tries: seq<Try>, h: History, table: Table, i: nat, next: nat)
    requires q.Proper() && Indexed(q, tries) && i < next && i < |q.cands|
    requires Resting(q, tries, h, table, i + 1, q.looks[i].finished)
    ensures next < |q.cands| ==> Resting(q, tries, h, table, next, q.looks[next].now)
  {
    hide Resting, KeepsCooling;
    if next < |q.cands| {
      KeepsAll(table, q.looks[i].finished);
      RestingLater(q, tries, h, table, table, i + 1, next, q.looks[i].finished, q.looks[next].now);
    }
  }

  lemma RestsAfter(q: Request, tries: seq<Try>, h: History, i: nat, table: Table, after: Table, x: Try)
    requires q.Proper() && Indexed(q, tries) && i < |q.cands| && i !in h.during
    requires Resting(q, tries, h, table, i, q.looks[i].now) && forall a :: 0 <= a < |tries| ==> tries[a].index < i
    requires FreeOf(q, tries, h, q.cands[i].KeyScope(), i, q.looks[i].now)
    requires Cools(q, i, q.looks[i].meanwhile(table), after)
    requires x.index == i && x.outcome == q.looks[i].outcome
    ensures Indexed(q, tries + [x])
    ensures Resting(q, tries + [x], Later(q, h, i, table), after, i + 1, q.looks[i].finished)
  {
    var c, now, finished, h' := q.cands[i], q.looks[i].now, q.looks[i].finished, Later(q, h, i, table);
    var d := h'.during[i];
    assert x.outcome.Rate429? && x.outcome.cooldown > 0 ==>
      PoolCools(after, finished + x.outcome.cooldown, c, q.cands, q.cfg.wholeVendor);
    assert Extends(h, h');
    hide Resting, Live, KeepsCooling, FreeOf, Cools, PoolCools, Extends;
    FreeLater(q, tries, h, h', c.KeyScope(), i, i + 1, now, finished);
    RestingDuring(q, tries, h, d, i, now);
    KeepsAll(d.after, now);
    RestingLater(q, tries, h', d.after, d.after, i + 1, i + 1, now, finished);
    RestingCooled(q, tries, h', d.after, after, i);
    RestingSnoc(q, tries, x, h', after, i + 1, finished);
  }

  lemma FreeLater(q: Request, tries: seq<Try>, h: History, h': History, s: string, i: nat, i': nat,
                  now: int, later: int)
    requires Indexed(q, tries) && FreeOf(q, tries, h, s, i, now) && Extends(h, h') && i <= i' && now <= later
    ensures FreeOf(q, tries, h', s, i', later)
  {
    hide Due, Shortened, Extends;
    forall a, t | 0 <= a < |tries| && Due(q, tries[a], s, t) && later <= t
      ensures Shortened(h', tries[a].index, i', s, t) {
      ShortenedStays(h, h', tries[a].index, i, i', s, t);
    }
  }

  /** An attempt that ends the loop. */
  lemma TriedLast(q: Request, tries: seq<Try>, h: History, flags: Flags, applied: int, i: nat, table: Table)
    requires q.Proper() && Arrived(q, tries, h, flags, applied, i, table)
    requires Live(table, q.cands[i].KeyScope(), q.looks[i].now).None?
    requires After(q.looks[i].outcome) == Finish && !Spent(tries, q.cfg)
    ensures WellTried(q, tries + [Try(i, q.looks[i].outcome, 0)], h)
  {
    hide Resting, Live, FreeOf, Extends, Orderly, PoolsRest, AppliedRight, Honest, Within, Recorded;
    var x := Try(i, q.looks[i].outcome, 0);
    OrderlyBelow(q, tries, i);
    FoundFree(q, tries, h, table, q.cands[i].KeyScope(), i, q.looks[i].now);
    OrderlySnoc(q, tries, x, i + 1);
    ExtendsItself(h);
    ExplainedSnoc(q, tries, x, h, h);
    FaithfulLater(q, tries + [x], i + 1);
    hide Faithful, ChannelsDropped, Behind;
  }

  lemma ExtendsItself(h: History)
    ensures Extends(h, h)
  {
  }

  lemma FaithfulLater(q: Request, tries: seq<Try>, i: nat)
    requires Indexed(q, tries) && Faithful(q, tries, i) && i <= |q.cands|
    ensures Faithful(q, tries, |q.cands|)
  {
  }

  lemma TrackedWellTried(q: Request, tries: seq<Try>, h: History, flags: Flags, applied: int, i: nat)
    requires i <= |q.cands| && Tracked(q, tries, h, flags, applied, i)
    ensures WellTried(q, tries, h) && Counted(q, tries, flags, applied)
    ensures tries != [] ==> After(tries[|tries| - 1].outcome) != Finish
  {
    hide PoolsRest, AppliedRight, ChannelsDropped, Behind, Honest, Recorded;
    FaithfulLater(q, tries, i);
    hide Faithful;
  }

  // ---- Nothing is left out, nothing is passed over without a reason ----

  predicate TriedAt(tries: seq<Try>, i: nat) { exists a :: 0 <= a < |tries| && tries[a].index == i }

  predicate PassedAt(passes: seq<Pass>, i: nat) { exists p :: 0 <= p < |passes| && passes[p].index == i }

  /** Candidate i goes with its channel, which failed before. */
  predicate DroppedAt(q: Request, tries: seq<Try>, i: nat)
    requires i < |q.cands| && Indexed(q, tries)
  {
    exists a :: 0 <= a < |tries| && tries[a].index < i && After(tries[a].outcome) == NextChannel
                && q.cands[tries[a].index].channel == q.cands[i].channel
  }

  /** A 429 of this request at a candidate before `to` has cooled the scope. */
  ghost predicate Caused(q: Request, tries: seq<Try>, to: nat, scope: string)
    requires Indexed(q, tries)
  {
    exists a :: 0 <= a < |tries| && tries[a].index < to && CooledBy(q, tries[a], scope)
  }

  ghost predicate CooledBy(q: Request, x: Try, scope: string)
    requires x.index < |q.cands|
  {
    Limits(x.outcome) && Pooled(scope, q.cands[x.index], q.cands, q.cfg.wholeVendor && x.outcome.Rate429?)
  }

  /** A reason for the scope to be cooling when the loop meets candidate `to`: it was at the outset, or
      this request or others have set it cooling. */
  ghost predicate Reason(q: Request, tries: seq<Try>, h: History, outset: Table, to: nat, scope: string, t: int)
    requires Indexed(q, tries)
  {
    Live(outset, scope, t).Some? || Caused(q, tries, to, scope) || Brought(h, to, scope, t)
  }

  ghost predicate Grounded(q: Request, tries: seq<Try>, h: History, outset: Table, table: Table, to: nat, now: int)
    requires Indexed(q, tries)
  {
    forall s, t :: now <= t && Live(table, s, t).Some? ==> Reason(q, tries, h, outset, to, s, t)
  }

  /** The entry in force for candidate i when the loop met it. */
  function Found(q: Request, h: History, i: nat): Option<Entry>
    requires |q.looks| == |q.cands| && i < |q.cands| && i in h.met
  {
    Live(h.met[i].after, q.cands[i].KeyScope(), q.looks[i].now)
  }

  /** Passed over because its key was cooling, for a reason, and counted as the entry says. */
  ghost predicate PassRight(q: Request, tries: seq<Try>, h: History, outset: Table, p: Pass)
    requires Indexed(q, tries)
  {
    && p.index < |q.cands| && p.index in h.met && Found(q, h, p.index).Some?
    && p.forQuota == Found(q, h, p.index).value.quota
    && Reason(q, tries, h, outset, p.index, q.cands[p.index].KeyScope(), q.looks[p.index].now)
  }

  predicate TryRight(q: Request, h: History, x: Try) {
    |q.looks| == |q.cands| && x.index < |q.cands| && x.index in h.met && Found(q, h, x.index).None?
  }

  /** Of the candidates before `next` each was tried, passed over or dropped; those met, one of the
      first two. */
  predicate Placed(q: Request, tries: seq<Try>, passes: seq<Pass>, h: History, i: nat)
    requires i < |q.cands| && Indexed(q, tries)
  {
    && (TriedAt(tries, i) || PassedAt(passes, i) || DroppedAt(q, tries, i))
    && (i in h.met ==> TriedAt(tries, i) || PassedAt(passes, i))
  }

  ghost predicate Accounted(q: Request, tries: seq<Try>, passes: seq<Pass>, h: History, outset: Table, next: nat) {
    && Indexed(q, tries)
    && (forall i :: 0 <= i < next && i < |q.cands| ==> Placed(q, tries, passes, h, i))
    && (forall p :: 0 <= p < |passes| ==> PassRight(q, tries, h, outset, passes[p]))
    && (forall a :: 0 <= a < |tries| ==> TryRight(q, h, tries[a]))
  }

  lemma AccountStart(q: Request, outset: Table)
    requires q.Proper()
    ensures Accounted(q, [], [], NOTHING, outset, 0)
    ensures forall now :: Grounded(q, [], NOTHING, outset, outset, 0, now)
    ensures QuotaPasses([]) == 0
  {
  }

  /** Reasons stay reasons. */
  lemma ReasonStays(q: Request, tries: seq<Try>, more: seq<Try>, h: History, h': History, outset: Table,
                    to: nat, to': nat, s: string, t: int)
    requires Indexed(q, tries) && Indexed(q, tries + more) && Extends(h, h') && to <= to'
    requires Reason(q, tries, h, outset, to, s, t)
    ensures Reason(q, tries + more, h', outset, to', s, t)
  {
    hide CooledBy, Extends, Live;
    if Caused(q, tries, to, s) {
      var a :| 0 <= a < |tries| && tries[a].index < to && CooledBy(q, tries[a], s);
      assert (tries + more)[a] == tries[a];
    } else if Brought(h, to, s, t) {
      BroughtStays(h, h', to, to', s, t);
    }
  }

  lemma BroughtByMet(h: History, i: nat, s: string, t: int)
    requires i in h.met && Live(h.met[i].before, s, t).None? && Live(h.met[i].after, s, t).Some?
    ensures Brought(h, i, s, t)
  {
    assert Begins(h.met[i], s, t);
  }

  lemma BroughtDuring(h: History, i: nat, s: string, t: int)
    requires i in h.during && Live(h.during[i].before, s, t).None? && Live(h.during[i].after, s, t).Some?
    ensures Brought(h, i + 1, s, t)
  {
    assert Begins(h.during[i], s, t);
  }

  lemma GroundedMet(q: Request, tries: seq<Try>, h: History, outset: Table, i: nat, table: Table, after: Table,
                    now: int)
    requires Indexed(q, tries) && i < |q.looks| && Honest(h, q.looks) && Within(h, i, i)
    requires Grounded(q, tries, h, outset, table, i, now) && Same(q.looks[i].others(table), after, now)
    ensures Grounded(q, tries, Meeting(q, h, i, table), outset, after, i, now)
  {
    var h' := Meeting(q, h, i, table);
    MeetingIs(q, h, i, table);
    hide Reason, Live, Extends, Meeting, Honest, Within;
    forall s, t | now <= t && Live(after, s, t).Some? ensures Reason(q, tries, h', outset, i, s, t) {
      if Live(table, s, t).Some? {
        assert tries + [] == tries;
        ReasonStays(q, tries, [], h, h', outset, i, i, s, t);
      } else {
        BroughtByMet(h', i, s, t);
        BroughtIsReason(q, tries, h', outset, i, s, t);
      }
    }
  }

  lemma BroughtIsReason(q: Request, tries: seq<Try>, h: History, outset: Table, to: nat, s: string, t: int)
    requires Indexed(q, tries) && Brought(h, to, s, t)
    ensures Reason(q, tries, h, outset, to, s, t)
  {
  }

  lemma GroundedLater(q: Request, tries: seq<Try>, h: History, outset: Table, table: Table, to: nat, to': nat,
                      now: int, later: int)
    requires Indexed(q, tries) && Grounded(q, tries, h, outset, table, to, now) && to <= to' && now <= later
    ensures Grounded(q, tries, h, outset, table, to', later)
  {
    ExtendsItself(h);
    hide Reason, Live, Extends;
    forall s, t | later <= t && Live(table, s, t).Some? ensures Reason(q, tries, h, outset, to', s, t) {
      assert tries + [] == tries;
      ReasonStays(q, tries, [], h, h, outset, to, to', s, t);
    }
  }

  lemma GroundedDuring(q: Request, tries: seq<Try>, h: History, outset: Table, i: nat, table: Table, now: int)
    requires Indexed(q, tries) && i < |q.looks| && Honest(h, q.looks) && Within(h, i + 1, i)
    requires Grounded(q, tries, h, outset, table, i, now)
    ensures Grounded(q, tries, Later(q, h, i, table), outset, q.looks[i].meanwhile(table), i + 1, now)
  {
    var h', after := Later(q, h, i, table), q.looks[i].meanwhile(table);
    LaterIs(q, h, i, i + 1, table);
    hide Reason, Live, Extends, Later, Honest, Within;
    forall s, t | now <= t && Live(after, s, t).Some? ensures Reason(q, tries, h', outset, i + 1, s, t) {
      if Live(table, s, t).Some? {
        assert tries + [] == tries;
        ReasonStays(q, tries, [], h, h', outset, i, i + 1, s, t);
      } else {
        BroughtDuring(h', i, s, t);
        BroughtIsReason(q, tries, h', outset, i + 1, s, t);
      }
    }
  }

  /** What a failed attempt sets cooling is caused by it. */
  lemma GroundedCooled(q: Request, tries: seq<Try>, x: Try, h: History, outset: Table, before: Table, after: Table)
    requires Indexed(q, tries) && x.index < |q.cands| && x.outcome == q.looks[x.index].outcome
    requires Grounded(q, tries, h, outset, before, x.index + 1, q.looks[x.index].finished)
    requires Cools(q, x.index, before, after)
    ensures Indexed(q, tries + [x])
    ensures Grounded(q, tries + [x], h, outset, after, x.index + 1, q.looks[x.index].finished)
  {
    var i, now := x.index, q.looks[x.index].finished;
    ExtendsItself(h);
    hide Extends, PoolCools;
    forall s, t | now <= t && Live(after, s, t).Some? ensures Reason(q, tries + [x], h, outset, i + 1, s, t) {
      if Live(before, s, t).Some? {
        hide Reason, Live, Cools;
        ReasonStays(q, tries, [x], h, h, outset, i + 1, i + 1, s, t);
      } else {
        NewlyCooled(q, x, before, after, s, t);
        assert (tries + [x])[|tries|] == x;
      }
    }
  }

  lemma NewlyCooled(q: Request, x: Try, before: Table, after: Table, s: string, t: int)
    requires |q.looks| == |q.cands| && x.index < |q.cands| && x.outcome == q.looks[x.index].outcome
    requires Cools(q, x.index, before, after) && q.looks[x.index].finished <= t
    requires Live(before, s, t).None? && Live(after, s, t).Some?
    ensures CooledBy(q, x, s)
  {
    hide Live, KeepsCooling, PoolCools;
    var c := q.cands[x.index];
    if x.outcome.Quota429? {
      assert s == c.KeyScope();
      assert SamePool(c, c, false);
    }
  }

  lemma PlacedTry(q: Request, tries: seq<Try>, x: Try, passes: seq<Pass>, h: History, h': History, i: nat)
    requires i < |q.cands| && x.index < |q.cands| && Indexed(q, tries) && h'.met == h.met
    requires Placed(q, tries, passes, h, i) || i == x.index
             || (i !in h.met && x.index < i && After(x.outcome) == NextChannel
                 && q.cands[x.index].channel == q.cands[i].channel)
    ensures Indexed(q, tries + [x]) && Placed(q, tries + [x], passes, h', i)
  {
    var all := tries + [x];
    assert all[|tries|] == x;
    assert forall a :: 0 <= a < |tries| ==> all[a] == tries[a];
  }

  lemma PlacedPass(q: Request, tries: seq<Try>, passes: seq<Pass>, p: Pass, h: History, i: nat)
    requires i < |q.cands| && Indexed(q, tries) && (Placed(q, tries, passes, h, i) || i == p.index)
    ensures Placed(q, tries, passes + [p], h, i)
  {
    var all := passes + [p];
    assert all[|passes|] == p;
    assert forall k :: 0 <= k < |passes| ==> all[k] == passes[k];
  }

  /** Nothing that happened is affected by more happening. */
  lemma AccountLater(q: Request, tries: seq<Try>, more: seq<Try>, passes: seq<Pass>, h: History, h': History,
                     outset: Table, next: nat)
    requires Accounted(q, tries, passes, h, outset, next) && Extends(h, h') && Indexed(q, tries + more)
    ensures forall p :: 0 <= p < |passes| ==> PassRight(q, tries + more, h', outset, passes[p])
    ensures forall a :: 0 <= a < |tries| ==> TryRight(q, h', tries[a])
  {
    hide Reason, Live, Placed;
    forall p | 0 <= p < |passes| ensures PassRight(q, tries + more, h', outset, passes[p]) {
      var i := passes[p].index;
      assert PassRight(q, tries, h, outset, passes[p]);
      ReasonStays(q, tries, more, h, h', outset, i, i, q.cands[i].KeyScope(), q.looks[i].now);
    }
    forall a | 0 <= a < |tries| ensures TryRight(q, h', tries[a]) {
      assert TryRight(q, h, tries[a]);
    }
  }

  lemma AccountMet(q: Request, tries: seq<Try>, passes: seq<Pass>, h: History, outset: Table, i: nat, table: Table)
    requires i < |q.looks| && Honest(h, q.looks) && Within(h, i, i)
    requires Accounted(q, tries, passes, h, outset, i)
    ensures Accounted(q, tries, passes, Meeting(q, h, i, table), outset, i)
  {
    var h' := Meeting(q, h, i, table);
    MeetingIs(q, h, i, table);
    assert forall k :: k in h'.met && k != i ==> k in h.met;
    assert tries + [] == tries;
    AccountLater(q, tries, [], passes, h, h', outset, i);
    hide PassRight, TryRight, Extends, Meeting, Honest, Within, TriedAt, PassedAt, DroppedAt;
    forall k | 0 <= k < i && k < |q.cands| ensures Placed(q, tries, passes, h', k) {
      assert Placed(q, tries, passes, h, k);
    }
  }

  lemma AccountPass(q: Request, tries: seq<Try>, passes: seq<Pass>, p: Pass, h: History, outset: Table, table: Table)
    requires Accounted(q, tries, passes, h, outset, p.index) && p.index < |q.cands|
    requires p.index in h.met && Found(q, h, p.index).Some? && p.forQuota == Found(q, h, p.index).value.quota
    requires Live(table, q.cands[p.index].KeyScope(), q.looks[p.index].now).Some?
    requires Grounded(q, tries, h, outset, table, p.index, q.looks[p.index].now)
    ensures Accounted(q, tries, passes + [p], h, outset, p.index + 1)
    ensures QuotaPasses(passes + [p]) == QuotaPasses(passes) + if p.forQuota then 1 else 0
  {
    hide Reason, Live, Placed;
    assert (passes + [p])[..|passes|] == passes;
    assert PassRight(q, tries, h, outset, p);
    hide PassRight, TryRight;
    forall i | 0 <= i < p.index + 1 && i < |q.cands| ensures Placed(q, tries, passes + [p], h, i) {
      PlacedPass(q, tries, passes, p, h, i);
    }
  }

  lemma AccountTry(q: Request, tries: seq<Try>, x: Try, passes: seq<Pass>, h: History, h': History,
                   outset: Table, next: nat)
    requires Accounted(q, tries, passes, h, outset, x.index) && x.index < |q.cands| && x.index < next
    requires Extends(h, h') && h'.met == h.met && Within(h, x.index + 1, |q.cands|) && TryRight(q, h, x)
    requires next > x.index + 1 ==> After(x.outcome) == NextChannel
    requires forall j :: x.index < j < next && j < |q.cands| ==> q.cands[j].channel == q.cands[x.index].channel
    ensures Accounted(q, tries + [x], passes, h', outset, next)
  {
    assert Indexed(q, tries + [x]);
    AccountLater(q, tries, [x], passes, h, h', outset, x.index);
    assert TryRight(q, h', x);
    forall i | 0 <= i < next && i < |q.cands| ensures Placed(q, tries + [x], passes, h', i) {
      hide Placed, PassRight, TryRight, Extends;
      assert i > x.index ==> i !in h.met && q.cands[i].channel == q.cands[x.index].channel;
      PlacedTry(q, tries, x, passes, h, h', i);
    }
    hide Placed, PassRight, TryRight, Extends;
  }

  // ---- Nobody else changes the table ----

  /** What the loop leaves after candidate j. */
  ghost predicate Left(q: Request, h: History, j: nat, table: Table)
    requires j in h.met
  {
    && |q.looks| == |q.cands| && j < |q.cands|
    && if j in h.during then Cools(q, j, h.during[j].after, table) else Same(h.met[j].after, table, q.looks[j].now)
  }

  predicate LastMet(h: History, j: nat, k: nat) {
    j in h.met && j < k && forall l :: l in h.met && l < k ==> l <= j
  }

  /** On coming to candidate k the loop finds the table as it left it after the one before. */
  ghost predicate LinkTo(q: Request, outset: Table, h: History, k: nat, table: Table) {
    && (forall j :: LastMet(h, j, k) ==> Left(q, h, j, table))
    && ((forall l :: l in h.met ==> k <= l) ==> table == outset)
  }

  /** Between the changes of others there are only the loop's own. */
  ghost predicate Linked(q: Request, outset: Table, h: History) {
    && (forall k :: k in h.met ==> LinkTo(q, outset, h, k, h.met[k].before))
    && (forall k :: k in h.during ==>
          k in h.met && k < |q.looks| && Same(h.met[k].after, h.during[k].before, q.looks[k].now))
  }

  /** Links do not depend on what comes later. */
  lemma LinkStays(q: Request, outset: Table, h: History, h': History, k: nat, table: Table)
    requires LinkTo(q, outset, h, k, table) && Extends(h, h')
    requires forall l :: l in h'.met && l < k ==> l in h.met
    requires forall l :: l in h'.during && l < k ==> l in h.during
    ensures LinkTo(q, outset, h', k, table)
  {
    hide Same, Cools;
    forall j | LastMet(h', j, k) ensures Left(q, h', j, table) {
      assert LastMet(h, j, k);
      assert Left(q, h, j, table);
    }
    if forall l :: l in h'.met ==> k <= l {
      assert forall l :: l in h.met ==> l in h'.met;
    }
  }

  lemma LinkMet(q: Request, outset: Table, h: History, i: nat, table: Table)
    requires i < |q.looks| && Linked(q, outset, h) && LinkTo(q, outset, h, i, table)
    requires Within(h, i, i) && Honest(h, q.looks)
    ensures Linked(q, outset, Meeting(q, h, i, table))
  {
    var h' := Meeting(q, h, i, table);
    MeetingIs(q, h, i, table);
    assert forall l :: l in h'.met <==> l in h.met || l == i;
    hide Same, LinkTo, Meeting, Honest;
    forall k | k in h'.met ensures LinkTo(q, outset, h', k, h'.met[k].before) {
      LinkStays(q, outset, h, h', k, h'.met[k].before);
    }
  }

  lemma LinkPassed(q: Request, outset: Table, h: History, i: nat, table: Table)
    requires |q.looks| == |q.cands| && i < |q.cands| && Within(h, i + 1, i) && i in h.met
    requires Same(h.met[i].after, table, q.looks[i].now)
    ensures LinkTo(q, outset, h, i + 1, table)
  {
    hide Same, Cools;
    forall j | LastMet(h, j, i + 1) ensures Left(q, h, j, table) { assert j == i; }
  }

  lemma LinkNext(q: Request, outset: Table, h: History, i: nat, next: nat, after: Table)
    requires |q.looks| == |q.cands| && i < |q.cands| && i < next && Within(h, next, next)
    requires i in h.met && i in h.during && forall l :: l in h.met ==> l <= i
    requires Cools(q, i, h.during[i].after, after)
    ensures LinkTo(q, outset, h, next, after)
  {
    hide Same, Cools;
    forall j | LastMet(h, j, next) ensures Left(q, h, j, after) { assert j == i; }
  }

  lemma LinkTried(q: Request, outset: Table, h: History, i: nat, next: nat, table: Table, after: Table)
    requires |q.looks| == |q.cands| && i < |q.cands| && i < next && i in h.met
    requires Within(h, i + 1, i) && Honest(h, q.looks)
    requires Linked(q, outset, h) && Same(h.met[i].after, table, q.looks[i].now)
    requires Cools(q, i, q.looks[i].meanwhile(table), after)
    ensures Linked(q, outset, Later(q, h, i, table)) && LinkTo(q, outset, Later(q, h, i, table), next, after)
  {
    var h' := Later(q, h, i, table);
    LaterIs(q, h, i, next, table);
    hide Same, Cools, Honest, Later, LinkTo, Extends;
    assert h'.met == h.met;
    LinkNext(q, outset, h', i, next, after);
    assert forall l :: l in h'.during <==> l in h.during || l == i;
    forall k | k in h'.met ensures LinkTo(q, outset, h', k, h'.met[k].before) {
      LinkStays(q, outset, h, h', k, h'.met[k].before);
    }
    forall k | k in h'.during
      ensures k in h'.met && k < |q.looks| && Same(h'.met[k].after, h'.during[k].before, q.looks[k].now) {
      if k != i { assert k in h.during && h'.during[k] == h.during[k] by { ShrinkDuring(h, h', k); } }
    }
  }

  lemma ShrinkDuring(h: History, h': History, k: nat)
    requires Extends(h, h') && k in h.during
    ensures h'.during[k] == h.during[k]
  {
  }

  // ---- The loop ----

  /** The loop comes to candidate i. */
  ghost predicate Running(q: Request, tries: seq<Try>, passes: seq<Pass>, h: History, flags: Flags, applied: int,
                          i: nat, outset: Table, table: Table) {
    && Going(q, tries, h, flags, applied, i, table) && Accounted(q, tries, passes, h, outset, i)
    && Linked(q, outset, h) && LinkTo(q, outset, h, i, table)
    && (i < |q.cands| ==> Grounded(q, tries, h, outset, table, i, q.looks[i].now))
  }

  /** It has met candidate i. */
  ghost predicate Meets(q: Request, tries: seq<Try>, passes: seq<Pass>, h: History, flags: Flags, applied: int,
                        i: nat, outset: Table, table: Table) {
    && Arrived(q, tries, h, flags, applied, i, table) && Accounted(q, tries, passes, h, outset, i)
    && Linked(q, outset, h) && Same(h.met[i].after, table, q.looks[i].now)
    && Grounded(q, tries, h, outset, table, i, q.looks[i].now)
    && Found(q, h, i) == Live(table, q.cands[i].KeyScope(), q.looks[i].now)
  }

  lemma RunStart(q: Request, table: Table)
    requires q.Proper()
    ensures Running(q, [], [], NOTHING, Flags(true, true, true, true), 0, 0, table, table)
    ensures QuotaPasses([]) == 0
  {
    Start(q, table);
    AccountStart(q, table);
    assert Linked(q, table, NOTHING) && LinkTo(q, table, NOTHING, 0, table);
    hide Going, Accounted, Grounded;
  }

  lemma RunMeets(q: Request, tries: seq<Try>, passes: seq<Pass>, h: History, flags: Flags, applied: int,
                 i: nat, outset: Table, table: Table, after: Table)
    requires q.Proper() && i < |q.cands| && Running(q, tries, passes, h, flags, applied, i, outset, table)
    requires Same(q.looks[i].others(table), after, q.looks[i].now)
    ensures var h' := Meeting(q, h, i, table);
            && Meets(q, tries, passes, h', flags, applied, i, outset, after)
            && Found(q, h', i) == Live(q.looks[i].others(table), q.cands[i].KeyScope(), q.looks[i].now)
  {
    hide Accounted, Grounded, Honest, Within, Meeting, Resting, Explained, Orderly, Counted, Live, Linked, LinkTo, Same;
    OrderlyBelow(q, tries, i);
    Arrives(q, tries, h, flags, applied, i, table, after);
    AccountMet(q, tries, passes, h, outset, i, table);
    GroundedMet(q, tries, h, outset, i, table, after, q.looks[i].now);
    LinkMet(q, outset, h, i, table);
    MeetingIs(q, h, i, table);
    FoundIs(q, q.looks[i].others(table), after, i);
  }

  lemma FoundIs(q: Request, before: Table, after: Table, i: nat)
    requires |q.looks| == |q.cands| && i < |q.cands| && Same(before, after, q.looks[i].now)
    ensures var s, now := q.cands[i].KeyScope(), q.looks[i].now; Live(before, s, now) == Live(after, s, now)
  {
  }

  lemma RunPassed(q: Request, tries: seq<Try>, passes: seq<Pass>, h: History, flags: Flags, applied: int,
                  i: nat, outset: Table, table: Table, p: Pass)
    requires q.Proper() && Meets(q, tries, passes, h, flags, applied, i, outset, table)
    requires Found(q, h, i).Some? && p == Pass(i, Found(q, h, i).value.quota)
    ensures Running(q, tries, passes + [p], h, flags, applied, i + 1, outset, table)
    ensures QuotaPasses(passes + [p]) == QuotaPasses(passes) + if p.forQuota then 1 else 0
  {
    hide Accounted, Grounded, Going, Live, Tracked, Resting, Within, QuotaPasses, Linked, LinkTo, Same;
    LinkPassed(q, outset, h, i, table);
    Passed(q, tries, h, flags, applied, i, table);
    AccountPass(q, tries, passes, p, h, outset, table);
    assert Indexed(q, tries) by { AccountedIndexed(q, tries, passes, h, outset, i); }
    if i + 1 < |q.cands| {
      GroundedLater(q, tries, h, outset, table, i, i + 1, q.looks[i].now, q.looks[i + 1].now);
    }
  }

  lemma AccountedIndexed(q: Request, tries: seq<Try>, passes: seq<Pass>, h: History, outset: Table, i: nat)
    requires Accounted(q, tries, passes, h, outset, i)
    ensures Indexed(q, tries)
  {
  }

  lemma RunTried(q: Request, tries: seq<Try>, passes: seq<Pass>, h: History, flags: Flags, flags': Flags,
                 applied: int, applied': int, i: nat, next: nat, outset: Table, table: Table, after: Table, x: Try)
    requires q.Proper() && Meets(q, tries, passes, h, flags, applied, i, outset, table)
    requires Found(q, h, i).None? && i < next <= |q.cands| && After(x.outcome) != Finish && !Spent(tries, q.cfg)
    requires After(x.outcome) == NextChannel && next < |q.cands| ==> q.cands[next].channel != q.cands[i].channel
    requires next > i + 1 ==> After(x.outcome) == NextChannel
    requires forall j :: i < j < next ==> q.cands[j].channel == q.cands[i].channel
    requires FlagsStep(flags, flags', x.outcome) && x == TryOf(q, i, q.looks[i].meanwhile(table))
    requires Cools(q, i, q.looks[i].meanwhile(table), after)
    requires applied' == if x.applied > applied then x.applied else applied
    ensures Running(q, tries + [x], passes, Later(q, h, i, table), flags', applied', next, outset, after)
  {
    hide Accounted, Grounded, Live, Resting, Within, FlagsStep, AppliedBy, Cools, Going, Later, Extends;
    hide Honest, Orderly, Counted, Explained, Linked, LinkTo, Same;
    LinkTried(q, outset, h, i, next, table, after);
    Tried(q, tries, h, flags, flags', applied, applied', i, next, table, after, x);
    LaterIs(q, h, i, i + 1, table);
    AccountedIndexed(q, tries, passes, h, outset, i);
    MetBelow(h, i, |q.cands|);
    AccountTry(q, tries, x, passes, h, Later(q, h, i, table), outset, next);
    GroundedTried(q, tries, h, outset, i, next, table, after, x);
  }

  lemma MetBelow(h: History, i: nat, n: nat)
    requires Within(h, i + 1, i) && i < n
    ensures Within(h, i + 1, n)
  {
  }

  lemma GroundedTried(q: Request, tries: seq<Try>, h: History, outset: Table, i: nat, next: nat,
                      table: Table, after: Table, x: Try)
    requires q.Proper() && Indexed(q, tries) && i < |q.cands| && i < next && Honest(h, q.looks) && Within(h, i + 1, i)
    requires Grounded(q, tries, h, outset, table, i, q.looks[i].now) && Cools(q, i, q.looks[i].meanwhile(table), after)
    requires x.index == i && x.outcome == q.looks[i].outcome
    ensures Indexed(q, tries + [x])
    ensures next < |q.cands| ==>
      Grounded(q, tries + [x], Later(q, h, i, table), outset, after, next, q.looks[next].now)
  {
    hide Grounded, Cools, Honest, Within, Later;
    var h', now, finished := Later(q, h, i, table), q.looks[i].now, q.looks[i].finished;
    GroundedDuring(q, tries, h, outset, i, table, now);
    GroundedLater(q, tries, h', outset, q.looks[i].meanwhile(table), i + 1, i + 1, now, finished);
    GroundedCooled(q, tries, x, h', outset, q.looks[i].meanwhile(table), after);
    if next < |q.cands| {
      GroundedLater(q, tries + [x], h', outset, after, i + 1, next, finished, q.looks[next].now);
    }
  }

  lemma RunLast(q: Request, tries: seq<Try>, passes: seq<Pass>, h: History, flags: Flags, applied: int,
                i: nat, outset: Table, table: Table, x: Try)
    requires q.Proper() && Meets(q, tries, passes, h, flags, applied, i, outset, table)
    requires Found(q, h, i).None? && After(x.outcome) == Finish && !Spent(tries, q.cfg)
    requires x == Try(i, q.looks[i].outcome, 0)
    ensures WellTried(q, tries + [x], h) && Accounted(q, tries + [x], passes, h, outset, i + 1) && Linked(q, outset, h)
  {
    hide Accounted, Grounded, Live, Resting, Within, Tracked, WellTried, Linked, Same;
    TriedLast(q, tries, h, flags, applied, i, table);
    ExtendsItself(h);
    MetBelow(h, i, |q.cands|);
    AccountTry(q, tries, x, passes, h, h, outset, i + 1);
  }

  lemma RunEnds(q: Request, tries: seq<Try>, passes: seq<Pass>, h: History, flags: Flags, applied: int,
                i: nat, outset: Table, table: Table)
    requires i <= |q.cands|
    requires || Running(q, tries, passes, h, flags, applied, i, outset, table)
             || Meets(q, tries, passes, h, flags, applied, i, outset, table)
    ensures WellTried(q, tries, h) && Accounted(q, tries, passes, h, outset, i) && Linked(q, outset, h)
    ensures Recorded(flags, tries) && WithinBudget(tries, q.cfg) && applied == MaxApplied(tries)
    ensures tries != [] ==> After(tries[|tries| - 1].outcome) != Finish
  {
    hide Accounted, Grounded, Live, Resting, Within, Tracked, WellTried, Linked, LinkTo, Same;
    TrackedWellTried(q, tries, h, flags, applied, i);
  }

  /** The loop: `tries` and `passes` are its history, `h` what others did to the table meanwhile, and
      `reached` how far it came; the other results are its counters. */
  method RunCandidates(m: Mem, q: Request)
    returns (v: Verdict, tries: seq<Try>, passes: seq<Pass>, skipped: nat, skippedQuota: nat, retryAfter: int,
             ghost h: History, ghost reached: nat)
    requires q.Proper()
    modifies m
    ensures WellTried(q, tries, h) && Linked(q, old(m.cooldown), h)
    ensures skipped == |passes| && skippedQuota == QuotaPasses(passes)
    ensures reached <= |q.cands| && Accounted(q, tries, passes, h, old(m.cooldown), reached)
    ensures v.Responded? <==> tries != [] && tries[|tries| - 1].outcome.Answered?
    ensures v.ClientGone? ==> (reached < |q.cands| && q.looks[reached].gone)
                              || (tries != [] && tries[|tries| - 1].outcome.Disconnected?)
    ensures !v.Responded? && !v.ClientGone? ==>
              && (reached == |q.cands| || Spent(tries, q.cfg))
              && retryAfter == (if MaxApplied(tries) > 0 then MaxApplied(tries) else q.cfg.keyCooldown)
              && v == Classify(tries, skipped, skippedQuota, retryAfter)
  {
    hide Running, Meets, WellTried, Recorded, Classify, Live, Contiguous, FlagsStep, Accounted, Cools, AppliedBy;
    hide KeepsCooling, CoolsOnly, PoolCools, Same, Limits, QuotaPasses, MaxApplied, Later, Meeting, WithinBudget;
    hide Found, Linked;
    var cands, looks, cfg := q.cands, q.looks, q.cfg;
    tries, passes, skipped, skippedQuota, retryAfter := [], [], 0, 0, 0;
    var flags, applied := Flags(true, true, true, true), 0;
    var i := 0;
    h := NOTHING;
    ghost var outset := m.cooldown;
    RunStart(q, m.cooldown);
    while i < |cands|
      invariant 0 <= i <= |cands|
      invariant Running(q, tries, passes, h, flags, applied, i, outset, m.cooldown)
      invariant skipped == |passes| && skippedQuota == QuotaPasses(passes) && 0 <= applied
    {
      var c, look := cands[i], looks[i];
      reached := i;
      if look.gone {
        RunEnds(q, tries, passes, h, flags, applied, i, outset, m.cooldown);
        v := ClientGone;
        return;
      }
      ghost var table := m.cooldown;
      m.cooldown := look.others(m.cooldown);
      var skip, forQuota := Probe(m, c.KeyScope(), look.now);
      RunMeets(q, tries, passes, h, flags, applied, i, outset, table, m.cooldown);
      h := Meeting(q, h, i, table);
      if skip {
        RunPassed(q, tries, passes, h, flags, applied, i, outset, m.cooldown, Pass(i, forQuota));
        skipped := skipped + 1;
        if forQuota { skippedQuota := skippedQuota + 1; }
        passes := passes + [Pass(i, forQuota)];
        i := i + 1;
        continue;
      }
      if cfg.maxCandidates > 0 && |tries| >= cfg.maxCandidates {
        RunEnds(q, tries, passes, h, flags, applied, i, outset, m.cooldown);
        retryAfter := if applied > 0 then applied else cfg.keyCooldown;
        v := Conclude(flags, |tries|, tries, skipped, skippedQuota, retryAfter);
        return;
      }
      if After(look.outcome) == Finish {
        RunLast(q, tries, passes, h, flags, applied, i, outset, m.cooldown, Try(i, look.outcome, 0));
        tries := tries + [Try(i, look.outcome, 0)];
        reached := i + 1;
        v := if look.outcome.Answered? then Responded else ClientGone;
        return;
      }
      table := m.cooldown;
      m.cooldown := look.meanwhile(m.cooldown);
      ghost var ended, was, had := m.cooldown, flags, applied;
      var x := TryOf(q, i, m.cooldown);
      flags, applied := Attempt(m, cands, c, look, cfg, flags, applied);
      CoolsIs(q, i, ended, m.cooldown);
      var at := i;
      if After(look.outcome) == NextChannel {
        while i + 1 < |cands| && cands[i + 1].channel == c.channel
          invariant at <= i < |cands|
          invariant forall j :: at < j <= i ==> cands[j].channel == c.channel
        {
          i := i + 1;
        }
      }
      i := i + 1;
      RunTried(q, tries, passes, h, was, flags, had, applied, at, i, outset, table, m.cooldown, x);
      h := Later(q, h, at, table);
      tries := tries + [x];
    }
    reached := |cands|;
    RunEnds(q, tries, passes, h, flags, applied, i, outset, m.cooldown);
    retryAfter := if applied > 0 then applied else cfg.keyCooldown;
    v := Conclude(flags, |tries|, tries, skipped, skippedQuota, retryAfter);
  }

  /** The failure is the key's, or this request's with it: the channel's other keys are still worth a try. */
  predicate KeyAtFault(o: Outcome) { o.Rate429? || o.Quota429? || o.AuthRefused? || o.RequestFault? }

  /** Two keys of one channel are tried only if the first failed by its own fault, and a candidate the
      loop has left behind untried and uncooled went with its channel after a failure that was not. An
      answer, or the client's leaving, comes last. */
  lemma FlowExact(q: Request, tries: seq<Try>, passes: seq<Pass>, h: History, outset: Table, reached: nat)
    requires WellTried(q, tries, h) && Accounted(q, tries, passes, h, outset, reached)
    ensures forall a, b :: 0 <= a < b < |tries| && q.cands[tries[a].index].channel == q.cands[tries[b].index].channel
              ==> KeyAtFault(tries[a].outcome)
    ensures forall a :: 0 <= a < |tries| - 1 ==> !tries[a].outcome.Answered? && !tries[a].outcome.Disconnected?
    ensures forall i :: 0 <= i < reached && i < |q.cands| && !TriedAt(tries, i) && !PassedAt(passes, i) ==>
              exists a :: && 0 <= a < |tries| && tries[a].index < i && !KeyAtFault(tries[a].outcome)
                          && q.cands[tries[a].index].channel == q.cands[i].channel
  {
    hide PoolsRest, AppliedRight, Honest, PassRight, TryRight;
    forall a, b | 0 <= a < b < |tries| && q.cands[tries[a].index].channel == q.cands[tries[b].index].channel
      ensures KeyAtFault(tries[a].outcome) {
      assert After(tries[a].outcome) != NextChannel && After(tries[a].outcome) != Finish;
    }
    forall i | 0 <= i < reached && i < |q.cands| && !TriedAt(tries, i) && !PassedAt(passes, i)
      ensures exists a :: && 0 <= a < |tries| && tries[a].index < i && !KeyAtFault(tries[a].outcome)
                          && q.cands[tries[a].index].channel == q.cands[i].channel {
      assert Placed(q, tries, passes, h, i);
      var a :| 0 <= a < |tries| && tries[a].index < i && After(tries[a].outcome) == NextChannel
               && q.cands[tries[a].index].channel == q.cands[i].channel;
      assert !KeyAtFault(tries[a].outcome);
    }
  }

  /** An ordinary 429 sets the cooldown it came with, a failure that is no 429 none. */
  lemma AppliedExact(q: Request, tries: seq<Try>, h: History, a: nat)
    requires WellTried(q, tries, h) && a < |tries|
    ensures tries[a].outcome.Rate429? ==> tries[a].applied == tries[a].outcome.cooldown
    ensures !tries[a].outcome.Rate429? && !tries[a].outcome.Quota429? ==> tries[a].applied == 0
  {
    hide PoolsRest, ChannelsDropped, Honest;
    assert AppliedRightOf(q, tries[a], h);
  }

  // ---- When a limited key is tried early ----

  /** Met while an ordinary 429 of this request should keep its key cooling, a candidate is tried all
      the same only if others have taken that cooling away since; if it comes before the loop with its
      key free, it is tried. */
  lemma RetriedEarlyIff(q: Request, tries: seq<Try>, passes: seq<Pass>, h: History, outset: Table, reached: nat,
                        a: nat, b: nat)
    requires WellTried(q, tries, h) && Accounted(q, tries, passes, h, outset, reached)
    requires a < |tries| && tries[a].index < b < reached && b in h.met && b < |q.cands|
    requires Due(q, tries[a], q.cands[b].KeyScope(), q.looks[b].now)
    ensures TriedAt(tries, b) <==> Found(q, h, b).None?
    ensures TriedAt(tries, b) ==> Shortened(h, tries[a].index, b, q.cands[b].KeyScope(), q.looks[b].now)
  {
    hide Due, Shortened, Reason, Honest, AppliedRight, ChannelsDropped, DroppedAt;
    assert Placed(q, tries, passes, h, b);
    if x :| 0 <= x < |tries| && tries[x].index == b {
      assert TryRight(q, h, tries[x]);
      assert a < x;
    }
    if p :| 0 <= p < |passes| && passes[p].index == b {
      assert PassRight(q, tries, h, outset, passes[p]);
    }
  }

  const SECOND := 1_000_000_000

  /** Another request's quota 429 on the key, one second in. */
  function Backoffed(table: Table): Table {
    table["ck:7:3" := Entry(61 * SECOND, 1, false)]
  }

  function Untouched(table: Table): Table { table }

  /** Vendor 7's key 3 serves two channels, vendor 8's key 4 one between them; the first answers 429
      with ten minutes to wait, and the second times out after two. */
  function Unlucky(): Request {
    var cands := [Candidate(1, 7, 3, 0), Candidate(2, 8, 4, 0), Candidate(3, 7, 3, 0)];
    var looks := [Look(0, false, Untouched, Rate429(600 * SECOND), 0, Untouched),
                  Look(SECOND, false, Backoffed, NetTimeout, 120 * SECOND, Untouched),
                  Look(120 * SECOND, false, Untouched, NetFault, 121 * SECOND, Untouched)];
    Request(cands, looks, Config(0, 60 * SECOND, false))
  }

  lemma UnluckyScopes()
    ensures var q := Unlucky();
            q.cands[0].KeyScope() == "ck:7:3" && q.cands[1].KeyScope() == "ck:8:4" && q.cands[2].KeyScope() == "ck:7:3"
  {
    assert Decimal(7) == "7" && Decimal(3) == "3" && Decimal(8) == "8" && Decimal(4) == "4";
  }

  /** Nothing but the loop's own 429s can have brought a cooling that the others' changes do not. */
  lemma NothingBrought(h: History, looks: seq<Look>, to: nat, s: string, t: int)
    requires Honest(h, looks) && looks == Unlucky().looks && to <= 1
    requires to == 1 ==> s != "ck:7:3"
    ensures !Brought(h, to, s, t)
  {
    forall k | k in h.met && k <= to ensures !Begins(h.met[k], s, t) {
      if k == 0 {
        assert looks[0].others == Untouched;
      } else {
        assert k == 1 && looks[1].others == Backoffed;
      }
    }
    forall k | k in h.during && k < to ensures !Begins(h.during[k], s, t) {
      assert k == 0 && looks[0].meanwhile == Untouched;
    }
  }

  lemma NotPassed(q: Request, tries: seq<Try>, passes: seq<Pass>, h: History, outset: Table, reached: nat, i: nat)
    requires Accounted(q, tries, passes, h, outset, reached) && i < |q.cands|
    requires || !Reason(q, tries, h, outset, i, q.cands[i].KeyScope(), q.looks[i].now)
             || (i in h.met ==> Found(q, h, i).None?)
    ensures !PassedAt(passes, i)
  {
    hide Reason, Found, Placed;
    forall p | 0 <= p < |passes| ensures passes[p].index != i {
      assert PassRight(q, tries, h, outset, passes[p]);
    }
  }

  /** The first two candidates have no reason to be cooling. */
  lemma NoReason(q: Request, tries: seq<Try>, h: History, i: nat)
    requires q == Unlucky() && WellTried(q, tries, h) && i <= 1
    ensures !Reason(q, tries, h, map[], i, q.cands[i].KeyScope(), q.looks[i].now)
    ensures !DroppedAt(q, tries, i)
  {
    UnluckyScopes();
    hide Decimal, PoolsRest, AppliedRight;
    NothingBrought(h, q.looks, i, q.cands[i].KeyScope(), q.looks[i].now);
    assert forall c :: c in q.cands && SamePool(c, q.cands[0], false) ==> c.KeyScope() == "ck:7:3";
    forall a | 0 <= a < |tries| && tries[a].index < i
      ensures !CooledBy(q, tries[a], q.cands[i].KeyScope()) && After(tries[a].outcome) != NextChannel {
      assert tries[a].index == 0 && q.looks[0].outcome.Rate429?;
    }
  }

  lemma UnluckyTried(q: Request, tries: seq<Try>, passes: seq<Pass>, h: History, i: nat)
    requires q == Unlucky() && WellTried(q, tries, h) && Accounted(q, tries, passes, h, map[], 3) && i <= 1
    ensures TriedAt(tries, i)
  {
    NoReason(q, tries, h, i);
    hide WellTried, Reason, PassRight, TryRight, DroppedAt, Decimal;
    NotPassed(q, tries, passes, h, map[], 3, i);
    assert Placed(q, tries, passes, h, i);
  }

  /** Candidate 2 meets the table as the other request's backoff has left it. */
  lemma UnluckyFound(q: Request, tries: seq<Try>, h: History, a: nat)
    requires q == Unlucky() && WellTried(q, tries, h) && Linked(q, map[], h)
    requires a < |tries| && tries[a].index == 1 && 1 in h.met && 2 in h.met
    ensures Found(q, h, 2).None?
  {
    UnluckyScopes();
    hide Decimal, PoolsRest, Same;
    assert AppliedRightOf(q, tries[a], h);
    assert LastMet(h, 1, 2);
    assert Left(q, h, 1, h.met[2].before);
    assert h.during[1].after == h.during[1].before by { assert q.looks[1].meanwhile == Untouched; }
    assert h.met[2].after == h.met[2].before by { assert q.looks[2].others == Untouched; }
    assert h.met[2].before == h.during[1].after by { hide AppliedRight, Honest; }
    StillNot(h.met[1].before, h.during[1].before);
  }

  lemma StillNot(before: Table, after: Table)
    requires Same(Backoffed(before), after, SECOND)
    ensures Live(after, "ck:7:3", 120 * SECOND).None?
  {
    assert Live(Backoffed(before), "ck:7:3", 120 * SECOND).None?;
  }

  lemma UnluckyLast(q: Request, tries: seq<Try>, passes: seq<Pass>, h: History)
    requires q == Unlucky() && WellTried(q, tries, h) && Accounted(q, tries, passes, h, map[], 3)
    requires Linked(q, map[], h) && TriedAt(tries, 1)
    ensures TriedAt(tries, 2)
  {
    var a :| 0 <= a < |tries| && tries[a].index == 1;
    assert TryRight(q, h, tries[a]);
    if 2 in h.met { UnluckyFound(q, tries, h, a); }
    hide WellTried, Linked, Reason, PassRight, TryRight, Found;
    NotPassed(q, tries, passes, h, map[], 3, 2);
    assert Placed(q, tries, passes, h, 2);
    assert q.cands[0].channel == 1 && q.cands[1].channel == 2 && q.cands[2].channel == 3;
    assert forall x :: 0 <= x < |tries| && tries[x].index < 2 ==> tries[x].index == 0 || tries[x].index == 1;
    assert !DroppedAt(q, tries, 2);
  }

  lemma {:induction false} IndexGrows(q: Request, tries: seq<Try>, k: nat)
    requires Indexed(q, tries) && Faithful(q, tries, |q.cands|) && k < |tries|
    ensures k <= tries[k].index
  {
    if k > 0 { IndexGrows(q, tries, k - 1); }
  }

  /** An increasing sequence of numbers below 3 that holds each of them. */
  lemma AllThree(q: Request, tries: seq<Try>)
    requires Indexed(q, tries) && Faithful(q, tries, 3) && |q.cands| == 3
    requires TriedAt(tries, 0) && TriedAt(tries, 1) && TriedAt(tries, 2)
    ensures |tries| == 3 && forall i :: 0 <= i < 3 ==> tries[i].index == i
  {
    var a :| 0 <= a < |tries| && tries[a].index == 0;
    var b :| 0 <= b < |tries| && tries[b].index == 1;
    var c :| 0 <= c < |tries| && tries[c].index == 2;
    assert a < b < c;
    IndexGrows(q, tries, |tries| - 1);
  }

  lemma UnluckyRun(q: Request, tries: seq<Try>, passes: seq<Pass>, h: History, reached: nat)
    requires q == Unlucky() && WellTried(q, tries, h) && Accounted(q, tries, passes, h, map[], reached)
    requires Linked(q, map[], h) && reached == 3
    ensures |tries| == 3 && forall i :: 0 <= i < 3 ==> tries[i].index == i
    ensures Due(q, tries[0], q.cands[2].KeyScope(), q.looks[2].now)
  {
    UnluckyTried(q, tries, passes, h, 0);
    UnluckyTried(q, tries, passes, h, 1);
    UnluckyLast(q, tries, passes, h);
    AllThree(q, tries);
    assert SamePool(q.cands[2], q.cands[0], false) && q.cands[2] in q.cands;
    assert tries[0].outcome == q.looks[0].outcome;
  }

  lemma UnluckyEnds(q: Request, tries: seq<Try>, h: History)
    requires q == Unlucky() && WellTried(q, tries, h) && tries != []
    ensures After(tries[|tries| - 1].outcome) != Finish
  {
    var i := tries[|tries| - 1].index;
    assert i == 0 || i == 1 || i == 2;
  }

  lemma UnluckyBackoff()
    ensures Applied(Some(Entry(600 * SECOND, 0, false)), Quota(SECOND), 60 * SECOND, QUOTA_COOLDOWN_MAX)
         == Some(Entry(61 * SECOND, 1, false))
  {
    FirstStep(60 * SECOND, QUOTA_COOLDOWN_MAX);
  }

  /** The backoff of the other request replaces the ten minutes by one, so this request tries the key
      again after two. */
  method RetriedEarly() returns (tries: seq<Try>)
    ensures Applied(Some(Entry(600 * SECOND, 0, false)), Quota(SECOND), 60 * SECOND, QUOTA_COOLDOWN_MAX)
         == Some(Entry(61 * SECOND, 1, false))
    ensures |tries| == 3 && forall i :: 0 <= i < 3 ==> tries[i].index == i
    ensures Due(Unlucky(), tries[0], Unlucky().cands[2].KeyScope(), Unlucky().looks[2].now)
  {
    UnluckyBackoff();
    var m := new Mem();
    var q := Unlucky();
    var v, passes, skipped, skippedQuota, retryAfter;
    ghost var h, reached;
    v, tries, passes, skipped, skippedQuota, retryAfter, h, reached := RunCandidates(m, q);
    hide WellTried, Accounted, Linked, Due, Classify, MaxApplied, QuotaPasses, Applied, Spent;
    if tries != [] { UnluckyEnds(q, tries, h); }
    UnluckyRun(q, tries, passes, h, reached);
  }
}
