/** A whole page by counting alone: when nothing stays parked at the end of its life. */
module PageTally {
  import opened FetchBridge

  /** Numbers only: no request, no id and no history. `clean` says that no batch with something in it was lost. */
  datatype Tally = Tally(step: nat, queued: nat, fetched: nat, rounds: nat, dynamic: nat, clean: bool)

  const FRESH := Tally(0, 0, 0, 0, 0, true)

  function Smaller(a: nat, b: nat): nat {
    if a <= b then a else b
  }

  /** Page code runs once. */
  function Ran(t: Tally, page: Script): Tally {
    t.(step := t.step + 1, queued := t.queued + |page(t.step).asks|)
  }

  /** A batch of `t.queued` requests: one step each, and the cap on what is handed to the network. */
  function Batch(t: Tally, page: Script, urlOk: bool): Tally {
    t.(step := t.step + 1 + t.queued, queued := Asked(page, t.step + 1, t.queued),
       fetched := if urlOk then Smaller(t.fetched + t.queued, MAX_FETCHES) else t.fetched)
  }

  function Drained(t: Tally, page: Script, urlOk: bool, left: nat): Tally
    decreases left
  {
    if left == 0 then t
    else if !page(t.step).ok then t.(step := t.step + 1, queued := 0, clean := t.clean && t.queued == 0)
    else if t.queued == 0 then t.(step := t.step + 1)
    else Drained(Batch(t, page, urlOk), page, urlOk, left - 1)
  }

  function Scripts(t: Tally, page: Script, n: nat): (r: Tally)
    ensures r.rounds == t.rounds
    decreases n
  {
    if n == 0 || t.dynamic >= MAX_DYNAMIC_SCRIPTS then t else
    var u := if page(t.step).ok then Ran(t, page) else t.(step := t.step + 1);
    Scripts(u.(dynamic := t.dynamic + 1), page, n - 1)
  }

  function Rounds(t: Tally, page: Script): Tally
    decreases MAX_DYNAMIC_ROUNDS - t.rounds
  {
    if t.rounds >= MAX_DYNAMIC_ROUNDS || t.dynamic >= MAX_DYNAMIC_SCRIPTS then t else
    var found, u := page(t.step), t.(step := t.step + 1);
    if !found.ok || found.scripts == 0 then u
    else Rounds(Scripts(u.(rounds := t.rounds + 1), page, found.scripts), page)
  }

  /** Settling stops when a drain has handed nothing to the network. */
  function Settled(t: Tally, page: Script, urlOk: bool, left: nat): Tally
    decreases left
  {
    if left == 0 then t else
    var u := Rounds(t, page);
    var v := Drained(u, page, urlOk, MAX_FETCH_ROUNDS);
    if v.fetched == u.fetched then v else Settled(v, page, urlOk, left - 1)
  }

  function Opening(page: Script, scripts: nat): Tally {
    FRESH.(step := scripts, queued := Asked(page, 0, scripts))
  }

  /** The page's reactions, counted over its four settles. */
  function Whole(page: Script, scripts: nat, urlOk: bool): Tally {
    var t0 := Settled(Opening(page, scripts), page, urlOk, MAX_FETCH_ROUNDS);
    var t1 := Settled(Ran(t0, page), page, urlOk, MAX_FETCH_ROUNDS);
    var t2 := Settled(Ran(t1, page), page, urlOk, MAX_FETCH_ROUNDS);
    Settled(Ran(t2, page), page, urlOk, MAX_FETCH_ROUNDS)
  }

  // ---- the page counts as its tally does ----------------------------------------------------

  ghost function Of(p: Page): Tally {
    Tally(p.step, |p.requests|, p.fetched, p.rounds, p.dynamic, NoneLost(p.log))
  }

  lemma ReactOf(p: Page, page: Script)
    ensures Of(React(p, page)) == Ran(Of(p), page)
  {
    hide NoneLost;
    AskAllFrame(p.(step := p.step + 1), page(p.step).asks);
  }

  lemma MoreLog(log: seq<Event>, event: Event)
    requires event.fate != Lost
    ensures NoneLost(log + [event]) <==> NoneLost(log)
  {
    assert forall i :: 0 <= i < |log| ==> (log + [event])[i] == log[i];
  }

  lemma ServeOf(p: Page, page: Script, urlOk: bool, hand: seq<Request>)
    requires Inv(p, hand, urlOk) && hand != []
    ensures Of(Serve(p, page, urlOk, hand[0])) ==
            Ran(Of(p), page).(fetched := if urlOk then Smaller(p.fetched + 1, MAX_FETCHES) else p.fetched)
  {
    hide React, Books, NoneLost;
    FateBooks(p, hand, Served);
    var refuse := p.fetched >= MAX_FETCHES || !urlOk;
    var q := if refuse then p else p.(fetched := p.fetched + 1);
    var event := Event(hand[0].id, if refuse then Rejected else Served);
    MoreLog(q.log, event);
    ReactOf(q.(pending := q.pending - {hand[0].id}, log := q.log + [event]), page);
  }

  lemma {:induction false} ServeAllOf(p: Page, page: Script, urlOk: bool, hand: seq<Request>, n: nat)
    requires Inv(p, hand, urlOk) && n <= |hand|
    ensures Of(ServeAll(p, page, urlOk, hand[..n])) ==
            Of(p).(step := p.step + n, queued := |p.requests| + Asked(page, p.step, n),
                   fetched := if urlOk then Smaller(p.fetched + n, MAX_FETCHES) else p.fetched)
    decreases n
  {
    if n == 0 {
      assert hand[..n] == [];
    } else {
      hide Inv, Serve, Of;
      ServeAllOf(p, page, urlOk, hand, n - 1);
      ServeAllKeeps(p, page, urlOk, hand, n - 1);
      assert hand[..n][..n - 1] == hand[..n - 1];
      ServeOf(ServeAll(p, page, urlOk, hand[..n - 1]), page, urlOk, hand[n - 1..]);
      OfParts(p);
      OfParts(ServeAll(p, page, urlOk, hand[..n - 1]));
    }
  }

  lemma OfParts(p: Page)
    ensures Of(p).step == p.step && Of(p).queued == |p.requests| && Of(p).fetched == p.fetched
    ensures Of(p).rounds == p.rounds && Of(p).dynamic == p.dynamic && Of(p).clean == NoneLost(p.log)
  {
  }

  lemma {:induction false} LostNone(log: seq<Event>, batch: seq<Request>)
    ensures NoneLost(log + LostAll(batch)) <==> NoneLost(log) && batch == []
  {
    if batch == [] {
      assert log + LostAll(batch) == log;
    } else {
      LosesSome(log, batch);
    }
  }

  lemma BatchOf(p: Page, page: Script, urlOk: bool)
    requires Inv(p, [], urlOk)
    ensures var q := ServeAll(Taken(p), page, urlOk, p.requests);
            Inv(q, [], urlOk) && Of(q) == Batch(Of(p), page, urlOk)
  {
    hide Inv, ServeAll, NoneLost, Asked;
    var batch := p.requests;
    TakeKeeps(p, urlOk);
    assert batch[..|batch|] == batch && batch[|batch|..] == [];
    ServeAllKeeps(Taken(p), page, urlOk, batch, |batch|);
    ServeAllOf(Taken(p), page, urlOk, batch, |batch|);
  }

  lemma {:induction false} ResolveOf(p: Page, page: Script, urlOk: bool, left: nat)
    requires Inv(p, [], urlOk)
    ensures Of(ResolveFetches(p, page, urlOk, left)) == Drained(Of(p), page, urlOk, left)
    decreases left
  {
    hide Inv, ServeAll, NoneLost, LostAll, Batch;
    if left > 0 {
      var batch := p.requests;
      if !page(p.step).ok {
        LostNone(p.log, batch);
      } else if batch != [] {
        BatchOf(p, page, urlOk);
        ResolveOf(ServeAll(Taken(p), page, urlOk, batch), page, urlOk, left - 1);
      }
    }
  }

  lemma {:induction false} ScriptsOf(p: Page, page: Script, n: nat)
    ensures Of(RunScripts(p, page, n)) == Scripts(Of(p), page, n)
    decreases n
  {
    hide NoneLost, React;
    if n > 0 && p.dynamic < MAX_DYNAMIC_SCRIPTS {
      ReactOf(p.(dynamic := p.dynamic + 1, ran := p.ran + 1), page);
      ScriptsOf(RunScript(p, page), page, n - 1);
    }
  }

  lemma {:induction false} RoundsOf(p: Page, page: Script)
    ensures Of(DynamicRounds(p, page)) == Rounds(Of(p), page)
    decreases MAX_DYNAMIC_ROUNDS - p.rounds
  {
    hide NoneLost, RunScripts, Scripts;
    if p.rounds < MAX_DYNAMIC_ROUNDS && p.dynamic < MAX_DYNAMIC_SCRIPTS {
      var found, q := page(p.step), p.(step := p.step + 1, rounds := p.rounds + 1);
      if found.ok && found.scripts > 0 {
        ScriptsOf(q, page, found.scripts);
        RoundsOf(RunScripts(q, page, found.scripts), page);
      }
    }
  }

  lemma {:induction false} SettleOf(p: Page, page: Script, urlOk: bool, left: nat)
    requires Inv(p, [], urlOk)
    ensures Of(Settle(p, page, urlOk, left)) == Settled(Of(p), page, urlOk, left)
    decreases left
  {
    hide Inv, DynamicRounds, ResolveFetches, Rounds, Drained, NoneLost;
    if left > 0 {
      var q := DynamicRounds(p, page);
      RoundsOf(p, page);
      DynamicKeeps(p, page, urlOk);
      var r := ResolveFetches(q, page, urlOk, MAX_FETCH_ROUNDS);
      ResolveOf(q, page, urlOk, MAX_FETCH_ROUNDS);
      ResolveKeeps(q, page, urlOk, MAX_FETCH_ROUNDS);
      SettleOf(r, page, urlOk, left - 1);
    }
  }

  lemma {:induction false} OpeningOf(page: Script, scripts: nat)
    ensures Of(Preamble(BLANK, page, scripts)) == Opening(page, scripts)
    decreases scripts
  {
    if scripts > 0 {
      hide React;
      OpeningOf(page, scripts - 1);
      ReactOf(Preamble(BLANK, page, scripts - 1), page);
    }
  }

  lemma PhaseOf(p: Page, page: Script, urlOk: bool)
    requires Inv(p, [], urlOk)
    ensures Of(Phase(p, page, urlOk)) == Settled(Ran(Of(p), page), page, urlOk, MAX_FETCH_ROUNDS)
    ensures Inv(Phase(p, page, urlOk), [], urlOk)
  {
    hide Inv, React, Settle, Settled;
    ReactOf(p, page);
    ReactKeeps(p, page, [], urlOk);
    SettleOf(React(p, page), page, urlOk, MAX_FETCH_ROUNDS);
    PhaseKeeps(p, page, urlOk);
  }

  lemma PageOf(page: Script, scripts: nat, urlOk: bool)
    ensures Of(RunPage(page, scripts, urlOk)) == Whole(page, scripts, urlOk)
  {
    hide Inv, Phase, Settle, Settled, Ran, Preamble, Opening, Of;
    var p := Preamble(BLANK, page, scripts);
    PreambleKeeps(page, scripts, urlOk);
    OpeningOf(page, scripts);
    SettleKeeps(p, page, urlOk, MAX_FETCH_ROUNDS);
    SettleOf(p, page, urlOk, MAX_FETCH_ROUNDS);
    var ready := Settle(p, page, urlOk, MAX_FETCH_ROUNDS);
    PhaseOf(ready, page, urlOk);
    PhaseOf(Phase(ready, page, urlOk), page, urlOk);
    PhaseOf(Phase(Phase(ready, page, urlOk), page, urlOk), page, urlOk);
  }

  /** A page ends its life with every promise settled if and only if, by the count of its reactions, no batch with
      something in it was lost and nothing is left queued. */
  lemma PageDrainedIff(page: Script, scripts: nat, urlOk: bool)
    ensures var t := Whole(page, scripts, urlOk);
            RunPage(page, scripts, urlOk).pending == {} <==> t.clean && t.queued == 0
  {
    hide Inv, RunPage, Whole, NoneLost;
    PageSound(page, scripts, urlOk);
    NothingParked(RunPage(page, scripts, urlOk), urlOk);
    PageOf(page, scripts, urlOk);
  }
}
