/** The page's network bridge: requests parked by scripts, drained and settled by the engine in rounds. */
module FetchBridge {
  const MAX_DYNAMIC_ROUNDS := 8
  const MAX_DYNAMIC_SCRIPTS := 20
  const MAX_FETCH_ROUNDS := 8
  const MAX_FETCHES := 32

  datatype Request = Request(id: nat, what: string)

  /** What became of a drained request: handed to the network, refused over a cap, or dropped undecoded. */
  datatype Fate = Served | Rejected | Lost

  datatype Event = Event(id: nat, fate: Fate)

  /** What page code does when it gets to run: the requests it issues. For a drain, `ok` says that the queue
      decodes; for a script, that its source could be had; for a collection, `scripts` were found. */
  datatype Reaction = Reaction(asks: seq<string>, scripts: nat, ok: bool)

  /** The page's code: any reaction at any step. */
  type Script = nat -> Reaction

  /** The bridge, the engine's counters, and the history of settlements and of script runs. */
  datatype Page = Page(next: nat, pending: set<nat>, requests: seq<Request>,
                       rounds: nat, dynamic: nat, fetched: nat, step: nat,
                       log: seq<Event>, ran: nat)

  const BLANK := Page(1, {}, [], 0, 0, 0, 0, [], 0)

  // ---- the bridge ---------------------------------------------------------------------------

  /** `fetch` or `send`: park a promise and queue the request. */
  function Ask(p: Page, what: string): Page {
    p.(next := p.next + 1, pending := p.pending + {p.next}, requests := p.requests + [Request(p.next, what)])
  }

  function AskAll(p: Page, asks: seq<string>): (r: Page)
    ensures r.rounds == p.rounds
  {
    if asks == [] then p else Ask(AskAll(p, asks[..|asks| - 1]), asks[|asks| - 1])
  }

  /** Page code runs once. */
  function React(p: Page, page: Script): Page {
    AskAll(p.(step := p.step + 1), page(p.step).asks)
  }

  /** Settle a parked promise and run its callbacks; an id that is not parked is ignored. */
  function Resolve(p: Page, page: Script, id: nat, fate: Fate): Page {
    if id !in p.pending then p
    else React(p.(pending := p.pending - {id}, log := p.log + [Event(id, fate)]), page)
  }

  // ---- draining -----------------------------------------------------------------------------

  function Serve(p: Page, page: Script, urlOk: bool, request: Request): Page {
    if p.fetched >= MAX_FETCHES || !urlOk then Resolve(p, page, request.id, Rejected)
    else Resolve(p.(fetched := p.fetched + 1), page, request.id, Served)
  }

  function ServeAll(p: Page, page: Script, urlOk: bool, batch: seq<Request>): Page {
    if batch == [] then p
    else Serve(ServeAll(p, page, urlOk, batch[..|batch| - 1]), page, urlOk, batch[|batch| - 1])
  }

  function LostAll(batch: seq<Request>): seq<Event> {
    if batch == [] then [] else LostAll(batch[..|batch| - 1]) + [Event(batch[|batch| - 1].id, Lost)]
  }

  /** The queue is emptied before it is known to decode. */
  function Taken(p: Page): Page {
    p.(requests := [], step := p.step + 1)
  }

  function ResolveFetches(p: Page, page: Script, urlOk: bool, left: nat): Page
    decreases left
  {
    if left == 0 then p
    else if !page(p.step).ok then Taken(p).(log := p.log + LostAll(p.requests))
    else if p.requests == [] then Taken(p)
    else ResolveFetches(ServeAll(Taken(p), page, urlOk, p.requests), page, urlOk, left - 1)
  }

  // ---- dynamic scripts ----------------------------------------------------------------------

  function RunScript(p: Page, page: Script): Page {
    if page(p.step).ok then React(p.(dynamic := p.dynamic + 1, ran := p.ran + 1), page)
    else p.(dynamic := p.dynamic + 1, step := p.step + 1)
  }

  function RunScripts(p: Page, page: Script, n: nat): (r: Page)
    ensures r.rounds == p.rounds
    decreases n
  {
    if n == 0 || p.dynamic >= MAX_DYNAMIC_SCRIPTS then p else RunScripts(RunScript(p, page), page, n - 1)
  }

  function DynamicRounds(p: Page, page: Script): Page
    decreases MAX_DYNAMIC_ROUNDS - p.rounds
  {
    if p.rounds >= MAX_DYNAMIC_ROUNDS || p.dynamic >= MAX_DYNAMIC_SCRIPTS then p else
    var found, q := page(p.step), p.(step := p.step + 1);
    if !found.ok || found.scripts == 0 then q
    else DynamicRounds(RunScripts(q.(rounds := q.rounds + 1), page, found.scripts), page)
  }

  // ---- a whole page -------------------------------------------------------------------------

  function Settle(p: Page, page: Script, urlOk: bool, left: nat): Page
    decreases left
  {
    if left == 0 then p else
    var q := DynamicRounds(p, page);
    var r := ResolveFetches(q, page, urlOk, MAX_FETCH_ROUNDS);
    if r.fetched == q.fetched then r else Settle(r, page, urlOk, left - 1)
  }

  /** The scripts the document came with, and the user's. */
  function Preamble(p: Page, page: Script, n: nat): Page {
    if n == 0 then p else React(Preamble(p, page, n - 1), page)
  }

  /** Page code runs (an event fires or the timers are flushed), and the page settles again. */
  function Phase(p: Page, page: Script, urlOk: bool): Page {
    Settle(React(p, page), page, urlOk, MAX_FETCH_ROUNDS)
  }

  /** Scripts, DOMContentLoaded, timers and load, with a settle after each. */
  function RunPage(page: Script, scripts: nat, urlOk: bool): Page {
    var ready := Settle(Preamble(BLANK, page, scripts), page, urlOk, MAX_FETCH_ROUNDS);
    Phase(Phase(Phase(ready, page, urlOk), page, urlOk), page, urlOk)
  }

  // ---- the invariant ------------------------------------------------------------------------

  function ServedCount(log: seq<Event>): nat {
    if log == [] then 0 else ServedCount(log[..|log| - 1]) + if log[|log| - 1].fate == Served then 1 else 0
  }

  ghost predicate Numbered(batch: seq<Request>, first: nat) {
    forall i :: 0 <= i < |batch| ==> batch[i].id == first + i
  }

  /** Requests get their fate in the order they were issued, each exactly one. */
  ghost predicate InOrder(log: seq<Event>) {
    forall i :: 0 <= i < |log| ==> log[i].id == i + 1
  }

  /** The promises still parked: those without a fate yet, and those whose request was lost. */
  ghost predicate PendingIs(pending: set<nat>, log: seq<Event>, next: nat) {
    forall id :: id in pending <==> 1 <= id < next && (id <= |log| ==> log[id - 1].fate == Lost)
  }

  /** A request is refused only over the cap or for want of a page address, which stops every service. */
  ghost predicate Refusals(log: seq<Event>, urlOk: bool) {
    && (forall i :: 0 <= i < |log| && log[i].fate == Rejected ==> urlOk ==> ServedCount(log[..i]) == MAX_FETCHES)
    && (!urlOk ==> ServedCount(log) == 0)
  }

  ghost predicate WithinCaps(p: Page) {
    p.rounds <= MAX_DYNAMIC_ROUNDS && p.dynamic <= MAX_DYNAMIC_SCRIPTS && p.fetched <= MAX_FETCHES && p.ran <= p.dynamic
  }

  /** `hand` is the drained batch the engine is working through. */
  ghost predicate Books(p: Page, hand: seq<Request>) {
    && InOrder(p.log)
    && Numbered(hand, |p.log| + 1)
    && Numbered(p.requests, |p.log| + |hand| + 1)
    && p.next == |p.log| + |hand| + |p.requests| + 1
    && PendingIs(p.pending, p.log, p.next)
  }

  ghost predicate Inv(p: Page, hand: seq<Request>, urlOk: bool) {
    Books(p, hand) && WithinCaps(p) && p.fetched == ServedCount(p.log) && Refusals(p.log, urlOk)
  }

  // ---- every step keeps it ------------------------------------------------------------------

  lemma {:induction false} AskAllFrame(p: Page, asks: seq<string>)
    ensures var q := AskAll(p, asks);
            && q == p.(next := p.next + |asks|, pending := q.pending, requests := q.requests)
            && |q.requests| == |p.requests| + |asks|
            && (forall i :: 0 <= i < |q.requests| ==>
                  q.requests[i] == (if i < |p.requests| then p.requests[i]
                                    else Request(p.next + i - |p.requests|, asks[i - |p.requests|])))
            && (forall id :: id in q.pending <==> id in p.pending || p.next <= id < q.next)
    decreases |asks|
  {
    if asks != [] { AskAllFrame(p, asks[..|asks| - 1]); }
  }

  lemma ReactKeeps(p: Page, page: Script, hand: seq<Request>, urlOk: bool)
    requires Inv(p, hand, urlOk)
    ensures Inv(React(p, page), hand, urlOk)
    ensures React(p, page).log == p.log && React(p, page).fetched == p.fetched
  {
    AskAllFrame(p.(step := p.step + 1), page(p.step).asks);
  }

  lemma LogGrows(log: seq<Event>, event: Event, urlOk: bool)
    requires Refusals(log, urlOk)
    requires event.fate == Rejected ==> urlOk ==> ServedCount(log) == MAX_FETCHES
    requires event.fate == Served ==> urlOk
    ensures ServedCount(log + [event]) == ServedCount(log) + if event.fate == Served then 1 else 0
    ensures Refusals(log + [event], urlOk)
  {
    var log' := log + [event];
    assert log'[..|log|] == log;
    forall i | 0 <= i < |log'| && log'[i].fate == Rejected && urlOk ensures ServedCount(log'[..i]) == MAX_FETCHES {
      assert log'[..i] == log[..i];
      if i == |log| { assert log[..i] == log; }
    }
  }

  lemma FateBooks(p: Page, hand: seq<Request>, fate: Fate)
    requires Books(p, hand) && hand != []
    ensures hand[0].id in p.pending
    ensures var pending := if fate == Lost then p.pending else p.pending - {hand[0].id};
            Books(p.(pending := pending, log := p.log + [Event(hand[0].id, fate)]), hand[1..])
  {
  }

  lemma ServeKeeps(p: Page, page: Script, urlOk: bool, hand: seq<Request>)
    requires Inv(p, hand, urlOk) && hand != []
    ensures Inv(Serve(p, page, urlOk, hand[0]), hand[1..], urlOk)
    ensures |Serve(p, page, urlOk, hand[0]).log| == |p.log| + 1
  {
    hide Books, Refusals, ServedCount, React;
    var refuse := p.fetched >= MAX_FETCHES || !urlOk;
    var fate := if refuse then Rejected else Served;
    FateBooks(p, hand, fate);
    LogGrows(p.log, Event(hand[0].id, fate), urlOk);
    var fetched := if refuse then p.fetched else p.fetched + 1;
    var q := p.(fetched := fetched, pending := p.pending - {hand[0].id}, log := p.log + [Event(hand[0].id, fate)]);
    SameBooks(p.(pending := q.pending, log := q.log), q, hand[1..]);
    ReactKeeps(q, page, hand[1..], urlOk);
  }

  lemma SameBooks(p: Page, q: Page, hand: seq<Request>)
    requires Books(p, hand) && p.log == q.log && p.next == q.next && p.pending == q.pending && p.requests == q.requests
    ensures Books(q, hand)
  {
  }

  lemma {:induction false} ServeAllKeeps(p: Page, page: Script, urlOk: bool, hand: seq<Request>, n: nat)
    requires Inv(p, hand, urlOk) && n <= |hand|
    ensures Inv(ServeAll(p, page, urlOk, hand[..n]), hand[n..], urlOk)
    ensures |ServeAll(p, page, urlOk, hand[..n]).log| == |p.log| + n
    decreases n
  {
    hide Inv, Serve;
    if n > 0 {
      ServeAllKeeps(p, page, urlOk, hand, n - 1);
      assert hand[..n][..n - 1] == hand[..n - 1] && hand[n - 1..][1..] == hand[n..];
      ServeKeeps(ServeAll(p, page, urlOk, hand[..n - 1]), page, urlOk, hand[n - 1..]);
    } else {
      assert hand[..n] == [] && hand[n..] == hand;
    }
  }

  lemma TakeKeeps(p: Page, urlOk: bool)
    requires Inv(p, [], urlOk)
    ensures Inv(Taken(p), p.requests, urlOk)
  {
  }

  lemma {:induction false} LoseKeeps(p: Page, hand: seq<Request>, n: nat, urlOk: bool)
    requires Inv(p, hand, urlOk) && n <= |hand|
    ensures Inv(p.(log := p.log + LostAll(hand[..n])), hand[n..], urlOk)
    decreases n
  {
    hide Books, Refusals, ServedCount;
    if n > 0 {
      LoseKeeps(p, hand, n - 1, urlOk);
      assert hand[..n][..n - 1] == hand[..n - 1] && hand[n - 1..][1..] == hand[n..];
      var q := p.(log := p.log + LostAll(hand[..n - 1]));
      var event := Event(hand[n - 1].id, Lost);
      FateBooks(q, hand[n - 1..], Lost);
      LogGrows(q.log, event, urlOk);
      assert q.log + [event] == p.log + LostAll(hand[..n]);
    } else {
      assert hand[..n] == [] && hand[n..] == hand && p.log + [] == p.log;
    }
  }

  lemma {:induction false} ResolveKeeps(p: Page, page: Script, urlOk: bool, left: nat)
    requires Inv(p, [], urlOk)
    ensures Inv(ResolveFetches(p, page, urlOk, left), [], urlOk)
    decreases left
  {
    hide Inv, ServeAll;
    if left > 0 {
      var batch := p.requests;
      TakeKeeps(p, urlOk);
      assert batch[..|batch|] == batch && batch[|batch|..] == [];
      if !page(p.step).ok {
        LoseKeeps(Taken(p), batch, |batch|, urlOk);
      } else if batch != [] {
        ServeAllKeeps(Taken(p), page, urlOk, batch, |batch|);
        ResolveKeeps(ServeAll(Taken(p), page, urlOk, batch), page, urlOk, left - 1);
      }
    }
  }

  lemma RunScriptKeeps(p: Page, page: Script, urlOk: bool)
    requires Inv(p, [], urlOk) && p.dynamic < MAX_DYNAMIC_SCRIPTS
    ensures Inv(RunScript(p, page), [], urlOk)
  {
    hide Books, Refusals, ServedCount, React;
    var q := p.(dynamic := p.dynamic + 1, ran := p.ran + 1);
    SameBooks(p, q, []);
    SameBooks(p, p.(dynamic := p.dynamic + 1, step := p.step + 1), []);
    ReactKeeps(q, page, [], urlOk);
  }

  lemma {:induction false} RunScriptsKeeps(p: Page, page: Script, n: nat, urlOk: bool)
    requires Inv(p, [], urlOk)
    ensures Inv(RunScripts(p, page, n), [], urlOk)
    decreases n
  {
    hide Inv, RunScript;
    if n > 0 && p.dynamic < MAX_DYNAMIC_SCRIPTS {
      RunScriptKeeps(p, page, urlOk);
      RunScriptsKeeps(RunScript(p, page), page, n - 1, urlOk);
    }
  }

  lemma {:induction false} DynamicKeeps(p: Page, page: Script, urlOk: bool)
    requires Inv(p, [], urlOk)
    ensures Inv(DynamicRounds(p, page), [], urlOk)
    decreases MAX_DYNAMIC_ROUNDS - p.rounds
  {
    hide Books, Refusals, ServedCount, RunScripts;
    if p.rounds < MAX_DYNAMIC_ROUNDS && p.dynamic < MAX_DYNAMIC_SCRIPTS {
      var q := p.(step := p.step + 1);
      var q' := q.(rounds := q.rounds + 1);
      SameBooks(p, q, []);
      SameBooks(p, q', []);
      if page(p.step).ok && page(p.step).scripts > 0 {
        RunScriptsKeeps(q', page, page(p.step).scripts, urlOk);
        DynamicKeeps(RunScripts(q', page, page(p.step).scripts), page, urlOk);
      }
    }
  }

  lemma {:induction false} SettleKeeps(p: Page, page: Script, urlOk: bool, left: nat)
    requires Inv(p, [], urlOk)
    ensures Inv(Settle(p, page, urlOk, left), [], urlOk)
    decreases left
  {
    hide Inv, DynamicRounds, ResolveFetches;
    if left > 0 {
      var q := DynamicRounds(p, page);
      DynamicKeeps(p, page, urlOk);
      ResolveKeeps(q, page, urlOk, MAX_FETCH_ROUNDS);
      SettleKeeps(ResolveFetches(q, page, urlOk, MAX_FETCH_ROUNDS), page, urlOk, left - 1);
    }
  }

  lemma {:induction false} PreambleKeeps(page: Script, n: nat, urlOk: bool)
    ensures Inv(Preamble(BLANK, page, n), [], urlOk)
    decreases n
  {
    hide React;
    if n > 0 {
      PreambleKeeps(page, n - 1, urlOk);
      ReactKeeps(Preamble(BLANK, page, n - 1), page, [], urlOk);
    }
  }

  lemma PhaseKeeps(p: Page, page: Script, urlOk: bool)
    requires Inv(p, [], urlOk)
    ensures Inv(Phase(p, page, urlOk), [], urlOk)
  {
    hide Inv, React, Settle;
    ReactKeeps(p, page, [], urlOk);
    SettleKeeps(React(p, page), page, urlOk, MAX_FETCH_ROUNDS);
  }

  /** Whatever the page's code does, and whenever it does it. */
  lemma PageSound(page: Script, scripts: nat, urlOk: bool)
    ensures Inv(RunPage(page, scripts, urlOk), [], urlOk)
  {
    hide Inv, Settle, Phase, Preamble;
    PreambleKeeps(page, scripts, urlOk);
    var p := Preamble(BLANK, page, scripts);
    SettleKeeps(p, page, urlOk, MAX_FETCH_ROUNDS);
    var ready := Settle(p, page, urlOk, MAX_FETCH_ROUNDS);
    PhaseKeeps(ready, page, urlOk);
    PhaseKeeps(Phase(ready, page, urlOk), page, urlOk);
    PhaseKeeps(Phase(Phase(ready, page, urlOk), page, urlOk), page, urlOk);
  }

  // ---- when a promise stays parked -----------------------------------------------------------

  ghost predicate NoneLost(log: seq<Event>) {
    forall i :: 0 <= i < |log| ==> log[i].fate != Lost
  }

  /** Between rounds the parked promises are the queued requests and the lost ones. */
  lemma NothingParked(p: Page, urlOk: bool)
    requires Inv(p, [], urlOk)
    ensures p.pending == {} <==> p.requests == [] && NoneLost(p.log)
  {
    if p.requests != [] {
      assert p.requests[0].id in p.pending;
    } else if !NoneLost(p.log) {
      var i :| 0 <= i < |p.log| && p.log[i].fate == Lost;
      assert i + 1 in p.pending;
    }
  }

  /** How many requests page code issues in the `n` steps from `step` on. */
  function Asked(page: Script, step: nat, n: nat): nat {
    if n == 0 then 0 else Asked(page, step, n - 1) + |page(step + n - 1).asks|
  }

  /** Read off the page's reactions alone: with `queued` requests waiting at `step`, every drain decodes and the
      callbacks of at most `left` rounds leave nothing queued. A round takes one step for the drain and one for each
      callback. */
  predicate Dries(page: Script, step: nat, queued: nat, left: nat)
    decreases left
  {
    || queued == 0
    || (left > 0 && page(step).ok && Dries(page, step + 1 + queued, Asked(page, step + 1, queued), left - 1))
  }

  lemma ReactAsks(p: Page, page: Script)
    ensures React(p, page).step == p.step + 1 && |React(p, page).requests| == |p.requests| + |page(p.step).asks|
  {
    AskAllFrame(p.(step := p.step + 1), page(p.step).asks);
  }

  /** A batch of parked requests takes one step each and queues what the callbacks ask. */
  lemma {:induction false} ServeAllAsks(p: Page, page: Script, urlOk: bool, hand: seq<Request>, n: nat)
    requires Inv(p, hand, urlOk) && n <= |hand|
    ensures var q := ServeAll(p, page, urlOk, hand[..n]);
            q.step == p.step + n && |q.requests| == |p.requests| + Asked(page, p.step, n)
    decreases n
  {
    hide Inv, React;
    if n == 0 {
      assert hand[..n] == [];
    } else {
      ServeAllAsks(p, page, urlOk, hand, n - 1);
      ServeAllKeeps(p, page, urlOk, hand, n - 1);
      assert hand[..n][..n - 1] == hand[..n - 1];
      var q := ServeAll(p, page, urlOk, hand[..n - 1]);
      ServeAsks(q, page, urlOk, hand[n - 1..]);
    }
  }

  lemma ServeAsks(p: Page, page: Script, urlOk: bool, hand: seq<Request>)
    requires Inv(p, hand, urlOk) && hand != []
    ensures var q := Serve(p, page, urlOk, hand[0]);
            q.step == p.step + 1 && |q.requests| == |p.requests| + |page(p.step).asks|
  {
    hide React, Books;
    FateBooks(p, hand, Served);
    var refuse := p.fetched >= MAX_FETCHES || !urlOk;
    var q := if refuse then p else p.(fetched := p.fetched + 1);
    var fate := if refuse then Rejected else Served;
    ReactAsks(q.(pending := q.pending - {hand[0].id}, log := q.log + [Event(hand[0].id, fate)]), page);
  }

  lemma {:induction false} ServeAllLoses(p: Page, page: Script, urlOk: bool, batch: seq<Request>)
    requires NoneLost(p.log)
    ensures NoneLost(ServeAll(p, page, urlOk, batch).log)
    decreases |batch|
  {
    if batch != [] {
      var q := ServeAll(p, page, urlOk, batch[..|batch| - 1]);
      ServeAllLoses(p, page, urlOk, batch[..|batch| - 1]);
      ServeLoses(q, page, urlOk, batch[|batch| - 1]);
    }
  }

  lemma ServeLoses(p: Page, page: Script, urlOk: bool, request: Request)
    requires NoneLost(p.log)
    ensures NoneLost(Serve(p, page, urlOk, request).log)
  {
    var refuse := p.fetched >= MAX_FETCHES || !urlOk;
    var q := if refuse then p else p.(fetched := p.fetched + 1);
    var fate := if refuse then Rejected else Served;
    var r := q.(pending := q.pending - {request.id}, log := q.log + [Event(request.id, fate)]);
    AskAllFrame(r.(step := r.step + 1), page(r.step).asks);
  }

  lemma LosesSome(log: seq<Event>, batch: seq<Request>)
    requires batch != []
    ensures !NoneLost(log + LostAll(batch))
  {
    var all := log + LostAll(batch);
    assert all[|all| - 1].fate == Lost;
  }

  /** One call leaves no promise parked if and only if the page's reactions dry up in time. */
  lemma {:induction false} DrainedIff(p: Page, page: Script, urlOk: bool, left: nat)
    requires Inv(p, [], urlOk) && NoneLost(p.log)
    ensures ResolveFetches(p, page, urlOk, left).pending == {} <==> Dries(page, p.step, |p.requests|, left)
    decreases left
  {
    hide Inv, NoneLost, ServeAll;
    var r := ResolveFetches(p, page, urlOk, left);
    ResolveKeeps(p, page, urlOk, left);
    NothingParked(r, urlOk);
    if left > 0 {
      if !page(p.step).ok {
        if p.requests == [] {
          assert p.log + LostAll([]) == p.log;
        } else {
          LosesSome(p.log, p.requests);
        }
      } else if p.requests != [] {
        var batch := p.requests;
        TakeKeeps(p, urlOk);
        assert batch[..|batch|] == batch && batch[|batch|..] == [];
        ServeAllKeeps(Taken(p), page, urlOk, batch, |batch|);
        ServeAllLoses(Taken(p), page, urlOk, batch);
        ServeAllAsks(Taken(p), page, urlOk, batch, |batch|);
        DrainedIff(ServeAll(Taken(p), page, urlOk, batch), page, urlOk, left - 1);
      }
    }
  }

  /** A page whose every callback asks again. */
  function Insistent(step: nat): Reaction {
    Reaction(["again"], 0, true)
  }

  lemma InsistentReact(p: Page)
    ensures React(p, Insistent).requests != []
  {
    AskAllFrame(p.(step := p.step + 1), ["again"]);
  }

  lemma InsistentRound(p: Page, urlOk: bool)
    requires Inv(p, [], urlOk) && p.requests != []
    ensures ServeAll(Taken(p), Insistent, urlOk, p.requests).requests != []
    ensures Inv(ServeAll(Taken(p), Insistent, urlOk, p.requests), [], urlOk)
  {
    hide Inv, React;
    var batch := p.requests;
    var n := |batch| - 1;
    TakeKeeps(p, urlOk);
    assert batch[..|batch|] == batch && batch[|batch|..] == [];
    ServeAllKeeps(Taken(p), Insistent, urlOk, batch, |batch|);
    ServeAllKeeps(Taken(p), Insistent, urlOk, batch, n);
    var q := ServeAll(Taken(p), Insistent, urlOk, batch[..n]);
    InsistentServe(q, batch[n..], urlOk);
  }

  lemma InsistentServe(p: Page, hand: seq<Request>, urlOk: bool)
    requires Inv(p, hand, urlOk) && hand != []
    ensures Serve(p, Insistent, urlOk, hand[0]).requests != []
  {
    hide React, Books;
    FateBooks(p, hand, Served);
    var refuse := p.fetched >= MAX_FETCHES || !urlOk;
    var q := if refuse then p else p.(fetched := p.fetched + 1);
    var fate := if refuse then Rejected else Served;
    InsistentReact(q.(pending := q.pending - {hand[0].id}, log := q.log + [Event(hand[0].id, fate)]));
  }

  lemma {:induction false} InsistentResolve(p: Page, urlOk: bool, left: nat)
    requires Inv(p, [], urlOk) && p.requests != []
    ensures ResolveFetches(p, Insistent, urlOk, left).requests != []
    decreases left
  {
    hide Inv, ServeAll;
    if left > 0 {
      InsistentRound(p, urlOk);
      InsistentResolve(ServeAll(Taken(p), Insistent, urlOk, p.requests), urlOk, left - 1);
    }
  }

  lemma {:induction false} InsistentSettle(p: Page, urlOk: bool, left: nat)
    requires Inv(p, [], urlOk) && p.requests != []
    ensures Settle(p, Insistent, urlOk, left).requests != []
    decreases left
  {
    hide Inv, ResolveFetches;
    if left > 0 {
      var q := DynamicRounds(p, Insistent);
      assert q.requests == p.requests;
      DynamicKeeps(p, Insistent, urlOk);
      InsistentResolve(q, urlOk, MAX_FETCH_ROUNDS);
      ResolveKeeps(q, Insistent, urlOk, MAX_FETCH_ROUNDS);
      InsistentSettle(ResolveFetches(q, Insistent, urlOk, MAX_FETCH_ROUNDS), urlOk, left - 1);
    }
  }

  /** That page ends with a promise parked for good: the round limit does not reject what is still queued. */
  lemma InsistentExample(urlOk: bool)
    ensures RunPage(Insistent, 0, urlOk).pending != {}
  {
    hide Inv, Settle, React, Preamble;
    PreambleKeeps(Insistent, 0, urlOk);
    var p := Preamble(BLANK, Insistent, 0);
    SettleKeeps(p, Insistent, urlOk, MAX_FETCH_ROUNDS);
    var ready := Settle(p, Insistent, urlOk, MAX_FETCH_ROUNDS);
    PhaseKeeps(ready, Insistent, urlOk);
    PhaseKeeps(Phase(ready, Insistent, urlOk), Insistent, urlOk);
    var before := Phase(Phase(ready, Insistent, urlOk), Insistent, urlOk);
    InsistentReact(before);
    ReactKeeps(before, Insistent, [], urlOk);
    InsistentSettle(React(before, Insistent), urlOk, MAX_FETCH_ROUNDS);
    PageSound(Insistent, 0, urlOk);
    NothingParked(RunPage(Insistent, 0, urlOk), urlOk);
  }

  /** Nothing happens any more: no code asks, no script is found. */
  ghost predicate Quiet(page: Script, step: nat) {
    forall n :: n >= step ==> page(n).asks == [] && page(n).scripts == 0
  }

  lemma QuietSettle(p: Page, page: Script, urlOk: bool)
    requires Quiet(page, p.step) && p.requests == []
    ensures var q := Settle(p, page, urlOk, MAX_FETCH_ROUNDS); q == p.(step := q.step) && q.step >= p.step
  {
    var q := DynamicRounds(p, page);
    assert q == p.(step := q.step) && q.step >= p.step;
    var r := ResolveFetches(q, page, urlOk, MAX_FETCH_ROUNDS);
    assert q.log + [] == q.log;
    assert r == p.(step := r.step) && r.step >= p.step;
  }

  lemma QuietPhase(p: Page, page: Script, urlOk: bool)
    requires Quiet(page, p.step) && p.requests == []
    ensures var q := Phase(p, page, urlOk); q == p.(step := q.step) && q.step >= p.step
  {
    hide Settle;
    assert page(p.step).asks == [];
    assert React(p, page) == p.(step := p.step + 1);
    QuietSettle(React(p, page), page, urlOk);
  }

  /** A page whose one script asks once, and whose first drain does not decode. */
  function Garbled(step: nat): Reaction {
    Reaction(if step == 0 then ["one"] else [], 0, step != 2)
  }

  /** That page ends with its promise parked for good: the drained request is dropped unanswered. */
  lemma GarbledExample(urlOk: bool)
    ensures RunPage(Garbled, 1, urlOk).pending == {1}
  {
    hide Phase;
    var asked := Page(2, {1}, [Request(1, "one")], 0, 0, 0, 1, [], 0);
    var lost := Page(2, {1}, [], 0, 0, 0, 3, [Event(1, Lost)], 0);
    assert Garbled(0).asks[..0] == [];
    assert Preamble(BLANK, Garbled, 1) == asked;
    var q := DynamicRounds(asked, Garbled);
    assert q == asked.(step := 2);
    assert LostAll([Request(1, "one")]) == [Event(1, Lost)] by { assert [Request(1, "one")][..0] == []; }
    assert ResolveFetches(q, Garbled, urlOk, MAX_FETCH_ROUNDS) == lost;
    assert Settle(asked, Garbled, urlOk, MAX_FETCH_ROUNDS) == lost;
    hide Settle;
    QuietPhase(lost, Garbled, urlOk);
    var p1 := Phase(lost, Garbled, urlOk);
    QuietPhase(p1, Garbled, urlOk);
    QuietPhase(Phase(p1, Garbled, urlOk), Garbled, urlOk);
  }

  // ---- the bridge and the engine's loops, in place ---------------------------------------------

  class PageScripts {
    var next: nat
    var pending: set<nat>
    var requests: seq<Request>
    var rounds: nat
    var dynamic: nat
    var fetched: nat
    var step: nat
    ghost var log: seq<Event>
    ghost var ran: nat

    ghost function Value(): Page
      reads this
    {
      Page(next, pending, requests, rounds, dynamic, fetched, step, log, ran)
    }

    constructor ()
      ensures Value() == BLANK
    {
      next, pending, requests := 1, {}, [];
      rounds, dynamic, fetched, step := 0, 0, 0, 0;
      log, ran := [], 0;
    }

    method Fetch(what: string)
      modifies this
      ensures Value() == Ask(old(Value()), what)
    {
      var id := next;
      next := next + 1;
      pending := pending + {id};
      requests := requests + [Request(id, what)];
    }

    method RunCode(page: Script)
      modifies this
      ensures Value() == React(old(Value()), page)
    {
      var asks := page(step).asks;
      step := step + 1;
      ghost var start := Value();
      var i := 0;
      while i < |asks|
        invariant 0 <= i <= |asks|
        invariant Value() == AskAll(start, asks[..i])
      {
        Fetch(asks[i]);
        i := i + 1;
        assert asks[..i][..i - 1] == asks[..i - 1];
      }
      assert asks[..i] == asks;
    }

    method TakeRequests() returns (batch: seq<Request>)
      modifies this
      ensures batch == old(requests) && Value() == Taken(old(Value()))
    {
      batch := requests;
      requests := [];
      step := step + 1;
    }

    method NetResolve(page: Script, id: nat, ghost fate: Fate)
      modifies this
      ensures Value() == Resolve(old(Value()), page, id, fate)
    {
      if id in pending {
        pending := pending - {id};
        log := log + [Event(id, fate)];
        RunCode(page);
      }
    }

    method ServeBatch(page: Script, urlOk: bool, batch: seq<Request>)
      modifies this
      ensures Value() == ServeAll(old(Value()), page, urlOk, batch)
    {
      hide Resolve;
      var i := 0;
      while i < |batch|
        invariant 0 <= i <= |batch|
        invariant Value() == ServeAll(old(Value()), page, urlOk, batch[..i])
      {
        if fetched >= MAX_FETCHES || !urlOk {
          NetResolve(page, batch[i].id, Rejected);
        } else {
          fetched := fetched + 1;
          NetResolve(page, batch[i].id, Served);
        }
        i := i + 1;
        assert batch[..i][..i - 1] == batch[..i - 1];
      }
      assert batch[..i] == batch;
    }

    method ServeRequests(page: Script, urlOk: bool)
      modifies this
      ensures Value() == ResolveFetches(old(Value()), page, urlOk, MAX_FETCH_ROUNDS)
    {
      hide ServeAll, LostAll;
      var left: nat := MAX_FETCH_ROUNDS;
      while left > 0
        invariant ResolveFetches(Value(), page, urlOk, left)
                  == ResolveFetches(old(Value()), page, urlOk, MAX_FETCH_ROUNDS)
      {
        var decodes := page(step).ok;
        var batch := TakeRequests();
        if !decodes {
          log := log + LostAll(batch);
          return;
        }
        if batch == [] {
          return;
        }
        ServeBatch(page, urlOk, batch);
        left := left - 1;
      }
    }

    method RunDynamicRounds(page: Script)
      modifies this
      ensures Value() == DynamicRounds(old(Value()), page)
    {
      hide React, RunScripts;
      while rounds < MAX_DYNAMIC_ROUNDS && dynamic < MAX_DYNAMIC_SCRIPTS
        invariant DynamicRounds(Value(), page) == DynamicRounds(old(Value()), page)
        decreases MAX_DYNAMIC_ROUNDS - rounds
      {
        var found := page(step);
        step := step + 1;
        if !found.ok || found.scripts == 0 {
          return;
        }
        rounds := rounds + 1;
        RunBatch(page, found.scripts);
      }
    }

    method RunBatch(page: Script, count: nat)
      modifies this
      ensures Value() == RunScripts(old(Value()), page, count)
    {
      hide React;
      var n := count;
      while n > 0
        invariant RunScripts(Value(), page, n) == RunScripts(old(Value()), page, count)
      {
        if dynamic >= MAX_DYNAMIC_SCRIPTS {
          return;
        }
        dynamic := dynamic + 1;
        if page(step).ok {
          ran := ran + 1;
          RunCode(page);
        } else {
          step := step + 1;
        }
        n := n - 1;
      }
    }

    method SettlePage(page: Script, urlOk: bool)
      modifies this
      ensures Value() == Settle(old(Value()), page, urlOk, MAX_FETCH_ROUNDS)
    {
      hide ResolveFetches, DynamicRounds;
      var left: nat := MAX_FETCH_ROUNDS;
      while left > 0
        invariant Settle(Value(), page, urlOk, left) == Settle(old(Value()), page, urlOk, MAX_FETCH_ROUNDS)
      {
        RunDynamicRounds(page);
        var before := fetched;
        ServeRequests(page, urlOk);
        if fetched == before {
          return;
        }
        left := left - 1;
      }
    }

    /** A page from its first script to the settle after load, on a new bridge. */
    method Execute(page: Script, scripts: nat, urlOk: bool)
      requires Value() == BLANK
      modifies this
      ensures Value() == RunPage(page, scripts, urlOk)
      ensures Inv(Value(), [], urlOk)
    {
      hide Settle, React, Inv;
      var i := 0;
      while i < scripts
        invariant 0 <= i <= scripts
        invariant Value() == Preamble(BLANK, page, i)
      {
        RunCode(page);
        i := i + 1;
      }
      SettlePage(page, urlOk);
      RunCode(page);
      SettlePage(page, urlOk);
      RunCode(page);
      SettlePage(page, urlOk);
      RunCode(page);
      SettlePage(page, urlOk);
      PageSound(page, scripts, urlOk);
    }
  }
}
