// Who is next in line: inside a protected window the protocol is a simple ascending auction.
module Contest {
  import opened Base
  import opened Pricing
  import opened Rows
  import opened Takeovers
  import opened GameInvariant
  import opened GameSteps
  import opened Books
  import opened Desk
  import opened DeskInvariant
  import opened Intake
  import opened Protocol
  import opened Safety
  import opened SafetySteps
  import opened EventSteps
  import opened Machine
  import opened Display
  import opened History

  // ----- the auction on its own -----

  datatype Request = Request(bid: BidId, amount: nat)

  /** The bid in the lead, and the amount to beat. */
  datatype Lead = Lead(bid: Option<BidId>, high: nat)

  function Consider(inc: nat, lead: Lead, r: Request): Lead {
    if r.amount >= lead.high + inc then Lead(Some(r.bid), r.amount) else lead
  }

  function Auction(inc: nat, lead: Lead, requests: seq<Request>): Lead
    decreases |requests|
  {
    if requests == [] then lead
    else Consider(inc, Auction(inc, lead, requests[..|requests| - 1]), requests[|requests| - 1])
  }

  /** No request, accepted or not, reaches the next price once it has been considered; the amount to beat never falls. */
  lemma {:induction false} NobodyBeatsTheLead(inc: nat, lead: Lead, requests: seq<Request>, i: nat)
    requires inc > 0 && i < |requests|
    ensures lead.high <= Auction(inc, lead, requests).high
    ensures requests[i].amount < Auction(inc, lead, requests).high + inc
    decreases |requests|
  {
    var last := |requests| - 1;
    if i < last {
      NobodyBeatsTheLead(inc, lead, requests[..last], i);
    } else if last > 0 {
      NobodyBeatsTheLead(inc, lead, requests[..last], 0);
    }
  }

  /** What can happen to the contest: a request, or the provider withdrawing the leader, which brings the price back down. */
  datatype Event = Asks(request: Request) | Withdrawal

  /** The contest from a price that `floor` stands for when nobody leads. */
  function Contend(inc: nat, floor: nat, lead: Lead, events: seq<Event>): Lead
    decreases |events|
  {
    if events == [] then lead
    else
      var last := events[|events| - 1];
      if last.Withdrawal? then Lead(None, floor)
      else Consider(inc, Contend(inc, floor, lead, events[..|events| - 1]), last.request)
  }

  /** The requests since the last withdrawal, and the lead they found. */
  function Since(events: seq<Event>): seq<Request>
    decreases |events|
  {
    if events == [] || events[|events| - 1].Withdrawal? then []
    else Since(events[..|events| - 1]) + [events[|events| - 1].request]
  }

  function Found(floor: nat, lead: Lead, events: seq<Event>): Lead {
    if Withdrawal in events then Lead(None, floor) else lead
  }

  /** Since its last withdrawal, a contest is an ascending auction. */
  lemma {:induction false} ContestIsAuction(inc: nat, floor: nat, lead: Lead, events: seq<Event>)
    ensures Contend(inc, floor, lead, events) == Auction(inc, Found(floor, lead, events), Since(events))
    decreases |events|
  {
    if events != [] {
      var rest, last := events[..|events| - 1], events[|events| - 1];
      assert events == rest + [last];
      if last.Asks? {
        ContestIsAuction(inc, floor, lead, rest);
        assert (Since(rest) + [last.request])[..|Since(rest)|] == Since(rest);
      }
    }
  }

  lemma ContestExtends(inc: nat, floor: nat, lead: Lead, a: seq<Event>, b: seq<Event>)
    requires |b| <= 1
    ensures Contend(inc, floor, lead, a + b) == Contend(inc, floor, Contend(inc, floor, lead, a), b)
  {
    if b == [] {
      assert a + b == a;
    } else {
      assert (a + b)[..|a|] == a && b[..0] == [];
    }
  }

  predicate OnGrid(inc: nat, amount: nat, origin: nat) {
    inc > 0 && amount % inc == origin % inc
  }

  lemma NextOnGrid(inc: nat, a: nat, b: nat, origin: nat)
    requires OnGrid(inc, a, origin) && OnGrid(inc, b, origin) && a < b + inc
    ensures a <= b
  {
    if b < a {
      SameRemainder(inc, a, b, a / inc, b / inc, a % inc);
    }
  }

  lemma SameRemainder(inc: nat, a: nat, b: nat, p: int, q: int, rest: int)
    requires a == inc * p + rest && b == inc * q + rest && b < a
    ensures a >= b + inc
  {
    assert inc * p - inc * q == inc * (p - q);
    if p - q >= 1 {
      MultiplyBoth(1, p - q, inc);
    } else {
      MultiplyBoth(p - q, 0, inc);
    }
  }

  /** The lead amount stays on the grid and is one of the amounts offered. */
  lemma {:induction false} LeadWasOffered(inc: nat, lead: Lead, requests: seq<Request>)
    ensures var end := Auction(inc, lead, requests);
            end == lead || exists i | 0 <= i < |requests| :: end == Lead(Some(requests[i].bid), requests[i].amount)
    decreases |requests|
  {
    if requests != [] {
      LeadWasOffered(inc, lead, requests[..|requests| - 1]);
    }
  }

  /**
   When all amounts lie on one grid of whole increments, the winner simply offered the most: no request
   exceeds it, so the order of arrival decides only between equal amounts.
   */
  lemma HighestOfferLeads(inc: nat, lead: Lead, requests: seq<Request>)
    requires inc > 0 && forall i | 0 <= i < |requests| :: OnGrid(inc, requests[i].amount, lead.high)
    ensures forall i | 0 <= i < |requests| :: requests[i].amount <= Auction(inc, lead, requests).high
    ensures lead.high <= Auction(inc, lead, requests).high
    ensures var end := Auction(inc, lead, requests);
            end == lead || exists i | 0 <= i < |requests| :: end == Lead(Some(requests[i].bid), requests[i].amount)
  {
    LeadWasOffered(inc, lead, requests);
    forall i | 0 <= i < |requests|
      ensures requests[i].amount <= Auction(inc, lead, requests).high && lead.high <= Auction(inc, lead, requests).high
    {
      NobodyBeatsTheLead(inc, lead, requests, i);
      NextOnGrid(inc, requests[i].amount, Auction(inc, lead, requests).high, lead.high);
    }
  }

  /** So two orders of the same offers end at the same amount. */
  lemma OrderDoesNotMatter(inc: nat, lead: Lead, a: seq<Request>, b: seq<Request>)
    requires inc > 0 && multiset(a) == multiset(b) && forall i | 0 <= i < |a| :: OnGrid(inc, a[i].amount, lead.high)
    ensures Auction(inc, lead, a).high == Auction(inc, lead, b).high
  {
    forall i | 0 <= i < |b| ensures OnGrid(inc, b[i].amount, lead.high) {
      assert b[i] in multiset(a);
    }
    HighestOfferLeads(inc, lead, a);
    HighestOfferLeads(inc, lead, b);
    EachOfferIsMet(inc, lead, a, b);
    EachOfferIsMet(inc, lead, b, a);
  }

  lemma EachOfferIsMet(inc: nat, lead: Lead, a: seq<Request>, b: seq<Request>)
    requires multiset(a) == multiset(b)
    requires var end := Auction(inc, lead, a);
             end == lead || exists i | 0 <= i < |a| :: end == Lead(Some(a[i].bid), a[i].amount)
    requires lead.high <= Auction(inc, lead, b).high
    requires forall i | 0 <= i < |b| :: b[i].amount <= Auction(inc, lead, b).high
    ensures Auction(inc, lead, a).high <= Auction(inc, lead, b).high
  {
    if Auction(inc, lead, a) != lead {
      var i :| 0 <= i < |a| && Auction(inc, lead, a) == Lead(Some(a[i].bid), a[i].amount);
      assert a[i] in multiset(b);
      var j :| 0 <= j < |b| && b[j] == a[i];
    }
  }

  // ----- the protocol inside a protected window -----

  /** Who leads the contest for a board, and what there is to beat. */
  function LeadOn(g: Game, id: BoardId): Lead
    requires Linked(g) && id in g.boards
  {
    Lead(g.boards[id].pending, EffectiveHighBid(g.boards[id].amount, PendingAmount(g, id)))
  }

  /** The request for board `id` that a committed step puts to the protocol, if any. */
  ghost function RequestOn(s: Settings, w: World, m: Moment, id: BoardId): seq<Request>
    requires Enabled(w, m.step)
  {
    if Attempt(s, w, m.step, m.at).Abort? then []
    else match m.step
      case FreePlay(bid, o) => if o.board == id then [Request(bid, DollarsToNat(o.amount))] else []
      case Authorization(e, _, _, _) =>
        if KnownBid(w.game, e) && e.intent.Some? && AwaitingAuthorization(w.game.bids[e.bid.value].status)
           && w.game.bids[e.bid.value].board == id
        then [Request(e.bid.value, w.game.bids[e.bid.value].amount)] else []
      case _ => []
  }

  function DollarsToNat(amount: real): nat {
    var cents := DollarsToCents(amount);
    if cents.Commit? && cents.value >= 0 then cents.value else 0
  }

  /** The provider withdrew the authorization that is in the lead. */
  predicate Withdraws(step: Step, board: Board) {
    step.PaymentCancellation? && step.event.bid.Some? && board.pending == step.event.bid
  }

  /** Nothing about the contest for board `id` changed. */
  predicate SameContest(g: Game, g': Game, id: BoardId) {
    && id in g.boards && id in g'.boards
    && g'.boards[id].pending == g.boards[id].pending && g'.boards[id].amount == g.boards[id].amount
    && (g.boards[id].pending.Some? && g.boards[id].pending.value in g.bids ==>
          && g.boards[id].pending.value in g'.bids
          && g'.bids[g.boards[id].pending.value].amount == g.bids[g.boards[id].pending.value].amount)
  }

  lemma SameContestSameLead(g: Game, g': Game, id: BoardId)
    requires Linked(g) && Linked(g') && SameContest(g, g', id)
    ensures LeadOn(g', id) == LeadOn(g, id)
  {
    assert BoardLinked(g, id) && BoardLinked(g', id);
  }

  /** Settling leaves a protected board and its contest alone. */
  lemma SettleSparesProtected(s: Settings, w: World, at: BoardId, now: Time, mode: Option<CaptureReply>, id: BoardId)
    requires CoreInv(s, w) && at in w.game.boards && id in w.game.boards && Protected(w.game.boards[id], now)
    requires mode.Some? ==> HonestFor(w.game, at, mode.value)
    ensures var r := Settle(w, at, s.rules, now, mode);
            && r.Commit? && SameContest(w.game, r.value.0.game, id) && r.value.0.game.boards[id] == w.game.boards[id]
  {
    SettleOnBoard(s, w, at, now, mode, id);
    SettleAges(s, w, at, now, mode);
    assert BoardLinked(w.game, id);
    if w.game.boards[id].pending.Some? {
      assert BidAges(w.game, Settle(w, at, s.rules, now, mode).value.0.game, w.game.boards[id].pending.value);
    }
  }

  /** An accepted challenge takes the lead and releases the one before. */
  lemma ChallengeTakesLead(inc: nat, g: Game, bid: BidId, intent: Option<IntentId>, now: Time, id: BoardId)
    requires inc > 0 && GameInv(inc, g) && bid in g.bids && !g.bids[bid].status.Authorized? && id in g.boards
    requires g.bids[bid].board == id && g.bids[bid].amount >= LeadOn(g, id).high + inc
    ensures var g' := Challenge(g, bid, intent, now);
            && Linked(g') && id in g'.boards && LeadOn(g', id) == Lead(Some(bid), g.bids[bid].amount)
            && (g.boards[id].pending.Some? ==> g.boards[id].pending.value in g'.bids && g'.bids[g.boards[id].pending.value].status.AuthCanceled?)
  {
    ChallengeLinks(g, bid, intent, now);
    assert BoardOk(inc, g, id) && BoardLinked(g, id) && BoardLinked(Challenge(g, bid, intent, now), id);
  }

  lemma ChallengeElsewhere(g: Game, bid: BidId, intent: Option<IntentId>, now: Time, id: BoardId)
    requires Linked(g) && bid in g.bids && id in g.boards && g.bids[bid].board != id
    ensures SameContest(g, Challenge(g, bid, intent, now), id)
  {
    assert BidLinked(g, bid);
  }

  /** After a step the contest stands where the auction puts it, and a challenger that lost the lead is released. */
  ghost predicate FollowsAuction(inc: nat, g: Game, g': Game, id: BoardId, requests: seq<Request>) {
    && Linked(g) && Linked(g') && id in g.boards && id in g'.boards
    && LeadOn(g', id) == Auction(inc, LeadOn(g, id), requests)
    && (g.boards[id].pending.Some? && g'.boards[id].pending != g.boards[id].pending ==>
          g.boards[id].pending.value in g'.bids && g'.bids[g.boards[id].pending.value].status.AuthCanceled?)
  }

  lemma QuietFollows(inc: nat, g: Game, g': Game, id: BoardId)
    requires Linked(g) && Linked(g') && SameContest(g, g', id)
    ensures FollowsAuction(inc, g, g', id, [])
  {
    SameContestSameLead(g, g', id);
  }

  /** Putting a settled contest before the rest of a step changes nothing. */
  lemma FollowsAfterSettling(inc: nat, g: Game, g1: Game, g': Game, id: BoardId, requests: seq<Request>)
    requires Linked(g) && SameContest(g, g1, id) && g1.boards[id] == g.boards[id] && FollowsAuction(inc, g1, g', id, requests)
    ensures FollowsAuction(inc, g, g', id, requests)
  {
    SameContestSameLead(g, g1, id);
  }

  lemma OneRequest(inc: nat, lead: Lead, r: Request)
    ensures Auction(inc, lead, [r]) == Consider(inc, lead, r)
  {
    assert [r][..0] == [];
    assert Auction(inc, lead, []) == lead;
  }

  // ----- free play -----

  lemma PlayFollows(s: Settings, w: World, bid: BidId, now: Time, id: BoardId)
    requires WorldInv(s, w) && MayCompete(s, w.game, bid) && Undecided(w.game.bids[bid].status)
    requires !IsDue(w.game.boards[w.game.bids[bid].board], now)
    requires id in w.game.boards && Protected(w.game.boards[id], now)
    requires w.game.bids[bid].board == id ==> w.game.bids[bid].amount >= LeadOn(w.game, id).high + s.rules.increment
    ensures var r := PlaceFreePlay(w, bid, s.rules, now);
            r.Commit? ==>
              FollowsAuction(s.rules.increment, w.game, r.value.0.game, id,
                             if w.game.bids[bid].board == id then [Request(bid, w.game.bids[bid].amount)] else [])
  {
    var at, inc := w.game.bids[bid].board, s.rules.increment;
    if at == id {
      OneRequest(inc, LeadOn(w.game, id), Request(bid, w.game.bids[bid].amount));
      ChallengeTakesLead(inc, w.game, bid, None, now, id);
    } else if Protected(w.game.boards[at], now) {
      ChallengeLinks(w.game, bid, None, now);
      ChallengeElsewhere(w.game, bid, None, now, id);
      QuietFollows(inc, w.game, Challenge(w.game, bid, None, now), id);
    } else {
      PlayElsewhere(s, w, bid, now, id);
    }
  }

  lemma PlayElsewhere(s: Settings, w: World, bid: BidId, now: Time, id: BoardId)
    requires WorldInv(s, w) && MayCompete(s, w.game, bid) && Undecided(w.game.bids[bid].status)
    requires id in w.game.boards && w.game.bids[bid].board != id
    requires !IsDue(w.game.boards[w.game.bids[bid].board], now) && !Protected(w.game.boards[w.game.bids[bid].board], now)
    ensures var r := PlaceFreePlay(w, bid, s.rules, now);
            r.Commit? ==> FollowsAuction(s.rules.increment, w.game, r.value.0.game, id, [])
  {
    var at, inc := w.game.bids[bid].board, s.rules.increment;
    assert BoardOk(inc, w.game, at) && WaitsBehind(w.game, at) && BoardLinked(w.game, id) && BoardOk(inc, w.game, id);
    WinKeepsInv(inc, w.game, at, bid, s.rules, now, false);
    var g' := Win(w.game, at, bid, s.rules, now, false).value;
    QuietFollows(inc, w.game, g', id);
  }

  lemma AddedFollows(s: Settings, w: World, bid: BidId, row: Bid, competition: CompetitionId, now: Time, id: BoardId)
    requires WorldInv(s, w) && bid !in w.game.bids && id in w.game.boards
    ensures SameContest(w.game, w.game.(bids := w.game.bids[bid := row]), id)
  {
    assert BoardLinked(w.game, id);
  }

  lemma PlaceBidFollows(s: Settings, w: World, bid: BidId, o: Offer, now: Time, id: BoardId)
    requires WorldInv(s, w) && o.board in w.game.boards && bid !in w.game.bids && !IsDue(w.game.boards[o.board], now)
    requires id in w.game.boards && Protected(w.game.boards[id], now)
    ensures var r := PlaceBid(w, bid, o, s.rules, now);
            r.Commit? ==>
              FollowsAuction(s.rules.increment, w.game, r.value.0.game, id,
                             if o.board == id then [Request(bid, DollarsToNat(o.amount))] else [])
  {
    var priced := PriceOffer(w, o, s.rules);
    if priced.Commit? && CheckPlayer(w, o.user).Commit? {
      var row := NewBid(o, priced.value, None, None, Created, None);
      var competition := w.game.boards[o.board].competition;
      ClearsPriceIffBeatsBoth(priced.value, w.game.boards[o.board].amount, s.rules, PendingAmount(w.game, o.board));
      AddFreePlayKeepsInv(s, w, bid, row, competition, now);
      AddedFollows(s, w, bid, row, competition, now, id);
      var w2 := w.(game := w.game.(bids := w.game.bids[bid := row]),
                   intake := w.intake.(periods := EnsureActive(w.intake.periods, competition, now)));
      SameContestSameLead(w.game, w2.game, id);
      PlayFollows(s, w2, bid, now, id);
      var r := PlaceBid(w, bid, o, s.rules, now);
      if r.Commit? {
        FollowsAfterSettling(s.rules.increment, w.game, w2.game, r.value.0.game, id, if o.board == id then [Request(bid, DollarsToNat(o.amount))] else []);
      }
    }
  }

  lemma FreePlayFollows(s: Settings, w: World, bid: BidId, o: Offer, now: Time, id: BoardId)
    requires WorldInv(s, w) && o.board in w.game.boards && bid !in w.game.bids
    requires id in w.game.boards && Protected(w.game.boards[id], now)
    ensures var r := CreateBid(w, bid, o, s.rules, now);
            r.Commit? ==>
              FollowsAuction(s.rules.increment, w.game, r.value.0.game, id,
                             if o.board == id then [Request(bid, DollarsToNat(o.amount))] else [])
  {
    SettleSparesProtected(s, w, o.board, now, None, id);
    FreeSettleKeepsInv(s, w, o.board, now);
    var w1 := Settle(w, o.board, s.rules, now, None).value.0;
    PlaceBidFollows(s, w1, bid, o, now, id);
    var r := PlaceBid(w1, bid, o, s.rules, now);
    if r.Commit? {
      FollowsAfterSettling(s.rules.increment, w.game, w1.game, r.value.0.game, id, if o.board == id then [Request(bid, DollarsToNat(o.amount))] else []);
    }
  }

  // ----- authorizations -----

  lemma AcceptElsewhere(s: Settings, w: World, bid: BidId, intent: IntentId, now: Time, own: CaptureReply, id: BoardId)
    requires WorldInv(s, w) && MayCompete(s, w.game, bid) && intent.owner == bid && w.game.bids[bid].board != id
    requires own.Captured? ==> own.pi.succeeded && own.pi.id == Some(intent)
    requires id in w.game.boards && Protected(w.game.boards[id], now)
    ensures var w1 := w.(game := Challenge(w.game, bid, Some(intent), now));
            var at := w.game.bids[bid].board;
            && Linked(w1.game) && at in w1.game.boards
            && (if Protected(w.game.boards[at], now) then FollowsAuction(s.rules.increment, w.game, w1.game, id, [])
                else
                  var r := SettlePaid(w1, at, s.rules, now, own);
                  r.Commit? && FollowsAuction(s.rules.increment, w.game, r.value.0.game, id, []))
  {
    var at, inc := w.game.bids[bid].board, s.rules.increment;
    ChallengeKeepsWorld(s, w, bid, Some(intent), now);
    ChallengeElsewhere(w.game, bid, Some(intent), now, id);
    var w1 := w.(game := Challenge(w.game, bid, Some(intent), now));
    assert BidLinked(w.game, bid);
    if Protected(w.game.boards[at], now) {
      QuietFollows(inc, w.game, w1.game, id);
    } else {
      ChallengeIsDue(s, w, bid, intent, now);
      SettleSparesProtected(s, w1, at, now, Some(own), id);
      SettlePaidKeepsCore(s, w1, at, now, own);
      QuietFollows(inc, w1.game, SettlePaid(w1, at, s.rules, now, own).value.0.game, id);
      FollowsAfterSettling(inc, w.game, w1.game, SettlePaid(w1, at, s.rules, now, own).value.0.game, id, []);
    }
  }

  lemma PlaceChallengerFollows(s: Settings, w: World, bid: BidId, intent: IntentId, now: Time, own: CaptureReply, queueUp: bool, id: BoardId)
    requires WorldInv(s, w) && bid in w.game.bids && intent.owner == bid && AwaitingAuthorization(w.game.bids[bid].status)
    requires w.game.bids[bid].board in w.game.boards
    requires own.Captured? ==> own.pi.succeeded && own.pi.id == Some(intent)
    requires id in w.game.boards && Protected(w.game.boards[id], now)
    ensures var r := PlaceChallenger(w, bid, intent, s.rules, now, own, queueUp);
            r.Commit? ==>
              FollowsAuction(s.rules.increment, w.game, r.value.0.game, id,
                             if w.game.bids[bid].board == id then [Request(bid, w.game.bids[bid].amount)] else [])
  {
    var row, inc := w.game.bids[bid], s.rules.increment;
    ClearsPriceIffBeatsBoth(row.amount, w.game.boards[row.board].amount, s.rules, PendingAmount(w.game, row.board));
    OneRequest(inc, LeadOn(w.game, id), Request(bid, row.amount));
    if row.amount < RequiredCents(w.game, row.board, s.rules) {
      var rejected := row.(intent := Some(intent), status := AuthCanceled, canceledAt := Some(now));
      RejectFollows(s, w, bid, rejected, now, id);
    } else if row.board == id {
      ChallengeTakesLead(inc, w.game, bid, Some(intent), now, id);
    } else {
      AcceptElsewhere(s, w, bid, intent, now, own, id);
    }
  }

  lemma RejectFollows(s: Settings, w: World, bid: BidId, rejected: Bid, now: Time, id: BoardId)
    requires WorldInv(s, w) && bid in w.game.bids && SameBid(rejected, w.game.bids[bid]) && id in w.game.boards
    ensures var g' := w.game.(bids := w.game.bids[bid := rejected]); Linked(g') && LeadOn(g', id) == LeadOn(w.game, id)
  {
    var g' := w.game.(bids := w.game.bids[bid := rejected]);
    assert BoardLinked(w.game, id);
    Relinked(w.game, id, w.game.boards[id], g'.bids);
    assert w.game.boards[id := w.game.boards[id]] == w.game.boards;
    SameContestSameLead(w.game, g', id);
  }

  lemma AuthorizationFollows(s: Settings, w: World, bid: BidId, intent: IntentId, now: Time,
                             due: CaptureReply, own: CaptureReply, queueUp: bool, id: BoardId)
    requires WorldInv(s, w) && bid in w.game.bids && intent.owner == bid && AwaitingAuthorization(w.game.bids[bid].status)
    requires w.game.bids[bid].board in w.game.boards && HonestFor(w.game, w.game.bids[bid].board, due)
    requires own.Captured? ==> own.pi.succeeded && own.pi.id == Some(intent)
    requires id in w.game.boards && Protected(w.game.boards[id], now)
    ensures var r := AuthorizeBid(w, bid, intent, s.rules, now, due, own, queueUp);
            r.Commit? ==>
              FollowsAuction(s.rules.increment, w.game, r.value.0.game, id,
                             if w.game.bids[bid].board == id then [Request(bid, w.game.bids[bid].amount)] else [])
  {
    var at := w.game.bids[bid].board;
    SettleSparesNewcomer(s, w, bid, now, due);
    SettleSparesProtected(s, w, at, now, Some(due), id);
    var w1 := SettlePaid(w, at, s.rules, now, due).value.0;
    PlaceChallengerFollows(s, w1, bid, intent, now, own, queueUp, id);
    var r := PlaceChallenger(w1, bid, intent, s.rules, now, own, queueUp);
    if r.Commit? {
      FollowsAfterSettling(s.rules.increment, w.game, w1.game, r.value.0.game, id, if at == id then [Request(bid, w.game.bids[bid].amount)] else []);
    }
  }

  // ----- the remaining steps -----

  lemma CancellationSparesContest(g: Game, bid: BidId, intent: Option<IntentId>, now: Time, id: BoardId)
    requires Linked(g) && bid in g.bids && id in g.boards && g.boards[id].pending != Some(bid)
    ensures SameContest(g, CancelPayment(g, bid, intent, now), id)
  {
    assert BidLinked(g, bid) && BoardLinked(g, id);
  }

  /** A row rewrite that does not withdraw the challenger leaves the contest alone. */
  lemma RewritesSpareContest(s: Settings, w: World, step: Step, now: Time, id: BoardId)
    requires Enabled(w, step) && RewritesRows(step) && id in w.game.boards && !Withdraws(step, w.game.boards[id])
    ensures SameContest(w.game, Apply(s, w, step, now).game, id)
  {
    assert BoardLinked(w.game, id);
    if step.PaymentCancellation? && KnownBid(w.game, step.event) {
      CancellationSparesContest(w.game, step.event.bid.value, step.event.intent, now, id);
    }
  }

  lemma SameBoardSameContest(g: Game, g': Game, id: BoardId)
    requires Linked(g) && GameAges(g, g') && id in g.boards && id in g'.boards
    requires g'.boards[id].pending == g.boards[id].pending && g'.boards[id].amount == g.boards[id].amount
    ensures SameContest(g, g', id)
  {
    assert BoardLinked(g, id);
    if g.boards[id].pending.Some? { assert BidAges(g, g', g.boards[id].pending.value); }
  }

  lemma OtherClearingsKeepBoard(s: Settings, w: World, step: Step, now: Time, id: BoardId)
    requires WorldInv(s, w) && Enabled(w, step) && id in w.game.boards && !Clears(step, w.game.boards[id])
    requires step.Remove? || step.Reset?
    ensures var g' := Apply(s, w, step, now).game; id in g'.boards && g'.boards[id] == w.game.boards[id]
  {
    match step
    case Remove(p, reason) => RemovalOnBoard(s, w, p, reason, now, id);
    case Reset(competition, ids, releases) => ResetSparesOthers(w.game, ids, releases, now, id);
  }

  lemma ClearingSparesContest(s: Settings, w: World, step: Step, now: Time, id: BoardId)
    requires WorldInv(s, w) && Enabled(w, step) && id in w.game.boards && !Clears(step, w.game.boards[id])
    requires step.Remove? || step.Reset? || step.EndPayment?
    ensures SameContest(w.game, Apply(s, w, step, now).game, id)
  {
    StepAges(s, w, step, now);
    if step.EndPayment? { EndKeepsBoards(s, w, step, now); } else { OtherClearingsKeepBoard(s, w, step, now, id); }
    SameBoardSameContest(w.game, Apply(s, w, step, now).game, id);
  }

  lemma CheckoutSparesContest(s: Settings, w: World, p: BidId, o: Offer, x: Session, now: Time, due: CaptureReply, id: BoardId)
    requires WorldInv(s, w) && o.board in w.game.boards && p !in w.game.bids && HonestFor(w.game, o.board, due)
    requires id in w.game.boards && Protected(w.game.boards[id], now)
    ensures var r := CreateCheckout(w, p, o, x, s, now, due); r.Commit? ==> SameContest(w.game, r.value.game, id)
  {
    SettleSparesProtected(s, w, o.board, now, Some(due), id);
    SettleLinks(w, o.board, s.rules, now, Some(due));
    assert BoardLinked(w.game, id);
  }

  lemma SilentStepsSpareContest(s: Settings, w: World, m: Moment, id: BoardId)
    requires WorldInv(s, w) && Enabled(w, m.step) && id in w.game.boards && Protected(w.game.boards[id], m.at)
    requires !Clears(m.step, w.game.boards[id]) && !Withdraws(m.step, w.game.boards[id])
    requires !m.step.FreePlay? && !m.step.Authorization?
    ensures SameContest(w.game, Apply(s, w, m.step, m.at).game, id)
  {
    assert BoardLinked(w.game, id);
    var step := m.step;
    if SparesGame(step) {
      GameIsSpared(s, w, step, m.at);
    } else if RewritesRows(step) {
      RewritesSpareContest(s, w, step, m.at, id);
    } else if step.Checkout? {
      CheckoutSparesContest(s, w, step.bid, step.offer, step.session, m.at, step.due, id);
    } else if step.FinalizeDue? {
      SettleSparesProtected(s, w, step.board, m.at, step.mode, id);
    } else {
      ClearingSparesContest(s, w, step, m.at, id);
    }
  }

  lemma BidderStepFollows(s: Settings, w: World, m: Moment, id: BoardId)
    requires WorldInv(s, w) && Enabled(w, m.step) && id in w.game.boards && Protected(w.game.boards[id], m.at)
    requires m.step.FreePlay? || m.step.Authorization?
    requires Attempt(s, w, m.step, m.at).Commit?
    requires m.step.Authorization? ==>
               KnownBid(w.game, m.step.event) && m.step.event.intent.Some? && AwaitingAuthorization(w.game.bids[m.step.event.bid.value].status)
    ensures FollowsAuction(s.rules.increment, w.game, Apply(s, w, m.step, m.at).game, id, RequestOn(s, w, m, id))
  {
    match m.step
    case FreePlay(p, o) => FreePlayFollows(s, w, p, o, m.at, id);
    case Authorization(e, due, own, queueUp) =>
      AuthorizationFollows(s, w, e.bid.value, e.intent.value, m.at, due, own, queueUp, id);
  }

  /** Every step inside a protected window moves the contest as the auction does. */
  lemma StepFollowsAuction(s: Settings, w: World, m: Moment, id: BoardId)
    requires WorldInv(s, w) && Enabled(w, m.step) && id in w.game.boards && Protected(w.game.boards[id], m.at)
    requires !Clears(m.step, w.game.boards[id]) && !Withdraws(m.step, w.game.boards[id])
    ensures FollowsAuction(s.rules.increment, w.game, Apply(s, w, m.step, m.at).game, id, RequestOn(s, w, m, id))
  {
    var step, w' := m.step, Apply(s, w, m.step, m.at);
    assert BoardLinked(w.game, id);
    if (step.FreePlay? || step.Authorization?) && Attempt(s, w, step, m.at).Commit?
       && (step.Authorization? ==>
             KnownBid(w.game, step.event) && step.event.intent.Some? && AwaitingAuthorization(w.game.bids[step.event.bid.value].status)) {
      BidderStepFollows(s, w, m, id);
    } else {
      StepKeepsInv(s, w, step, m.at);
      if step.FreePlay? || step.Authorization? {
        assert w' == w;
      } else {
        SilentStepsSpareContest(s, w, m, id);
      }
      QuietFollows(s.rules.increment, w.game, w'.game, id);
    }
  }

  /** What a step is for the contest of board `id`. */
  ghost function EventsOn(s: Settings, w: World, m: Moment, id: BoardId): seq<Event>
    requires Enabled(w, m.step)
  {
    if id in w.game.boards && Withdraws(m.step, w.game.boards[id]) then [Withdrawal]
    else
      var requests := RequestOn(s, w, m, id);
      if requests == [] then [] else [Asks(requests[0])]
  }

  /** After a step the contest stands where its events put it, and a challenger that lost the lead is released. */
  ghost predicate FollowsContest(inc: nat, g: Game, g': Game, id: BoardId, events: seq<Event>) {
    && Linked(g) && Linked(g') && id in g.boards && id in g'.boards
    && LeadOn(g', id) == Contend(inc, g.boards[id].amount, LeadOn(g, id), events)
    && (g.boards[id].pending.Some? && g'.boards[id].pending != g.boards[id].pending ==>
          g.boards[id].pending.value in g'.bids && g'.bids[g.boards[id].pending.value].status.AuthCanceled?)
  }

  lemma WithdrawalFollows(s: Settings, w: World, m: Moment, id: BoardId)
    requires WorldInv(s, w) && Enabled(w, m.step) && id in w.game.boards && Withdraws(m.step, w.game.boards[id])
    ensures FollowsContest(s.rules.increment, w.game, Apply(s, w, m.step, m.at).game, id, [Withdrawal])
  {
    StepKeepsInv(s, w, m.step, m.at);
    assert BoardOk(s.rules.increment, w.game, id);
    assert BoardLinked(Apply(s, w, m.step, m.at).game, id);
  }

  lemma RequestsAreEvents(inc: nat, floor: nat, lead: Lead, requests: seq<Request>)
    requires |requests| <= 1
    ensures Contend(inc, floor, lead, if requests == [] then [] else [Asks(requests[0])]) == Auction(inc, lead, requests)
  {
    if requests != [] {
      OneRequest(inc, lead, requests[0]);
      assert requests == [requests[0]];
      assert [Asks(requests[0])][..0] == [];
      assert Contend(inc, floor, lead, []) == lead;
    }
  }

  /** Every step inside a protected window moves the contest as its events do. */
  lemma StepFollowsContest(s: Settings, w: World, m: Moment, id: BoardId)
    requires WorldInv(s, w) && Enabled(w, m.step) && id in w.game.boards && Protected(w.game.boards[id], m.at)
    requires !Clears(m.step, w.game.boards[id])
    ensures FollowsContest(s.rules.increment, w.game, Apply(s, w, m.step, m.at).game, id, EventsOn(s, w, m, id))
  {
    if Withdraws(m.step, w.game.boards[id]) {
      WithdrawalFollows(s, w, m, id);
    } else {
      StepFollowsAuction(s, w, m, id);
      RequestsAreEvents(s.rules.increment, w.game.boards[id].amount, LeadOn(w.game, id), RequestOn(s, w, m, id));
    }
  }

  // ----- runs -----

  /** `log[k]` is what step `k` of the run is for the contest of board `id`. */
  ghost predicate Logged(s: Settings, ws: seq<World>, ms: seq<Moment>, id: BoardId, log: seq<seq<Event>>, k: nat)
    requires k < |ws| && k < |ms| && k < |log|
  {
    Enabled(ws[k], ms[k].step) && log[k] == EventsOn(s, ws[k], ms[k], id)
  }

  ghost predicate IsLog(s: Settings, ws: seq<World>, ms: seq<Moment>, id: BoardId, log: seq<seq<Event>>) {
    && |log| < |ws| == |ms| + 1
    && forall k {:trigger Logged(s, ws, ms, id, log, k)} | 0 <= k < |log| :: Logged(s, ws, ms, id, log, k)
  }

  /** All events of the first `i` steps, in order. */
  function Events(log: seq<seq<Event>>, i: nat): seq<Event>
    requires i <= |log|
  {
    if i == 0 then [] else Events(log, i - 1) + log[i - 1]
  }

  /** Step `k` happens before the guarantee given at the start ends, and neither removes its takeover nor ends its week. */
  ghost predicate StaysInside(ws: seq<World>, ms: seq<Moment>, id: BoardId, k: nat)
    requires k < |ws| && k < |ms| && id in ws[0].game.boards
  {
    && ws[0].game.boards[id].guaranteedUntil.Some? && ms[k].at < ws[0].game.boards[id].guaranteedUntil.value
    && !(ms[k].step.Remove? && Some(ms[k].step.about) == ws[0].game.boards[id].current)
    && !(ms[k].step.Reset? && ms[k].step.competition == ws[0].game.boards[id].competition)
  }

  /** A run inside one protected window of board `id`. */
  ghost predicate InWindow(s: Settings, ws: seq<World>, ms: seq<Moment>, id: BoardId, i: nat) {
    && Follows(s, ws, ms) && i < |ws| && WorldInv(s, ws[0]) && id in ws[0].game.boards
    && ws[0].game.boards[id].current.Some? && ws[0].game.boards[id].guaranteedUntil.Some?
    && forall k {:trigger StaysInside(ws, ms, id, k)} | 0 <= k < i :: StaysInside(ws, ms, id, k)
  }

  lemma WindowHolds(s: Settings, ws: seq<World>, ms: seq<Moment>, id: BoardId, i: nat)
    requires InWindow(s, ws, ms, id, i)
    ensures WorldInv(s, ws[i]) && id in ws[i].game.boards && SameDisplay(ws[0].game.boards[id], ws[i].game.boards[id])
  {
    forall k | 0 <= k < i
      ensures ms[k].at < ws[0].game.boards[id].guaranteedUntil.value
      ensures !(ms[k].step.Remove? && Some(ms[k].step.about) == ws[0].game.boards[id].current)
      ensures !(ms[k].step.Reset? && ms[k].step.competition == ws[0].game.boards[id].competition)
    {
      assert StaysInside(ws, ms, id, k);
    }
    GuaranteeIsHonoured(s, ws, ms, id, ws[0].game.boards[id].current.value, ws[0].game.boards[id].guaranteedUntil.value, i);
  }

  /** The step before state `i` happens inside the window. */
  lemma WindowStep(s: Settings, ws: seq<World>, ms: seq<Moment>, id: BoardId, i: nat)
    requires InWindow(s, ws, ms, id, i) && i > 0
    ensures InWindow(s, ws, ms, id, i - 1)
    ensures var w, m := ws[i - 1], ms[i - 1];
            && WorldInv(s, w) && id in w.game.boards && Enabled(w, m.step) && ws[i] == Apply(s, w, m.step, m.at)
            && Protected(w.game.boards[id], m.at) && !Clears(m.step, w.game.boards[id])
            && w.game.boards[id].amount == ws[0].game.boards[id].amount
  {
    WindowHolds(s, ws, ms, id, i - 1);
    assert Connects(s, ws, ms, i - 1) && StaysInside(ws, ms, id, i - 1);
  }

  lemma WindowStepFollows(s: Settings, ws: seq<World>, ms: seq<Moment>, id: BoardId, log: seq<seq<Event>>, i: nat)
    requires InWindow(s, ws, ms, id, i) && IsLog(s, ws, ms, id, log) && 0 < i <= |log|
    ensures InWindow(s, ws, ms, id, i - 1) && id in ws[i - 1].game.boards
    ensures ws[i - 1].game.boards[id].amount == ws[0].game.boards[id].amount
    ensures FollowsContest(s.rules.increment, ws[i - 1].game, ws[i].game, id, log[i - 1]) && |log[i - 1]| <= 1
  {
    WindowStep(s, ws, ms, id, i);
    assert Logged(s, ws, ms, id, log, i - 1);
    StepFollowsContest(s, ws[i - 1], ms[i - 1], id);
  }

  /**
   Inside one protected window the protocol is exactly the contest: whatever else happens in between, the pending
   challenger and the price are those of the requests and withdrawals, in order.
   */
  lemma {:induction false} WindowIsAnAuction(s: Settings, ws: seq<World>, ms: seq<Moment>, id: BoardId, log: seq<seq<Event>>, i: nat)
    requires InWindow(s, ws, ms, id, i) && IsLog(s, ws, ms, id, log) && i <= |log|
    ensures Linked(ws[i].game) && id in ws[i].game.boards
    ensures LeadOn(ws[i].game, id) == Contend(s.rules.increment, ws[0].game.boards[id].amount, LeadOn(ws[0].game, id), Events(log, i))
    decreases i
  {
    if i > 0 {
      WindowStepFollows(s, ws, ms, id, log, i);
      WindowIsAnAuction(s, ws, ms, id, log, i - 1);
      ContestExtends(s.rules.increment, ws[0].game.boards[id].amount, LeadOn(ws[0].game, id), Events(log, i - 1), log[i - 1]);
    }
  }

  /** What has become of a bid that once led the contest for board `id`. */
  ghost predicate LeadsOrReleased(g: Game, id: BoardId, led: Option<BidId>) {
    id in g.boards && (led.Some? && g.boards[id].pending != led ==> led.value in g.bids && g.bids[led.value].status.AuthCanceled?)
  }

  /**
   A challenger that led at some point of the window and no longer does has had its authorization released,
   whether it was outbid or withdrawn.
   */
  lemma {:induction false} LosersAreReleased(s: Settings, ws: seq<World>, ms: seq<Moment>, id: BoardId, k: nat, i: nat)
    requires InWindow(s, ws, ms, id, i) && k <= i
    ensures id in ws[k].game.boards && LeadsOrReleased(ws[i].game, id, ws[k].game.boards[id].pending)
    decreases i
  {
    if k < i {
      WindowStep(s, ws, ms, id, i);
      LosersAreReleased(s, ws, ms, id, k, i - 1);
      LoserStep(s, ws[i - 1], ms[i - 1], id, ws[k].game.boards[id].pending);
    } else {
      WindowHolds(s, ws, ms, id, k);
    }
  }

  lemma LoserStep(s: Settings, w: World, m: Moment, id: BoardId, led: Option<BidId>)
    requires WorldInv(s, w) && Enabled(w, m.step) && id in w.game.boards && Protected(w.game.boards[id], m.at)
    requires !Clears(m.step, w.game.boards[id])
    requires LeadsOrReleased(w.game, id, led)
    ensures LeadsOrReleased(Apply(s, w, m.step, m.at).game, id, led)
  {
    StepFollowsContest(s, w, m, id);
    if led.Some? && w.game.boards[id].pending != led {
      StepAges(s, w, m.step, m.at);
      assert BidAges(w.game, Apply(s, w, m.step, m.at).game, led.value);
    }
  }

  /**
   Inside a window, every request since the last withdrawal was below what now leads plus one increment, and on one
   grid the leader offered the most of them.
   */
  lemma TheHighestOfferWaits(s: Settings, ws: seq<World>, ms: seq<Moment>, id: BoardId, log: seq<seq<Event>>, i: nat)
    requires InWindow(s, ws, ms, id, i) && IsLog(s, ws, ms, id, log) && i <= |log|
    ensures Linked(ws[i].game) && id in ws[i].game.boards
    ensures var rs, origin := Since(Events(log, i)), Found(ws[0].game.boards[id].amount, LeadOn(ws[0].game, id), Events(log, i)).high;
            && (forall r | r in rs :: r.amount < LeadOn(ws[i].game, id).high + s.rules.increment)
            && ((forall r | r in rs :: OnGrid(s.rules.increment, r.amount, origin)) ==>
                  forall r | r in rs :: r.amount <= LeadOn(ws[i].game, id).high)
  {
    WindowIsAnAuction(s, ws, ms, id, log, i);
    var floor, start, events := ws[0].game.boards[id].amount, LeadOn(ws[0].game, id), Events(log, i);
    ContestIsAuction(s.rules.increment, floor, start, events);
    var rs, lead := Since(events), Found(floor, start, events);
    forall r | r in rs ensures r.amount < LeadOn(ws[i].game, id).high + s.rules.increment {
      var k :| 0 <= k < |rs| && rs[k] == r;
      NobodyBeatsTheLead(s.rules.increment, lead, rs, k);
    }
    if forall r | r in rs :: OnGrid(s.rules.increment, r.amount, lead.high) {
      HighestOfferLeads(s.rules.increment, lead, rs);
    }
  }
}
