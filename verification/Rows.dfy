// The rows of the game tables. One-to-one rows (takeover, evidence, report case) are keyed by their bid.
module Rows {
  import opened Base

  datatype BidStatus =
    | Created
    | ModerationApproved
    | CheckoutCreated
    | Authorized
    | Processing
    | Won
    | DemoWon
    | Outbid
    | PaymentFailed
    | AuthCanceled
    | Refunded
    | Disputed

  /** A provider payment intent. Its metadata names the bid it was created for and never changes. */
  datatype IntentId = IntentId(owner: BidId, serial: nat)

  datatype Email = Email(address: string, wellFormed: bool)

  datatype Bid = Bid(
    board: BoardId,
    bidder: UserId,
    entity: EntityId,
    message: string,
    amount: nat,
    approval: Option<nat>,
    confirmation: Option<nat>,
    status: BidStatus,
    intent: Option<IntentId>,
    dispute: Option<nat>,
    failures: nat,
    authorizedAt: Option<Time>,
    capturedAt: Option<Time>,
    canceledAt: Option<Time>,
    failedAt: Option<Time>)

  datatype Board = Board(
    competition: CompetitionId,
    current: Option<BidId>,
    controller: Option<UserId>,
    amount: nat,
    message: string,
    pending: Option<BidId>,
    guaranteedUntil: Option<Time>,
    version: nat,
    biddingEnabled: bool)

  datatype Takeover = Takeover(
    board: BoardId,
    previous: Option<BidId>,
    controller: UserId,
    entity: EntityId,
    message: string,
    amount: nat)

  datatype Evidence = Evidence(
    email: Email,
    confirmation: Option<nat>,
    publishedAt: Time,
    guaranteedUntil: Time,
    endedAt: Option<Time>)

  datatype CaseStatus = Open | Approved | Removed

  datatype Case = Case(status: CaseStatus, resolvedAt: Option<Time>)

  /** The tables in which boards change hands. */
  datatype Game = Game(
    boards: map<BoardId, Board>,
    bids: map<BidId, Bid>,
    takeovers: map<BidId, Takeover>,
    evidence: map<BidId, Evidence>,
    cases: map<BidId, Case>,
    contacts: map<UserId, Email>)

  const DEFAULT_MESSAGE: string := "THIS BOARD IS OPEN."

  /** The statuses a bid can only have after it has taken a board over. */
  predicate Published(status: BidStatus) {
    status.Won? || status.DemoWon? || status.Refunded? || status.Disputed?
  }

  predicate IsRemoved(g: Game, bid: BidId) {
    bid in g.cases && g.cases[bid].status.Removed?
  }

  predicate BoardLinked(g: Game, b: BoardId)
    requires b in g.boards
  {
    && (g.boards[b].current.Some? ==> g.boards[b].current.value in g.bids)
    && (g.boards[b].pending.Some? ==> g.boards[b].pending.value in g.bids)
  }

  predicate BidLinked(g: Game, p: BidId)
    requires p in g.bids
  {
    g.bids[p].board in g.boards && g.bids[p].bidder in g.contacts
  }

  predicate TakeoverLinked(g: Game, t: BidId)
    requires t in g.takeovers
  {
    t in g.bids && g.takeovers[t].board in g.boards
  }

  /** Foreign keys, which the database enforces. */
  ghost predicate Linked(g: Game) {
    && (forall b {:trigger BoardLinked(g, b)} | b in g.boards :: BoardLinked(g, b))
    && (forall p {:trigger BidLinked(g, p)} | p in g.bids :: BidLinked(g, p))
    && (forall t {:trigger TakeoverLinked(g, t)} | t in g.takeovers :: TakeoverLinked(g, t))
    && g.evidence.Keys <= g.bids.Keys
    && g.cases.Keys <= g.takeovers.Keys
  }

  lemma TakeoversAreBids(g: Game)
    requires Linked(g)
    ensures g.takeovers.Keys <= g.bids.Keys
  {
    forall t | t in g.takeovers ensures t in g.bids { assert TakeoverLinked(g, t); }
  }

  /** Rewriting one board and any bids keeps the foreign keys, as long as no bid moves or changes hands. */
  lemma Relinked(g: Game, id: BoardId, board: Board, bids: map<BidId, Bid>)
    requires Linked(g) && id in g.boards && bids.Keys == g.bids.Keys
    requires board.current.Some? ==> board.current.value in g.bids
    requires board.pending.Some? ==> board.pending.value in g.bids
    requires forall p {:trigger bids[p]} | p in bids :: bids[p].board == g.bids[p].board && bids[p].bidder == g.bids[p].bidder
    ensures Linked(g.(boards := g.boards[id := board], bids := bids))
  {
    var g' := g.(boards := g.boards[id := board], bids := bids);
    forall b | b in g'.boards ensures BoardLinked(g', b) { assert BoardLinked(g, b); }
    forall p | p in g'.bids ensures BidLinked(g', p) { assert BidLinked(g, p); }
    forall t | t in g'.takeovers ensures TakeoverLinked(g', t) { assert TakeoverLinked(g, t); }
  }
}
