/**
 * The review queue's controller as a protocol: requests begin, other things happen, responses settle.
 * Every item, proposal view and acted id carries the lifetime of the request that brought it.
 */
module ReviewQueue {
  import opened CheckedMoney

  datatype Item = Item(id: string, origin: nat, request: nat)

  datatype ApprovalView = ApprovalView(reviewId: string, proposalId: string, origin: nat)

  datatype Acted = Acted(id: string, origin: nat)

  datatype Purpose =
    | ListItems(request: nat)
    | Act(approve: bool, itemId: string)
    | Undo(itemId: string)
    | Propose(reviewId: string)

  /** A request in flight: what it is for, and the lifetime it began in. */
  datatype Ticket = Ticket(number: nat, lifetime: nat, purpose: Purpose)

  datatype State = State(
    lifetime: nat, listRequest: nat, disposed: bool, items: seq<Item>, currentIndex: int, currentItem: Option<Item>,
    views: seq<ApprovalView>, lastActed: Option<Acted>, inFlight: set<Ticket>, tickets: nat)

  /** What the server said about an action: whether it succeeded, or asks for approval of a proposal. */
  datatype Reply = Failed | Replied(success: bool, approvalRequired: bool, proposal: Option<string>)

  datatype Listing = Refused | Listed(ids: seq<string>)

  datatype Event =
    | IdentityChanged
    | Disposed
    | Refreshed
    | FetchBegun
    | FetchSettled(ticket: Ticket, listing: Listing)
    | ActionBegun(approve: bool)
    | ProposalBegun(reviewId: string)
    | UndoBegun
    | ReplySettled(ticket: Ticket, reply: Reply)
    | ViewsCleared(proposalId: Option<string>)
    | NextSelected
    | PreviousSelected
    | IndexSelected(index: int)

  function Initial(): State {
    State(0, 0, false, [], -1, None, [], None, {}, 0)
  }

  function At(items: seq<Item>, index: int): Option<Item> {
    if 0 <= index < |items| then Some(items[index]) else None
  }

  function Cleared(s: State): State {
    s.(lifetime := s.lifetime + 1, items := [], currentIndex := -1, currentItem := None, views := [], lastActed := None)
  }

  function Begin(s: State, purpose: Purpose): State {
    s.(inFlight := s.inFlight + {Ticket(s.tickets, s.lifetime, purpose)}, tickets := s.tickets + 1)
  }

  function BeginFetch(s: State): State {
    if s.disposed then s else Begin(s.(listRequest := s.listRequest + 1), ListItems(s.listRequest + 1))
  }

  function Tagged(ids: seq<string>, origin: nat, request: nat): (r: seq<Item>)
    ensures |r| == |ids| && forall i :: 0 <= i < |r| ==> r[i] == Item(ids[i], origin, request)
  {
    seq(|ids|, i requires 0 <= i < |ids| => Item(ids[i], origin, request))
  }

  predicate Current(s: State, t: Ticket) {
    t.lifetime == s.lifetime && !s.disposed
  }

  function SettleFetch(s: State, t: Ticket, listing: Listing): State {
    if !t.purpose.ListItems? || !Current(s, t) || t.purpose.request != s.listRequest then s
    else
      match listing
      case Refused => Cleared(s)
      case Listed(ids) =>
        var items := Tagged(ids, t.lifetime, t.purpose.request);
        s.(items := items, currentIndex := if items == [] then -1 else 0, currentItem := At(items, 0))
  }

  function OtherViews(views: seq<ApprovalView>, reviewId: string): (r: seq<ApprovalView>)
    ensures forall v :: v in r <==> v in views && v.reviewId != reviewId
  {
    if views == [] then []
    else OtherViews(views[..|views| - 1], reviewId) + if views[|views| - 1].reviewId == reviewId then [] else [views[|views| - 1]]
  }

  function Retain(s: State, t: Ticket, reviewId: string, proposal: Option<string>): State {
    if proposal.None? then s else s.(views := OtherViews(s.views, reviewId) + [ApprovalView(reviewId, proposal.value, t.lifetime)])
  }

  /** The item under the cursor leaves; the cursor stays, or steps back from the end. */
  function Consume(s: State, t: Ticket, itemId: string): State {
    var rest := if 0 <= s.currentIndex < |s.items| then s.items[..s.currentIndex] + s.items[s.currentIndex + 1..] else s.items;
    var next := if rest == [] then -1 else Min(s.currentIndex, |rest| - 1);
    s.(lastActed := Some(Acted(itemId, t.lifetime)), items := rest, currentIndex := next, currentItem := At(rest, next))
  }

  function SettleReply(s: State, t: Ticket, reply: Reply): State {
    if !Current(s, t) || reply.Failed? then s
    else
      match t.purpose
      case ListItems(_) => s
      case Act(approve, itemId) =>
        if approve then (if reply.approvalRequired then Retain(s, t, itemId, reply.proposal) else s)
        else if reply.success then Consume(s, t, itemId) else s
      case Propose(reviewId) => if reply.approvalRequired then Retain(s, t, reviewId, reply.proposal) else s
      case Undo(_) => if reply.success then BeginFetch(s.(lastActed := None)) else s
  }

  function ClearViews(views: seq<ApprovalView>, proposalId: string): (r: seq<ApprovalView>)
    ensures forall v :: v in r <==> v in views && v.proposalId != proposalId
  {
    if views == [] then []
    else ClearViews(views[..|views| - 1], proposalId) + if views[|views| - 1].proposalId == proposalId then [] else [views[|views| - 1]]
  }

  function Select(s: State, index: int): State {
    s.(currentIndex := index, currentItem := At(s.items, index))
  }

  function Settled(s: State, t: Ticket): State {
    s.(inFlight := s.inFlight - {t})
  }

  /** One event's effect. Only a request in flight can settle, and it settles once. */
  function Next(s: State, e: Event): State {
    match e
    case IdentityChanged => Cleared(s)
    case Disposed => Cleared(s.(disposed := true))
    case Refreshed => BeginFetch(Cleared(s))
    case FetchBegun => BeginFetch(s)
    case FetchSettled(t, listing) => if t in s.inFlight then SettleFetch(Settled(s, t), t, listing) else s
    case ActionBegun(approve) => if s.currentItem.None? || s.disposed then s else Begin(s, Act(approve, s.currentItem.value.id))
    case ProposalBegun(reviewId) => if s.disposed then s else Begin(s, Propose(reviewId))
    case UndoBegun => if s.lastActed.None? || s.disposed then s else Begin(s, Undo(s.lastActed.value.id))
    case ReplySettled(t, reply) => if t in s.inFlight then SettleReply(Settled(s, t), t, reply) else s
    case ViewsCleared(id) => s.(views := if id.None? || id.value == "" then [] else ClearViews(s.views, id.value))
    case NextSelected => if s.items == [] then s else Select(s, Min(s.currentIndex + 1, |s.items| - 1))
    case PreviousSelected => Select(s, Max(s.currentIndex - 1, 0))
    case IndexSelected(index) => if 0 <= index < |s.items| then Select(s, index) else s
  }

  function Run(events: seq<Event>): State {
    if events == [] then Initial() else Next(Run(events[..|events| - 1]), events[|events| - 1])
  }

  // What holds after every run.

  /** Everything shown came from requests begun in the current lifetime, and from one list request. */
  ghost predicate FromThisLifetime(s: State) {
    (forall i :: 0 <= i < |s.items| ==> s.items[i].origin == s.lifetime && s.items[i].request == s.items[0].request <= s.listRequest)
    && (forall v :: v in s.views ==> v.origin == s.lifetime)
    && (s.lastActed.Some? ==> s.lastActed.value.origin == s.lifetime)
  }

  /** The cursor shows the item it stands on, or nothing. */
  ghost predicate CursorAgrees(s: State) {
    s.currentItem == At(s.items, s.currentIndex) && (s.items != [] ==> s.currentItem.Some?) && -1 <= s.currentIndex
  }

  ghost predicate FlightSound(s: State) {
    forall t :: t in s.inFlight ==>
      t.lifetime <= s.lifetime && t.number < s.tickets && (t.purpose.ListItems? ==> t.purpose.request <= s.listRequest)
  }

  /** After disposal nothing is shown, and nothing in flight can show anything again. */
  ghost predicate DisposedFinal(s: State) {
    s.disposed ==> s.items == [] && s.views == [] && s.lastActed.None? && forall t :: t in s.inFlight ==> t.lifetime < s.lifetime
  }

  ghost predicate Invariant(s: State) {
    FromThisLifetime(s) && CursorAgrees(s) && FlightSound(s) && DisposedFinal(s)
  }

  lemma {:induction false} ConsumeKeeps(s: State, t: Ticket, itemId: string)
    requires Invariant(s) && t.lifetime == s.lifetime && !s.disposed
    ensures Invariant(Consume(s, t, itemId))
  {
    var rest := Consume(s, t, itemId).items;
    forall i | 0 <= i < |rest|
      ensures rest[i] in s.items
    {
    }
    forall i | 0 <= i < |rest|
      ensures rest[i].origin == s.lifetime && rest[i].request == rest[0].request <= s.listRequest
    {
      assert rest[0] in s.items && rest[i] in s.items;
    }
  }

  lemma {:induction false} ReplyKeeps(s: State, t: Ticket, reply: Reply)
    requires Invariant(s)
    ensures Invariant(SettleReply(s, t, reply))
  {
    if Current(s, t) && reply.Replied? && t.purpose.Act? && !t.purpose.approve && reply.success {
      ConsumeKeeps(s, t, t.purpose.itemId);
    }
    hide Consume;
  }

  lemma {:induction false} FetchKeeps(s: State, t: Ticket, listing: Listing)
    requires Invariant(s)
    ensures Invariant(SettleFetch(s, t, listing))
  {
  }

  lemma {:induction false} StepKeeps(s: State, e: Event)
    requires Invariant(s)
    ensures Invariant(Next(s, e))
  {
    match e
    case FetchSettled(t, listing) =>
      if t in s.inFlight {
        FetchKeeps(Settled(s, t), t, listing);
      }
      hide SettleFetch;
    case ReplySettled(t, reply) =>
      if t in s.inFlight {
        ReplyKeeps(Settled(s, t), t, reply);
      }
      hide SettleReply;
    case _ =>
  }

  /** In every interleaving, the queue shows only what this lifetime asked for and the cursor tells the truth. */
  lemma {:induction false} EveryRun(events: seq<Event>)
    ensures Invariant(Run(events))
  {
    if events != [] {
      EveryRun(events[..|events| - 1]);
      hide Invariant, Next;
      StepKeeps(Run(events[..|events| - 1]), events[|events| - 1]);
    }
  }

  // The fence.

  /** A response of an earlier lifetime, or a list response that has been superseded, changes nothing that is shown. */
  lemma {:induction false} StaleChangesNothing(events: seq<Event>, t: Ticket, listing: Listing, reply: Reply)
    requires t in Run(events).inFlight
    ensures var s := Run(events);
            t.lifetime != s.lifetime ==> Next(s, FetchSettled(t, listing)) == Settled(s, t) == Next(s, ReplySettled(t, reply))
    ensures var s := Run(events);
            t.purpose.ListItems? && t.purpose.request != s.listRequest ==> Next(s, FetchSettled(t, listing)) == Settled(s, t)
  {
  }

  lemma {:induction false} LifetimeGrows(s: State, e: Event)
    ensures s.lifetime <= Next(s, e).lifetime && (s.disposed ==> Next(s, e).disposed)
    ensures Next(s, e).lifetime > s.lifetime ==> Next(s, e).items == [] && Next(s, e).views == [] && Next(s, e).lastActed.None?
  {
  }

  lemma {:induction false} RunExtends(before: seq<Event>, after: seq<Event>)
    ensures Run(before).lifetime <= Run(before + after).lifetime
    ensures Run(before).disposed ==> Run(before + after).disposed
    decreases |after|
  {
    if after == [] {
      assert before + after == before;
    } else {
      assert (before + after)[..|before + after| - 1] == before + after[..|after| - 1];
      RunExtends(before, after[..|after| - 1]);
      hide Next;
      LifetimeGrows(Run(before + after[..|after| - 1]), after[|after| - 1]);
    }
  }

  /** Once the identity has changed, no item, view or acted id from before is ever shown again. */
  lemma {:induction false} NothingCrosses(before: seq<Event>, after: seq<Event>)
    ensures var old', now := Run(before), Run(before + [IdentityChanged] + after);
            now.lifetime > old'.lifetime
            && (forall i :: 0 <= i < |now.items| ==> now.items[i].origin > old'.lifetime)
            && (forall v :: v in now.views ==> v.origin > old'.lifetime)
            && (now.lastActed.Some? ==> now.lastActed.value.origin > old'.lifetime)
  {
    assert (before + [IdentityChanged])[..|before|] == before;
    RunExtends(before + [IdentityChanged], after);
    EveryRun(before + [IdentityChanged] + after);
    hide Run;
  }

  /** A disposed controller shows nothing, whatever settles afterwards. */
  lemma {:induction false} DisposalIsFinal(before: seq<Event>, after: seq<Event>)
    ensures var s := Run(before + [Disposed] + after);
            s.disposed && s.items == [] && s.currentItem.None? && s.views == [] && s.lastActed.None?
  {
    assert (before + [Disposed])[..|before|] == before;
    RunExtends(before + [Disposed], after);
    EveryRun(before + [Disposed] + after);
    hide Run;
  }

  // What a consumed item is.

  predicate HasId(items: seq<Item>, id: string) {
    exists i :: 0 <= i < |items| && items[i].id == id
  }

  predicate DistinctItems(items: seq<Item>) {
    forall i, j :: 0 <= i < j < |items| ==> items[i].id != items[j].id
  }

  /**
   * A settled action takes out the item under the cursor at that moment; with distinct ids the acted item is
   * gone exactly when the cursor still stands on it.
   */
  lemma {:induction false} ConsumesCursor(events: seq<Event>, t: Ticket, itemId: string)
    requires var s := Run(events); t in s.inFlight && t.lifetime == s.lifetime && t.purpose == Act(false, itemId) && s.items != [] && !s.disposed
    ensures var s := Run(events);
            var after := Next(s, ReplySettled(t, Replied(true, false, None)));
            0 <= s.currentIndex < |s.items| && |after.items| == |s.items| - 1
            && s.items == after.items[..s.currentIndex] + [s.items[s.currentIndex]] + after.items[s.currentIndex..]
            && after.lastActed == Some(Acted(itemId, s.lifetime))
            && (DistinctItems(s.items) && HasId(s.items, itemId) ==>
                  (!HasId(after.items, itemId) <==> s.items[s.currentIndex].id == itemId))
  {
    EveryRun(events);
    var s := Run(events);
    assert 0 <= s.currentIndex < |s.items|;
    hide Run, HasId, DistinctItems, Invariant;
    OneGone(s.items, s.currentIndex, itemId);
  }

  lemma {:induction false} OneGone(items: seq<Item>, i: nat, id: string)
    requires i < |items|
    ensures var rest := items[..i] + items[i + 1..];
            |rest| == |items| - 1 && items == rest[..i] + [items[i]] + rest[i..]
            && (DistinctItems(items) && HasId(items, id) ==> (!HasId(rest, id) <==> items[i].id == id))
  {
    var rest := items[..i] + items[i + 1..];
    assert rest[..i] == items[..i] && rest[i..] == items[i + 1..];
    hide DistinctItems, HasId;
    if DistinctItems(items) && HasId(items, id) {
      if items[i].id == id {
        CursorGone(items, i);
      } else {
        OtherStays(items, i, id);
      }
    }
  }

  lemma {:induction false} CursorGone(items: seq<Item>, i: nat)
    requires i < |items| && DistinctItems(items)
    ensures !HasId(items[..i] + items[i + 1..], items[i].id)
  {
    var rest := items[..i] + items[i + 1..];
    forall j | 0 <= j < |rest|
      ensures rest[j].id != items[i].id
    {
      assert rest[j] == items[if j < i then j else j + 1];
    }
  }

  lemma {:induction false} OtherStays(items: seq<Item>, i: nat, id: string)
    requires i < |items| && HasId(items, id) && items[i].id != id
    ensures HasId(items[..i] + items[i + 1..], id)
  {
    var rest := items[..i] + items[i + 1..];
    var k :| 0 <= k < |items| && items[k].id == id;
    assert rest[if k < i then k else k - 1] == items[k];
  }

  lemma {:induction false} RunNext(events: seq<Event>, e: Event, s: State)
    requires Run(events) == s
    ensures Run(events + [e]) == Next(s, e)
  {
    assert (events + [e])[..|events|] == events;
  }

  // Proposals for several reviews, one call after the other.

  predicate Settles(e: Event, t: Ticket) {
    (e.FetchSettled? || e.ReplySettled?) && e.ticket == t
  }

  /** Whatever else happens while t is awaited, in any number and order. */
  function During(s: State, t: Ticket, others: seq<Event>): State {
    if others == [] then s
    else
      var before, e := During(s, t, others[..|others| - 1]), others[|others| - 1];
      if Settles(e, t) then before else Next(before, e)
  }

  /** A proposal to ask for, what happens before its reply, and the reply. */
  datatype Exchange = Exchange(reviewId: string, others: seq<Event>, reply: Reply)

  function TicketFor(s: State, x: Exchange): Ticket {
    Ticket(s.tickets, s.lifetime, Propose(x.reviewId))
  }

  function Awaited(s: State, x: Exchange): State {
    During(Next(s, ProposalBegun(x.reviewId)), TicketFor(s, x), x.others)
  }

  /** One exchange; a disposed controller sends nothing. */
  function Exchanged(s: State, x: Exchange): State {
    if s.disposed then s else Next(Awaited(s, x), ReplySettled(TicketFor(s, x), x.reply))
  }

  function AfterCalls(s: State, calls: seq<Exchange>): State {
    if calls == [] then s else Exchanged(AfterCalls(s, calls[..|calls| - 1]), calls[|calls| - 1])
  }

  /** The first exchange that ends in another lifetime, or none. */
  ghost predicate StopsAt(s: State, calls: seq<Exchange>, n: nat) {
    n <= |calls| && (forall i :: 0 <= i <= n ==> AfterCalls(s, calls[..i]).lifetime == s.lifetime)
    && (n < |calls| ==> AfterCalls(s, calls[..n + 1]).lifetime != s.lifetime)
  }

  lemma {:induction false} StepGrows(s: State, e: Event, t: Ticket)
    requires t in s.inFlight && !Settles(e, t)
    ensures var next := Next(s, e); t in next.inFlight && s.lifetime <= next.lifetime
    ensures var next := Next(s, e); next.disposed && !s.disposed ==> next.lifetime > s.lifetime
  {
  }

  lemma {:induction false} DuringKeeps(s: State, t: Ticket, others: seq<Event>)
    requires Invariant(s) && t in s.inFlight
    ensures var now := During(s, t, others); Invariant(now) && t in now.inFlight && s.lifetime <= now.lifetime
    ensures var now := During(s, t, others); now.disposed && !s.disposed ==> now.lifetime > s.lifetime
  {
    hide Invariant, Next, Settles;
    if others != [] {
      var front, e := others[..|others| - 1], others[|others| - 1];
      DuringKeeps(s, t, front);
      if !Settles(e, t) {
        StepKeeps(During(s, t, front), e);
        StepGrows(During(s, t, front), e, t);
      }
    }
  }

  lemma {:induction false} ProposalSent(s: State, x: Exchange)
    requires !s.disposed
    ensures var next := Next(s, ProposalBegun(x.reviewId));
            next.lifetime == s.lifetime && !next.disposed && TicketFor(s, x) in next.inFlight
  {
  }

  lemma {:induction false} ProposalReplied(s: State, t: Ticket, reviewId: string, reply: Reply)
    requires t in s.inFlight && t.purpose == Propose(reviewId)
    ensures var next := Next(s, ReplySettled(t, reply)); next.lifetime == s.lifetime && next.disposed == s.disposed
    ensures !Current(s, t) ==> Next(s, ReplySettled(t, reply)) == Settled(s, t)
    ensures Current(s, t) && reply.Replied? && reply.approvalRequired && reply.proposal.Some? ==>
              forall v :: v in Next(s, ReplySettled(t, reply)).views <==>
                            v == ApprovalView(reviewId, reply.proposal.value, t.lifetime) || (v in s.views && v.reviewId != reviewId)
  {
  }

  /**
   * A proposal that comes back in the lifetime it was asked for replaces the one shown for its review and no other;
   * one that comes back in another lifetime shows nothing.
   */
  lemma {:induction false} ExchangeShows(s: State, x: Exchange)
    requires Invariant(s) && !s.disposed
    ensures var mid, after := Awaited(s, x), Exchanged(s, x);
            Invariant(after) && after.lifetime == mid.lifetime >= s.lifetime
            && (mid.lifetime != s.lifetime ==> after == Settled(mid, TicketFor(s, x)))
            && (mid.lifetime == s.lifetime && x.reply.Replied? && x.reply.approvalRequired && x.reply.proposal.Some? ==>
                  forall v :: v in after.views <==>
                                v == ApprovalView(x.reviewId, x.reply.proposal.value, s.lifetime) || (v in mid.views && v.reviewId != x.reviewId))
  {
    hide Invariant, Next, Settled;
    var sent, t := Next(s, ProposalBegun(x.reviewId)), TicketFor(s, x);
    StepKeeps(s, ProposalBegun(x.reviewId));
    ProposalSent(s, x);
    DuringKeeps(sent, t, x.others);
    var mid := During(sent, t, x.others);
    StepKeeps(mid, ReplySettled(t, x.reply));
    ProposalReplied(mid, t, x.reviewId, x.reply);
  }

  /** The state after any number of exchanges is sound and never of an earlier lifetime. */
  lemma {:induction false} CallsKeep(s: State, calls: seq<Exchange>)
    requires Invariant(s)
    ensures var after := AfterCalls(s, calls); Invariant(after) && s.lifetime <= after.lifetime
  {
    hide Invariant, Next, Awaited;
    if calls != [] {
      CallsKeep(s, calls[..|calls| - 1]);
      var before, x := AfterCalls(s, calls[..|calls| - 1]), calls[|calls| - 1];
      if !before.disposed {
        ExchangeShows(before, x);
      }
    }
  }

  /** When the loop stops early, no proposal that it asked for is shown: every view is of a later lifetime. */
  lemma {:induction false} StoppedShowsNone(s: State, calls: seq<Exchange>, n: nat)
    requires Invariant(s) && StopsAt(s, calls, n) && n < |calls|
    ensures forall v :: v in AfterCalls(s, calls[..n + 1]).views ==> v.origin > s.lifetime
  {
    CallsKeep(s, calls[..n + 1]);
    hide AfterCalls;
  }

  function TwoItems(): State {
    State(0, 1, false, [Item("a", 0, 1), Item("b", 0, 1)], 0, Some(Item("a", 0, 1)), [], None, {}, 1)
  }

  const LOADED: seq<Event> := [FetchBegun] + [FetchSettled(Ticket(0, 0, ListItems(1)), Listed(["a", "b"]))]

  lemma {:induction false} Loaded()
    ensures Run(LOADED) == TwoItems()
  {
    var asked := Begin(Initial().(listRequest := 1), ListItems(1));
    assert Run([]) == Initial() && [] + [FetchBegun] == [FetchBegun];
    RunNext([], FetchBegun, Initial());
    RunNext([FetchBegun], FetchSettled(Ticket(0, 0, ListItems(1)), Listed(["a", "b"])), asked);
    assert Tagged(["a", "b"], 0, 1) == [Item("a", 0, 1), Item("b", 0, 1)];
    assert asked.inFlight - {Ticket(0, 0, ListItems(1))} == {};
  }

  /** Moving the cursor while an action is in flight makes another item disappear. */
  lemma {:induction false} CursorMoved()
    ensures var events := LOADED + [ActionBegun(false)] + [NextSelected] + [ReplySettled(Ticket(1, 0, Act(false, "a")), Replied(true, false, None))];
            Run(events).items == [Item("a", 0, 1)] && Run(events).lastActed == Some(Acted("a", 0))
  {
    hide Run;
    Loaded();
    var acting := Begin(TwoItems(), Act(false, "a"));
    RunNext(LOADED, ActionBegun(false), TwoItems());
    RunNext(LOADED + [ActionBegun(false)], NextSelected, acting);
    RunNext(LOADED + [ActionBegun(false)] + [NextSelected], ReplySettled(Ticket(1, 0, Act(false, "a")), Replied(true, false, None)), Select(acting, 1));
  }
}
