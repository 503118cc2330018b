/** The review controller's closures as an object: fields updated step by step, each step one event of the protocol. */
module ReviewController {
  import opened CheckedMoney
  import opened ReviewQueue

  class Controller {
    var lifetime: nat
    var listRequest: nat
    var disposed: bool
    var items: seq<Item>
    var currentIndex: int
    var currentItem: Option<Item>
    var views: seq<ApprovalView>
    var lastActed: Option<Acted>
    var inFlight: set<Ticket>
    var tickets: nat

    function View(): State
      reads this
    {
      State(lifetime, listRequest, disposed, items, currentIndex, currentItem, views, lastActed, inFlight, tickets)
    }

    constructor ()
      ensures View() == Initial()
    {
      lifetime, listRequest, disposed := 0, 0, false;
      items, currentIndex, currentItem := [], -1, None;
      views, lastActed := [], None;
      inFlight, tickets := {}, 0;
    }

    method ClearPrivateState()
      modifies this
      ensures View() == Next(old(View()), IdentityChanged)
    {
      lifetime := lifetime + 1;
      items, currentIndex, currentItem := [], -1, None;
      views := [];
      lastActed := None;
    }

    method Dispose()
      modifies this
      ensures View() == Next(old(View()), Disposed)
    {
      disposed := true;
      ClearPrivateState();
    }

    /** The part of a call before its first await. */
    method Send(purpose: Purpose) returns (ticket: Ticket)
      modifies this
      ensures View() == Begin(old(View()), purpose) && ticket in inFlight
      ensures ticket == Ticket(old(tickets), old(lifetime), purpose)
    {
      ticket := Ticket(tickets, lifetime, purpose);
      inFlight, tickets := inFlight + {ticket}, tickets + 1;
    }

    method FetchItems() returns (ticket: Option<Ticket>)
      modifies this
      ensures View() == Next(old(View()), FetchBegun)
      ensures old(disposed) <==> ticket.None?
      ensures ticket.Some? ==> ticket.value in inFlight && ticket.value.lifetime == lifetime && ticket.value.purpose == ListItems(listRequest)
    {
      if disposed {
        return None;
      }
      listRequest := listRequest + 1;
      var sent := Send(ListItems(listRequest));
      ticket := Some(sent);
    }

    method Refresh() returns (ticket: Option<Ticket>)
      modifies this
      ensures View() == Next(old(View()), Refreshed)
    {
      ClearPrivateState();
      ticket := FetchItems();
    }

    /** The part of the list load after its await: fenced, then applied, or failed and cleared. */
    method FetchSettles(ticket: Ticket, listing: Listing)
      requires ticket in inFlight && ticket.purpose.ListItems?
      modifies this
      ensures View() == Next(old(View()), FetchSettled(ticket, listing))
    {
      inFlight := inFlight - {ticket};
      if ticket.lifetime != lifetime || disposed || ticket.purpose.request != listRequest {
        return;
      }
      match listing {
        case Refused =>
          ClearPrivateState();
        case Listed(ids) =>
          items := Tagged(ids, ticket.lifetime, ticket.purpose.request);
          currentItem := if |items| > 0 then Some(items[0]) else None;
          currentIndex := if currentItem.Some? then 0 else -1;
      }
    }

    method BeginAction(approve: bool) returns (ticket: Option<Ticket>)
      modifies this
      ensures View() == Next(old(View()), ActionBegun(approve))
      ensures ticket.Some? ==> ticket.value in inFlight && ticket.value.lifetime == lifetime
    {
      if currentItem.None? || disposed {
        return None;
      }
      var sent := Send(Act(approve, currentItem.value.id));
      ticket := Some(sent);
    }

    method BeginUndo() returns (ticket: Option<Ticket>)
      modifies this
      ensures View() == Next(old(View()), UndoBegun)
    {
      if lastActed.None? || disposed {
        return None;
      }
      var sent := Send(Undo(lastActed.value.id));
      ticket := Some(sent);
    }

    method BeginProposal(reviewId: string) returns (ticket: Option<Ticket>)
      modifies this
      ensures View() == Next(old(View()), ProposalBegun(reviewId)) && (ticket.None? ==> View() == old(View()))
      ensures old(disposed) <==> ticket.None?
      ensures ticket.Some? ==> ticket.value in inFlight && ticket.value == Ticket(old(tickets), old(lifetime), Propose(reviewId))
    {
      if disposed {
        return None;
      }
      var sent := Send(Propose(reviewId));
      ticket := Some(sent);
    }

    method RetainProposalApproval(reviewId: string, proposal: Option<string>, origin: nat)
      modifies this`views
      ensures views == if proposal.None? then old(views) else OtherViews(old(views), reviewId) + [ApprovalView(reviewId, proposal.value, origin)]
    {
      if proposal.Some? {
        views := OtherViews(views, reviewId) + [ApprovalView(reviewId, proposal.value, origin)];
      }
    }

    /** Remember what was acted on, splice the queue at the cursor, and move the cursor. */
    method ConsumeCurrent(ticket: Ticket, itemId: string)
      modifies this`lastActed, this`items, this`currentIndex, this`currentItem
      ensures View() == Consume(old(View()), ticket, itemId)
    {
      lastActed := Some(Acted(itemId, ticket.lifetime));
      if 0 <= currentIndex < |items| {
        items := items[..currentIndex] + items[currentIndex + 1..];
      }
      currentIndex := if |items| > 0 then Min(currentIndex, |items| - 1) else -1;
      currentItem := if 0 <= currentIndex < |items| then Some(items[currentIndex]) else None;
    }

    /** The part of an action after its await. */
    method ReplySettles(ticket: Ticket, reply: Reply) returns (reload: Option<Ticket>)
      requires ticket in inFlight
      modifies this
      ensures View() == Next(old(View()), ReplySettled(ticket, reply))
    {
      reload := None;
      inFlight := inFlight - {ticket};
      if ticket.lifetime != lifetime || disposed || reply.Failed? {
        return;
      }
      match ticket.purpose {
        case ListItems(_) =>
        case Act(approve, itemId) =>
          if approve {
            if reply.approvalRequired {
              RetainProposalApproval(itemId, reply.proposal, ticket.lifetime);
            }
          } else if reply.success {
            ConsumeCurrent(ticket, itemId);
          }
        case Propose(reviewId) =>
          if reply.approvalRequired {
            RetainProposalApproval(reviewId, reply.proposal, ticket.lifetime);
          }
        case Undo(_) =>
          if reply.success {
            lastActed := None;
            reload := FetchItems();
          }
      }
    }

    method ClearProposalApprovalViews(proposalId: Option<string>)
      modifies this`views
      ensures View() == Next(old(View()), ViewsCleared(proposalId))
    {
      views := if proposalId.None? || proposalId.value == "" then [] else ClearViews(views, proposalId.value);
    }

    method SelectNext()
      modifies this`currentIndex, this`currentItem
      ensures View() == Next(old(View()), NextSelected)
    {
      if |items| == 0 {
        return;
      }
      currentIndex := Min(currentIndex + 1, |items| - 1);
      currentItem := At(items, currentIndex);
    }

    method SelectPrevious()
      modifies this`currentIndex, this`currentItem
      ensures View() == Next(old(View()), PreviousSelected)
    {
      currentIndex := Max(currentIndex - 1, 0);
      currentItem := At(items, currentIndex);
    }

    method SelectIndex(index: int)
      modifies this`currentIndex, this`currentItem
      ensures View() == Next(old(View()), IndexSelected(index))
    {
      if index < 0 || index >= |items| {
        return;
      }
      currentIndex, currentItem := index, At(items, index);
    }

    /** Any event at all: what other callers, the server and the session do between two steps of one caller. */
    method Happen(e: Event)
      modifies this
      ensures View() == Next(old(View()), e)
    {
      match e {
        case IdentityChanged => ClearPrivateState();
        case Disposed => Dispose();
        case Refreshed => var asked := Refresh();
        case FetchBegun => var asked := FetchItems();
        case FetchSettled(t, listing) =>
          if t in inFlight && t.purpose.ListItems? {
            FetchSettles(t, listing);
          } else {
            inFlight := inFlight - {t};
          }
        case ActionBegun(approve) => var asked := BeginAction(approve);
        case ProposalBegun(reviewId) => var asked := BeginProposal(reviewId);
        case UndoBegun => var asked := BeginUndo();
        case ReplySettled(t, reply) =>
          if t in inFlight {
            var reload := ReplySettles(t, reply);
          }
        case ViewsCleared(proposalId) => ClearProposalApprovalViews(proposalId);
        case NextSelected => SelectNext();
        case PreviousSelected => SelectPrevious();
        case IndexSelected(index) => SelectIndex(index);
      }
    }

    /** An await: anything happens but the settling of this ticket. */
    method Await(t: Ticket, others: seq<Event>)
      modifies this
      ensures View() == During(old(View()), t, others)
    {
      hide Next;
      ghost var start := View();
      for i := 0 to |others|
        invariant View() == During(start, t, others[..i])
      {
        assert others[..i + 1][..i] == others[..i];
        if !Settles(others[i], t) {
          Happen(others[i]);
        }
      }
      assert others[..|others|] == others;
    }

    /** One proposal asked for, awaited and settled; a disposed controller sends nothing. */
    method RequestProposal(x: Exchange)
      requires Invariant(View())
      modifies this
      ensures View() == Exchanged(old(View()), x)
    {
      ghost var start := View();
      hide Next, During, Invariant;
      var ticket := BeginProposal(x.reviewId);
      if ticket.None? {
        return;
      }
      StepKeeps(start, ProposalBegun(x.reviewId));
      DuringKeeps(View(), ticket.value, x.others);
      Await(ticket.value, x.others);
      var reload := ReplySettles(ticket.value, x.reply);
    }
  }

  /**
   * Approval proposals for the selected reviews, one call after the other, whatever happens during each await.
   * The loop stops at the first exchange that ends in another lifetime.
   */
  method BulkProposals(c: Controller, calls: seq<Exchange>) returns (settled: nat)
    requires Invariant(c.View())
    modifies c
    ensures StopsAt(old(c.View()), calls, settled)
    ensures c.View() == AfterCalls(old(c.View()), calls[..Min(settled + 1, |calls|)])
    ensures Invariant(c.View()) && (settled < |calls| ==> forall v :: v in c.views ==> v.origin > old(c.lifetime))
  {
    hide Invariant, Exchanged;
    ghost var start := c.View();
    var requestLifetime := c.lifetime;
    settled := 0;
    while settled < |calls|
      invariant settled <= |calls| && c.View() == AfterCalls(start, calls[..settled])
      invariant forall i :: 0 <= i <= settled ==> AfterCalls(start, calls[..i]).lifetime == start.lifetime
    {
      CallsKeep(start, calls[..settled]);
      assert calls[..settled + 1][..settled] == calls[..settled];
      c.RequestProposal(calls[settled]);
      if c.lifetime != requestLifetime {
        CallsKeep(start, calls[..settled + 1]);
        StoppedShowsNone(start, calls, settled);
        return;
      }
      settled := settled + 1;
    }
    assert calls[..|calls|] == calls;
    CallsKeep(start, calls);
  }
}
