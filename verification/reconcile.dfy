/** Reconciliation (internal/agent/reconcile.go): one pass over all services that brings routes
    and active containers to what the stored state demands. */
module Reconciliation {
  import opened Common
  import opened StoreModel
  import opened StoreInvariant

  /** One service as the control plane describes it to the agent. */
  datatype Item = Item(service: nat, active: Option<nat>, stopped: bool, cron: bool, public: bool)

  /** The containers that run and the route file of each service. */
  datatype State = State(running: set<nat>, routes: map<nat, nat>)

  /** A call may succeed, or fail with or without its effect. */
  datatype Fault = Fine | Lost(effect: bool)

  /** The faults of the at most three calls that one service needs. */
  datatype Trouble = Trouble(first: Fault, second: Fault, third: Fault)

  predicate Happens(fault: Fault) {
    fault.Fine? || fault.effect
  }

  function Unrouted(state: State, s: nat): State {
    state.(routes := state.routes - {s})
  }

  /** `setRoute`: a service without public traffic has no route file. */
  function Routed(state: State, item: Item, release: nat): State {
    if item.public then state.(routes := state.routes[item.service := release]) else Unrouted(state, item.service)
  }

  function After(state: State, fault: Fault, changed: State): State {
    if Happens(fault) then changed else state
  }

  /** What one iteration of the pass does to the state. */
  function Settle(state: State, item: Item, trouble: Trouble): State {
    if item.active.None? then
      After(state, trouble.first, Unrouted(state, item.service))
    else if item.stopped then
      var cleared := After(state, trouble.first, Unrouted(state, item.service));
      if !trouble.first.Fine? then cleared
      else After(cleared, trouble.second, cleared.(running := cleared.running - {item.active.value}))
    else if item.cron then
      After(state, trouble.first, Unrouted(state, item.service))
    else
      var ensured := After(state, trouble.first, state.(running := state.running + {item.active.value}));
      if !trouble.first.Fine? || !trouble.second.Fine? then ensured
      else After(ensured, trouble.third, Routed(ensured, item, item.active.value))
  }

  predicate Settled(item: Item, trouble: Trouble) {
    && trouble.first.Fine?
    && (item.active.Some? && item.stopped ==> trouble.second.Fine?)
    && (item.active.Some? && !item.stopped && !item.cron ==> trouble.second.Fine? && trouble.third.Fine?)
  }

  /** The state after the first `n` services of a pass. */
  function Pass(state: State, items: seq<Item>, troubles: seq<Trouble>, n: nat): State
    requires n <= |items| == |troubles|
  {
    if n == 0 then state else Settle(Pass(state, items, troubles, n - 1), items[n - 1], troubles[n - 1])
  }

  class Agent {
    var running: set<nat>
    var routes: map<nat, nat>

    function Current(): State
      reads this
    {
      State(running, routes)
    }

    constructor (running: set<nat>, routes: map<nat, nat>)
      ensures Current() == State(running, routes)
    {
      this.running, this.routes := running, routes;
    }

    method ClearRoute(s: nat, fault: Fault) returns (ok: bool)
      modifies this
      ensures ok == fault.Fine? && Current() == After(old(Current()), fault, Unrouted(old(Current()), s))
    {
      if Happens(fault) {
        routes := routes - {s};
      }
      ok := fault.Fine?;
    }

    method SetRoute(item: Item, release: nat, fault: Fault) returns (ok: bool)
      modifies this
      ensures ok == fault.Fine? && Current() == After(old(Current()), fault, Routed(old(Current()), item, release))
    {
      if !item.public {
        ok := ClearRoute(item.service, fault);
      } else {
        if Happens(fault) {
          routes := routes[item.service := release];
        }
        ok := fault.Fine?;
      }
    }

    /** One pass; the services whose reconciliation is still pending are returned. */
    method Reconcile(items: seq<Item>, troubles: seq<Trouble>) returns (failures: seq<nat>)
      requires |items| == |troubles|
      modifies this
      ensures Current() == Pass(old(Current()), items, troubles, |items|)
      ensures failures == Failures(items, troubles, |items|)
    {
      failures := [];
      for i := 0 to |items|
        invariant Current() == Pass(old(Current()), items, troubles, i)
        invariant failures == Failures(items, troubles, i)
      {
        var item, trouble := items[i], troubles[i];
        var ok;
        if item.active.None? {
          ok := ClearRoute(item.service, trouble.first);
        } else if item.stopped {
          ok := ClearRoute(item.service, trouble.first);
          if ok {
            if Happens(trouble.second) {
              running := running - {item.active.value};
            }
            ok := trouble.second.Fine?;
          }
        } else if item.cron {
          ok := ClearRoute(item.service, trouble.first);
        } else {
          if Happens(trouble.first) {
            running := running + {item.active.value};
          }
          ok := trouble.first.Fine?;
          if ok {
            ok := trouble.second.Fine?;
          }
          if ok {
            ok := SetRoute(item, item.active.value, trouble.third);
          }
        }
        if !ok {
          failures := failures + [item.service];
        }
      }
    }
  }

  function Failures(items: seq<Item>, troubles: seq<Trouble>, n: nat): seq<nat>
    requires n <= |items| == |troubles|
  {
    if n == 0 then []
    else
      Failures(items, troubles, n - 1) + if Settled(items[n - 1], troubles[n - 1]) then [] else [items[n - 1].service]
  }

  /******* What the stored state demands *******/

  predicate HasRoute(state: State, s: nat, release: Option<nat>) {
    match release
    case None => s !in state.routes
    case Some(d) => s in state.routes && state.routes[s] == d
  }

  /** A route exists only for a running public web release; a running release has its container
      and a stopped one does not. */
  predicate Demanded(item: Item, state: State) {
    var serving := item.active.Some? && !item.stopped && !item.cron;
    && HasRoute(state, item.service, if serving && item.public then item.active else None)
    && (serving ==> item.active.value in state.running)
    && (item.active.Some? && item.stopped ==> item.active.value !in state.running)
  }

  /** The services are different, and so are their releases. */
  predicate Distinct(items: seq<Item>) {
    forall i, j :: 0 <= i < j < |items| ==>
                     && items[i].service != items[j].service
                     && (items[i].active.None? || items[i].active != items[j].active)
  }

  /** The part of the state that belongs to one service. */
  predicate SameFor(item: Item, a: State, b: State) {
    && HasRoute(a, item.service, None) == HasRoute(b, item.service, None)
    && (item.service in a.routes && item.service in b.routes ==> a.routes[item.service] == b.routes[item.service])
    && (item.active.Some? ==> (item.active.value in a.running <==> item.active.value in b.running))
  }

  lemma SettleOthers(state: State, item: Item, trouble: Trouble, other: Item)
    requires item.service != other.service && (item.active.None? || item.active != other.active)
    ensures SameFor(other, state, Settle(state, item, trouble))
  {
  }

  lemma SettleLocal(a: State, b: State, item: Item, trouble: Trouble)
    requires SameFor(item, a, b)
    ensures SameFor(item, Settle(a, item, trouble), Settle(b, item, trouble))
  {
  }

  lemma SettleMeets(state: State, item: Item, trouble: Trouble)
    requires Settled(item, trouble)
    ensures Demanded(item, Settle(state, item, trouble))
  {
  }

  /** A service's outcome is what its own calls make of it, as if it were the only service:
      nothing that happens to another one changes it. */
  lemma {:induction false} OutcomeIsLocal(state: State, items: seq<Item>, troubles: seq<Trouble>, n: nat, i: nat)
    requires i < |items| == |troubles| && n <= |items| && Distinct(items)
    ensures SameFor(items[i], Pass(state, items, troubles, n),
                    if i < n then Settle(state, items[i], troubles[i]) else state)
  {
    hide Settle, Demanded, SameFor;
    SameForIsEquivalence(items[i]);
    if n > 0 {
      var before := Pass(state, items, troubles, n - 1);
      OutcomeIsLocal(state, items, troubles, n - 1, i);
      if i == n - 1 {
        SettleLocal(before, state, items[i], troubles[i]);
      } else {
        SettleOthers(before, items[n - 1], troubles[n - 1], items[i]);
      }
    }
  }

  lemma SameForIsEquivalence(item: Item)
    ensures forall a :: SameFor(item, a, a)
    ensures forall a, b :: SameFor(item, a, b) ==> SameFor(item, b, a)
    ensures forall a, b, c :: SameFor(item, a, b) && SameFor(item, b, c) ==> SameFor(item, a, c)
  {
  }

  /** After a pass every service whose calls succeeded is exactly as the stored state demands,
      whatever happened to the others. */
  lemma PassConverges(state: State, items: seq<Item>, troubles: seq<Trouble>, i: nat)
    requires i < |items| == |troubles| && Distinct(items) && Settled(items[i], troubles[i])
    ensures Demanded(items[i], Pass(state, items, troubles, |items|))
  {
    OutcomeIsLocal(state, items, troubles, |items|, i);
    SettleMeets(state, items[i], troubles[i]);
    DemandIsLocal(items[i], Settle(state, items[i], troubles[i]), Pass(state, items, troubles, |items|));
  }

  lemma DemandIsLocal(item: Item, a: State, b: State)
    requires SameFor(item, a, b) && Demanded(item, a)
    ensures Demanded(item, b)
  {
  }

  /** The pass returns no failure exactly when every service succeeded. */
  lemma {:induction false} NoFailures(items: seq<Item>, troubles: seq<Trouble>, n: nat)
    requires n <= |items| == |troubles|
    ensures Failures(items, troubles, n) == [] <==> forall i :: 0 <= i < n ==> Settled(items[i], troubles[i])
  {
    if n > 0 {
      NoFailures(items, troubles, n - 1);
    }
  }

  lemma SettleAgain(state: State, item: Item, trouble: Trouble)
    requires Demanded(item, state)
    ensures Settle(state, item, trouble) == state
  {
    assert item.active.Some? ==> state.running + {item.active.value} == state.running || item.active.value !in state.running;
    assert item.service !in state.routes ==> state.routes - {item.service} == state.routes;
    assert item.service in state.routes ==> state.routes[item.service := state.routes[item.service]] == state.routes;
  }

  /** Once the state is as demanded, a further pass changes nothing, whatever fails in it. */
  lemma {:induction false} DemandedIsStable(state: State, items: seq<Item>, troubles: seq<Trouble>, n: nat)
    requires n <= |items| == |troubles|
    requires forall i :: 0 <= i < |items| ==> Demanded(items[i], state)
    ensures Pass(state, items, troubles, n) == state
  {
    hide Settle, Demanded;
    if n > 0 {
      DemandedIsStable(state, items, troubles, n - 1);
      SettleAgain(state, items[n - 1], troubles[n - 1]);
    }
  }

  /** A pass that reports no failure leaves nothing to do for the next one. */
  lemma SecondPassChangesNothing(state: State, items: seq<Item>, troubles: seq<Trouble>, again: seq<Trouble>)
    requires |items| == |troubles| == |again| && Distinct(items)
    requires Failures(items, troubles, |items|) == []
    ensures var settled := Pass(state, items, troubles, |items|); Pass(settled, items, again, |items|) == settled
  {
    hide Settle, Demanded, Settled, Pass;
    NoFailures(items, troubles, |items|);
    forall i | 0 <= i < |items| ensures Demanded(items[i], Pass(state, items, troubles, |items|)) {
      PassConverges(state, items, troubles, i);
    }
    DemandedIsStable(Pass(state, items, troubles, |items|), items, again, |items|);
  }

  /** A pass touches only the routes of the listed services and their active containers. */
  lemma {:induction false} PassTouchesOnlyItems(state: State, items: seq<Item>, troubles: seq<Trouble>, n: nat, other: Item)
    requires n <= |items| == |troubles|
    requires forall i :: 0 <= i < |items| ==>
                           items[i].service != other.service && (items[i].active.None? || items[i].active != other.active)
    ensures SameFor(other, state, Pass(state, items, troubles, n))
  {
    hide Settle, SameFor;
    SameForIsEquivalence(other);
    if n > 0 {
      PassTouchesOnlyItems(state, items, troubles, n - 1, other);
      SettleOthers(Pass(state, items, troubles, n - 1), items[n - 1], troubles[n - 1], other);
    }
  }

  /******* The order of the calls *******/

  /** A running release is routed to only once it was seen to be started and ready, and a stopped one is
      stopped only once its route is gone; without that the pass leaves the route, or the container, of
      the service as it was, whatever it does for others. */
  lemma RouteNeedsReadiness(state: State, items: seq<Item>, troubles: seq<Trouble>, i: nat)
    requires i < |items| == |troubles| && Distinct(items) && items[i].active.Some? && !items[i].cron
    ensures var item, trouble, after := items[i], troubles[i], Pass(state, items, troubles, |items|);
            && (!item.stopped && !(trouble.first.Fine? && trouble.second.Fine?) ==>
                  forall release :: HasRoute(after, item.service, release) <==> HasRoute(state, item.service, release))
            && (item.stopped && !trouble.first.Fine? ==>
                  (item.active.value in after.running <==> item.active.value in state.running))
  {
    hide Pass;
    OutcomeIsLocal(state, items, troubles, |items|, i);
  }

  /** What a failed call leaves: a first call that was lost before its effect leaves everything as it was;
      the last call of a service, lost after its effect, leaves what it would have left. */
  lemma LostCallsExactly(state: State, item: Item, trouble: Trouble)
    ensures trouble.first == Lost(false) ==> Settle(state, item, trouble) == state
    ensures item.active.None? || (item.cron && !item.stopped) ==>
              Settle(state, item, trouble.(first := Lost(true))) == Settle(state, item, trouble.(first := Fine))
    ensures item.active.Some? && item.stopped && trouble.first.Fine? ==>
              && Settle(state, item, trouble.(second := Lost(true))) == Settle(state, item, trouble.(second := Fine))
              && Settle(state, item, trouble.(second := Lost(false))) == State(state.running, state.routes - {item.service})
    ensures item.active.Some? && !item.stopped && !item.cron && trouble.first.Fine? && trouble.second.Fine? ==>
              && Settle(state, item, trouble.(third := Lost(true))) == Settle(state, item, trouble.(third := Fine))
              && Settle(state, item, trouble.(third := Lost(false))) == State(state.running + {item.active.value}, state.routes)
  {
  }

  /******* The work list of the store *******/

  function WorkOf(db: Db, enabled: nat -> bool): seq<Item> {
    seq(|db.services|, (s: nat) requires s < |db.services| =>
      var service := db.services[s];
      Item(s, service.activeId, service.desired.Stopped?, service.workload.Cron?,
           !IsData(service.kind) && service.workload.Web? && enabled(s)))
  }

  /** The list that a reachable store hands out never mentions a service or a release twice. */
  lemma WorkIsDistinct(db: Db, enabled: nat -> bool)
    requires Inv(db)
    ensures Distinct(WorkOf(db, enabled))
  {
    hide RefsOk, QueueOk, CancelOk, BoundOk, ActionsOk, KeysOk, CronOk, LeasesOk;
    var items := WorkOf(db, enabled);
    forall i, j | 0 <= i < j < |items| ensures items[i].active.None? || items[i].active != items[j].active {
      assert items[i].active == db.services[i].activeId && items[j].active == db.services[j].activeId;
    }
  }

  /** Whatever state crashed, lost or given-up attempts left behind, a pass in which the calls for
      one service succeed brings its active release back: the container runs if it should, a
      stopped one does not, and the route leads to it exactly if the service is public. */
  lemma PassRepairs(db: Db, enabled: nat -> bool, state: State, troubles: seq<Trouble>, s: nat)
    requires Inv(db) && s < |db.services| == |troubles|
    requires Settled(WorkOf(db, enabled)[s], troubles[s])
    ensures var service, after := db.services[s], Pass(state, WorkOf(db, enabled), troubles, |troubles|);
            && (Released(service) && !service.workload.Cron? ==>
                  && service.activeId.value in after.running
                  && HasRoute(after, s, if !IsData(service.kind) && service.workload.Web? && enabled(s) then service.activeId else None))
            && (service.activeId.Some? && service.desired.Stopped? ==>
                  service.activeId.value !in after.running && HasRoute(after, s, None))
            && (service.activeId.None? ==> HasRoute(after, s, None))
  {
    hide Inv, Pass, Settled;
    WorkIsDistinct(db, enabled);
    PassConverges(state, WorkOf(db, enabled), troubles, s);
  }

  /** The last report of a stop, start or restart reaches the containers with the next pass that
      succeeds for the service. */
  lemma ActionReachesRuntime(
    db: Db, a: nat, token: nat, enabled: nat -> bool, state: State, troubles: seq<Trouble>)
    requires Inv(db) && a < |db.actions| && Pending(db.actions[a].status)
    requires ReportAction(db, a, token, true, db.clock).reply.Ok?
    requires |db.services| == |troubles| && db.actions[a].service < |db.services|
    requires Settled(WorkOf(ReportAction(db, a, token, true, db.clock).db, enabled)[db.actions[a].service],
                     troubles[db.actions[a].service])
    ensures var action, after := db.actions[a], ReportAction(db, a, token, true, db.clock).db;
            var service, reached := db.services[action.service], Pass(state, WorkOf(after, enabled), troubles, |troubles|);
            && service.activeId.Some?
            && (action.kind.Stop? ==> service.activeId.value !in reached.running && HasRoute(reached, action.service, None))
            && ((action.kind.Start? || action.kind.Restart?) && !service.workload.Cron? ==>
                  service.activeId.value in reached.running)
  {
    hide Inv, Pass, Settled, HasRoute;
    var after := ReportAction(db, a, token, true, db.clock).db;
    ReportActionInv(db, a, token, true);
    PendingActionHasRelease(db, a);
    PassRepairs(after, enabled, state, troubles, db.actions[a].service);
  }

  lemma PendingActionHasRelease(db: Db, a: nat)
    requires Inv(db) && a < |db.actions| && Pending(db.actions[a].status)
    ensures db.actions[a].service < |db.services| && db.services[db.actions[a].service].activeId.Some?
  {
    hide RefsOk, QueueOk, CancelOk, BoundOk, ActiveOk, KeysOk, CronOk, LeasesOk;
  }
}
