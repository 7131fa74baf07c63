/** Child budget leases (harness/session/capture.go): one token serializes the children of a budgeted session. */
module Leases {
  import opened Messages
  import opened Usages
  import opened Journals
  import opened SessionStates
  import opened Sessions

  /** The capacity-one token channel of one session. */
  class BudgetGate {
    const session: Session
    var token: bool
    /** Acquirers that took the token and have not answered yet. */
    ghost var acquiring: nat
    /** Serialized leases that are still open. */
    ghost var leases: set<Lease>

    constructor (owner: Session)
      ensures session == owner && Valid() && token && fresh(this)
    {
      session, token, acquiring, leases := owner, true, 0, {};
    }

    /** The free token, the acquirer holding it and the open lease add up to one, always. */
    ghost predicate Valid()
      reads this
    {
      (if token then 1 else 0) + acquiring + |leases| == 1
    }

    /** The first section: a lease outright without a ceiling, otherwise permission to wait for the token. */
    method Begin() returns (error: Option<SessionError>, lease: Lease?)
      requires Valid()
      ensures session.state == Faulted ==> error == Some(SessionFaulted)
      ensures session.state != Faulted && session.state != Running ==> error == Some(NotRunning)
      ensures error.None? ==> (lease != null <==> session.budget.None?)
      ensures error.Some? ==> lease == null
      ensures lease != null ==> fresh(lease) && lease.gate == this && !lease.serialized && lease.Open()
    {
      lease := null;
      if session.state == Faulted {
        return Some(SessionFaulted), null;
      }
      if session.state != Running {
        return Some(NotRunning), null;
      }
      if session.budget.None? {
        lease := new Lease(this, None, false);
      }
      return None, lease;
    }

    /** Receiving from the channel. */
    method Take()
      requires Valid() && token
      modifies this
      ensures Valid() && !token && acquiring == old(acquiring) + 1 && leases == old(leases)
    {
      token := false;
      acquiring := acquiring + 1;
    }

    /** The second section, with the token in hand: a lease over the remaining limits, or the token back. */
    method Answer() returns (error: Option<SessionError>, lease: Lease?)
      requires Valid() && acquiring > 0
      modifies this
      ensures Valid() && acquiring == old(acquiring) - 1
      ensures error.Some? <==> lease == null
      ensures error.Some? ==> token && leases == old(leases)
      ensures lease != null ==>
        && fresh(lease) && lease.gate == this && lease.serialized && lease.Open() && leases == old(leases) + {lease}
        && session.state == Running && MakesUp(session.budget, session.usage, lease.limits)
      // A running session refuses a lease exactly when some dimension of its budget is spent.
      ensures error == Some(BudgetExhausted) <==> session.state == Running && OverBudget(session.budget, session.usage)
    {
      hide OverBudget, MakesUp, RunLimits;
      LimitsExact(session.budget, session.usage);
      lease := null;
      acquiring := acquiring - 1;
      if session.state == Faulted {
        token := true;
        return Some(SessionFaulted), null;
      }
      if session.state != Running {
        token := true;
        return Some(NotRunning), null;
      }
      var limits := RunLimits(session.budget, session.usage);
      if limits.None? {
        token := true;
        return Some(BudgetExhausted), null;
      }
      lease := new Lease(this, limits.value, true);
      leases := leases + {lease};
      return None, lease;
    }
  }

  class Lease {
    const gate: BudgetGate
    const limits: Option<Limits>
    const serialized: bool
    var committed: bool
    var closed: bool

    constructor (owner: BudgetGate, bound: Option<Limits>, exclusive: bool)
      ensures gate == owner && limits == bound && serialized == exclusive && !committed && !closed
    {
      gate, limits, serialized, committed, closed := owner, bound, exclusive, false, false;
    }

    predicate Open()
      reads this
    {
      !closed
    }

    /** One charge per lease; the token stays where it is on every path. */
    method Commit(charge: Usage) returns (error: Option<SessionError>)
      requires gate.session.Valid()
      modifies this, gate.session, gate.session.journal
      ensures gate.session.Valid() && closed == old(closed)
      ensures old(closed) || old(committed) || !AtMost(ZeroCounters, charge.counters) ==>
        error == Some(LeaseMisuse) && unchanged(this) && unchanged(gate.session) && unchanged(gate.session.journal)
      ensures error != Some(LeaseMisuse) ==> committed
      ensures error.None? || error == Some(BudgetExhausted) ==> gate.session.usage == AddUsage(old(gate.session.usage), charge)
    {
      if closed || committed || !AtMost(ZeroCounters, charge.counters) {
        return Some(LeaseMisuse);
      }
      committed := true;
      error := gate.session.CommitCharge(charge);
    }

    /** Closing is idempotent, and only a serialized lease's first close returns the token: the send never blocks. */
    method Close()
      requires gate.Valid() && (serialized && !closed ==> this in gate.leases)
      modifies this, gate
      ensures gate.Valid() && closed && committed == old(committed)
      ensures old(closed) || !serialized ==> gate.token == old(gate.token) && gate.leases == old(gate.leases)
      ensures !old(closed) && serialized ==> !old(gate.token) && gate.token && gate.leases == old(gate.leases) - {this}
      ensures gate.acquiring == old(gate.acquiring)
    {
      if closed {
        return;
      }
      closed := true;
      if serialized {
        OneHolder();
        gate.token := true;
        gate.leases := gate.leases - {this};
      }
    }

    lemma OneHolder()
      requires gate.Valid() && this in gate.leases
      ensures gate.leases == {this} && !gate.token && gate.acquiring == 0
    {
      assert |gate.leases - {this}| == |gate.leases| - 1;
      assert gate.leases == {this} + (gate.leases - {this});
    }
  }
}
