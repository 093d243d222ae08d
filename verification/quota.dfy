/** The daily AI quota: one counter per Moscow day, shared by any number of concurrent chat runs.

    A step first reserves an estimate and later replaces it by what it really used. `Ticket`s
    record the admitted steps; the theorems tie the counters to them for every interleaving. */
module Quota {
  import opened Wrappers

  datatype Usage = Usage(requests: int, tokens: int)

  datatype Limits = Limits(requests: int, tokens: int)

  datatype Settlement = Settlement(day: int, actual: int)

  /** An admitted step: the day its reservation went to and, once settled, the day the
      correction went to and the tokens really used. An abandoned step is never settled. */
  datatype Ticket = Ticket(day: int, reserved: nat, settled: Option<Settlement>)

  datatype State = State(counters: map<int, Usage>, tickets: seq<Ticket>)

  const START := State(map[], [])

  function UsageOf(s: State, day: int): Usage {
    if day in s.counters then s.counters[day] else Usage(0, 0)
  }

  /** The condition of the reserve script. */
  predicate Admits(s: State, day: int, estimate: nat, limits: Limits) {
    UsageOf(s, day).requests < limits.requests && UsageOf(s, day).tokens + estimate <= limits.tokens
  }

  function Reserve(s: State, day: int, estimate: nat, limits: Limits): State {
    if Admits(s, day, estimate, limits) then
      var u := UsageOf(s, day);
      State(s.counters[day := Usage(u.requests + 1, u.tokens + estimate)],
            s.tickets + [Ticket(day, estimate, None)])
    else s
  }

  /** The correction, on whatever day it happens, if there is anything to correct; a ticket is
      settled once. */
  function Settle(s: State, ticket: nat, day: int, actual: int): State {
    if ticket < |s.tickets| && s.tickets[ticket].settled.None? then
      var t, u := s.tickets[ticket], UsageOf(s, day);
      State(if actual == t.reserved then s.counters
            else s.counters[day := u.(tokens := u.tokens + actual - t.reserved)],
            s.tickets[ticket := t.(settled := Some(Settlement(day, actual)))])
    else s
  }

  datatype Event =
    | Reserving(day: int, estimate: nat)
    | Settling(ticket: nat, day: int, actual: int)

  /** Any interleaving of any number of runs. */
  function After(events: seq<Event>, limits: Limits): State {
    if events == [] then START
    else
      var s := After(events[..|events| - 1], limits);
      match events[|events| - 1]
      case Reserving(day, estimate) => Reserve(s, day, estimate, limits)
      case Settling(ticket, day, actual) => Settle(s, ticket, day, actual)
  }

  // ---------------------------------------------------------------- sums over tickets

  function Sum(tickets: seq<Ticket>, f: Ticket -> int): int {
    if tickets == [] then 0 else Sum(tickets[..|tickets| - 1], f) + f(tickets[|tickets| - 1])
  }

  /** What a step counts for in the end: its real use, or the whole reservation. */
  function Charge(t: Ticket): int {
    if t.settled.Some? then t.settled.value.actual else t.reserved
  }

  /** What a step left on the counter of one day. */
  function ChargeOn(day: int): Ticket -> int {
    (t: Ticket) =>
      (if t.day == day then t.reserved else 0) +
      (if t.settled.Some? && t.settled.value.day == day then t.settled.value.actual - t.reserved else 0)
  }

  function AdmittedOn(day: int): Ticket -> int {
    (t: Ticket) => if t.day == day then 1 else 0
  }

  function OverrunOn(day: int): Ticket -> int {
    (t: Ticket) =>
      if t.settled.Some? && t.settled.value.day == day && t.settled.value.actual > t.reserved
      then t.settled.value.actual - t.reserved else 0
  }

  /** What a step overran its reservation by is what it left on the day beyond what it reserved there,
      if its correction went up. */
  lemma OverrunIsExcess(t: Ticket, day: int)
    ensures
      var excess := ChargeOn(day)(t) - if t.day == day then t.reserved else 0;
      OverrunOn(day)(t) == if excess > 0 then excess else 0
  {
  }

  lemma {:induction false} SumUpdate(tickets: seq<Ticket>, i: nat, t: Ticket, f: Ticket -> int)
    requires i < |tickets|
    ensures Sum(tickets[i := t], f) == Sum(tickets, f) - f(tickets[i]) + f(t)
  {
    var n := |tickets| - 1;
    if i < n {
      SumUpdate(tickets[..n], i, t, f);
      assert tickets[i := t][..n] == tickets[..n][i := t];
    } else {
      assert tickets[i := t][..n] == tickets[..n];
    }
  }

  lemma SumAppend(tickets: seq<Ticket>, t: Ticket, f: Ticket -> int)
    ensures Sum(tickets + [t], f) == Sum(tickets, f) + f(t)
  {
    assert (tickets + [t])[..|tickets|] == tickets;
  }

  // ---------------------------------------------------------------- the ledger

  /** Each day's counter is exactly the sum of what the steps left on it, requests are the
      admitted steps, and both limits hold up to what steps overran their reservation by. */
  ghost predicate Balanced(s: State, limits: Limits, day: int) {
    && UsageOf(s, day).tokens == Sum(s.tickets, ChargeOn(day))
    && UsageOf(s, day).requests == Sum(s.tickets, AdmittedOn(day))
    && UsageOf(s, day).requests <= limits.requests
    && UsageOf(s, day).tokens <= limits.tokens + Sum(s.tickets, OverrunOn(day))
  }

  lemma ReserveBalanced(s: State, day: int, estimate: nat, limits: Limits, d: int)
    requires Balanced(s, limits, d) && Sum(s.tickets, OverrunOn(d)) >= 0
    ensures Balanced(Reserve(s, day, estimate, limits), limits, d)
    ensures Sum(Reserve(s, day, estimate, limits).tickets, OverrunOn(d)) >= 0
  {
    var t := Ticket(day, estimate, None);
    SumAppend(s.tickets, t, ChargeOn(d));
    SumAppend(s.tickets, t, AdmittedOn(d));
    SumAppend(s.tickets, t, OverrunOn(d));
  }

  lemma SettleBalanced(s: State, ticket: nat, day: int, actual: int, limits: Limits, d: int)
    requires Balanced(s, limits, d) && Sum(s.tickets, OverrunOn(d)) >= 0
    ensures Balanced(Settle(s, ticket, day, actual), limits, d)
    ensures Sum(Settle(s, ticket, day, actual).tickets, OverrunOn(d)) >= 0
  {
    if ticket < |s.tickets| && s.tickets[ticket].settled.None? {
      var t := s.tickets[ticket].(settled := Some(Settlement(day, actual)));
      SumUpdate(s.tickets, ticket, t, ChargeOn(d));
      SumUpdate(s.tickets, ticket, t, AdmittedOn(d));
      SumUpdate(s.tickets, ticket, t, OverrunOn(d));
    }
  }

  /** The ledger balances on every day, after every interleaving. */
  lemma {:induction false} AlwaysBalanced(events: seq<Event>, limits: Limits, day: int)
    requires limits.requests >= 0 && limits.tokens >= 0
    ensures Balanced(After(events, limits), limits, day)
    ensures Sum(After(events, limits).tickets, OverrunOn(day)) >= 0
  {
    if events != [] {
      var init := events[..|events| - 1];
      AlwaysBalanced(init, limits, day);
      match events[|events| - 1]
      case Reserving(d, estimate) => ReserveBalanced(After(init, limits), d, estimate, limits, day);
      case Settling(ticket, d, actual) => SettleBalanced(After(init, limits), ticket, d, actual, limits, day);
    }
  }

  /** After any interleaving a step is admitted, and so gets a ticket, exactly if one more request
      and its estimate fit beside what the steps so far left on that day. */
  lemma AdmittedIffItFits(events: seq<Event>, day: int, estimate: nat, limits: Limits)
    requires limits.requests >= 0 && limits.tokens >= 0
    ensures
      var s := After(events, limits);
      var next := After(events + [Reserving(day, estimate)], limits);
      if Sum(s.tickets, AdmittedOn(day)) + 1 <= limits.requests
         && Sum(s.tickets, ChargeOn(day)) + estimate <= limits.tokens
      then next.tickets == s.tickets + [Ticket(day, estimate, None)]
      else next == s
  {
    AlwaysBalanced(events, limits, day);
    assert (events + [Reserving(day, estimate)])[..|events|] == events;
  }

  function SumDays(days: seq<int>, f: int -> int): int {
    if days == [] then 0 else SumDays(days[..|days| - 1], f) + f(days[|days| - 1])
  }

  ghost predicate EachOnce(days: seq<int>) {
    forall i, j :: 0 <= i < j < |days| ==> days[i] != days[j]
  }

  /** What one step left on each day. */
  function DailyCharge(t: Ticket): int -> int {
    d => ChargeOn(d)(t)
  }

  lemma {:induction false} SumDaysOfTicket(days: seq<int>, t: Ticket)
    requires EachOnce(days)
    ensures SumDays(days, DailyCharge(t)) ==
              (if t.day in days then t.reserved else 0) +
              (if t.settled.Some? && t.settled.value.day in days then t.settled.value.actual - t.reserved else 0)
  {
    if days != [] {
      var init, last := days[..|days| - 1], days[|days| - 1];
      SumDaysOfTicket(init, t);
      assert days == init + [last];
      assert last !in init;
      assert DailyCharge(t)(last) == ChargeOn(last)(t);
    }
  }

  lemma {:induction false} SumDaysAdds(days: seq<int>, f: int -> int, g: int -> int, h: int -> int)
    requires forall d :: h(d) == f(d) + g(d)
    ensures SumDays(days, h) == SumDays(days, f) + SumDays(days, g)
  {
    if days != [] {
      SumDaysAdds(days[..|days| - 1], f, g, h);
    }
  }

  lemma {:induction false} SumDaysZero(days: seq<int>, f: int -> int)
    requires forall d :: f(d) == 0
    ensures SumDays(days, f) == 0
  {
    if days != [] {
      SumDaysZero(days[..|days| - 1], f);
    }
  }

  lemma {:induction false} SumDaysOfTickets(days: seq<int>, tickets: seq<Ticket>)
    requires EachOnce(days)
    requires forall t :: t in tickets ==> t.day in days && (t.settled.Some? ==> t.settled.value.day in days)
    ensures SumDays(days, d => Sum(tickets, ChargeOn(d))) == Sum(tickets, Charge)
  {
    if tickets == [] {
      SumDaysZero(days, d => Sum(tickets, ChargeOn(d)));
    } else {
      var init, last := tickets[..|tickets| - 1], tickets[|tickets| - 1];
      SumDaysOfTickets(days, init);
      SumDaysOfTicket(days, last);
      SumDaysAdds(days, d => Sum(init, ChargeOn(d)), DailyCharge(last), d => Sum(tickets, ChargeOn(d)));
      assert last in tickets;
    }
  }

  lemma {:induction false} SumDaysSame(days: seq<int>, f: int -> int, g: int -> int)
    requires forall d :: f(d) == g(d)
    ensures SumDays(days, f) == SumDays(days, g)
  {
    if days != [] {
      SumDaysSame(days[..|days| - 1], f, g);
    }
  }

  /** Conservation: over all days together the counters hold exactly the real use of the settled
      steps and the reservations of the others, even where a step began on one day and was
      settled on the next. */
  lemma TokensConserved(events: seq<Event>, limits: Limits, days: seq<int>)
    requires limits.requests >= 0 && limits.tokens >= 0
    requires EachOnce(days)
    requires forall t :: t in After(events, limits).tickets ==>
               t.day in days && (t.settled.Some? ==> t.settled.value.day in days)
    ensures SumDays(days, d => UsageOf(After(events, limits), d).tokens) == Sum(After(events, limits).tickets, Charge)
  {
    var s := After(events, limits);
    forall d ensures UsageOf(s, d).tokens == Sum(s.tickets, ChargeOn(d)) {
      AlwaysBalanced(events, limits, d);
    }
    SumDaysOfTickets(days, s.tickets);
    SumDaysSame(days, d => UsageOf(s, d).tokens, d => Sum(s.tickets, ChargeOn(d)));
  }

  /** A step that is never settled stays charged in full: giving up refunds nothing. */
  lemma {:induction false} AbandonedStaysCharged(tickets: seq<Ticket>)
    requires forall t :: t in tickets ==> t.settled.None?
    ensures Sum(tickets, Charge) == Sum(tickets, (t: Ticket) => t.reserved)
  {
    if tickets != [] {
      AbandonedStaysCharged(tickets[..|tickets| - 1]);
      assert tickets[|tickets| - 1] in tickets;
    }
  }

  // ---------------------------------------------------------------- the client

  /** A Redis command: answered, executed without an answer, or not executed. */
  datatype Reply = Answered | AnswerLost | NotExecuted

  datatype QuotaError = QuotaExceeded | Unavailable

  class Redis {
    var s: State

    constructor ()
      ensures s == START
    {
      s := START;
    }

    /** The reserve script, atomic. */
    method EvalReserve(day: int, limits: Limits, estimate: nat) returns (allowed: bool, usage: Usage)
      modifies this
      ensures s == Reserve(old(s), day, estimate, limits)
      ensures allowed <==> && UsageOf(old(s), day).requests + 1 <= limits.requests
                           && UsageOf(old(s), day).tokens + estimate <= limits.tokens
      ensures usage == UsageOf(s, day)
      ensures allowed ==> usage.requests == UsageOf(old(s), day).requests + 1
                          && usage.tokens == UsageOf(old(s), day).tokens + estimate
    {
      var u := UsageOf(s, day);
      if u.requests >= limits.requests || u.tokens + estimate > limits.tokens {
        return false, u;
      }
      usage := Usage(u.requests + 1, u.tokens + estimate);
      s := State(s.counters[day := usage], s.tickets + [Ticket(day, estimate, None)]);
      allowed := true;
    }

    /** HINCRBY of the tokens; the ticket it corrects is noted in the history. */
    method HIncrByTokens(day: int, delta: int, ticket: nat) returns (tokens: int)
      requires ticket < |s.tickets| && s.tickets[ticket].settled.None? && delta != 0
      modifies this
      ensures s == Settle(old(s), ticket, day, old(s).tickets[ticket].reserved + delta)
      ensures tokens == UsageOf(s, day).tokens
    {
      var t, u := s.tickets[ticket], UsageOf(s, day);
      tokens := u.tokens + delta;
      s := State(s.counters[day := u.(tokens := tokens)],
                 s.tickets[ticket := t.(settled := Some(Settlement(day, t.reserved + delta)))]);
    }
  }

  class DailyQuota {
    const limits: Limits
    const client: Redis
    var lastUsage: Option<Usage>

    constructor (limits: Limits, client: Redis)
      ensures lastUsage == None && this.limits == limits && this.client == client
    {
      this.limits, this.client, lastUsage := limits, client, None;
    }

    /** The cheap check before a stream is opened; it reserves nothing. */
    method EnsureAvailable(day: int, reply: Reply) returns (r: Result<(), QuotaError>)
      modifies this
      ensures reply != Answered ==> r == Failure(Unavailable) && lastUsage == old(lastUsage)
      ensures reply == Answered ==> lastUsage == Some(UsageOf(client.s, day))
      ensures reply == Answered ==>
                (r.Success? <==>
                  && UsageOf(client.s, day).requests < limits.requests
                  && UsageOf(client.s, day).tokens < limits.tokens)
      ensures r.Success? ==> exists estimate: nat :: Admits(client.s, day, estimate, limits)
    {
      if reply != Answered {
        return Failure(Unavailable);
      }
      var usage := UsageOf(client.s, day);
      lastUsage := Some(usage);
      if usage.requests < limits.requests && usage.tokens < limits.tokens {
        assert Admits(client.s, day, 0, limits);
        return Success(());
      }
      r := Failure(QuotaExceeded);
    }

    /** Reserves the step. `ticket` is its number in the history, if it was admitted. */
    method ReserveStep(day: int, estimate: nat, reply: Reply) returns (r: Result<nat, QuotaError>, ticket: nat)
      modifies this, client
      ensures client.s == if reply == NotExecuted then old(client.s) else Reserve(old(client.s), day, estimate, limits)
      ensures r.Success? <==> && reply == Answered
                              && UsageOf(old(client.s), day).requests + 1 <= limits.requests
                              && UsageOf(old(client.s), day).tokens + estimate <= limits.tokens
      ensures r == Failure(Unavailable) <==> reply != Answered
      ensures r.Success? ==> r.value == estimate
      ensures lastUsage == if reply == Answered then Some(UsageOf(client.s, day)) else old(lastUsage)
      ensures r.Success? ==> ticket < |client.s.tickets| && client.s.tickets[ticket] == Ticket(day, estimate, None)
      ensures r == Failure(QuotaExceeded) ==> client.s == old(client.s)
    {
      ticket := |client.s.tickets|;
      if reply == NotExecuted {
        return Failure(Unavailable), ticket;
      }
      var allowed, usage := client.EvalReserve(day, limits, estimate);
      if reply == AnswerLost {
        return Failure(Unavailable), ticket;
      }
      lastUsage := Some(usage);
      if !allowed {
        return Failure(QuotaExceeded), ticket;
      }
      r := Success(estimate);
    }

    /** Replaces the reservation by the real use; `day` is the day it is then. */
    method SettleStep(reserved: int, actual: int, day: int, reply: Reply, ticket: nat)
      returns (r: Result<(), QuotaError>)
      requires ticket < |client.s.tickets| && client.s.tickets[ticket].settled.None?
      requires client.s.tickets[ticket].reserved == reserved && lastUsage.Some?
      modifies this, client
      ensures actual == reserved ==> r.Success? && client.s == old(client.s)
      ensures actual != reserved ==> (r.Success? <==> reply == Answered)
      ensures actual != reserved ==>
                client.s == if reply == NotExecuted then old(client.s) else Settle(old(client.s), ticket, day, actual)
      ensures lastUsage == if r.Success? && actual != reserved
                           then Some(Usage(old(lastUsage).value.requests, UsageOf(client.s, day).tokens))
                           else old(lastUsage)
      ensures r.Success? ==>
                Sum(client.s.tickets, Charge) == Sum(old(client.s).tickets, Charge) + actual - reserved
    {
      var delta := actual - reserved;
      if delta == 0 || lastUsage == None {
        return Success(());
      }
      if reply == NotExecuted {
        return Failure(Unavailable);
      }
      var tokens := client.HIncrByTokens(day, delta, ticket);
      SumUpdate(old(client.s).tickets, ticket, client.s.tickets[ticket], Charge);
      if reply == AnswerLost {
        return Failure(Unavailable);
      }
      lastUsage := Some(Usage(lastUsage.value.requests, tokens));
      r := Success(());
    }
  }
}
