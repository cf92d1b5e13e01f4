/** The runs of the driver, seen from its outgoing table: what holds over every run of that table holds on the
    runtime (crates/swbus-actor/src/driver.rs). */
module DriverRuns {
  import opened Messages
  import opened OutgoingTable
  import opened OutgoingRuns
  import D = Driver

  /** What a driver step does to the outgoing table. */
  function Events<N>(step: D.DriverStep<N>): seq<OutEvent> {
    match step
    case Handle(s, now, _) => [DrawId] + Queued(s.mails, now) + [if s.ok then Flush(now) else Discard]
    case Undecodable => []
    case Answer(id, code, source) => [Respond(id, code, source)]
    case Manage => [DrawId]
    case Resend(now, gone, due) => [Ticked(now, gone, due)]
  }

  function Queued(mails: seq<D.Mail>, now: nat): (evs: seq<OutEvent>)
    ensures |evs| == |mails|
    ensures forall i :: 0 <= i < |mails| ==> evs[i] == Queue(mails[i].dest, mails[i].key, mails[i].data, now)
  {
    seq(|mails|, i requires 0 <= i < |mails| => Queue(mails[i].dest, mails[i].key, mails[i].data, now))
  }

  function EventsOf<N>(steps: seq<D.DriverStep<N>>): seq<OutEvent>
    decreases |steps|
  {
    if steps == [] then [] else Events(steps[0]) + EventsOf(steps[1..])
  }

  ghost predicate Leads(o: Out, evs: seq<OutEvent>, o': Out) {
    Consistent(o) && IsRun(o, evs) && After(o, evs) == o'
  }

  lemma LeadsFirst(o: Out, evs: seq<OutEvent>, o': Out)
    requires evs != []
    ensures Leads(o, evs, o') <==>
            Consistent(o) && Possible(o, evs[0]) && Leads(Next(o, evs[0]), evs[1..], o')
  {
  }

  lemma {:induction false} LeadsJoin(o: Out, evs: seq<OutEvent>, o1: Out, more: seq<OutEvent>, o2: Out)
    requires Leads(o, evs, o1) && Leads(o1, more, o2)
    ensures Leads(o, evs + more, o2)
    decreases |evs|
  {
    if evs == [] {
      assert [] + more == more;
    } else {
      LeadsFirst(o, evs, o1);
      LeadsJoin(Next(o, evs[0]), evs[1..], o1, more, o2);
      assert (evs + more)[1..] == evs[1..] + more;
      LeadsFirst(o, evs + more, o2);
    }
  }

  lemma LeadsOne(o: Out, ev: OutEvent)
    requires Consistent(o) && Possible(o, ev)
    ensures Leads(o, [ev], Next(o, ev))
  {
    assert [ev][1..] == [];
  }

  lemma {:induction false} MailsLead(o: Out, mails: seq<D.Mail>, now: nat)
    requires Consistent(o)
    ensures Leads(o, Queued(mails, now), D.SendAll(o, mails, now))
    decreases |mails|
  {
    if mails != [] {
      var m := mails[0];
      var ev := Queue(m.dest, m.key, m.data, now);
      LeadsOne(o, ev);
      MailsLead(Next(o, ev), mails[1..], now);
      LeadsJoin(o, [ev], Next(o, ev), Queued(mails[1..], now), D.SendAll(o, mails, now));
      assert Queued(mails, now) == [ev] + Queued(mails[1..], now);
    }
  }

  lemma CallbackLeads<N>(a: D.Actor<N>, s: D.Script<N>, now: nat, order: seq<string>)
    requires D.AtRest(a) && D.Feasible(a, D.Handle(s, now, order))
    ensures Leads(a.out, Events(D.Handle(s, now, order)), D.Step(a, D.Handle(s, now, order)).out)
  {
    var o1 := Next(a.out, DrawId);
    LeadsOne(a.out, DrawId);
    MailsLead(o1, s.mails, now);
    var o2 := D.SendAll(o1, s.mails, now);
    LeadsJoin(a.out, [DrawId], o1, Queued(s.mails, now), o2);
    var last := if s.ok then Flush(now) else Discard;
    LeadsOne(o2, last);
    LeadsJoin(a.out, [DrawId] + Queued(s.mails, now), o2, [last], Next(o2, last));
  }

  /** A driver step does to the outgoing table what its events do, in that order; only a request touches the internal
      table. */
  lemma StepLeads<N>(a: D.Actor<N>, step: D.DriverStep<N>)
    requires D.AtRest(a) && D.Feasible(a, step)
    ensures Leads(a.out, Events(step), D.Step(a, step).out)
    ensures !step.Handle? ==> D.Step(a, step).tables == a.tables
  {
    match step
    case Handle(s, now, order) => CallbackLeads(a, s, now, order);
    case Undecodable =>
    case Answer(id, code, source) => LeadsOne(a.out, Respond(id, code, source));
    case Manage => LeadsOne(a.out, DrawId);
    case Resend(now, gone, due) => LeadsOne(a.out, Ticked(now, gone, due));
  }

  /** So every run of the driver is a run of the outgoing table. */
  lemma {:induction false} DriverRunLeads<N>(a: D.Actor<N>, steps: seq<D.DriverStep<N>>)
    requires D.AtRest(a) && D.IsRun(a, steps)
    ensures Leads(a.out, EventsOf(steps), D.After(a, steps).out)
    decreases |steps|
  {
    if steps != [] {
      var a1 := D.Step(a, steps[0]);
      StepLeads(a, steps[0]);
      DriverRunLeads(a1, steps[1..]);
      LeadsJoin(a.out, Events(steps[0]), a1.out, EventsOf(steps[1..]), D.After(a, steps).out);
    }
  }

  /** On the runtime: whatever callbacks do, every message that one of them sent is still waiting for an Ok response,
      got one, or expired. */
  lemma NothingForgottenOnDriver<N>(a: D.Actor<N>, steps: seq<D.DriverStep<N>>)
    requires D.AtRest(a) && Accounted(a.out) && D.IsRun(a, steps)
    ensures Accounted(D.After(a, steps).out)
  {
    DriverRunLeads(a, steps);
    NothingForgotten(a.out, EventsOf(steps));
  }
}
