/** Relaying a party's contracts block by block from one current host into one joining host,
 *  and adding hosts to a party. */
module AcsRelay {
  import opened Prelude
  import opened WalletNetwork
  import opened WalletFlow

  // ---------------------------------------------------------------- the shape of a relay

  /** Which party is relayed, from which hosts, into which one. */
  datatype Route = Route(partyId: string, baseSerial: nat, sources: seq<Host>, joiner: Host)

  /** A block that was exported, forwarded and taken. */
  datatype Round = Round(block: Block, outcome: ImportProgress)

  /** A status other than `Hosted`, and the clock reading that followed it. */
  datatype Poll = Poll(status: Reply, clock: Reply)

  datatype Ending =
    | NoSource                                        // every source refused block 1
    | ExportBroke(reply: Reply)                       // the source failed at a later block
    | ImportBroke(block: Block, reply: Reply)         // the joiner failed at a block
    | Complete(polls: seq<Poll>, observed: bool)      // the joiner reported completion
    | Unfinished                                      // still relaying

  /** `refusals` are the answers of the sources tried before the one that served block 1. */
  datatype Relay = Relay(refusals: seq<Reply>, rounds: seq<Round>, ending: Ending)

  function ExportCall(route: Route, source: Host, number: nat): Call {
    ExportBlock(source, route.partyId, route.joiner.participant, route.baseSerial, number)
  }

  /** The wallet forwards what it got, the block's own number included. */
  function ImportCall(route: Route, b: Block): Call {
    ImportBlock(route.joiner,
                ImportRequest(route.partyId, route.baseSerial, b.number, b.chunk,
                              b.end, b.totalLen, b.sha256, b.packageIds))
  }

  function RefusalEvents(route: Route, replies: seq<Reply>): seq<Event>
    requires |replies| <= |route.sources|
  {
    seq(|replies|, i requires 0 <= i < |replies| => Event(ExportCall(route, route.sources[i], 1), replies[i]))
  }

  /** Block after block from one source: the wallet asks for 1, 2, 3 and so on. */
  function RoundEvents(route: Route, source: Host, rounds: seq<Round>): seq<Event> {
    if rounds == [] then []
    else
      var last := rounds[|rounds| - 1];
      RoundEvents(route, source, rounds[..|rounds| - 1])
      + [Event(ExportCall(route, source, |rounds|), Exported(last.block)),
         Event(ImportCall(route, last.block), Imported(last.outcome))]
  }

  function EndingEvents(route: Route, source: Host, rounds: seq<Round>, ending: Ending): seq<Event> {
    match ending
    case ExportBroke(reply) => [Event(ExportCall(route, source, |rounds| + 1), reply)]
    case ImportBroke(b, reply) =>
      [Event(ExportCall(route, source, |rounds| + 1), Exported(b)), Event(ImportCall(route, b), reply)]
    case Complete(polls, observed) => PollEvents(route, polls, observed)
    case _ => []
  }

  function PollEvents(route: Route, polls: seq<Poll>, observed: bool): seq<Event>
    decreases |polls|, observed
  {
    if observed then PollEvents(route, polls, false) + [Event(AskStatus(route.joiner, route.partyId), Status(Hosted))]
    else if polls == [] then []
    else
      var last := polls[|polls| - 1];
      PollEvents(route, polls[..|polls| - 1], false)
      + [Event(AskStatus(route.joiner, route.partyId), last.status), Event(ReadClock, last.clock)]
  }

  predicate HasSource(route: Route, relay: Relay) {
    |relay.refusals| < |route.sources|
  }

  function SourceOf(route: Route, relay: Relay): Host
    requires HasSource(route, relay)
  {
    route.sources[|relay.refusals|]
  }

  function RelayEvents(route: Route, relay: Relay): seq<Event>
    requires |relay.refusals| <= |route.sources|
  {
    RefusalEvents(route, relay.refusals)
    + if HasSource(route, relay)
      then RoundEvents(route, SourceOf(route, relay), relay.rounds)
           + EndingEvents(route, SourceOf(route, relay), relay.rounds, relay.ending)
      else []
  }

  const MARKER_CLEAR_TIMEOUT := 120_000
  const MARKER_CLEAR_POLL := 3_000

  function Milliseconds(clock: Reply): nat {
    if clock.Elapsed? then clock.milliseconds else 0
  }

  /** The time from the start of the wait to the last clock reading and through one more sleep. */
  function TimeAfter(polls: seq<Poll>): nat {
    if polls == [] then 0
    else TimeAfter(polls[..|polls| - 1]) + Milliseconds(polls[|polls| - 1].clock) + MARKER_CLEAR_POLL
  }

  /** The wait goes on until `Hosted` is seen or another sleep would reach the deadline, and
   *  not a poll longer. */
  predicate WaitsFor(polls: seq<Poll>, observed: bool) {
    && (forall i | 0 <= i < |polls| :: polls[i].status != Status(Hosted))
    && (forall m | 0 <= m < |polls| :: TimeAfter(polls[..m]) < MARKER_CLEAR_TIMEOUT)
    && (observed <==> TimeAfter(polls) < MARKER_CLEAR_TIMEOUT)
  }

  /** The joiner reported completion with the marker gone, or was later seen hosting. */
  predicate Succeeded(relay: Relay) {
    && relay.ending.Complete? && relay.rounds != []
    && (relay.rounds[|relay.rounds| - 1].outcome.markerCleared || relay.ending.observed)
  }

  /** What every relay looks like, whatever the hosts answer. */
  predicate WellFormed(route: Route, relay: Relay) {
    && |relay.refusals| <= |route.sources|
    && (forall r | r in relay.refusals :: !r.Exported?)
    && (relay.ending.NoSource? <==> !HasSource(route, relay))
    && (relay.ending.NoSource? ==> relay.rounds == [])
    && (forall i | 0 <= i < |relay.rounds| ::
          relay.rounds[i].outcome.complete <==> relay.ending.Complete? && i == |relay.rounds| - 1)
    && (match relay.ending
        case ExportBroke(reply) => relay.rounds != [] && !reply.Exported?
        case ImportBroke(_, reply) => !reply.Imported?
        case Unfinished => relay.rounds != []
        case Complete(polls, observed) =>
          && relay.rounds != []
          && (if relay.rounds[|relay.rounds| - 1].outcome.markerCleared
              then polls == [] && !observed
              else WaitsFor(polls, observed))
        case NoSource => true)
  }

  /** The first block that was fetched. */
  function FirstBlock(relay: Relay): Option<Block> {
    if relay.rounds != [] then Some(relay.rounds[0].block)
    else if relay.ending.ImportBroke? then Some(relay.ending.block)
    else None
  }

  predicate LacksPreflight(relay: Relay) {
    FirstBlock(relay).Some? && !FirstBlock(relay).value.packagePreflight
  }

  // ---------------------------------------------------------------- the relay itself

  lemma PollAppended(route: Route, polls: seq<Poll>, poll: Poll)
    ensures PollEvents(route, polls + [poll], false)
         == PollEvents(route, polls, false)
            + [Event(AskStatus(route.joiner, route.partyId), poll.status)] + [Event(ReadClock, poll.clock)]
    ensures TimeAfter(polls + [poll]) == TimeAfter(polls) + Milliseconds(poll.clock) + MARKER_CLEAR_POLL
  {
    assert (polls + [poll])[..|polls|] == polls;
  }

  lemma HostedPolled(route: Route, polls: seq<Poll>)
    ensures PollEvents(route, polls, true)
         == PollEvents(route, polls, false) + [Event(AskStatus(route.joiner, route.partyId), Status(Hosted))]
  {
  }

  /** Poll one joiner until it stops carrying the onboarding marker: at most forty times. A
   *  clock reading answers how long ago the last one was; a sleep takes at least its length. */
  method WaitForMarkerClear<E>(net: Network<E>, w: World<E>, route: Route)
    returns (after: World<E>, polls: seq<Poll>, observed: bool)
    requires Valid(net, w)
    ensures Valid(net, after) && after.start == w.start && after.log == w.log + PollEvents(route, polls, observed)
    ensures WaitsFor(polls, observed) && |polls| <= 40
  {
    hide Valid, PollEvents, TimeAfter;
    after, polls := w, [];
    NoPolls(route);
    var now := 0;
    while true
      invariant Valid(net, after) && after.start == w.start && after.log == w.log + PollEvents(route, polls, false)
      invariant MARKER_CLEAR_POLL * |polls| <= now == TimeAfter(polls) < MARKER_CLEAR_TIMEOUT
      invariant forall i | 0 <= i < |polls| :: polls[i].status != Status(Hosted)
      invariant forall m | 0 <= m <= |polls| :: TimeAfter(polls[..m]) < MARKER_CLEAR_TIMEOUT
      decreases MARKER_CLEAR_TIMEOUT - now
    {
      var status, clock;
      after, status := Ask(net, after, AskStatus(route.joiner, route.partyId));
      if status == Status(Hosted) {
        HostedPolled(route, polls);
        assert polls[..|polls|] == polls;
        return after, polls, true;
      }
      after, clock := Ask(net, after, ReadClock);
      ghost var before := polls;
      polls := polls + [Poll(status, clock)];
      PollAppended(route, before, Poll(status, clock));
      assert forall m | 0 <= m <= |before| :: polls[..m] == before[..m];
      assert polls[..|polls|] == polls;
      now := now + Milliseconds(clock);
      if now + MARKER_CLEAR_POLL >= MARKER_CLEAR_TIMEOUT {
        return after, polls, false;
      }
      now := now + MARKER_CLEAR_POLL;
    }
  }

  /** Block 1, from the first source that serves it. */
  method FindSource<E>(net: Network<E>, w: World<E>, route: Route)
    returns (after: World<E>, refusals: seq<Reply>, first: Option<Block>)
    requires Valid(net, w)
    ensures Valid(net, after) && after.start == w.start
    ensures |refusals| <= |route.sources| && forall r | r in refusals :: !r.Exported?
    ensures first.None? <==> |refusals| == |route.sources|
    ensures after.log == w.log + RefusalEvents(route, refusals)
                         + if first.Some?
                           then [Event(ExportCall(route, route.sources[|refusals|], 1), Exported(first.value))] else []
  {
    hide Valid;
    after, refusals := w, [];
    for i := 0 to |route.sources|
      invariant Valid(net, after) && after.start == w.start && |refusals| == i
      invariant forall r | r in refusals :: !r.Exported?
      invariant after.log == w.log + RefusalEvents(route, refusals)
    {
      var reply;
      after, reply := Ask(net, after, ExportCall(route, route.sources[i], 1));
      if reply.Exported? {
        return after, refusals, Some(reply.block);
      }
      refusals := refusals + [reply];
      assert RefusalEvents(route, refusals)
          == RefusalEvents(route, refusals[..i]) + [Event(ExportCall(route, route.sources[i], 1), reply)];
      assert refusals[..i] + [reply] == refusals;
    }
    return after, refusals, None;
  }

  lemma RoundAppended(route: Route, source: Host, rounds: seq<Round>, round: Round)
    ensures RoundEvents(route, source, rounds + [round])
         == RoundEvents(route, source, rounds)
            + [Event(ExportCall(route, source, |rounds| + 1), Exported(round.block))]
            + [Event(ImportCall(route, round.block), Imported(round.outcome))]
  {
    assert (rounds + [round])[..|rounds|] == rounds;
  }

  /** The log of a relay that is under way: `pending` is a block that was fetched and not forwarded yet. */
  predicate UnderWay(log: seq<Event>, base: seq<Event>, route: Route, relay: Relay, pending: Option<Block>) {
    && HasSource(route, relay)
    && log == base + RefusalEvents(route, relay.refusals) + RoundEvents(route, SourceOf(route, relay), relay.rounds)
              + if pending.Some? then [FetchEvent(route, relay, Exported(pending.value))] else []
  }

  /** The next block was asked for, with this answer. */
  function FetchEvent(route: Route, relay: Relay, reply: Reply): Event
    requires HasSource(route, relay)
  {
    Event(ExportCall(route, SourceOf(route, relay), |relay.rounds| + 1), reply)
  }

  lemma Begun(log: seq<Event>, base: seq<Event>, route: Route, relay: Relay, first: Block)
    requires HasSource(route, relay) && relay.rounds == []
    requires log == base + RefusalEvents(route, relay.refusals)
                    + [Event(ExportCall(route, SourceOf(route, relay), 1), Exported(first))]
    ensures UnderWay(log, base, route, relay, Some(first))
  {
  }

  lemma Forwarded(log: seq<Event>, base: seq<Event>, route: Route, relay: Relay, block: Block, outcome: ImportProgress)
    requires UnderWay(log, base, route, relay, Some(block))
    ensures UnderWay(log + [Event(ImportCall(route, block), Imported(outcome))], base, route,
                     relay.(rounds := relay.rounds + [Round(block, outcome)]), None)
  {
    hide RefusalEvents, RoundEvents;
    RoundAppended(route, SourceOf(route, relay), relay.rounds, Round(block, outcome));
  }

  lemma Fetched(log: seq<Event>, base: seq<Event>, route: Route, relay: Relay, block: Block)
    requires UnderWay(log, base, route, relay, None)
    ensures UnderWay(log + [FetchEvent(route, relay, Exported(block))], base, route, relay, Some(block))
  {
    hide RefusalEvents, RoundEvents;
  }

  /** What the ending adds to the log of a relay that was under way. */
  function LastEvents(route: Route, relay: Relay): seq<Event>
    requires HasSource(route, relay)
  {
    match relay.ending
    case ExportBroke(reply) => [FetchEvent(route, relay, reply)]
    case ImportBroke(block, reply) => [Event(ImportCall(route, block), reply)]
    case Complete(polls, observed) => PollEvents(route, polls, observed)
    case _ => []
  }

  lemma RelayLogged(log: seq<Event>, base: seq<Event>, route: Route, relay: Relay, pending: Option<Block>)
    requires UnderWay(log, base, route, relay.(ending := Unfinished), pending)
    requires pending.Some? <==> relay.ending.ImportBroke?
    requires pending.Some? ==> pending.value == relay.ending.block
    ensures base + RelayEvents(route, relay) == log + LastEvents(route, relay)
  {
    hide RefusalEvents, RoundEvents, PollEvents;
  }

  /** A relay that a failed call ended, or that goes on. */
  lemma BrokenOff(route: Route, relay: Relay)
    requires HasSource(route, relay) && forall r | r in relay.refusals :: !r.Exported?
    requires forall i | 0 <= i < |relay.rounds| :: !relay.rounds[i].outcome.complete
    requires
      match relay.ending
      case ExportBroke(reply) => relay.rounds != [] && !reply.Exported?
      case ImportBroke(_, reply) => !reply.Imported?
      case Unfinished => relay.rounds != []
      case _ => false
    ensures WellFormed(route, relay) && !Succeeded(relay)
  {
  }

  /** A relay that the joiner reported complete with its last round. */
  lemma Completed(route: Route, relay: Relay)
    requires HasSource(route, relay) && forall r | r in relay.refusals :: !r.Exported?
    requires relay.rounds != [] && relay.ending.Complete?
    requires forall i | 0 <= i < |relay.rounds| :: relay.rounds[i].outcome.complete <==> i == |relay.rounds| - 1
    requires
      if relay.rounds[|relay.rounds| - 1].outcome.markerCleared then relay.ending == Complete([], false)
      else WaitsFor(relay.ending.polls, relay.ending.observed)
    ensures WellFormed(route, relay)
    ensures Succeeded(relay) <==> relay.rounds[|relay.rounds| - 1].outcome.markerCleared || relay.ending.observed
  {
    hide WaitsFor;
  }

  /** Carry block after block from one source into the joiner. `budget` cuts off the view of a
   *  run that relays on; it is no part of the wallet. */
  method RelayAcs<E>(net: Network<E>, w: World<E>, route: Route, budget: nat)
    returns (after: World<E>, relay: Relay, failed: bool, lacking: bool)
    requires Valid(net, w)
    ensures WellFormed(route, relay) && |relay.refusals| <= |route.sources|
    ensures Valid(net, after) && after.start == w.start && after.log == w.log + RelayEvents(route, relay)
    ensures relay.ending.Unfinished? ==> |relay.rounds| >= budget
    ensures !relay.ending.Unfinished? ==> (failed <==> !Succeeded(relay))
    ensures lacking <==> LacksPreflight(relay)
  {
    hide Valid, RelayEvents, RoundEvents, PollEvents, RefusalEvents, WaitsFor, WellFormed, Succeeded, UnderWay;
    failed, lacking := false, false;
    var refusals, first;
    after, refusals, first := FindSource(net, w, route);
    if first.None? {
      failed := true;
      relay := Relay(refusals, [], NoSource);
      NoSourceLogged(route, relay);
      NeverBegun(route, relay);
      return;
    }
    var block, rounds := first.value, [];
    var soFar := Relay(refusals, rounds, Unfinished);
    Begun(after.log, w.log, route, soFar, block);
    while true
      invariant soFar == Relay(refusals, rounds, Unfinished)
      invariant Valid(net, after) && after.start == w.start && UnderWay(after.log, w.log, route, soFar, Some(block))
      invariant forall i | 0 <= i < |rounds| :: !rounds[i].outcome.complete
      invariant !failed && lacking == (|rounds| > 0 && !rounds[0].block.packagePreflight)
      decreases budget - |rounds|
    {
      if |rounds| == 0 && !block.packagePreflight {
        lacking := true;
      }
      var reply;
      ghost var log := after.log;
      after, reply := Ask(net, after, ImportCall(route, block));
      if !reply.Imported? {
        failed, relay := true, soFar.(ending := ImportBroke(block, reply));
        BrokenOff(route, relay);
        RelayLogged(log, w.log, route, relay, Some(block));
        return;
      }
      Forwarded(log, w.log, route, soFar, block, reply.outcome);
      rounds := rounds + [Round(block, reply.outcome)];
      soFar := Relay(refusals, rounds, Unfinished);
      if reply.outcome.complete {
        log := after.log;
        var polls, observed := [], false;
        if !reply.outcome.markerCleared {
          after, polls, observed := WaitForMarkerClear(net, after, route);
          if !observed {
            failed := true;
          }
        } else {
          NoPolls(route);
        }
        relay := soFar.(ending := Complete(polls, observed));
        Completed(route, relay);
        RelayLogged(log, w.log, route, relay, None);
        return;
      }
      if |rounds| >= budget {
        relay := soFar;
        BrokenOff(route, relay);
        RelayLogged(after.log, w.log, route, relay, None);
        return;
      }
      log := after.log;
      after, reply := Ask(net, after, ExportCall(route, route.sources[|refusals|], |rounds| + 1));
      if !reply.Exported? {
        failed, relay := true, soFar.(ending := ExportBroke(reply));
        BrokenOff(route, relay);
        RelayLogged(log, w.log, route, relay, None);
        return;
      }
      block := reply.block;
      Fetched(log, w.log, route, soFar, block);
    }
  }

  lemma NeverBegun(route: Route, relay: Relay)
    requires |relay.refusals| == |route.sources| && forall r | r in relay.refusals :: !r.Exported?
    requires relay.rounds == [] && relay.ending.NoSource?
    ensures WellFormed(route, relay) && !Succeeded(relay)
  {
  }

  lemma NoSourceLogged(route: Route, relay: Relay)
    requires |relay.refusals| == |route.sources|
    ensures RelayEvents(route, relay) == RefusalEvents(route, relay.refusals)
  {
  }

  lemma NoPolls(route: Route)
    ensures PollEvents(route, [], false) == [] && TimeAfter([]) == 0
  {
  }

  lemma {:induction false} InstantPolls(polls: seq<Poll>)
    requires forall i | 0 <= i < |polls| :: Milliseconds(polls[i].clock) == 0
    ensures TimeAfter(polls) == 3_000 * |polls|
  {
    if polls != [] {
      InstantPolls(polls[..|polls| - 1]);
    }
  }

  /** A joiner that answers at once and never shows the party as hosted is polled every three seconds for two
   *  minutes: forty times. */
  lemma PolledForTwoMinutes(polls: seq<Poll>)
    requires WaitsFor(polls, false) && forall i | 0 <= i < |polls| :: Milliseconds(polls[i].clock) == 0
    ensures |polls| == 40
  {
    hide TimeAfter, Milliseconds;
    InstantPolls(polls);
    if |polls| > 40 {
      InstantPolls(polls[..40]);
    }
  }

  // ---------------------------------------------------------------- adding hosts

  /** Which hosts join which party, next to which hosts that hold it already. */
  datatype Replication = Replication(current: seq<Host>, joining: seq<Host>, partyId: string, baseSerial: nat)

  function AddHostsJob(rep: Replication, permission: HostPermission): Job {
    var joining := seq(|rep.joining|, i requires 0 <= i < |rep.joining| => rep.joining[i].participant);
    var request := AddingHosts(rep.partyId, permission, joining, rep.baseSerial);
    Job(AddHostsFlow, rep.current + rep.joining, seq(|rep.current + rep.joining|, _ => request), rep.joining,
        ExistingParty(rep.partyId, rep.baseSerial), None)
  }

  /** The whole log of the agreement on new hosts: the current hosts are asked first, then the joining ones,
   *  all the same; the joining hosts alone get the bundle. */
  predicate AddHostsLog(log: seq<Event>, rep: Replication, key: Signer, permission: HostPermission) {
    && FlowLog(false, log, rep.current + rep.joining, rep.joining, key, ExistingParty(rep.partyId, rep.baseSerial))
    && forall x | 0 <= x < |log| && log[x].call.Prepare? ::
         && log[x].call.request.AddingHosts?
         && var request := log[x].call.request;
            && request.partyId == rep.partyId && request.permission == permission
            && request.baseSerial == rep.baseSerial && |request.newHosts| == |rep.joining|
            && forall i | 0 <= i < |rep.joining| :: request.newHosts[i] == rep.joining[i].participant
  }

  lemma AddHostsLogged(rep: Replication, key: Signer, permission: HostPermission, t: Trace)
    requires Disciplined(AddHostsJob(rep, permission), key, t)
    ensures AddHostsLog(Events(t), rep, key, permission)
    ensures Submittable(AddHostsJob(rep, permission), t) ==>
              FlowDone(false, Events(t), rep.current + rep.joining, rep.joining)
    ensures EveryHostAgreed(false, Events(t), rep.current + rep.joining) ==> Signable(AddHostsJob(rep, permission), t)
  {
    hide Disciplined, FlowLog, FlowDone, Submittable, Signable, EveryHostAgreed;
    var job := AddHostsJob(rep, permission);
    DisciplinedLog(job, key, t);
    forall x | 0 <= x < |Events(t)| && Events(t)[x].call.Prepare?
      ensures x < |job.requests| && Events(t)[x].call.request == job.requests[x]
    {
      AskedAsPlanned(job, key, t, x);
    }
    if EveryHostAgreed(false, Events(t), rep.current + rep.joining) {
      AgreementIsEnough(job, key, t);
    }
  }

  datatype AddedHosts = AddedHosts(
    partyId: string, serial: nat, hosts: seq<HostReport>, replicated: bool, withoutPackagePreflight: seq<string>)

  function RouteTo(rep: Replication, joiner: Host): Route {
    Route(rep.partyId, rep.baseSerial, rep.current, joiner)
  }

  /** One relay for each joiner whose own submit succeeded, and none for the others. */
  predicate RelaysFor(rep: Replication, submits: seq<Event>, relays: seq<Option<Relay>>) {
    && |relays| <= |rep.joining| == |submits|
    && (forall i | 0 <= i < |relays| :: relays[i].Some? <==> submits[i].reply.Executed?)
    && (forall i | 0 <= i < |relays| && relays[i].Some? ::
          WellFormed(RouteTo(rep, rep.joining[i]), relays[i].value) && |relays[i].value.refusals| <= |rep.current|)
  }

  function RelayLog(rep: Replication, relays: seq<Option<Relay>>): seq<Event>
    requires |relays| <= |rep.joining|
    requires forall i | 0 <= i < |relays| && relays[i].Some? :: |relays[i].value.refusals| <= |rep.current|
  {
    if relays == [] then []
    else
      var n := |relays| - 1;
      RelayLog(rep, relays[..n])
      + if relays[n].Some? then RelayEvents(RouteTo(rep, rep.joining[n]), relays[n].value) else []
  }

  /** The joiners whose first block came without a package preflight, in order. */
  function WithoutPreflight(joining: seq<Host>, relays: seq<Option<Relay>>): seq<string>
    requires |relays| <= |joining|
  {
    if relays == [] then []
    else
      var n := |relays| - 1;
      WithoutPreflight(joining, relays[..n])
      + if relays[n].Some? && LacksPreflight(relays[n].value) then [joining[n].baseUrl] else []
  }

  predicate Lacks(relays: seq<Option<Relay>>, i: int)
    requires 0 <= i < |relays|
  {
    relays[i].Some? && LacksPreflight(relays[i].value)
  }

  /** The list names exactly the joiners whose first block lacked the preflight, each once and in order, also
   *  when several joiners have one base URL. */
  lemma {:induction false} PreflightListedOnce(joining: seq<Host>, relays: seq<Option<Relay>>) returns (order: seq<nat>)
    requires |relays| <= |joining|
    ensures forall k | 0 <= k < |order| :: order[k] < |relays| && Lacks(relays, order[k])
    ensures forall k, m | 0 <= k < m < |order| :: order[k] < order[m]
    ensures forall i | 0 <= i < |relays| && Lacks(relays, i) :: i in order
    ensures |WithoutPreflight(joining, relays)| == |order|
    ensures forall k | 0 <= k < |order| :: WithoutPreflight(joining, relays)[k] == joining[order[k]].baseUrl
    decreases |relays|
  {
    order := [];
    if relays != [] {
      hide LacksPreflight;
      var n := |relays| - 1;
      order := PreflightListedOnce(joining, relays[..n]);
      assert forall i | 0 <= i < n :: Lacks(relays[..n], i) == Lacks(relays, i);
      if Lacks(relays, n) {
        order := order + [n];
      }
    }
  }

  predicate AllSucceeded(relays: seq<Option<Relay>>) {
    forall i | 0 <= i < |relays| :: relays[i].Some? && Succeeded(relays[i].value)
  }

  lemma RelaysExtended(rep: Replication, relays: seq<Option<Relay>>, relay: Option<Relay>)
    requires |relays| < |rep.joining|
    requires forall i | 0 <= i < |relays| && relays[i].Some? :: |relays[i].value.refusals| <= |rep.current|
    requires relay.Some? ==> |relay.value.refusals| <= |rep.current|
    ensures RelayLog(rep, relays + [relay])
         == RelayLog(rep, relays)
            + if relay.Some? then RelayEvents(RouteTo(rep, rep.joining[|relays|]), relay.value) else []
    ensures WithoutPreflight(rep.joining, relays + [relay])
         == WithoutPreflight(rep.joining, relays)
            + if relay.Some? && LacksPreflight(relay.value) then [rep.joining[|relays|].baseUrl] else []
    ensures AllSucceeded(relays + [relay]) <==> AllSucceeded(relays) && relay.Some? && Succeeded(relay.value)
  {
    var longer := relays + [relay];
    assert longer[..|relays|] == relays && longer[|relays|] == relay;
    assert forall i | 0 <= i < |relays| :: longer[i] == relays[i];
  }

  method RelayToAll<E>(net: Network<E>, w: World<E>, rep: Replication, submits: seq<Event>,
                       reports: seq<HostReport>, budget: nat)
    returns (after: World<E>, relays: seq<Option<Relay>>, replicated: bool, without: seq<string>, cutOff: bool)
    requires Valid(net, w) && |submits| == |reports| == |rep.joining|
    requires forall i | 0 <= i < |reports| :: reports[i] == ReportOf(rep.joining[i], submits[i].reply)
    ensures Valid(net, after) && after.start == w.start
    ensures RelaysFor(rep, submits, relays) && after.log == w.log + RelayLog(rep, relays)
    ensures replicated <==> AllSucceeded(relays)
    ensures without == WithoutPreflight(rep.joining, relays)
    ensures if cutOff then CutOffAt(relays, budget) else |relays| == |rep.joining|
  {
    hide Valid, WellFormed, LacksPreflight, RelayEvents, RelayLog, WithoutPreflight, Succeeded, AllSucceeded;
    after, relays, replicated, without, cutOff := w, [], true, [], false;
    NoRelays(rep);
    for i := 0 to |rep.joining|
      invariant Valid(net, after) && after.start == w.start
      invariant |relays| == i && RelaysFor(rep, submits, relays)
      invariant after.log == w.log + RelayLog(rep, relays)
      invariant replicated <==> AllSucceeded(relays)
      invariant without == WithoutPreflight(rep.joining, relays)
    {
      if reports[i].status.None? {
        RelaysExtended(rep, relays, None);
        relays, replicated := relays + [None], false;
        continue;
      }
      var relay, failed, lacking;
      after, relay, failed, lacking := RelayAcs(net, after, RouteTo(rep, rep.joining[i]), budget);
      RelaysExtended(rep, relays, Some(relay));
      relays := relays + [Some(relay)];
      if lacking {
        without := without + [rep.joining[i].baseUrl];
      }
      if relay.ending.Unfinished? {
        UnfinishedIsNoSuccess(relay);
        replicated, cutOff := false, true;
        return;
      }
      if failed {
        replicated := false;
      }
    }
  }

  lemma UnfinishedIsNoSuccess(relay: Relay)
    requires relay.ending.Unfinished?
    ensures !Succeeded(relay)
  {
  }

  lemma NoRelays(rep: Replication)
    ensures RelayLog(rep, []) == [] && WithoutPreflight(rep.joining, []) == [] && AllSucceeded([])
  {
  }

  /** The run was looked at while the last of these relays still went on. */
  predicate CutOffAt(relays: seq<Option<Relay>>, budget: nat) {
    && relays != [] && relays[|relays| - 1].Some?
    && relays[|relays| - 1].value.ending.Unfinished? && |relays[|relays| - 1].value.rounds| >= budget
  }

  /** Add hosts to a party and replicate its contracts onto them. */
  method AddHosts<E>(net: Network<E>, w: World<E>, rep: Replication, key: Signer,
                     permission: HostPermission, budget: nat)
    returns (after: World<E>, t: Trace, relays: seq<Option<Relay>>, r: Result<AddedHosts, Error>)
    requires Valid(net, w)
    ensures Valid(net, after) && after.start == w.start
    ensures rep.joining == [] ==> r == Failure(NoJoiningHost) && t == NOTHING && after == w
    ensures rep.joining != [] && rep.current == [] ==> r == Failure(NoCurrentHost) && t == NOTHING && after == w
    ensures rep.joining != [] && rep.current != [] ==> Disciplined(AddHostsJob(rep, permission), key, t)
    ensures rep.joining != [] && rep.current != [] && r.Failure? && r.error != CutOff ==>
      Explains(AddHostsJob(rep, permission), key, t, r.error) && relays == [] && after.log == w.log + Events(t)
    ensures AddHostsLog(Events(t), rep, key, permission)
    ensures rep.joining != [] && rep.current != [] && r.Failure? && r.error != CutOff
            && EveryHostAgreed(false, Events(t), rep.current + rep.joining) ==>
      r.error == Signing || r.error == Base64(rep.current[0])
    ensures r == Failure(CutOff) ==> CutOffAt(relays, budget)
    ensures r.Success? || r.error == CutOff ==> FlowDone(false, Events(t), rep.current + rep.joining, rep.joining)
    ensures r.Success? || r.error == CutOff ==>
      && Submittable(AddHostsJob(rep, permission), t)
      && RelaysFor(rep, t.submits, relays)
      && after.log == w.log + Events(t) + RelayLog(rep, relays)
      && FollowsPlan(RelayLog(rep, relays), rep)
    ensures r.Success? ==>
      && |relays| == |rep.joining| == |t.submits| == |r.value.hosts|
      && r.value.partyId == rep.partyId
      && r.value.serial == Answers(t.prepares)[0].serial
      && (forall i | 0 <= i < |rep.joining| :: r.value.hosts[i] == ReportOf(rep.joining[i], t.submits[i].reply))
      && (r.value.replicated <==> AllSucceeded(relays))
      && r.value.withoutPackagePreflight == WithoutPreflight(rep.joining, relays)
  {
    hide Valid, Disciplined, Explains, RelayLog, WithoutPreflight, AllSucceeded, RelaysFor, FlowDone;
    if rep.joining == [] {
      return w, NOTHING, [], Failure(NoJoiningHost);
    }
    if rep.current == [] {
      return w, NOTHING, [], Failure(NoCurrentHost);
    }
    var reports;
    after, t, reports := PrepareSignSubmit(net, w, key, AddHostsJob(rep, permission));
    AddHostsLogged(rep, key, permission, t);
    if reports.Failure? {
      if Signable(AddHostsJob(rep, permission), t) {
        SignableEndsInSigning(AddHostsJob(rep, permission), key, t, reports.error);
      }
      return after, t, [], Failure(reports.error);
    }
    var replicated, without, cutOff;
    after, relays, replicated, without, cutOff := RelayToAll(net, after, rep, t.submits, reports.value, budget);
    RelaysFollowPlan(rep, t.submits, relays);
    if cutOff {
      return after, t, relays, Failure(CutOff);
    }
    r := Success(AddedHosts(rep.partyId, Answers(t.prepares)[0].serial, reports.value, replicated, without));
  }

  // ---------------------------------------------------------------- what is forwarded

  /** An import passes on the answer to the export right before it, unchanged and to the host that the export
   *  was for. */
  predicate Forwards(before: Event, host: Host, request: ImportRequest) {
    && before.call.ExportBlock? && before.reply.Exported? && before.call.target == host.participant
    && request.partyId == before.call.partyId && request.baseSerial == before.call.baseSerial
    && request.number == before.reply.block.number && request.chunk == before.reply.block.chunk
    && request.end == before.reply.block.end && request.totalLen == before.reply.block.totalLen
    && request.sha256 == before.reply.block.sha256 && request.packageIds == before.reply.block.packageIds
  }

  /** How many blocks were forwarded. */
  function Imports(log: seq<Event>): nat {
    if log == [] then 0
    else Imports(log[..|log| - 1]) + if log[|log| - 1].call.ImportBlock? then 1 else 0
  }

  /** What may come next in a relay's log. An export asks one of the sources for the block after the last one
   *  that was forwarded. */
  predicate RouteEvent(log: seq<Event>, call: Call, route: Route) {
    match call
    case ExportBlock(source, partyId, target, serial, number) =>
      && source in route.sources && partyId == route.partyId && target == route.joiner.participant
      && serial == route.baseSerial && number == Imports(log) + 1
    case ImportBlock(host, request) => log != [] && host == route.joiner && Forwards(log[|log| - 1], host, request)
    case AskStatus(host, partyId) => host == route.joiner && partyId == route.partyId
    case ReadClock => true
    case _ => false
  }

  predicate FollowsRoute(log: seq<Event>, route: Route) {
    forall x | 0 <= x < |log| :: RouteEvent(log[..x], log[x].call, route)
  }

  lemma RouteGoesOn(log: seq<Event>, event: Event, route: Route)
    requires FollowsRoute(log, route) && RouteEvent(log, event.call, route)
    ensures FollowsRoute(log + [event], route)
    ensures Imports(log + [event]) == Imports(log) + if event.call.ImportBlock? then 1 else 0
  {
    hide RouteEvent;
    var longer := log + [event];
    assert longer[..|log|] == log && forall x | 0 <= x <= |log| :: longer[..x] == log[..x];
  }

  lemma {:induction false} RefusalsFollowRoute(route: Route, replies: seq<Reply>)
    requires |replies| <= |route.sources|
    ensures FollowsRoute(RefusalEvents(route, replies), route) && Imports(RefusalEvents(route, replies)) == 0
  {
    if replies != [] {
      var n := |replies| - 1;
      var before := RefusalEvents(route, replies[..n]);
      var event := Event(ExportCall(route, route.sources[n], 1), replies[n]);
      RefusalsFollowRoute(route, replies[..n]);
      assert RefusalEvents(route, replies) == before + [event];
      RouteGoesOn(before, event, route);
    }
  }

  /** A block that is fetched and forwarded. */
  lemma RoundGoesOn(log: seq<Event>, route: Route, source: Host, block: Block, reply: Reply)
    requires FollowsRoute(log, route) && source in route.sources
    ensures
      var longer := log + [Event(ExportCall(route, source, Imports(log) + 1), Exported(block))]
                    + [Event(ImportCall(route, block), reply)];
      FollowsRoute(longer, route) && Imports(longer) == Imports(log) + 1
  {
    hide FollowsRoute, Imports;
    var fetch := Event(ExportCall(route, source, Imports(log) + 1), Exported(block));
    RouteGoesOn(log, fetch, route);
    RouteGoesOn(log + [fetch], Event(ImportCall(route, block), reply), route);
  }

  lemma {:induction false} RoundsFollowRoute(log: seq<Event>, route: Route, source: Host, rounds: seq<Round>)
    requires FollowsRoute(log, route) && source in route.sources && Imports(log) == 0
    ensures
      var longer := log + RoundEvents(route, source, rounds);
      FollowsRoute(longer, route) && Imports(longer) == |rounds|
  {
    hide FollowsRoute, Imports;
    if rounds == [] {
      assert log + RoundEvents(route, source, []) == log;
    } else {
      var n := |rounds| - 1;
      var before, last := log + RoundEvents(route, source, rounds[..n]), rounds[n];
      RoundsFollowRoute(log, route, source, rounds[..n]);
      RoundGoesOn(before, route, source, last.block, Imported(last.outcome));
      assert log + RoundEvents(route, source, rounds)
          == before + [Event(ExportCall(route, source, n + 1), Exported(last.block))]
             + [Event(ImportCall(route, last.block), Imported(last.outcome))];
    }
  }

  lemma {:induction false} PollsFollowRoute(log: seq<Event>, route: Route, polls: seq<Poll>, observed: bool)
    requires FollowsRoute(log, route)
    ensures FollowsRoute(log + PollEvents(route, polls, observed), route)
    decreases |polls|, observed
  {
    hide FollowsRoute, Imports;
    var ask := AskStatus(route.joiner, route.partyId);
    if observed {
      PollsFollowRoute(log, route, polls, false);
      RouteGoesOn(log + PollEvents(route, polls, false), Event(ask, Status(Hosted)), route);
      assert log + PollEvents(route, polls, true)
          == log + PollEvents(route, polls, false) + [Event(ask, Status(Hosted))];
    } else if polls == [] {
      assert log + PollEvents(route, [], false) == log;
    } else {
      var n := |polls| - 1;
      var before := log + PollEvents(route, polls[..n], false);
      PollsFollowRoute(log, route, polls[..n], false);
      RouteGoesOn(before, Event(ask, polls[n].status), route);
      RouteGoesOn(before + [Event(ask, polls[n].status)], Event(ReadClock, polls[n].clock), route);
      assert log + PollEvents(route, polls, false)
          == before + [Event(ask, polls[n].status)] + [Event(ReadClock, polls[n].clock)];
    }
  }

  /** Whatever the hosts answer: every export asks a source of the route for the next block of the party, for
   *  the joiner; every import passes on to the joiner exactly what the export right before it brought; and only
   *  the joiner is polled. */
  lemma RelayFollowsRoute(route: Route, relay: Relay)
    requires |relay.refusals| <= |route.sources|
    ensures FollowsRoute(RelayEvents(route, relay), route)
  {
    hide FollowsRoute, Imports, RefusalEvents, RoundEvents, PollEvents, ImportCall;
    var refused := RefusalEvents(route, relay.refusals);
    RefusalsFollowRoute(route, relay.refusals);
    if HasSource(route, relay) {
      var source := SourceOf(route, relay);
      var served := refused + RoundEvents(route, source, relay.rounds);
      RoundsFollowRoute(refused, route, source, relay.rounds);
      EndingFollowsRoute(served, route, source, relay);
      assert RelayEvents(route, relay) == served + EndingEvents(route, source, relay.rounds, relay.ending);
    } else {
      assert RelayEvents(route, relay) == refused;
    }
  }

  lemma EndingFollowsRoute(log: seq<Event>, route: Route, source: Host, relay: Relay)
    requires FollowsRoute(log, route) && source in route.sources && Imports(log) == |relay.rounds|
    ensures FollowsRoute(log + EndingEvents(route, source, relay.rounds, relay.ending), route)
  {
    hide FollowsRoute, Imports;
    var number := |relay.rounds| + 1;
    match relay.ending
    case ExportBroke(reply) => RouteGoesOn(log, Event(ExportCall(route, source, number), reply), route);
    case ImportBroke(block, reply) =>
      RoundGoesOn(log, route, source, block, reply);
      var fetch := Event(ExportCall(route, source, number), Exported(block));
      var feed := Event(ImportCall(route, block), reply);
      assert log + [fetch, feed] == log + [fetch] + [feed];
    case Complete(polls, observed) => PollsFollowRoute(log, route, polls, observed);
    case _ => assert log + [] == log;
  }

  /** What may be at position `x` of the relays' log when hosts are added. */
  predicate PlanEvent(log: seq<Event>, x: nat, rep: Replication)
    requires x < |log|
  {
    match log[x].call
    case ExportBlock(source, partyId, target, serial, _) =>
      && source in rep.current && partyId == rep.partyId && serial == rep.baseSerial
      && exists i | 0 <= i < |rep.joining| :: rep.joining[i].participant == target
    case ImportBlock(host, request) => host in rep.joining && x > 0 && Forwards(log[x - 1], host, request)
    case AskStatus(host, partyId) => host in rep.joining && partyId == rep.partyId
    case ReadClock => true
    case _ => false
  }

  /** Exports only of this party, from its current hosts, for joining hosts; and every import passes on to a
   *  joining host exactly what the export right before it brought for that host. */
  predicate FollowsPlan(log: seq<Event>, rep: Replication) {
    forall x | 0 <= x < |log| :: PlanEvent(log, x, rep)
  }

  lemma PlanGoesOn(log: seq<Event>, rep: Replication, i: nat, more: seq<Event>)
    requires FollowsPlan(log, rep) && i < |rep.joining| && FollowsRoute(more, RouteTo(rep, rep.joining[i]))
    ensures FollowsPlan(log + more, rep)
  {
    hide Forwards, Imports;
    var longer, n, route := log + more, |log|, RouteTo(rep, rep.joining[i]);
    forall x | 0 <= x < |longer|
      ensures PlanEvent(longer, x, rep)
    {
      if x < n {
        assert PlanEvent(log, x, rep) && longer[x] == log[x] && (x > 0 ==> longer[x - 1] == log[x - 1]);
      } else {
        assert RouteEvent(more[..x - n], more[x - n].call, route) && longer[x] == more[x - n];
        assert x > n ==> longer[x - 1] == more[..x - n][x - n - 1];
      }
    }
  }

  lemma {:induction false} RelaysFollowPlan(rep: Replication, submits: seq<Event>, relays: seq<Option<Relay>>)
    requires RelaysFor(rep, submits, relays)
    ensures FollowsPlan(RelayLog(rep, relays), rep)
    decreases |relays|
  {
    hide FollowsPlan, RelayEvents, WellFormed;
    if relays == [] {
      NothingToFollow(rep);
    } else {
      var n := |relays| - 1;
      RelaysFollowPlan(rep, submits, relays[..n]);
      if relays[n].Some? {
        RelayFollowsRoute(RouteTo(rep, rep.joining[n]), relays[n].value);
        PlanGoesOn(RelayLog(rep, relays[..n]), rep, n, RelayEvents(RouteTo(rep, rep.joining[n]), relays[n].value));
      } else {
        assert RelayLog(rep, relays) == RelayLog(rep, relays[..n]);
      }
    }
  }

  lemma NothingToFollow(rep: Replication)
    ensures FollowsPlan([], rep)
  {
  }

  // ---------------------------------------------------------------- the order in the log

  lemma {:induction false} RoundTargets(route: Route, source: Host, rounds: seq<Round>)
    ensures forall e | e in RoundEvents(route, source, rounds) && e.call.ExportBlock? ::
              e.call.target == route.joiner.participant
  {
    if rounds != [] {
      RoundTargets(route, source, rounds[..|rounds| - 1]);
    }
  }

  lemma RelayTargets(route: Route, relay: Relay)
    requires |relay.refusals| <= |route.sources|
    ensures forall e | e in RelayEvents(route, relay) && e.call.ExportBlock? ::
              e.call.target == route.joiner.participant
  {
    hide RoundEvents, PollEvents;
    if HasSource(route, relay) {
      RoundTargets(route, SourceOf(route, relay), relay.rounds);
    }
    if relay.ending.Complete? {
      PollsTakeNothing(route, relay.ending.polls, relay.ending.observed);
    }
  }

  lemma {:induction false} ExportIsForJoiner(rep: Replication, relays: seq<Option<Relay>>, x: nat) returns (i: nat)
    requires |relays| <= |rep.joining|
    requires forall i | 0 <= i < |relays| && relays[i].Some? :: |relays[i].value.refusals| <= |rep.current|
    requires x < |RelayLog(rep, relays)| && RelayLog(rep, relays)[x].call.ExportBlock?
    ensures i < |relays| && relays[i].Some?
    ensures RelayLog(rep, relays)[x].call.target == rep.joining[i].participant
    decreases |relays|
  {
    hide RelayEvents;
    var n := |relays| - 1;
    if x < |RelayLog(rep, relays[..n])| {
      i := ExportIsForJoiner(rep, relays[..n], x);
    } else {
      i := n;
      var route := RouteTo(rep, rep.joining[n]);
      RelayTargets(route, relays[n].value);
      assert RelayLog(rep, relays)[x] in RelayEvents(route, relays[n].value);
    }
  }

  lemma FlowExportsNothing(job: Job, key: Signer, t: Trace)
    requires Disciplined(job, key, t)
    ensures forall k | 0 <= k < |Events(t)| :: !Events(t)[k].call.ExportBlock?
  {
  }

  /** In the log of adding hosts, an export for a joiner comes after that joiner's own submit succeeded. */
  lemma ExportAfterSubmit(rep: Replication, permission: HostPermission, key: Signer, t: Trace,
                          relays: seq<Option<Relay>>, x: nat) returns (i: nat, y: nat)
    requires Disciplined(AddHostsJob(rep, permission), key, t) && RelaysFor(rep, t.submits, relays)
    requires
      var log := Events(t) + RelayLog(rep, relays);
      x < |log| && log[x].call.ExportBlock?
    ensures
      var log := Events(t) + RelayLog(rep, relays);
      && i < |rep.joining| && log[x].call.target == rep.joining[i].participant
      && y < x && log[y].call.Execute? && log[y].call.host == rep.joining[i] && log[y].reply.Executed?
  {
    hide RelayLog, WellFormed, Signable, Submittable, PreparesFor, SignsFor;
    FlowExportsNothing(AddHostsJob(rep, permission), key, t);
    var n := |Events(t)|;
    i := ExportIsForJoiner(rep, relays, x - n);
    y := |t.prepares| + |t.signs| + i;
    assert Events(t)[y] == t.submits[i];
  }

  // ---------------------------------------------------------------- end to end

  /** A block as the joining host got it, and what it answered. */
  datatype Import = Import(request: ImportRequest, outcome: ImportProgress)

  /** What a host took in, in the order of the log. */
  function Taken(log: seq<Event>, host: Host): seq<Import> {
    if log == [] then []
    else
      var last := log[|log| - 1];
      Taken(log[..|log| - 1], host)
      + if last.call.ImportBlock? && last.call.host == host && last.reply.Imported?
        then [Import(last.call.block, last.reply.outcome)] else []
  }

  /** A joining host's import: the chunks it has fed to Canton in this session. Block 1 starts
   *  a fresh session; any other block must be the one the open session waits for. */
  datatype Joiner = NoSession | Session(fed: seq<string>)

  predicate Accepts(j: Joiner, request: ImportRequest) {
    request.number == 1 || (j.Session? && request.number == |j.fed| + 1)
  }

  function Feed(j: Joiner, request: ImportRequest): Joiner
    requires Accepts(j, request)
  {
    Session((if request.number == 1 then [] else j.fed) + [request.chunk])
  }

  /** A joiner that keeps its contract took these blocks, starting from whatever session an
   *  earlier attempt had left: it accepts only what it may, and reports completion exactly
   *  at the final block. */
  predicate JoinerConforms(j: Joiner, taken: seq<Import>)
    decreases |taken|, 0
  {
    taken == [] ||
    var n := |taken| - 1;
    && JoinerConforms(j, taken[..n])
    && Accepts(AfterImports(j, taken[..n]), taken[n].request)
    && taken[n].outcome.complete == taken[n].request.end
  }

  function AfterImports(j: Joiner, taken: seq<Import>): Joiner
    requires JoinerConforms(j, taken)
    decreases |taken|, 1
  {
    if taken == [] then j else Feed(AfterImports(j, taken[..|taken| - 1]), taken[|taken| - 1].request)
  }

  /** In this log a source serves a finite export: for each number up to its length it answers with that chunk,
   *  and marks the last as the end. What it would answer beyond the end does not matter. */
  predicate Serves(snapshot: seq<string>, source: Host, log: seq<Event>) {
    && snapshot != []
    && forall e | e in log && e.call.ExportBlock? && e.call.source == source && e.reply.Exported? ::
         1 <= e.call.number <= |snapshot| ==>
           e.reply.block.chunk == snapshot[e.call.number - 1] && (e.reply.block.end <==> e.call.number == |snapshot|)
  }

  /** Each block carries the number that was asked for. */
  predicate EchoesNumbers(log: seq<Event>) {
    forall e | e in log && e.call.ExportBlock? && e.reply.Exported? :: e.reply.block.number == e.call.number
  }

  // ---------------------------------------------------------------- from the log to the rounds and back

  lemma {:induction false} TakenConcat(a: seq<Event>, b: seq<Event>, host: Host)
    ensures Taken(a + b, host) == Taken(a, host) + Taken(b, host)
    decreases |b|
  {
    if b == [] {
      assert a + b == a;
    } else {
      assert (a + b)[..|a + b| - 1] == a + b[..|b| - 1];
      TakenConcat(a, b[..|b| - 1], host);
    }
  }

  lemma {:induction false} NothingTaken(log: seq<Event>, host: Host)
    requires forall e | e in log :: !(e.call.ImportBlock? && e.reply.Imported?)
    ensures Taken(log, host) == []
  {
    if log != [] {
      NothingTaken(log[..|log| - 1], host);
    }
  }

  /** The joiner took exactly the rounds' blocks, as the rounds' sources gave them. */
  predicate TookRounds(taken: seq<Import>, rounds: seq<Round>) {
    && |taken| == |rounds|
    && forall i | 0 <= i < |rounds| ::
         && taken[i].request.number == rounds[i].block.number && taken[i].request.chunk == rounds[i].block.chunk
         && taken[i].request.end == rounds[i].block.end && taken[i].outcome == rounds[i].outcome
  }

  lemma {:induction false} RoundsAreTaken(route: Route, source: Host, rounds: seq<Round>)
    ensures TookRounds(Taken(RoundEvents(route, source, rounds), route.joiner), rounds)
  {
    if rounds != [] {
      var n := |rounds| - 1;
      RoundsAreTaken(route, source, rounds[..n]);
      var fetch := Event(ExportCall(route, source, n + 1), Exported(rounds[n].block));
      var feed := Event(ImportCall(route, rounds[n].block), Imported(rounds[n].outcome));
      var before := RoundEvents(route, source, rounds[..n]);
      assert RoundEvents(route, source, rounds) == before + [fetch] + [feed];
      assert (before + [fetch] + [feed])[..|before| + 1] == before + [fetch];
      assert (before + [fetch])[..|before|] == before;
      assert Taken(before + [fetch], route.joiner) == Taken(before, route.joiner);
    }
  }

  lemma {:induction false} PollsTakeNothing(route: Route, polls: seq<Poll>, observed: bool)
    ensures forall e | e in PollEvents(route, polls, observed) :: !e.call.ImportBlock? && !e.call.ExportBlock?
    decreases |polls|, observed
  {
    if observed {
      PollsTakeNothing(route, polls, false);
    } else if polls != [] {
      PollsTakeNothing(route, polls[..|polls| - 1], false);
    }
  }

  lemma RelayIsTaken(route: Route, relay: Relay)
    requires WellFormed(route, relay) && HasSource(route, relay)
    ensures TookRounds(Taken(RelayEvents(route, relay), route.joiner), relay.rounds)
  {
    hide RoundEvents, PollEvents, TookRounds, Taken, WaitsFor, ImportCall;
    var source := SourceOf(route, relay);
    var refused, served := RefusalEvents(route, relay.refusals), RoundEvents(route, source, relay.rounds);
    var ended := EndingEvents(route, source, relay.rounds, relay.ending);
    NothingTaken(refused, route.joiner);
    RoundsAreTaken(route, source, relay.rounds);
    if relay.ending.Complete? {
      PollsTakeNothing(route, relay.ending.polls, relay.ending.observed);
    }
    NothingTaken(ended, route.joiner);
    TakenConcat(refused, served + ended, route.joiner);
    TakenConcat(served, ended, route.joiner);
    assert RelayEvents(route, relay) == refused + (served + ended);
    assert [] + (Taken(served, route.joiner) + []) == Taken(served, route.joiner);
  }

  lemma {:induction false} RoundsAreLogged(route: Route, source: Host, rounds: seq<Round>, i: nat)
    requires i < |rounds|
    ensures Event(ExportCall(route, source, i + 1), Exported(rounds[i].block)) in RoundEvents(route, source, rounds)
    ensures Event(ImportCall(route, rounds[i].block), Imported(rounds[i].outcome)) in RoundEvents(route, source, rounds)
  {
    if i < |rounds| - 1 {
      RoundsAreLogged(route, source, rounds[..|rounds| - 1], i);
    }
  }

  lemma RoundIsInLog(route: Route, relay: Relay, i: nat)
    requires HasSource(route, relay) && i < |relay.rounds|
    ensures
      var log, round := RelayEvents(route, relay), relay.rounds[i];
      && Event(ExportCall(route, SourceOf(route, relay), i + 1), Exported(round.block)) in log
      && Event(ImportCall(route, round.block), Imported(round.outcome)) in log
  {
    hide RoundEvents, EndingEvents, RefusalEvents;
    RoundsAreLogged(route, SourceOf(route, relay), relay.rounds, i);
  }

  /** What the log says of the source holds of the rounds. */
  lemma RoundsServed(route: Route, relay: Relay, snapshot: seq<string>)
    requires HasSource(route, relay) && Serves(snapshot, SourceOf(route, relay), RelayEvents(route, relay))
    ensures forall i | 0 <= i < |relay.rounds| && i < |snapshot| ::
              relay.rounds[i].block.chunk == snapshot[i] && (relay.rounds[i].block.end <==> i == |snapshot| - 1)
  {
    hide RelayEvents, ImportCall;
    forall i | 0 <= i < |relay.rounds| && i < |snapshot|
      ensures relay.rounds[i].block.chunk == snapshot[i] && (relay.rounds[i].block.end <==> i == |snapshot| - 1)
    {
      RoundIsInLog(route, relay, i);
    }
  }

  predicate InOrder(rounds: seq<Round>) {
    forall i | 0 <= i < |rounds| :: rounds[i].block.number == i + 1
  }

  lemma {:induction false} RoundEventsEcho(route: Route, source: Host, rounds: seq<Round>)
    requires InOrder(rounds)
    ensures EchoesNumbers(RoundEvents(route, source, rounds))
  {
    if rounds != [] {
      RoundEventsEcho(route, source, rounds[..|rounds| - 1]);
    }
  }

  /** For a complete relay the source echoed the numbers exactly when the rounds' blocks are in order. */
  lemma EchoIsInOrder(route: Route, relay: Relay)
    requires WellFormed(route, relay) && relay.ending.Complete?
    ensures EchoesNumbers(RelayEvents(route, relay)) <==> InOrder(relay.rounds)
  {
    hide RoundEvents, PollEvents, ImportCall, WaitsFor;
    var log := RelayEvents(route, relay);
    if EchoesNumbers(log) {
      forall i | 0 <= i < |relay.rounds|
        ensures relay.rounds[i].block.number == i + 1
      {
        RoundIsInLog(route, relay, i);
      }
    }
    if InOrder(relay.rounds) {
      RoundEventsEcho(route, SourceOf(route, relay), relay.rounds);
      PollsTakeNothing(route, relay.ending.polls, relay.ending.observed);
    }
  }

  // ---------------------------------------------------------------- what the joiner ends up with

  lemma {:induction false} OrderedImportsFeedInOrder(j: Joiner, snapshot: seq<string>, taken: seq<Import>)
    requires JoinerConforms(j, taken) && |taken| <= |snapshot|
    requires forall i | 0 <= i < |taken| :: taken[i].request.number == i + 1 && taken[i].request.chunk == snapshot[i]
    ensures taken != [] ==> AfterImports(j, taken) == Session(snapshot[..|taken|])
    decreases |taken|
  {
    if taken != [] {
      var n := |taken| - 1;
      OrderedImportsFeedInOrder(j, snapshot, taken[..n]);
      assert snapshot[..n] + [snapshot[n]] == snapshot[..n + 1];
    }
  }

  /** As many chunks as imports means that no block restarted the session or joined an older one. */
  lemma {:induction false} FullSessionMeansInOrder(j: Joiner, taken: seq<Import>)
    requires JoinerConforms(j, taken) && taken != []
    requires |AfterImports(j, taken).fed| == |taken|
    ensures forall i | 0 <= i < |taken| :: taken[i].request.number == i + 1
    decreases |taken|
  {
    var n := |taken| - 1;
    if n > 0 {
      FullSessionMeansInOrder(j, taken[..n]);
      assert forall i | 0 <= i < n :: taken[i] == taken[..n][i];
    }
  }

  lemma {:induction false} CompletesAtEnd(j: Joiner, taken: seq<Import>, i: nat)
    requires JoinerConforms(j, taken) && i < |taken|
    ensures taken[i].outcome.complete == taken[i].request.end
    decreases |taken|
  {
    if i < |taken| - 1 {
      CompletesAtEnd(j, taken[..|taken| - 1], i);
    }
  }

  /** The relay stops at the end of the export and never goes beyond it. */
  lemma RelayEndsWithinExport(route: Route, relay: Relay, j: Joiner, snapshot: seq<string>)
    requires WellFormed(route, relay) && HasSource(route, relay)
    requires Serves(snapshot, SourceOf(route, relay), RelayEvents(route, relay))
    requires JoinerConforms(j, Taken(RelayEvents(route, relay), route.joiner))
    ensures |Taken(RelayEvents(route, relay), route.joiner)| == |relay.rounds| <= |snapshot|
    ensures relay.ending.Complete? <==> |relay.rounds| == |snapshot|
  {
    hide JoinerConforms, RelayEvents, Taken, Serves;
    var taken, n, last := Taken(RelayEvents(route, relay), route.joiner), |relay.rounds|, |snapshot| - 1;
    SnapshotIsNotEmpty(route, relay, snapshot);
    RelayIsTaken(route, relay);
    RoundsServed(route, relay, snapshot);
    if last < n {
      CompletesAtEnd(j, taken, last);
    }
    if relay.ending.Complete? {
      CompletesAtEnd(j, taken, n - 1);
    }
  }

  lemma SnapshotIsNotEmpty(route: Route, relay: Relay, snapshot: seq<string>)
    requires HasSource(route, relay) && Serves(snapshot, SourceOf(route, relay), RelayEvents(route, relay))
    ensures snapshot != []
  {
  }

  /** The end-to-end property, on the log, for any sources, any joiner session left over and any failures
   *  on the way: when the joiner reports completion, what it was sent and fed on is exactly the one
   *  source's whole export in order if and only if that source echoed the block numbers. The
   *  wallet forwards the numbers without comparing them to the ones it asked for. */
  lemma CompletedRelayDeliversExport(route: Route, relay: Relay, j: Joiner, snapshot: seq<string>)
    requires WellFormed(route, relay) && relay.ending.Complete?
    requires Serves(snapshot, SourceOf(route, relay), RelayEvents(route, relay))
    requires JoinerConforms(j, Taken(RelayEvents(route, relay), route.joiner))
    ensures
      var log := RelayEvents(route, relay);
      && |Taken(log, route.joiner)| == |snapshot|
      && (AfterImports(j, Taken(log, route.joiner)) == Session(snapshot) <==> EchoesNumbers(log))
  {
    hide RelayEvents, Taken, Serves, EchoesNumbers, JoinerConforms, WellFormed;
    CompleteHasSource(route, relay);
    var log := RelayEvents(route, relay);
    var taken := Taken(log, route.joiner);
    RelayEndsWithinExport(route, relay, j, snapshot);
    RelayIsTaken(route, relay);
    RoundsServed(route, relay, snapshot);
    EchoIsInOrder(route, relay);
    if InOrder(relay.rounds) {
      OrderedImportsFeedInOrder(j, snapshot, taken);
      assert snapshot[..|snapshot|] == snapshot;
    }
    if AfterImports(j, taken) == Session(snapshot) {
      FullSessionMeansInOrder(j, taken);
    }
  }

  lemma CompleteHasSource(route: Route, relay: Relay)
    requires WellFormed(route, relay) && relay.ending.Complete?
    ensures HasSource(route, relay) && relay.rounds != []
  {
  }

  // ---------------------------------------------------------------- from the hosts' contracts to the run

  /** What the hosts promise, call by call: a source serves its own export under the numbers that are asked
   *  for, and the joiner reports completion exactly for the block marked as the end. Any call may fail. */
  predicate KeepsContract(exports: Host -> seq<string>, call: Call, reply: Reply) {
    match call
    case ExportBlock(source, _, _, _, number) =>
      reply.Exported? && 1 <= number <= |exports(source)| ==>
        && reply.block.number == number && reply.block.chunk == exports(source)[number - 1]
        && (reply.block.end <==> number == |exports(source)|)
    case ImportBlock(_, block) => reply.Imported? ==> reply.outcome.complete == block.end
    case _ => true
  }

  predicate AllKeepContract(exports: Host -> seq<string>, log: seq<Event>) {
    forall e | e in log :: KeepsContract(exports, e.call, e.reply)
  }

  lemma ContractServes(exports: Host -> seq<string>, source: Host, log: seq<Event>)
    requires AllKeepContract(exports, log) && exports(source) != []
    ensures Serves(exports(source), source, log)
  {
  }

  lemma {:induction false} TakenKeepsContract(exports: Host -> seq<string>, log: seq<Event>, host: Host)
    requires AllKeepContract(exports, log)
    ensures forall k | 0 <= k < |Taken(log, host)| ::
              Taken(log, host)[k].outcome.complete == Taken(log, host)[k].request.end
  {
    if log != [] {
      TakenKeepsContract(exports, log[..|log| - 1], host);
      assert log[|log| - 1] in log;
    }
  }

  /** A joiner finds nothing to object to in blocks that are numbered in order. */
  lemma {:induction false} NumberedImportsAreAccepted(j: Joiner, taken: seq<Import>)
    requires forall i | 0 <= i < |taken| ::
               taken[i].request.number == i + 1 && taken[i].outcome.complete == taken[i].request.end
    ensures JoinerConforms(j, taken)
    ensures taken != [] ==> AfterImports(j, taken).Session? && |AfterImports(j, taken).fed| == |taken|
    decreases |taken|
  {
    if taken != [] {
      NumberedImportsAreAccepted(j, taken[..|taken| - 1]);
    }
  }

  lemma RelayWithinContract(route: Route, relay: Relay, exports: Host -> seq<string>)
    requires WellFormed(route, relay) && HasSource(route, relay) && exports(SourceOf(route, relay)) != []
    requires AllKeepContract(exports, RelayEvents(route, relay))
    ensures
      var snapshot := exports(SourceOf(route, relay));
      && |relay.rounds| <= |snapshot| && (|relay.rounds| == |snapshot| ==> relay.ending.Complete?)
      && InOrder(relay.rounds)
  {
    hide RelayEvents, WaitsFor;
    var log, snapshot, rounds := RelayEvents(route, relay), exports(SourceOf(route, relay)), relay.rounds;
    forall i | 0 <= i < |rounds|
      ensures rounds[i].outcome.complete == rounds[i].block.end
      ensures i < |snapshot| ==> rounds[i].block.number == i + 1 && (rounds[i].block.end <==> i == |snapshot| - 1)
    {
      RoundIsInLog(route, relay, i);
    }
    if |rounds| >= |snapshot| {
      assert rounds[|snapshot| - 1].outcome.complete;
    }
  }

  /** Hosts that keep their contracts, whatever calls fail: a relay that completes has sent the joiner, and fed
   *  it on, the whole export of the one source it came from, in order, whatever session was left there. */
  lemma FaithfulRelayDelivers(route: Route, relay: Relay, exports: Host -> seq<string>, j: Joiner)
    requires WellFormed(route, relay) && HasSource(route, relay) && exports(SourceOf(route, relay)) != []
    requires AllKeepContract(exports, RelayEvents(route, relay))
    ensures
      var taken, snapshot := Taken(RelayEvents(route, relay), route.joiner), exports(SourceOf(route, relay));
      && JoinerConforms(j, taken)
      && (relay.ending.Unfinished? ==> |taken| < |snapshot|)
      && (relay.ending.Complete? ==>
            && AfterImports(j, taken) == Session(snapshot) && |taken| == |snapshot|
            && forall k | 0 <= k < |snapshot| :: taken[k].request.chunk == snapshot[k])
  {
    hide RelayEvents, AllKeepContract, Taken, JoinerConforms, WellFormed, Serves, EchoesNumbers;
    var log := RelayEvents(route, relay);
    var taken, snapshot := Taken(log, route.joiner), exports(SourceOf(route, relay));
    RelayWithinContract(route, relay, exports);
    RelayIsTaken(route, relay);
    TakenKeepsContract(exports, log, route.joiner);
    NumberedImportsAreAccepted(j, taken);
    ContractServes(exports, SourceOf(route, relay), log);
    if relay.ending.Complete? {
      EchoIsInOrder(route, relay);
      RoundsServed(route, relay, snapshot);
      CompletedRelayDeliversExport(route, relay, j, snapshot);
    }
  }

  lemma LogKeepsContract<E(!new)>(net: Network<E>, w: World<E>, exports: Host -> seq<string>)
    requires Valid(net, w) && forall e: E, call: Call :: KeepsContract(exports, call, net(e, call).1)
    ensures AllKeepContract(exports, w.log)
  {
    hide KeepsContract, EnvAfter;
  }

  /** The run itself, against hosts that keep their contracts: the relay ends within the longest export, and on
   *  completion the chunks that the log shows sent to the joiner are exactly the export of the source. */
  method RelayWithinExport<E(!new)>(net: Network<E>, w: World<E>, route: Route, exports: Host -> seq<string>,
                                    budget: nat, ghost j: Joiner)
    returns (after: World<E>, relay: Relay, failed: bool)
    requires Valid(net, w) && forall e: E, call: Call :: KeepsContract(exports, call, net(e, call).1)
    requires forall source | source in route.sources :: 1 <= |exports(source)| <= budget
    ensures WellFormed(route, relay) && Valid(net, after) && after.log == w.log + RelayEvents(route, relay)
    ensures FollowsRoute(after.log[|w.log|..], route)
    ensures !relay.ending.Unfinished? && (failed <==> !Succeeded(relay))
    ensures relay.ending.Complete? ==>
              var taken := Taken(after.log[|w.log|..], route.joiner);
              && HasSource(route, relay) && JoinerConforms(j, taken)
              && AfterImports(j, taken) == Session(exports(SourceOf(route, relay)))
  {
    hide Valid, KeepsContract, RelayEvents, FollowsRoute, Taken, JoinerConforms;
    var lacking;
    after, relay, failed, lacking := RelayAcs(net, w, route, budget);
    LogKeepsContract(net, after, exports);
    assert after.log[|w.log|..] == RelayEvents(route, relay);
    RelayFollowsRoute(route, relay);
    if HasSource(route, relay) {
      assert AllKeepContract(exports, RelayEvents(route, relay));
      FaithfulRelayDelivers(route, relay, exports, j);
      if relay.ending.Unfinished? {
        RelayIsTaken(route, relay);
      }
    }
  }

  const BLOCK_A := Block(1, "a", false, 0, "", [], true)
  const BLOCK_B := Block(1, "b", true, 0, "", [], true)

  /** Sources that number their second and last block 1 again, and a joiner that takes what it is given. */
  function RestartedReply(call: Call): Reply {
    match call
    case ExportBlock(_, _, _, _, number) => Exported(if number == 1 then BLOCK_A else BLOCK_B)
    case ImportBlock(_, block) => Imported(ImportProgress(block.end, true))
    case _ => Refused
  }

  const RESTARTING: Network<()> := (state, call) => (state, RestartedReply(call))

  const RESTARTED := Relay(
    [], [Round(BLOCK_A, ImportProgress(false, true)), Round(BLOCK_B, ImportProgress(true, true))], Complete([], false))

  /** Whatever relay these hosts lead to, it is that one. */
  lemma OnlyRestarted(route: Route, relay: Relay)
    requires route.sources != [] && WellFormed(route, relay)
    requires relay.ending.Unfinished? ==> |relay.rounds| >= 2
    requires forall e | e in RelayEvents(route, relay) :: e.reply == RestartedReply(e.call)
    ensures relay == RESTARTED
  {
    hide RoundEvents, PollEvents, WaitsFor;
    var log := RelayEvents(route, relay);
    NobodyRefuses(route, relay);
    var source, n := SourceOf(route, relay), |relay.rounds|;
    forall i | 0 <= i < n
      ensures relay.rounds[i] == if i == 0 then RESTARTED.rounds[0] else RESTARTED.rounds[1]
    {
      RoundsAreLogged(route, source, relay.rounds, i);
      assert Event(ExportCall(route, source, i + 1), Exported(relay.rounds[i].block)) in log;
      assert Event(ImportCall(route, relay.rounds[i].block), Imported(relay.rounds[i].outcome)) in log;
    }
    NeverBreaks(route, relay);
    assert n >= 2 ==> relay.rounds[1].outcome.complete;
  }

  lemma RefusalIsLogged(route: Route, relay: Relay)
    requires |relay.refusals| <= |route.sources| && relay.refusals != []
    ensures relay.refusals[0] in relay.refusals
    ensures Event(ExportCall(route, route.sources[0], 1), relay.refusals[0]) in RelayEvents(route, relay)
  {
    hide RoundEvents, PollEvents;
    assert RelayEvents(route, relay)[0] == Event(ExportCall(route, route.sources[0], 1), relay.refusals[0]);
  }

  lemma NobodyRefuses(route: Route, relay: Relay)
    requires WellFormed(route, relay)
    requires forall e | e in RelayEvents(route, relay) :: e.reply == RestartedReply(e.call)
    ensures relay.refusals == []
  {
    hide RelayEvents, WaitsFor;
    if relay.refusals != [] {
      RefusalIsLogged(route, relay);
    }
  }

  lemma BreakIsLogged(route: Route, relay: Relay)
    requires HasSource(route, relay)
    ensures
      var source, number := SourceOf(route, relay), |relay.rounds| + 1;
      match relay.ending
      case ExportBroke(reply) => Event(ExportCall(route, source, number), reply) in RelayEvents(route, relay)
      case ImportBroke(block, reply) => Event(ImportCall(route, block), reply) in RelayEvents(route, relay)
      case _ => true
  {
    hide RoundEvents, PollEvents, RefusalEvents;
    var ended := EndingEvents(route, SourceOf(route, relay), relay.rounds, relay.ending);
    assert relay.ending.ExportBroke? ==> ended[0] in ended;
    assert relay.ending.ImportBroke? ==> ended[1] in ended;
  }

  lemma NeverBreaks(route: Route, relay: Relay)
    requires HasSource(route, relay) && WellFormed(route, relay)
    requires forall e | e in RelayEvents(route, relay) :: e.reply == RestartedReply(e.call)
    ensures !relay.ending.ExportBroke? && !relay.ending.ImportBroke?
  {
    hide RelayEvents, WaitsFor;
    BreakIsLogged(route, relay);
  }

  lemma RestartedIsTaken(route: Route)
    requires route.sources != []
    ensures
      var log := RelayEvents(route, RESTARTED);
      TookRounds(Taken(log, route.joiner), RESTARTED.rounds) && Serves(["a", "b"], route.sources[0], log)
  {
    hide Taken, ImportCall;
    var source, rounds := route.sources[0], RESTARTED.rounds;
    RestartedIsWellFormed(route);
    RelayIsTaken(route, RESTARTED);
    assert rounds[..1] == [rounds[0]] && [rounds[0]][..0] == [];
    assert RoundEvents(route, source, [rounds[0]])
        == [Event(ExportCall(route, source, 1), Exported(BLOCK_A)),
            Event(ImportCall(route, BLOCK_A), Imported(rounds[0].outcome))];
    assert RelayEvents(route, RESTARTED)
        == RoundEvents(route, source, [rounds[0]])
           + [Event(ExportCall(route, source, 2), Exported(BLOCK_B)),
              Event(ImportCall(route, BLOCK_B), Imported(rounds[1].outcome))];
  }

  lemma RestartedIsWellFormed(route: Route)
    requires route.sources != []
    ensures WellFormed(route, RESTARTED) && Succeeded(RESTARTED)
    ensures HasSource(route, RESTARTED) && SourceOf(route, RESTARTED) == route.sources[0]
  {
  }

  lemma TwoImports(j: Joiner, taken: seq<Import>)
    requires |taken| == 2 && taken[0].request.number == 1 && taken[1].request.number == 1
    requires forall i | 0 <= i < 2 :: taken[i].outcome.complete == taken[i].request.end
    ensures JoinerConforms(j, taken) && AfterImports(j, taken) == Session([taken[1].request.chunk])
  {
    assert taken[..1] == [taken[0]] && [taken[0]][..0] == [];
    assert JoinerConforms(j, []) && JoinerConforms(j, [taken[0]]);
  }

  /** What a joiner makes of it: it conforms to its contract and completes with half of the export. */
  lemma RestartedNumberingLosesBlocks(route: Route)
    requires route.sources != []
    ensures
      var log := RelayEvents(route, RESTARTED);
      && Serves(["a", "b"], route.sources[0], log) && JoinerConforms(NoSession, Taken(log, route.joiner))
      && AfterImports(NoSession, Taken(log, route.joiner)) == Session(["b"])
  {
    hide RelayEvents, Taken, Serves, JoinerConforms;
    RestartedIsTaken(route);
    TwoImports(NoSession, Taken(RelayEvents(route, RESTARTED), route.joiner));
  }

  lemma StatelessReplies(w: World<()>)
    requires Valid(RESTARTING, w)
    ensures forall e | e in w.log :: e.reply == RestartedReply(e.call)
  {
  }

  /** The run itself: against these hosts the wallet relays, sees the relay complete and counts it as a
   *  success, while the joiner was fed the second block only. */
  method RelayFromRestarting(route: Route) returns (after: World<()>, failed: bool)
    requires route.sources != []
    ensures Valid(RESTARTING, after) && !failed
    ensures Serves(["a", "b"], route.sources[0], after.log)
    ensures
      var taken := Taken(after.log, route.joiner);
      JoinerConforms(NoSession, taken) && AfterImports(NoSession, taken) == Session(["b"])
  {
    hide Valid, RelayEvents, Serves, Taken, JoinerConforms;
    var w := World((), (), []);
    NothingAsked(w);
    var relay, lacking;
    after, relay, failed, lacking := RelayAcs(RESTARTING, w, route, 2);
    assert after.log == RelayEvents(route, relay);
    StatelessReplies(after);
    OnlyRestarted(route, relay);
    RestartedIsWellFormed(route);
    RestartedNumberingLosesBlocks(route);
  }

  lemma NothingAsked(w: World<()>)
    requires w == World((), (), [])
    ensures Valid(RESTARTING, w)
  {
  }
}
