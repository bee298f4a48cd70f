/** The wallet-driven flows: every host prepares, the answers must be identical, and only then
 *  does the wallet sign and submit one bundle. */
module WalletFlow {
  import opened Prelude
  import opened CantonIds
  import opened WalletNetwork

  /** The key holder as the flows see it; base64 and SHA-256 are parameters. */
  datatype Signer = Signer(
    publicKey: seq<Byte>, encodedKey: string, sha256: seq<Byte> -> Digest, decode: string -> Option<seq<Byte>>)

  function Fingerprint(key: Signer): string {
    FingerprintFromPublicKey(key.sha256, key.publicKey)
  }

  datatype Detail =
    | PartyIds(found: string, expected: string)
    | Transactions
    | Hashes
    | Serials(foundSerial: nat, expectedSerial: nat)
    | ThresholdBytes

  datatype Error =
    | NotEnoughHosts(count: nat)
    | NoJoiningHost
    | NoCurrentHost
    | PrepareFailed(host: Host)
    | PartyIdMismatch(host: Host, expected: string, returned: string)
    | HostDisagreement(host: Host, reference: Host, detail: Detail)
    | MalformedPreparation(host: Host, hashes: nat, transactions: nat)
    | Base64(host: Host)
    | Signing
    | CutOff  // not an error of a flow: the run was looked at while it still relayed

  datatype HostReport = HostReport(host: Host, status: Option<HostStatus>)

  // ---------------------------------------------------------------- reports

  /** A host is done once it answers `Completed`; anything else is still a proposal there. */
  function ProgressToStatus(progress: WorkflowProgress): HostStatus {
    if progress.Completed? then Hosted else Pending
  }

  function ReportOf(host: Host, reply: Reply): HostReport {
    if reply.Executed? then HostReport(host, Some(ProgressToStatus(reply.progress))) else HostReport(host, None)
  }

  predicate FullyHosted(reports: seq<HostReport>) {
    reports != [] && forall r | r in reports :: r.status == Some(Hosted)
  }

  // ---------------------------------------------------------------- agreement

  /** Which fields the hosts have to agree on. */
  datatype Flow = OnboardingFlow | AddHostsFlow | ThresholdFlow

  function Disagreement(flow: Flow, found: Preparation, expected: Preparation): Option<Detail> {
    match flow
    case OnboardingFlow =>
      if found.partyId != expected.partyId then Some(PartyIds(found.partyId, expected.partyId))
      else if found.transactions != expected.transactions then Some(Transactions)
      else if found.hashes != expected.hashes then Some(Hashes)
      else None
    case AddHostsFlow =>
      if found.transactions != expected.transactions then Some(Transactions)
      else if found.hashes != expected.hashes then Some(Hashes)
      else if found.serial != expected.serial then Some(Serials(found.serial, expected.serial))
      else None
    case ThresholdFlow =>
      if found.transactions != expected.transactions || found.hashes != expected.hashes
         || found.serial != expected.serial
      then Some(ThresholdBytes) else None
  }

  predicate Unanimous(flow: Flow, answers: seq<Preparation>) {
    forall i | 0 <= i < |answers| :: Disagreement(flow, answers[i], answers[0]).None?
  }

  /** Why nothing is signed although every host has answered: the first check that fails. */
  ghost predicate Refusal(flow: Flow, hosts: seq<Host>, answers: seq<Preparation>,
                          expected: Option<string>, error: Error)
    requires |hosts| == |answers| > 0
  {
    if expected.Some? && answers[0].partyId != expected.value then
      error == PartyIdMismatch(hosts[0], expected.value, answers[0].partyId)
    else if !Unanimous(flow, answers) then
      exists i | 1 <= i < |answers| ::
        && Disagreement(flow, answers[i], answers[0]).Some? && Unanimous(flow, answers[..i])
        && error == HostDisagreement(hosts[i], hosts[0], Disagreement(flow, answers[i], answers[0]).value)
    else
      && |answers[0].hashes| != |answers[0].transactions|
      && error == MalformedPreparation(hosts[0], |answers[0].hashes|, |answers[0].transactions|)
  }

  // ---------------------------------------------------------------- what a run may look like

  /** The events of one flow by phase. */
  datatype Trace = Trace(prepares: seq<Event>, signs: seq<Event>, submits: seq<Event>)

  const NOTHING := Trace([], [], [])

  function Events(t: Trace): seq<Event> {
    t.prepares + t.signs + t.submits
  }

  /** The hosts are asked in order, and asking stops at the first that fails. */
  predicate PreparesFor(hosts: seq<Host>, requests: seq<PrepareRequest>, events: seq<Event>) {
    && |events| <= |hosts| == |requests|
    && (forall i | 0 <= i < |events| :: events[i].call == Prepare(hosts[i], requests[i]))
    && (forall i | 0 <= i < |events| - 1 :: events[i].reply.Prepared?)
  }

  predicate AllPrepared(hosts: seq<Host>, events: seq<Event>) {
    |events| == |hosts| && forall i | 0 <= i < |events| :: events[i].reply.Prepared?
  }

  function Answers(events: seq<Event>): seq<Preparation>
    requires forall i | 0 <= i < |events| :: events[i].reply.Prepared?
  {
    seq(|events|, i requires 0 <= i < |events| => events[i].reply.preparation)
  }

  /** Each message is the decoded hash at the same index, and signing stops at the first failure. */
  predicate SignsFor(key: Signer, hashes: seq<string>, events: seq<Event>) {
    && |events| <= |hashes|
    && (forall k | 0 <= k < |events| ::
          key.decode(hashes[k]).Some? && events[k].call == Sign(key.decode(hashes[k]).value))
    && (forall k | 0 <= k < |events| - 1 :: events[k].reply.Signature?)
  }

  predicate AllSigned(hashes: seq<string>, events: seq<Event>) {
    |events| == |hashes| && forall k | 0 <= k < |events| :: events[k].reply.Signature?
  }

  function Signatures(events: seq<Event>): seq<string>
    requires forall k | 0 <= k < |events| :: events[k].reply.Signature?
  {
    seq(|events|, k requires 0 <= k < |events| => events[k].reply.text)
  }

  /** Every submitting host gets the same bundle, once, in order, whatever the others answer. */
  predicate SubmitsFor(hosts: seq<Host>, bundle: Bundle, events: seq<Event>) {
    |events| == |hosts| && forall i | 0 <= i < |events| :: events[i].call == Execute(hosts[i], bundle)
  }

  /** What one flow is asked to do. */
  datatype Job = Job(
    flow: Flow,
    hosts: seq<Host>,
    requests: seq<PrepareRequest>,
    submitters: seq<Host>,
    subject: Subject,
    expected: Option<string>)

  /** Everything was agreed and the hashes match the transactions one to one. */
  predicate Signable(job: Job, t: Trace) {
    && AllPrepared(job.hosts, t.prepares) && |t.prepares| > 0
    && var answers := Answers(t.prepares);
       && Unanimous(job.flow, answers)
       && (job.expected.Some? ==> answers[0].partyId == job.expected.value)
       && |answers[0].hashes| == |answers[0].transactions|
  }

  predicate Submittable(job: Job, t: Trace) {
    Signable(job, t) && AllSigned(Answers(t.prepares)[0].hashes, t.signs)
  }

  function BundleOf(job: Job, key: Signer, t: Trace): Bundle
    requires Submittable(job, t)
  {
    Bundle(job.subject, Answers(t.prepares)[0].transactions, Signatures(t.signs), Fingerprint(key))
  }

  /** The order that every run keeps: no signature before all hosts have prepared and agreed,
   *  no submit before every transaction has its signature at the same index. */
  predicate Disciplined(job: Job, key: Signer, t: Trace) {
    && PreparesFor(job.hosts, job.requests, t.prepares)
    && (if Signable(job, t) then SignsFor(key, Answers(t.prepares)[0].hashes, t.signs) else t.signs == [])
    && (if Submittable(job, t) then SubmitsFor(job.submitters, BundleOf(job, key, t), t.submits) else t.submits == [])
  }

  /** Why signing stopped: the signer failed at the last message, or the next hash could not be decoded. */
  predicate SigningStopped(key: Signer, preparer: Host, hashes: seq<string>, signs: seq<Event>, error: Error) {
    if signs != [] && !signs[|signs| - 1].reply.Signature? then error == Signing
    else error == Base64(preparer) && |signs| < |hashes| && key.decode(hashes[|signs|]).None?
  }

  /** Why a run that signed nothing or not everything ended. */
  ghost predicate Explains(job: Job, key: Signer, t: Trace, error: Error) {
    && t.prepares != []
    && (if !AllPrepared(job.hosts, t.prepares) then
          |t.prepares| <= |job.hosts| && error == PrepareFailed(job.hosts[|t.prepares| - 1])
        else if !Signable(job, t) then
          Refusal(job.flow, job.hosts, Answers(t.prepares), job.expected, error)
        else
          var hashes := Answers(t.prepares)[0].hashes;
          !Submittable(job, t) && SigningStopped(key, job.hosts[0], hashes, t.signs, error))
  }

  lemma SignableEndsInSigning(job: Job, key: Signer, t: Trace, error: Error)
    requires Explains(job, key, t, error) && Signable(job, t)
    ensures error == Signing || error == Base64(job.hosts[0])
  {
    hide Unanimous;
  }

  // ---------------------------------------------------------------- the shared phases

  method PrepareAll<E>(net: Network<E>, w: World<E>, job: Job) returns (after: World<E>, events: seq<Event>)
    requires Valid(net, w) && |job.hosts| == |job.requests|
    ensures Valid(net, after) && after.start == w.start && after.log == w.log + events
    ensures PreparesFor(job.hosts, job.requests, events) && |events| <= |job.hosts|
    ensures AllPrepared(job.hosts, events) || (events != [] && !events[|events| - 1].reply.Prepared?)
  {
    hide Valid;
    after, events := w, [];
    for i := 0 to |job.hosts|
      invariant Valid(net, after) && after.start == w.start && after.log == w.log + events
      invariant |events| == i && PreparesFor(job.hosts, job.requests, events)
      invariant forall j | 0 <= j < i :: events[j].reply.Prepared?
    {
      var call := Prepare(job.hosts[i], job.requests[i]);
      var reply;
      after, reply := Ask(net, after, call);
      events := events + [Event(call, reply)];
      if !reply.Prepared? {
        return;
      }
    }
  }

  /** The first host whose answer differs from the first host's, or the number of hosts. */
  method FirstDisagreement(flow: Flow, answers: seq<Preparation>) returns (i: nat)
    requires answers != []
    ensures 1 <= i <= |answers| && Unanimous(flow, answers[..i])
    ensures i < |answers| ==> Disagreement(flow, answers[i], answers[0]).Some?
  {
    i := 1;
    while i < |answers|
      invariant 1 <= i <= |answers| && Unanimous(flow, answers[..i])
    {
      if Disagreement(flow, answers[i], answers[0]).Some? {
        return;
      }
      i := i + 1;
    }
  }

  method SignAll<E>(net: Network<E>, w: World<E>, key: Signer, preparer: Host, hashes: seq<string>)
    returns (after: World<E>, events: seq<Event>, error: Option<Error>)
    requires Valid(net, w)
    ensures Valid(net, after) && after.start == w.start && after.log == w.log + events
    ensures SignsFor(key, hashes, events)
    ensures error.None? <==> AllSigned(hashes, events)
    ensures error.Some? ==>
      SigningStopped(key, preparer, hashes, events, error.value)
  {
    hide Valid;
    after, events := w, [];
    for k := 0 to |hashes|
      invariant Valid(net, after) && after.start == w.start && after.log == w.log + events
      invariant |events| == k && SignsFor(key, hashes, events)
      invariant forall j | 0 <= j < k :: events[j].reply.Signature?
    {
      var hash := key.decode(hashes[k]);
      if hash.None? {
        return after, events, Some(Base64(preparer));
      }
      var reply;
      after, reply := Ask(net, after, Sign(hash.value));
      events := events + [Event(Sign(hash.value), reply)];
      if !reply.Signature? {
        return after, events, Some(Signing);
      }
    }
    return after, events, None;
  }

  method SubmitAll<E>(net: Network<E>, w: World<E>, hosts: seq<Host>, bundle: Bundle)
    returns (after: World<E>, events: seq<Event>, reports: seq<HostReport>)
    requires Valid(net, w)
    ensures Valid(net, after) && after.start == w.start && after.log == w.log + events
    ensures SubmitsFor(hosts, bundle, events) && |events| == |hosts|
    ensures |reports| == |hosts| && forall i | 0 <= i < |hosts| :: reports[i] == ReportOf(hosts[i], events[i].reply)
  {
    hide Valid;
    after, events, reports := w, [], [];
    for i := 0 to |hosts|
      invariant Valid(net, after) && after.start == w.start && after.log == w.log + events
      invariant |events| == i && |reports| == i
      invariant forall j | 0 <= j < i ::
        events[j].call == Execute(hosts[j], bundle) && reports[j] == ReportOf(hosts[j], events[j].reply)
    {
      var reply;
      after, reply := Ask(net, after, Execute(hosts[i], bundle));
      events := events + [Event(Execute(hosts[i], bundle), reply)];
      reports := reports + [ReportOf(hosts[i], reply)];
    }
  }

  /** The part that the three flows share: prepare everywhere, compare, sign, submit. */
  method PrepareSignSubmit<E>(net: Network<E>, w: World<E>, key: Signer, job: Job)
    returns (after: World<E>, t: Trace, r: Result<seq<HostReport>, Error>)
    requires Valid(net, w) && |job.hosts| == |job.requests| && job.hosts != []
    ensures Valid(net, after) && after.start == w.start && after.log == w.log + Events(t)
    ensures Disciplined(job, key, t)
    ensures r.Success? <==> Submittable(job, t)
    ensures r.Success? ==>
      && |r.value| == |job.submitters| == |t.submits|
      && forall i | 0 <= i < |job.submitters| :: r.value[i] == ReportOf(job.submitters[i], t.submits[i].reply)
    ensures r.Failure? ==> Explains(job, key, t, r.error) && r.error != CutOff
  {
    hide Valid, SignsFor, SubmitsFor, PreparesFor;
    var prepares;
    after, prepares := PrepareAll(net, w, job);
    t := Trace(prepares, [], []);
    if !prepares[|prepares| - 1].reply.Prepared? {
      return after, t, Failure(PrepareFailed(job.hosts[|prepares| - 1]));
    }
    var answers := Answers(prepares);
    var prepared := answers[0];
    if job.expected.Some? && prepared.partyId != job.expected.value {
      return after, t, Failure(PartyIdMismatch(job.hosts[0], job.expected.value, prepared.partyId));
    }
    var i := FirstDisagreement(job.flow, answers);
    assert answers[..|answers|] == answers;
    if i < |answers| {
      return after, t, Failure(HostDisagreement(job.hosts[i], job.hosts[0],
                                               Disagreement(job.flow, answers[i], prepared).value));
    }
    if |prepared.hashes| != |prepared.transactions| {
      return after, t, Failure(MalformedPreparation(job.hosts[0], |prepared.hashes|, |prepared.transactions|));
    }
    var signs, error;
    after, signs, error := SignAll(net, after, key, job.hosts[0], prepared.hashes);
    t := Trace(prepares, signs, []);
    if error.Some? {
      return after, t, Failure(error.value);
    }
    var submits, reports;
    after, submits, reports := SubmitAll(net, after, job.submitters, BundleOf(job, key, t));
    t := Trace(prepares, signs, submits);
    return after, t, Success(reports);
  }

  // ---------------------------------------------------------------- the same on the log alone

  /** Two answers agree on what is signed, and on what the flow reads besides. */
  predicate SameAnswer(onboarding: bool, a: Preparation, b: Preparation) {
    && a.transactions == b.transactions && a.hashes == b.hashes
    && if onboarding then a.partyId == b.partyId else a.serial == b.serial
  }

  /** The log begins with one answer from each of the hosts, in order, and they all agree. */
  predicate EveryHostAgreed(onboarding: bool, log: seq<Event>, hosts: seq<Host>) {
    && 0 < |hosts| <= |log|
    && (forall i | 0 <= i < |hosts| ::
          log[i].call.Prepare? && log[i].call.host == hosts[i] && log[i].reply.Prepared?)
    && (forall i | 0 <= i < |hosts| ::
          SameAnswer(onboarding, log[i].reply.preparation, log[0].reply.preparation))
    && |log[0].reply.preparation.hashes| == |log[0].reply.preparation.transactions|
  }

  /** The signature at position `x` of the log is the one of this transaction. */
  predicate SignedAt(log: seq<Event>, x: nat, key: Signer, hash: string) {
    x < |log| && log[x].call.Sign? && key.decode(hash) == Some(log[x].call.message)
  }

  /** Answers are taken as different exactly when they are, and the detail names the first field that differs. */
  lemma DisagreementExactly(flow: Flow, found: Preparation, expected: Preparation)
    ensures Disagreement(flow, found, expected).None? <==> SameAnswer(flow == OnboardingFlow, found, expected)
    ensures
      match Disagreement(flow, found, expected)
      case None => true
      case Some(PartyIds(f, e)) => flow == OnboardingFlow && f == found.partyId != e == expected.partyId
      case Some(Transactions) => flow != ThresholdFlow && found.transactions != expected.transactions
      case Some(Hashes) =>
        flow != ThresholdFlow && found.transactions == expected.transactions && found.hashes != expected.hashes
      case Some(Serials(f, e)) =>
        && flow == AddHostsFlow && found.transactions == expected.transactions && found.hashes == expected.hashes
        && f == found.serial != e == expected.serial
      case Some(ThresholdBytes) => flow == ThresholdFlow
  {
  }

  /** What may be at position `x` of a flow's log: a question to the host whose turn it is; after everybody
   *  agreed, a signature over the hash whose turn it is; after all signatures, the bundle with the agreed
   *  transactions and these signatures, to the submitter whose turn it is. */
  predicate FlowEvent(onboarding: bool, log: seq<Event>, x: nat, hosts: seq<Host>, submitters: seq<Host>, key: Signer,
                      subject: Subject)
    requires x < |log|
  {
    match log[x].call
    case Prepare(host, _) => x < |hosts| && host == hosts[x]
    case Sign(_) =>
      && EveryHostAgreed(onboarding, log, hosts) && |hosts| <= x
      && var hashes := log[0].reply.preparation.hashes;
         x - |hosts| < |hashes| && SignedAt(log, x, key, hashes[x - |hosts|])
    case Execute(host, bundle) =>
      && EveryHostAgreed(onboarding, log, hosts)
      && var agreed := log[0].reply.preparation;
         var n, m := |hosts|, |hosts| + |agreed.hashes|;
         && m <= x < m + |submitters| && host == submitters[x - m]
         && bundle.subject == subject && bundle.transactions == agreed.transactions
         && bundle.signedBy == FingerprintFromPublicKey(key.sha256, key.publicKey)
         && |bundle.signatures| == |agreed.hashes|
         && forall k | 0 <= k < |agreed.hashes| ::
              SignedAt(log, n + k, key, agreed.hashes[k]) && log[n + k].reply == Signature(bundle.signatures[k])
    case _ => false
  }

  predicate FlowLog(onboarding: bool, log: seq<Event>, hosts: seq<Host>, submitters: seq<Host>, key: Signer,
                    subject: Subject) {
    forall x | 0 <= x < |log| :: FlowEvent(onboarding, log, x, hosts, submitters, key, subject)
  }

  /** Everybody agreed, everything was signed and every submitter got the bundle. */
  predicate FlowDone(onboarding: bool, log: seq<Event>, hosts: seq<Host>, submitters: seq<Host>) {
    && EveryHostAgreed(onboarding, log, hosts)
    && |log| == |hosts| + |log[0].reply.preparation.hashes| + |submitters|
    && forall x | |hosts| + |log[0].reply.preparation.hashes| <= x < |log| :: log[x].call.Execute?
  }

  /** Where an event of the log comes from. */
  lemma EventAt(t: Trace, x: nat)
    requires x < |Events(t)|
    ensures |Events(t)| == |t.prepares| + |t.signs| + |t.submits|
    ensures
      var n, m := |t.prepares|, |t.prepares| + |t.signs|;
      Events(t)[x] == if x < n then t.prepares[x] else if x < m then t.signs[x - n] else t.submits[x - m]
  {
  }

  lemma SignableAgrees(job: Job, t: Trace)
    requires Signable(job, t) && PreparesFor(job.hosts, job.requests, t.prepares)
    ensures EveryHostAgreed(job.flow == OnboardingFlow, Events(t), job.hosts)
    ensures Events(t)[0] == t.prepares[0]
  {
    var answers := Answers(t.prepares);
    assert forall i | 0 <= i < |t.prepares| ::
        Events(t)[i] == t.prepares[i] && answers[i] == t.prepares[i].reply.preparation;
    assert forall i | 0 <= i < |answers| :: Disagreement(job.flow, answers[i], answers[0]).None?;
  }

  lemma SignsAreFlowEvents(job: Job, key: Signer, t: Trace, x: nat)
    requires Disciplined(job, key, t) && |t.prepares| <= x < |t.prepares| + |t.signs|
    ensures FlowEvent(job.flow == OnboardingFlow, Events(t), x, job.hosts, job.submitters, key, job.subject)
  {
    hide Unanimous;
    SignableAgrees(job, t);
    assert Events(t)[x] == t.signs[x - |t.prepares|];
  }

  lemma SignaturesLogged(job: Job, key: Signer, t: Trace, k: nat)
    requires Disciplined(job, key, t) && Submittable(job, t) && k < |t.signs|
    ensures
      var n, hash := |t.prepares|, Answers(t.prepares)[0].hashes[k];
      && n + k < |Events(t)| && SignedAt(Events(t), n + k, key, hash)
      && Events(t)[n + k].reply == Signature(BundleOf(job, key, t).signatures[k])
  {
    hide Unanimous, PreparesFor, SubmitsFor;
    EventAt(t, |t.prepares| + k);
  }

  lemma SubmitsAreFlowEvents(job: Job, key: Signer, t: Trace, x: nat)
    requires Disciplined(job, key, t) && |t.prepares| + |t.signs| <= x < |Events(t)|
    ensures FlowEvent(job.flow == OnboardingFlow, Events(t), x, job.hosts, job.submitters, key, job.subject)
  {
    hide Unanimous, Events, EveryHostAgreed, SignedAt, SignsFor;
    EventAt(t, x);
    SignableAgrees(job, t);
    forall k | 0 <= k < |t.signs|
      ensures SignedAt(Events(t), |t.prepares| + k, key, Answers(t.prepares)[0].hashes[k])
      ensures Events(t)[|t.prepares| + k].reply == Signature(BundleOf(job, key, t).signatures[k])
    {
      SignaturesLogged(job, key, t, k);
    }
  }

  lemma DisciplinedLog(job: Job, key: Signer, t: Trace)
    requires Disciplined(job, key, t)
    ensures FlowLog(job.flow == OnboardingFlow, Events(t), job.hosts, job.submitters, key, job.subject)
    ensures Submittable(job, t) ==> FlowDone(job.flow == OnboardingFlow, Events(t), job.hosts, job.submitters)
  {
    hide FlowEvent, Signable, SignsFor, EveryHostAgreed;
    var onboarding, log := job.flow == OnboardingFlow, Events(t);
    forall x | 0 <= x < |log|
      ensures FlowEvent(onboarding, log, x, job.hosts, job.submitters, key, job.subject)
    {
      if x < |t.prepares| {
        PreparesAreFlowEvents(job, key, t, x);
      } else if x < |t.prepares| + |t.signs| {
        SignsAreFlowEvents(job, key, t, x);
      } else {
        SubmitsAreFlowEvents(job, key, t, x);
      }
    }
    if Submittable(job, t) {
      SubmittableIsDone(job, key, t);
    }
  }

  lemma PreparesAreFlowEvents(job: Job, key: Signer, t: Trace, x: nat)
    requires Disciplined(job, key, t) && x < |t.prepares|
    ensures Events(t)[x].call == Prepare(job.hosts[x], job.requests[x])
    ensures FlowEvent(job.flow == OnboardingFlow, Events(t), x, job.hosts, job.submitters, key, job.subject)
  {
    hide Signable, Submittable;
    assert Events(t)[x] == t.prepares[x];
  }

  lemma SubmittableIsDone(job: Job, key: Signer, t: Trace)
    requires Disciplined(job, key, t) && Submittable(job, t)
    ensures FlowDone(job.flow == OnboardingFlow, Events(t), job.hosts, job.submitters)
  {
    hide Unanimous;
    SignableAgrees(job, t);
    var m := |t.prepares| + |t.signs|;
    assert forall x | m <= x < |Events(t)| :: Events(t)[x] == t.submits[x - m];
  }

  /** Agreement is enough: when every host answered alike, as many hashes as transactions, and with the expected
   *  party id, then signing begins. */
  lemma AgreementIsEnough(job: Job, key: Signer, t: Trace)
    requires Disciplined(job, key, t) && EveryHostAgreed(job.flow == OnboardingFlow, Events(t), job.hosts)
    requires job.expected.Some? ==> Events(t)[0].reply.preparation.partyId == job.expected.value
    ensures Signable(job, t)
  {
    hide FlowEvent, Signable, SignsFor, SubmitsFor, Submittable;
    var n := |job.hosts|;
    AllAsked(job, key, t);
    var answers := HeadAnswers(job, t);
    forall i | 0 <= i < n
      ensures Disagreement(job.flow, answers[i], answers[0]).None?
    {
      DisagreementExactly(job.flow, answers[i], answers[0]);
    }
    AllAnsweredIsSignable(job, t);
  }

  lemma AllAsked(job: Job, key: Signer, t: Trace)
    requires Disciplined(job, key, t) && |job.hosts| <= |Events(t)|
    ensures |t.prepares| == |job.hosts|
  {
    hide Unanimous, SignsFor, SubmitsFor;
  }

  lemma HeadAnswers(job: Job, t: Trace) returns (answers: seq<Preparation>)
    requires |t.prepares| == |job.hosts| && EveryHostAgreed(job.flow == OnboardingFlow, Events(t), job.hosts)
    ensures AllPrepared(job.hosts, t.prepares) && answers == Answers(t.prepares)
    ensures forall i | 0 <= i < |answers| :: answers[i] == Events(t)[i].reply.preparation
  {
    assert forall i | 0 <= i < |t.prepares| :: Events(t)[i] == t.prepares[i];
    answers := Answers(t.prepares);
  }

  lemma AllAnsweredIsSignable(job: Job, t: Trace)
    requires AllPrepared(job.hosts, t.prepares) && |t.prepares| > 0
    requires
      var answers := Answers(t.prepares);
      && (forall i | 0 <= i < |answers| :: Disagreement(job.flow, answers[i], answers[0]).None?)
      && (job.expected.Some? ==> answers[0].partyId == job.expected.value)
      && |answers[0].hashes| == |answers[0].transactions|
    ensures Signable(job, t)
  {
  }

  /** The questions of a flow are the ones of its job. */
  lemma AskedAsPlanned(job: Job, key: Signer, t: Trace, x: nat)
    requires Disciplined(job, key, t) && x < |Events(t)| && Events(t)[x].call.Prepare?
    ensures x < |job.hosts| == |job.requests| && Events(t)[x].call == Prepare(job.hosts[x], job.requests[x])
  {
    hide Signable, Submittable, Events;
    EventAt(t, x);
  }

  // ---------------------------------------------------------------- onboarding and threshold

  /** Each host is told to host the party alongside all the others. */
  function PeersOf(hosts: seq<Host>, host: Host): seq<CantonId> {
    if hosts == [] then []
    else (if hosts[0].participant != host.participant then [hosts[0].participant] else []) + PeersOf(hosts[1..], host)
  }

  function OnboardingJob(hosts: seq<Host>, key: Signer, hint: string, threshold: Option<nat>): Job {
    Job(OnboardingFlow, hosts,
        seq(|hosts|, i requires 0 <= i < |hosts| =>
          Onboarding(hint, key.encodedKey, PeersOf(hosts, hosts[i]), threshold)),
        hosts, NewParty(hint, key.encodedKey), Some(PartyId(key.sha256, key.publicKey, hint)))
  }

  function Participants(hosts: seq<Host>): seq<CantonId> {
    seq(|hosts|, i requires 0 <= i < |hosts| => hosts[i].participant)
  }

  /** Every participant but the host's own, as often as it is among the hosts. */
  ghost predicate AllOthers(peers: seq<CantonId>, hosts: seq<Host>, own: CantonId) {
    forall id :: multiset(peers)[id] == if id == own then 0 else multiset(Participants(hosts))[id]
  }

  lemma {:induction false} PeersAreAllOthers(hosts: seq<Host>, host: Host)
    ensures AllOthers(PeersOf(hosts, host), hosts, host.participant)
  {
    if hosts != [] {
      PeersAreAllOthers(hosts[1..], host);
      assert Participants(hosts) == [hosts[0].participant] + Participants(hosts[1..]);
    }
  }

  /** What each host is asked when a party is onboarded. */
  ghost predicate OnboardingAsked(log: seq<Event>, hosts: seq<Host>, key: Signer, hint: string,
                                  threshold: Option<nat>) {
    forall x | 0 <= x < |log| && log[x].call.Prepare? ::
      && x < |hosts| && log[x].call.request.Onboarding?
      && var request := log[x].call.request;
         && request.hint == hint && request.publicKey == key.encodedKey && request.threshold == threshold
         && AllOthers(request.peers, hosts, hosts[x].participant)
  }

  /** The whole log of an onboarding: who is asked what, who must agree on which party id before anything is
   *  signed, what is signed, and what is sent to whom. */
  ghost predicate OnboardingLog(log: seq<Event>, hosts: seq<Host>, key: Signer, hint: string, threshold: Option<nat>) {
    && FlowLog(true, log, hosts, hosts, key, NewParty(hint, key.encodedKey))
    && OnboardingAsked(log, hosts, key, hint, threshold)
    && forall x | 0 <= x < |log| && log[x].call.Sign? ::
         log[0].reply.Prepared?
         && log[0].reply.preparation.partyId == hint + "::" + FingerprintFromPublicKey(key.sha256, key.publicKey)
  }

  lemma OnboardingLogged(hosts: seq<Host>, key: Signer, hint: string, threshold: Option<nat>, t: Trace)
    requires Disciplined(OnboardingJob(hosts, key, hint, threshold), key, t)
    ensures OnboardingLog(Events(t), hosts, key, hint, threshold)
    ensures Submittable(OnboardingJob(hosts, key, hint, threshold), t) ==> FlowDone(true, Events(t), hosts, hosts)
    ensures
      && EveryHostAgreed(true, Events(t), hosts)
      && Events(t)[0].reply.preparation.partyId == hint + "::" + FingerprintFromPublicKey(key.sha256, key.publicKey) ==>
      Signable(OnboardingJob(hosts, key, hint, threshold), t)
  {
    hide Disciplined, FlowLog, FlowDone, Submittable, Signable, AllOthers;
    var job := OnboardingJob(hosts, key, hint, threshold);
    DisciplinedLog(job, key, t);
    forall x | 0 <= x < |Events(t)| && Events(t)[x].call.Prepare?
      ensures x < |hosts| && Events(t)[x].call.request == job.requests[x]
      ensures x < |hosts| && AllOthers(PeersOf(hosts, hosts[x]), hosts, hosts[x].participant)
    {
      AskedAsPlanned(job, key, t, x);
      PeersAreAllOthers(hosts, hosts[x]);
    }
    if x :| 0 <= x < |Events(t)| && Events(t)[x].call.Sign? {
      SignedAsExpected(job, key, t, x);
    }
    if EveryHostAgreed(true, Events(t), hosts) && Some(Events(t)[0].reply.preparation.partyId) == job.expected {
      AgreementIsEnough(job, key, t);
    }
  }

  lemma SignedAsExpected(job: Job, key: Signer, t: Trace, x: nat)
    requires Disciplined(job, key, t) && x < |Events(t)| && Events(t)[x].call.Sign?
    ensures Events(t)[0].reply.Prepared?
    ensures job.expected.Some? ==> Events(t)[0].reply.preparation.partyId == job.expected.value
  {
    hide Unanimous;
    EventAt(t, x);
    EventAt(t, 0);
  }

  datatype OnboardedParty = OnboardedParty(
    partyId: string, fingerprint: string, publicKey: string, hosts: seq<HostReport>)

  /** Onboard a party across `hosts`. */
  method ExecuteCoValidated<E>(net: Network<E>, w: World<E>, hosts: seq<Host>, key: Signer,
                               hint: string, threshold: Option<nat>)
    returns (after: World<E>, t: Trace, r: Result<OnboardedParty, Error>)
    requires Valid(net, w)
    ensures Valid(net, after) && after.start == w.start && after.log == w.log + Events(t)
    ensures |hosts| < 2 ==> t == NOTHING && r == Failure(NotEnoughHosts(|hosts|))
    ensures |hosts| >= 2 ==>
      var job := OnboardingJob(hosts, key, hint, threshold);
      && Disciplined(job, key, t)
      && (r.Success? <==> Submittable(job, t))
      && (r.Failure? ==> Explains(job, key, t, r.error))
    ensures OnboardingLog(Events(t), hosts, key, hint, threshold)
    ensures r.Success? ==> FlowDone(true, Events(t), hosts, hosts)
    ensures
      && r.Failure? && EveryHostAgreed(true, Events(t), hosts)
      && Events(t)[0].reply.preparation.partyId == hint + "::" + FingerprintFromPublicKey(key.sha256, key.publicKey) ==>
      r.error == NotEnoughHosts(|hosts|) || r.error == Signing || r.error == Base64(hosts[0])
    ensures r.Success? ==>
      && r.value.partyId == PartyId(key.sha256, key.publicKey, hint)
      && r.value.fingerprint == Fingerprint(key) && r.value.publicKey == key.encodedKey
      && |r.value.hosts| == |hosts| == |t.submits|
      && (forall i | 0 <= i < |hosts| :: r.value.hosts[i] == ReportOf(hosts[i], t.submits[i].reply))
      && (FullyHosted(r.value.hosts) <==> forall i | 0 <= i < |hosts| :: t.submits[i].reply == Executed(Completed))
  {
    hide Valid, Disciplined, Explains, FlowDone;
    if |hosts| < 2 {
      return w, NOTHING, Failure(NotEnoughHosts(|hosts|));
    }
    var job := OnboardingJob(hosts, key, hint, threshold);
    var reports;
    after, t, reports := PrepareSignSubmit(net, w, key, job);
    OnboardingLogged(hosts, key, hint, threshold, t);
    if reports.Failure? {
      if Signable(job, t) {
        SignableEndsInSigning(job, key, t, reports.error);
      }
      return after, t, Failure(reports.error);
    }
    var prepared := Answers(t.prepares)[0];
    r := Success(OnboardedParty(prepared.partyId, Fingerprint(key), key.encodedKey, reports.value));
    assert forall i | 0 <= i < |hosts| :: reports.value[i] in reports.value;
  }

  function ThresholdJob(hosts: seq<Host>, partyId: string, newThreshold: nat, baseSerial: nat): Job {
    Job(ThresholdFlow, hosts, seq(|hosts|, _ => ChangingThreshold(partyId, newThreshold, baseSerial)),
        hosts, ExistingParty(partyId, baseSerial), None)
  }

  /** The whole log of a change of threshold. */
  predicate ThresholdLog(log: seq<Event>, hosts: seq<Host>, key: Signer, partyId: string, newThreshold: nat,
                         baseSerial: nat) {
    && FlowLog(false, log, hosts, hosts, key, ExistingParty(partyId, baseSerial))
    && forall x | 0 <= x < |log| && log[x].call.Prepare? ::
         log[x].call.request == ChangingThreshold(partyId, newThreshold, baseSerial)
  }

  lemma ThresholdLogged(hosts: seq<Host>, key: Signer, partyId: string, newThreshold: nat, baseSerial: nat, t: Trace)
    requires Disciplined(ThresholdJob(hosts, partyId, newThreshold, baseSerial), key, t)
    ensures ThresholdLog(Events(t), hosts, key, partyId, newThreshold, baseSerial)
    ensures Submittable(ThresholdJob(hosts, partyId, newThreshold, baseSerial), t) ==>
              FlowDone(false, Events(t), hosts, hosts)
    ensures EveryHostAgreed(false, Events(t), hosts) ==>
              Signable(ThresholdJob(hosts, partyId, newThreshold, baseSerial), t)
  {
    hide Disciplined, FlowLog, FlowDone, Submittable, Signable, EveryHostAgreed;
    var job := ThresholdJob(hosts, partyId, newThreshold, baseSerial);
    DisciplinedLog(job, key, t);
    forall x | 0 <= x < |Events(t)| && Events(t)[x].call.Prepare?
      ensures x < |hosts| && Events(t)[x].call.request == job.requests[x]
    {
      AskedAsPlanned(job, key, t, x);
    }
    if EveryHostAgreed(false, Events(t), hosts) {
      AgreementIsEnough(job, key, t);
    }
  }

  /** Move a party's confirmation threshold; as onboarding, it needs two hosts to compare. */
  method RaiseThreshold<E>(net: Network<E>, w: World<E>, hosts: seq<Host>, key: Signer, partyId: string,
                           newThreshold: nat, baseSerial: nat)
    returns (after: World<E>, t: Trace, r: Result<seq<HostReport>, Error>)
    requires Valid(net, w)
    ensures Valid(net, after) && after.start == w.start && after.log == w.log + Events(t)
    ensures |hosts| < 2 ==> t == NOTHING && r == Failure(NotEnoughHosts(|hosts|))
    ensures |hosts| >= 2 ==>
      var job := ThresholdJob(hosts, partyId, newThreshold, baseSerial);
      && Disciplined(job, key, t)
      && (r.Success? <==> Submittable(job, t))
      && (r.Failure? ==> Explains(job, key, t, r.error))
    ensures ThresholdLog(Events(t), hosts, key, partyId, newThreshold, baseSerial)
    ensures r.Success? ==> FlowDone(false, Events(t), hosts, hosts)
    ensures r.Failure? && EveryHostAgreed(false, Events(t), hosts) ==>
              r.error == NotEnoughHosts(|hosts|) || r.error == Signing || r.error == Base64(hosts[0])
    ensures r.Success? ==>
      && |r.value| == |hosts| == |t.submits|
      && forall i | 0 <= i < |hosts| :: r.value[i] == ReportOf(hosts[i], t.submits[i].reply)
  {
    hide Valid, Disciplined, Explains, FlowDone;
    if |hosts| < 2 {
      return w, NOTHING, Failure(NotEnoughHosts(|hosts|));
    }
    after, t, r := PrepareSignSubmit(net, w, key, ThresholdJob(hosts, partyId, newThreshold, baseSerial));
    ThresholdLogged(hosts, key, partyId, newThreshold, baseSerial, t);
    if r.Failure? && Signable(ThresholdJob(hosts, partyId, newThreshold, baseSerial), t) {
      SignableEndsInSigning(ThresholdJob(hosts, partyId, newThreshold, baseSerial), key, t, r.error);
    }
  }

  // ---------------------------------------------------------------- what discipline gives

  /** A host whose hashes belong to the transactions it shows. */
  predicate Honest(answer: Preparation, hashOf: string -> string) {
    && |answer.hashes| == |answer.transactions|
    && forall j | 0 <= j < |answer.hashes| :: answer.hashes[j] == hashOf(answer.transactions[j])
  }

  lemma AgreesWithFirst(job: Job, t: Trace, k: nat)
    requires Signable(job, t) && k < |t.prepares|
    ensures
      var first, own := t.prepares[0].reply.preparation, t.prepares[k].reply.preparation;
      own.transactions == first.transactions && own.hashes == first.hashes
  {
    assert Disagreement(job.flow, Answers(t.prepares)[k], Answers(t.prepares)[0]).None?;
  }

  /** Whatever the other hosts answer, every message ever signed is the hash that host `k`
   *  itself returned at that index; with a host that returned something else, nothing is signed. */
  lemma SignedOnlyWhatEachHostReturned(job: Job, key: Signer, t: Trace, k: nat)
    requires Disciplined(job, key, t) && k < |job.hosts| && t.signs != []
    ensures k < |t.prepares| && t.prepares[k].reply.Prepared?
    ensures
      var own := t.prepares[k].reply.preparation;
      && |t.signs| <= |own.hashes| == |own.transactions|
      && forall j | 0 <= j < |t.signs| ::
           key.decode(own.hashes[j]).Some? && t.signs[j].call == Sign(key.decode(own.hashes[j]).value)
  {
    AgreesWithFirst(job, t, k);
  }

  /** One honest host is enough: each signature of a submitted bundle is over the hash of the
   *  bundle's own transaction at that index, and those are the transactions the honest host showed. */
  lemma OneHonestHostIsEnough(job: Job, key: Signer, t: Trace, k: nat, hashOf: string -> string, i: nat)
    requires Disciplined(job, key, t) && k < |job.hosts| && i < |t.submits|
    requires k < |t.prepares| && t.prepares[k].reply.Prepared? && Honest(t.prepares[k].reply.preparation, hashOf)
    ensures t.submits[i].call.Execute?
    ensures
      var bundle := t.submits[i].call.bundle;
      && bundle.transactions == t.prepares[k].reply.preparation.transactions
      && |bundle.signatures| == |bundle.transactions| == |t.signs|
      && forall j | 0 <= j < |t.signs| ::
           && key.decode(hashOf(bundle.transactions[j])).Some?
           && t.signs[j] == Event(Sign(key.decode(hashOf(bundle.transactions[j])).value),
                           Signature(bundle.signatures[j]))
  {
    AgreesWithFirst(job, t, k);
  }

  /** Two hosts that showed different transactions or hashes: nothing is signed or submitted. */
  lemma DisagreementSignsNothing(job: Job, key: Signer, t: Trace, j: nat, k: nat)
    requires Disciplined(job, key, t) && j < |t.prepares| && k < |t.prepares|
    requires t.prepares[j].reply.Prepared? && t.prepares[k].reply.Prepared?
    requires
      var a, b := t.prepares[j].reply.preparation, t.prepares[k].reply.preparation;
      a.transactions != b.transactions || a.hashes != b.hashes
    ensures t.signs == [] && t.submits == []
  {
    if Signable(job, t) {
      AgreesWithFirst(job, t, j);
      AgreesWithFirst(job, t, k);
    }
  }

  /** The order in the log itself: a signature comes after every host has prepared and agreed,
   *  and a submit comes after each transaction has its signature at the same index. */
  lemma LogOrder(job: Job, key: Signer, t: Trace, s: nat)
    requires Disciplined(job, key, t) && s < |Events(t)|
    ensures
      var log, n := Events(t), |job.hosts|;
      && (log[s].call.Sign? ==> n <= s && AllPrepared(job.hosts, log[..n]) && Unanimous(job.flow, Answers(log[..n])))
      && (log[s].call.Execute? ==>
            var bundle := log[s].call.bundle;
            && n + |bundle.transactions| <= s && |bundle.signatures| == |bundle.transactions|
            && forall k | 0 <= k < |bundle.transactions| ::
                 log[n + k].call.Sign? && log[n + k].reply == Signature(bundle.signatures[k]))
  {
    var log, n := Events(t), |job.hosts|;
    if s >= |t.prepares| {
      assert log[..n] == t.prepares;
    }
  }
}
