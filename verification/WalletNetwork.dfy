/** What a wallet can ask of the hosts and of its signer, and the log of what it asked.
 *
 *  The hosts, the signer and the clock are one arbitrary function `net` over an arbitrary
 *  state: they may lie, fail, collude and adapt to everything they have seen. A log is
 *  `Valid` when replaying its calls against that function gives its replies.
 */
module WalletNetwork {
  import opened Prelude
  import opened CantonIds

  datatype Host = Host(baseUrl: string, participant: CantonId)

  datatype WorkflowProgress = NotStarted | InProgress | Completed | Stopped | Cancelled

  datatype HostStatus = Hosted | Pending | NotHosted

  datatype HostPermission = Confirmation | Submission

  datatype PrepareRequest =
    | Onboarding(hint: string, publicKey: string, peers: seq<CantonId>, threshold: Option<nat>)
    | AddingHosts(partyId: string, permission: HostPermission, newHosts: seq<CantonId>, baseSerial: nat)
    | ChangingThreshold(partyId: string, newThreshold: nat, baseSerial: nat)

  /** A host's answer to a prepare. Onboarding reads no serial, the others read no party id. */
  datatype Preparation = Preparation(partyId: string, transactions: seq<string>, hashes: seq<string>, serial: nat)

  datatype Subject = NewParty(hint: string, publicKey: string) | ExistingParty(partyId: string, baseSerial: nat)

  datatype Bundle = Bundle(subject: Subject, transactions: seq<string>, signatures: seq<string>, signedBy: string)

  /** One block of a party's contracts; `number` counts from 1. */
  datatype Block = Block(
    number: nat, chunk: string, end: bool, totalLen: nat, sha256: string,
    packageIds: seq<string>, packagePreflight: bool)

  datatype ImportRequest = ImportRequest(
    partyId: string, baseSerial: nat, number: nat, chunk: string, end: bool, totalLen: nat, sha256: string,
    packageIds: seq<string>)

  datatype ImportProgress = ImportProgress(complete: bool, markerCleared: bool)

  datatype Call =
    | Prepare(host: Host, request: PrepareRequest)
    | Sign(message: seq<Byte>)
    | Execute(host: Host, bundle: Bundle)
    | ExportBlock(source: Host, partyId: string, target: CantonId, baseSerial: nat, number: nat)
    | ImportBlock(host: Host, block: ImportRequest)
    | AskStatus(host: Host, partyId: string)
    | ReadClock

  /** Anything but the reply that fits its call counts as a failed call. */
  datatype Reply =
    | Prepared(preparation: Preparation)
    | Signature(text: string)
    | Executed(progress: WorkflowProgress)
    | Exported(block: Block)
    | Imported(outcome: ImportProgress)
    | Status(status: HostStatus)
    | Elapsed(milliseconds: nat)
    | Refused

  datatype Event = Event(call: Call, reply: Reply)

  type Network<!E> = (E, Call) -> (E, Reply)

  datatype World<E> = World(start: E, env: E, log: seq<Event>)

  function EnvAfter<E>(net: Network<E>, start: E, log: seq<Event>): E {
    if log == [] then start
    else net(EnvAfter(net, start, log[..|log| - 1]), log[|log| - 1].call).0
  }

  ghost predicate Valid<E>(net: Network<E>, w: World<E>) {
    && w.env == EnvAfter(net, w.start, w.log)
    && forall i | 0 <= i < |w.log| :: w.log[i].reply == net(EnvAfter(net, w.start, w.log[..i]), w.log[i].call).1
  }

  method Ask<E>(net: Network<E>, w: World<E>, call: Call) returns (after: World<E>, reply: Reply)
    requires Valid(net, w)
    ensures Valid(net, after) && after.start == w.start && after.log == w.log + [Event(call, reply)]
  {
    var (env, answer) := net(w.env, call);
    reply := answer;
    after := World(w.start, env, w.log + [Event(call, reply)]);
    assert after.log[..|w.log|] == w.log;
    forall i | 0 <= i < |after.log|
      ensures after.log[i].reply == net(EnvAfter(net, w.start, after.log[..i]), after.log[i].call).1
    {
      assert after.log[..i] == w.log[..i];
    }
  }
}
