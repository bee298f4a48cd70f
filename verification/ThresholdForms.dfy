/** The forms that change a party's signing threshold: kick, add party and change threshold.
 *  Thresholds are 32-bit and wrap around, as they do in a release build. */
module ThresholdForms {
  import opened Prelude

  const I32_MIN := -0x8000_0000
  const I32_MAX := 0x7FFF_FFFF

  type I32 = n: int | I32_MIN <= n <= I32_MAX

  function Wrap(n: int): I32 {
    (n - I32_MIN) % 0x1_0000_0000 + I32_MIN
  }

  /** A count as a 32-bit number, the largest one when it does not fit. */
  function ToI32(count: nat): I32 {
    Min(count, I32_MAX)
  }

  datatype Participant = Participant(id: string, isOwner: bool)

  datatype Peer = Peer(id: string, isSelf: bool)

  datatype Party = Party(participants: seq<Participant>, owners: seq<string>, threshold: I32)

  datatype Purpose = Kick | AddParty | ChangeThreshold

  datatype Form = Form(
    purpose: Purpose, candidates: seq<string>, selected: nat, previous: I32, threshold: I32, max: I32)

  datatype Overlay = Editing(form: Form) | Closed | Busy | Message

  datatype Request =
    | KickRequest(participant: string, threshold: I32, previous: I32)
    | AddRequest(participant: string, threshold: I32, previous: I32)
    | ChangeRequest(threshold: I32, previous: I32)

  datatype Session = Session(overlay: Overlay, sent: seq<Request>)

  // ---------------------------------------------------------------- opening a form

  function SelfId(peers: seq<Peer>): Option<string> {
    if peers == [] then None else if peers[0].isSelf then Some(peers[0].id) else SelfId(peers[1..])
  }

  function Kickable(participants: seq<Participant>, self: string): seq<string> {
    if participants == [] then []
    else
      var first, rest := participants[0], Kickable(participants[1..], self);
      if first.isOwner && first.id != self then [first.id] + rest else rest
  }

  predicate IsMember(participants: seq<Participant>, id: string) {
    exists k | 0 <= k < |participants| :: participants[k].id == id
  }

  function Addable(peers: seq<Peer>, participants: seq<Participant>, self: string): seq<string> {
    if peers == [] then []
    else
      var first, rest := peers[0], Addable(peers[1..], participants, self);
      if !first.isSelf && first.id != self && !IsMember(participants, first.id) then [first.id] + rest else rest
  }

  function OpenKick(party: Party, self: string): Overlay {
    var candidates := Kickable(party.participants, self);
    var remaining := Max(ToI32(|party.owners|) - 1, 0);
    if candidates == [] || remaining < 1 then Message
    else Editing(Form(Kick, candidates, 0, party.threshold, Min(Max((remaining + 1) / 2, 1), remaining), remaining))
  }

  function Clamp(n: int, low: int, high: int): int
    requires low <= high
  {
    Max(low, Min(n, high))
  }

  function OpenAdd(party: Party, peers: seq<Peer>, self: string): Overlay {
    var candidates := Addable(peers, party.participants, self);
    var max := Min(ToI32(|party.owners|) + 1, I32_MAX);
    if candidates == [] then Message
    else Editing(Form(AddParty, candidates, 0, party.threshold, Clamp(party.threshold, 1, max), max))
  }

  function OpenChange(party: Party): Overlay {
    var owners := ToI32(|party.owners|);
    if owners < 2 then Message
    else Editing(Form(ChangeThreshold, [], 0, party.threshold, Clamp(party.threshold, 1, owners), owners))
  }

  /** What opens for a purpose; kick and add wait until this node knows its own identity. */
  function Open(purpose: Purpose, party: Party, peers: seq<Peer>): Overlay {
    var self := SelfId(peers);
    if purpose == ChangeThreshold then OpenChange(party)
    else if self.None? then Message
    else if purpose == Kick then OpenKick(party, self.value)
    else OpenAdd(party, peers, self.value)
  }

  // ---------------------------------------------------------------- keys

  datatype Key = Up | Down | Left | Right | Enter | Esc | Char(c: char) | OtherKey

  function Edited(form: Form, key: Key): Form {
    if (key == Up || key == Char('k')) && form.purpose != ChangeThreshold then
      form.(selected := if form.selected > 0 then form.selected - 1 else 0)
    else if (key == Down || key == Char('j')) && form.purpose != ChangeThreshold then
      if form.selected + 1 < |form.candidates| then form.(selected := form.selected + 1) else form
    else if key == Left || key == Char('-') then
      form.(threshold := Max(Wrap(form.threshold - 1), 1))
    else if key == Right || key == Char('+') then
      form.(threshold := Min(Wrap(form.threshold + 1), form.max))
    else
      form
  }

  /** Enter: the request to send, if any, and what is shown afterwards. */
  function Confirmed(form: Form): (Overlay, seq<Request>) {
    match form.purpose
    case Kick =>
      if form.selected < |form.candidates| then
        (Busy, [KickRequest(form.candidates[form.selected], form.threshold, form.previous)])
      else (Editing(form), [])
    case AddParty =>
      if form.selected < |form.candidates| then
        (Busy, [AddRequest(form.candidates[form.selected], form.threshold, form.previous)])
      else (Editing(form), [])
    case ChangeThreshold =>
      if form.threshold == form.previous then (Message, [])
      else (Busy, [ChangeRequest(form.threshold, form.previous)])
  }

  /** A key press; once the form is gone, keys go elsewhere. */
  function Pressed(s: Session, key: Key): Session {
    if !s.overlay.Editing? then s
    else if key == Esc then s.(overlay := Closed)
    else if key == Enter then
      var (overlay, requests) := Confirmed(s.overlay.form);
      Session(overlay, s.sent + requests)
    else s.(overlay := Editing(Edited(s.overlay.form, key)))
  }

  function AfterKeys(s: Session, keys: seq<Key>): Session {
    if keys == [] then s else Pressed(AfterKeys(s, keys[..|keys| - 1]), keys[|keys| - 1])
  }

  // ---------------------------------------------------------------- the application's state

  datatype Showing = Nothing | KickForm | AddPartyForm | ChangeThresholdForm | BusyNote | MessageNote

  /** The overlay with the fields of its form, and the requests handed to the worker. */
  class Screen {
    var showing: Showing
    var candidates: seq<string>
    var selected: nat
    var previousThreshold: I32
    var newThreshold: I32
    var maxThreshold: I32
    var sent: seq<Request>

    function FormOf(purpose: Purpose): Overlay
      reads this
    {
      Editing(Form(purpose, candidates, selected, previousThreshold, newThreshold, maxThreshold))
    }

    function State(): Session
      reads this
    {
      var overlay := match showing
                     case Nothing => Closed
                     case KickForm => FormOf(Kick)
                     case AddPartyForm => FormOf(AddParty)
                     case ChangeThresholdForm => FormOf(ChangeThreshold)
                     case BusyNote => Busy
                     case MessageNote => Message;
      Session(overlay, sent)
    }

    constructor ()
      ensures State() == Session(Closed, [])
    {
      showing, candidates, sent := Nothing, [], [];
      selected, previousThreshold, newThreshold, maxThreshold := 0, 0, 0, 0;
    }

    method OpenKickForm(party: Party, peers: seq<Peer>)
      modifies this
      ensures State() == Session(Open(Kick, party, peers), old(sent))
    {
      var self := SelfId(peers);
      if self.None? {
        showing := MessageNote;
        return;
      }
      candidates := Kickable(party.participants, self.value);
      if candidates == [] {
        showing := MessageNote;
        return;
      }
      var remaining := Max(ToI32(|party.owners|) - 1, 0);
      if remaining < 1 {
        showing := MessageNote;
        return;
      }
      previousThreshold, selected := party.threshold, 0;
      newThreshold, maxThreshold := Min(Max((remaining + 1) / 2, 1), remaining), remaining;
      showing := KickForm;
    }

    method OpenAddPartyForm(party: Party, peers: seq<Peer>)
      modifies this
      ensures State() == Session(Open(AddParty, party, peers), old(sent))
    {
      var self := SelfId(peers);
      if self.None? {
        showing := MessageNote;
        return;
      }
      candidates := Addable(peers, party.participants, self.value);
      if candidates == [] {
        showing := MessageNote;
        return;
      }
      maxThreshold := Min(ToI32(|party.owners|) + 1, I32_MAX);
      newThreshold := Clamp(party.threshold, 1, maxThreshold);
      previousThreshold, selected := party.threshold, 0;
      showing := AddPartyForm;
    }

    method OpenChangeThresholdForm(party: Party)
      modifies this
      ensures State() == Session(OpenChange(party), old(sent))
    {
      var owners := ToI32(|party.owners|);
      if owners < 2 {
        showing := MessageNote;
        return;
      }
      candidates, selected := [], 0;
      previousThreshold, newThreshold, maxThreshold := party.threshold, Clamp(party.threshold, 1, owners), owners;
      showing := ChangeThresholdForm;
    }

    /** Send the request of the form that is shown. */
    method Confirm()
      requires State().overlay.Editing?
      modifies this
      ensures
        var (overlay, requests) := Confirmed(old(State()).overlay.form);
        State() == Session(overlay, old(sent) + requests)
    {
      if showing == ChangeThresholdForm {
        if newThreshold == previousThreshold {
          showing := MessageNote;
          return;
        }
        sent := sent + [ChangeRequest(newThreshold, previousThreshold)];
      } else {
        if selected >= |candidates| {
          return;
        }
        sent := sent + [if showing == KickForm
                        then KickRequest(candidates[selected], newThreshold, previousThreshold)
                        else AddRequest(candidates[selected], newThreshold, previousThreshold)];
      }
      showing := BusyNote;
    }

    method Press(key: Key)
      modifies this
      ensures State() == Pressed(old(State()), key)
    {
      hide Wrap, Confirmed;
      if showing == Nothing || showing == BusyNote || showing == MessageNote {
        return;
      }
      match key {
        case Esc => showing := Nothing;
        case Enter => Confirm();
        case Up => MoveUp();
        case Down => MoveDown();
        case Left => newThreshold := Max(Wrap(newThreshold - 1), 1);
        case Right => newThreshold := Min(Wrap(newThreshold + 1), maxThreshold);
        case Char(c) =>
          if c == 'k' {
            MoveUp();
          } else if c == 'j' {
            MoveDown();
          } else if c == '-' {
            newThreshold := Max(Wrap(newThreshold - 1), 1);
          } else if c == '+' {
            newThreshold := Min(Wrap(newThreshold + 1), maxThreshold);
          }
        case OtherKey =>
      }
    }

    method MoveUp()
      modifies this`selected
      ensures selected == if showing != ChangeThresholdForm && old(selected) > 0
                          then old(selected) - 1 else old(selected)
    {
      if showing != ChangeThresholdForm && selected > 0 {
        selected := selected - 1;
      }
    }

    method MoveDown()
      modifies this`selected
      ensures selected == if showing != ChangeThresholdForm && old(selected) + 1 < |candidates|
                          then old(selected) + 1 else old(selected)
    {
      if showing != ChangeThresholdForm && selected + 1 < |candidates| {
        selected := selected + 1;
      }
    }

    /** The keys that come in while a form is open: what was promised of every key sequence holds of the
     *  requests that are really sent. */
    method PressAll(keys: seq<Key>, purpose: Purpose, party: Party, peers: seq<Peer>)
      requires State() == Session(Open(purpose, party, peers), [])
      modifies this
      ensures State() == AfterKeys(old(State()), keys)
      ensures BelowLimit(purpose, |party.owners|) ==>
                |sent| <= 1 && forall k | 0 <= k < |sent| :: Sound(sent[k], party, peers)
    {
      hide Pressed, Open, Sound, FormOk;
      for n := 0 to |keys|
        invariant State() == AfterKeys(old(State()), keys[..n])
      {
        assert keys[..n + 1][..n] == keys[..n];
        Press(keys[n]);
      }
      assert keys[..|keys|] == keys;
      if BelowLimit(purpose, |party.owners|) {
        OpenedOk(purpose, party, peers);
        RunKeepsOk(Session(Open(purpose, party, peers), []), keys, party, peers);
      }
    }
  }

  // ---------------------------------------------------------------- every key sequence

  function OwnersAfter(purpose: Purpose, owners: nat): int {
    match purpose
    case Kick => owners - 1
    case AddParty => owners + 1
    case ChangeThreshold => owners
  }

  /** A request the forms are meant to send: the threshold can be met by the owners there will be, a kick
   *  removes an owner other than this node, an add brings in a peer that is no member yet, and a change
   *  of threshold changes it. */
  predicate Sound(request: Request, party: Party, peers: seq<Peer>) {
    var owners := |party.owners|;
    match request
    case KickRequest(id, threshold, previous) =>
      && 1 <= threshold <= OwnersAfter(Kick, owners) && previous == party.threshold
      && Participant(id, true) in party.participants && Some(id) != SelfId(peers)
    case AddRequest(id, threshold, previous) =>
      && 1 <= threshold <= OwnersAfter(AddParty, owners) && previous == party.threshold
      && Peer(id, false) in peers && !IsMember(party.participants, id) && Some(id) != SelfId(peers)
    case ChangeRequest(threshold, previous) =>
      && 1 <= threshold <= OwnersAfter(ChangeThreshold, owners) && previous == party.threshold
      && threshold != previous
  }

  /** What every key keeps, as long as the highest threshold is below the 32-bit limit. */
  predicate FormOk(form: Form, party: Party, peers: seq<Peer>) {
    && 1 <= form.threshold <= form.max < I32_MAX
    && form.max <= OwnersAfter(form.purpose, |party.owners|)
    && form.previous == party.threshold
    && CandidatesOk(form, party, peers)
  }

  predicate CandidatesOk(form: Form, party: Party, peers: seq<Peer>) {
    var self := SelfId(peers);
    match form.purpose
    case Kick =>
      && self.Some? && form.selected < |form.candidates|
      && form.candidates == Kickable(party.participants, self.value)
    case AddParty =>
      && self.Some? && form.selected < |form.candidates|
      && form.candidates == Addable(peers, party.participants, self.value)
    case ChangeThreshold => true
  }

  predicate SessionOk(s: Session, party: Party, peers: seq<Peer>) {
    && |s.sent| <= (if s.overlay == Busy then 1 else 0)
    && (s.overlay.Editing? ==> FormOk(s.overlay.form, party, peers))
    && (forall k | 0 <= k < |s.sent| :: Sound(s.sent[k], party, peers))
  }

  /** The candidates for a kick are exactly the owner participants other than this node. */
  lemma {:induction false} KickableAre(participants: seq<Participant>, self: string, id: string)
    ensures id in Kickable(participants, self) <==> id != self && Participant(id, true) in participants
  {
    if participants != [] {
      KickableAre(participants[1..], self, id);
      assert participants == [participants[0]] + participants[1..];
    }
  }

  /** The candidates to add are exactly the peers that are neither this node nor a member yet. */
  lemma {:induction false} AddableAre(peers: seq<Peer>, participants: seq<Participant>, self: string, id: string)
    ensures id in Addable(peers, participants, self) <==>
            id != self && Peer(id, false) in peers && !IsMember(participants, id)
  {
    if peers != [] {
      AddableAre(peers[1..], participants, self, id);
      assert peers == [peers[0]] + peers[1..];
    }
  }

  /** The limit is out of reach exactly below these owner counts; a kick is always below. */
  predicate BelowLimit(purpose: Purpose, owners: nat) {
    match purpose
    case Kick => true
    case AddParty => owners + 1 < I32_MAX
    case ChangeThreshold => owners < I32_MAX
  }

  lemma OpenedOk(purpose: Purpose, party: Party, peers: seq<Peer>)
    requires BelowLimit(purpose, |party.owners|)
    ensures SessionOk(Session(Open(purpose, party, peers), []), party, peers)
  {
  }

  lemma PressKeepsOk(s: Session, key: Key, party: Party, peers: seq<Peer>)
    requires SessionOk(s, party, peers)
    ensures SessionOk(Pressed(s, key), party, peers)
  {
    hide Kickable, Addable, SelfId, IsMember;
    if s.overlay.Editing? && key == Enter {
      ConfirmIsSound(s.overlay.form, party, peers);
    }
  }

  lemma ConfirmIsSound(form: Form, party: Party, peers: seq<Peer>)
    requires FormOk(form, party, peers)
    ensures var (overlay, requests) := Confirmed(form);
            if requests == [] then overlay == Message
            else overlay == Busy && |requests| == 1 && Sound(requests[0], party, peers)
  {
    hide Kickable, Addable, SelfId, IsMember;
    match form.purpose
    case Kick => KickableAre(party.participants, SelfId(peers).value, form.candidates[form.selected]);
    case AddParty => AddableAre(peers, party.participants, SelfId(peers).value, form.candidates[form.selected]);
    case ChangeThreshold =>
  }

  lemma {:induction false} RunKeepsOk(s: Session, keys: seq<Key>, party: Party, peers: seq<Peer>)
    requires SessionOk(s, party, peers)
    ensures SessionOk(AfterKeys(s, keys), party, peers)
  {
    if keys != [] {
      var n := |keys| - 1;
      RunKeepsOk(s, keys[..n], party, peers);
      PressKeepsOk(AfterKeys(s, keys[..n]), keys[n], party, peers);
    }
  }

  /** What a run of the form sends. */
  ghost predicate SendsOnlySound(purpose: Purpose, party: Party, peers: seq<Peer>, keys: seq<Key>) {
    var sent := AfterKeys(Session(Open(purpose, party, peers), []), keys).sent;
    |sent| <= 1 && forall k | 0 <= k < |sent| :: Sound(sent[k], party, peers)
  }

  function Repeated(key: Key, n: nat): seq<Key> {
    seq(n, _ => key)
  }

  lemma WrapStep(x: int)
    ensures Wrap(Wrap(x) + 1) == Wrap(x + 1)
  {
    var m, y := 0x1_0000_0000, x - I32_MIN;
    assert y == y / m * m + y % m;
    if y % m + 1 == m {
      assert y + 1 == (y / m + 1) * m;
    } else {
      assert y + 1 == y / m * m + (y % m + 1);
    }
  }

  /** Holding the right key counts up to the 32-bit limit and on from the other end. */
  lemma {:induction false} RightsCountUp(s: Session, n: nat)
    requires s.overlay.Editing? && s.overlay.form.max == I32_MAX
    ensures AfterKeys(s, Repeated(Right, n)) ==
         s.(overlay := Editing(s.overlay.form.(threshold := Wrap(s.overlay.form.threshold + n))))
  {
    if n > 0 {
      hide Wrap;
      RightsCountUp(s, n - 1);
      WrapStep(s.overlay.form.threshold + n - 1);
      assert Repeated(Right, n)[..n - 1] == Repeated(Right, n - 1);
    } else {
      assert Wrap(s.overlay.form.threshold) == s.overlay.form.threshold;
    }
  }

  lemma OpenedAtLimit(purpose: Purpose, party: Party, peers: seq<Peer>)
    requires Open(purpose, party, peers).Editing? && !BelowLimit(purpose, |party.owners|)
    ensures var form := Open(purpose, party, peers).form;
            && form.purpose == purpose != Kick && form.max == I32_MAX && 1 <= form.threshold
            && (purpose == AddParty ==> form.candidates != [] && form.selected == 0)
  {
  }

  /** A key sequence that gets a threshold below 1 sent. */
  lemma LimitIsPassed(purpose: Purpose, party: Party, peers: seq<Peer>) returns (keys: seq<Key>)
    requires Open(purpose, party, peers).Editing? && !BelowLimit(purpose, |party.owners|)
    ensures !SendsOnlySound(purpose, party, peers, keys)
  {
    hide Open, Sound;
    OpenedAtLimit(purpose, party, peers);
    var s := Session(Open(purpose, party, peers), []);
    var form := s.overlay.form;
    var n := I32_MAX - form.threshold + if form.previous == I32_MIN then 2 else 1;
    RightsCountUp(s, n);
    keys := Repeated(Right, n) + [Enter];
    assert keys[..n] == Repeated(Right, n);
    var after := AfterKeys(s, keys);
    assert |after.sent| == 1 && after.sent[0].threshold < 1;
    NotSound(after.sent[0], party, peers);
  }

  lemma NotSound(request: Request, party: Party, peers: seq<Peer>)
    requires request.threshold < 1
    ensures !Sound(request, party, peers)
  {
  }

  /** Over every key sequence, an opened form sends at most one request and only sound ones, exactly when
   *  the owner count keeps its highest threshold below the 32-bit limit; for a kick it always does. */
  lemma FormsSendOnlySound(purpose: Purpose, party: Party, peers: seq<Peer>)
    requires Open(purpose, party, peers).Editing?
    ensures (forall keys :: SendsOnlySound(purpose, party, peers, keys)) <==> BelowLimit(purpose, |party.owners|)
  {
    hide Open, Sound, FormOk;
    if BelowLimit(purpose, |party.owners|) {
      OpenedOk(purpose, party, peers);
      forall keys
        ensures SendsOnlySound(purpose, party, peers, keys)
      {
        RunKeepsOk(Session(Open(purpose, party, peers), []), keys, party, peers);
      }
    } else {
      var keys := LimitIsPassed(purpose, party, peers);
    }
  }

  // ---------------------------------------------------------------- when a form opens, and its keys

  lemma {:induction false} SelfIsFirst(peers: seq<Peer>)
    ensures SelfId(peers).None? <==> forall k | 0 <= k < |peers| :: !peers[k].isSelf
    ensures SelfId(peers).Some? ==>
              exists k | 0 <= k < |peers| ::
                peers[k] == Peer(SelfId(peers).value, true) && forall m | 0 <= m < k :: !peers[m].isSelf
  {
    if peers != [] && !peers[0].isSelf {
      SelfIsFirst(peers[1..]);
      if SelfId(peers).Some? {
        var k :| 0 <= k < |peers| - 1 && peers[1..][k] == Peer(SelfId(peers).value, true)
                 && forall m | 0 <= m < k :: !peers[1..][m].isSelf;
        assert peers[k + 1] == peers[1..][k];
        assert forall m | 0 < m < k + 1 :: peers[m] == peers[1..][m - 1];
      }
    }
  }

  /** A form opens exactly when there is something to do: to kick, another owner participant and two owners; to
   *  add, a peer that is no member; to change, two owners. */
  lemma OpensExactly(party: Party, peers: seq<Peer>)
    ensures Open(ChangeThreshold, party, peers).Editing? <==> |party.owners| >= 2
    ensures Open(Kick, party, peers).Editing? <==>
            && SelfId(peers).Some? && |party.owners| >= 2
            && exists id :: id != SelfId(peers).value && Participant(id, true) in party.participants
    ensures Open(AddParty, party, peers).Editing? <==>
            && SelfId(peers).Some?
            && exists id :: id != SelfId(peers).value && Peer(id, false) in peers && !IsMember(party.participants, id)
  {
    hide Kickable, Addable, SelfId, IsMember;
    if SelfId(peers).Some? {
      var self := SelfId(peers).value;
      forall id: string
        ensures id in Kickable(party.participants, self) <==> id != self && Participant(id, true) in party.participants
        ensures id in Addable(peers, party.participants, self) <==>
                id != self && Peer(id, false) in peers && !IsMember(party.participants, id)
      {
        KickableAre(party.participants, self, id);
        AddableAre(peers, party.participants, self, id);
      }
      HasFirst(Kickable(party.participants, self));
      HasFirst(Addable(peers, party.participants, self));
    }
  }

  lemma HasFirst(candidates: seq<string>)
    ensures candidates != [] <==> exists id :: id in candidates
  {
    if candidates != [] {
      assert candidates[0] in candidates;
    }
  }

  /** The add and change forms open with the party's own threshold where it is in range, and go up to the owner
   *  count that there will be. */
  lemma OpensWithOwnThreshold(purpose: Purpose, party: Party, peers: seq<Peer>)
    requires purpose != Kick && Open(purpose, party, peers).Editing?
    ensures
      var form := Open(purpose, party, peers).form;
      && form.purpose == purpose && form.previous == party.threshold
      && form.max == Min(OwnersAfter(purpose, |party.owners|), I32_MAX)
      && (1 <= party.threshold <= form.max ==> form.threshold == party.threshold)
      && (party.threshold < 1 ==> form.threshold == 1) && (party.threshold > form.max ==> form.threshold == form.max)
  {
  }

  /** The letters and signs do what the arrows do, and escape closes the form without a request. */
  lemma KeysAlike(s: Session)
    requires s.overlay.Editing?
    ensures Pressed(s, Char('k')) == Pressed(s, Up) && Pressed(s, Char('j')) == Pressed(s, Down)
    ensures Pressed(s, Char('-')) == Pressed(s, Left) && Pressed(s, Char('+')) == Pressed(s, Right)
    ensures Pressed(s, Esc) == Session(Closed, s.sent)
  {
    hide Confirmed, Max, Min, Wrap;
    var form := s.overlay.form;
    assert Edited(form, Char('k')) == Edited(form, Up) && Edited(form, Char('j')) == Edited(form, Down);
    assert Edited(form, Char('-')) == Edited(form, Left) && Edited(form, Char('+')) == Edited(form, Right);
  }

  lemma OtherKeysDoNothing(s: Session, key: Key)
    requires s.overlay.Editing? && (key == OtherKey || (key.Char? && key.c !in "kj-+"))
    ensures Pressed(s, key) == s
  {
    hide Confirmed, Max, Min, Wrap;
  }

  lemma UpUndoesDown(s: Session)
    requires s.overlay.Editing?
    ensures s.overlay.form.selected + 1 < |s.overlay.form.candidates| ==> Pressed(Pressed(s, Down), Up) == s
    ensures s.overlay.form.purpose == ChangeThreshold ==> Pressed(s, Up) == s == Pressed(s, Down)
  {
    hide Wrap, Confirmed;
  }

  // ---------------------------------------------------------------- every choice can be made

  lemma {:induction false} KeysConcat(s: Session, a: seq<Key>, b: seq<Key>)
    ensures AfterKeys(s, a + b) == AfterKeys(AfterKeys(s, a), b)
    decreases |b|
  {
    if b == [] {
      assert a + b == a;
    } else {
      var n := |b| - 1;
      assert (a + b)[..|a| + n] == a + b[..n];
      KeysConcat(s, a, b[..n]);
    }
  }

  lemma {:induction false} DownsSelect(s: Session, n: nat)
    requires s.overlay.Editing? && s.overlay.form.purpose != ChangeThreshold
    requires s.overlay.form.selected + n < |s.overlay.form.candidates|
    ensures AfterKeys(s, Repeated(Down, n)) ==
         s.(overlay := Editing(s.overlay.form.(selected := s.overlay.form.selected + n)))
  {
    if n > 0 {
      DownsSelect(s, n - 1);
      assert Repeated(Down, n)[..n - 1] == Repeated(Down, n - 1);
    }
  }

  /** The keys that bring a threshold to `to`. */
  function KeysTo(from: I32, to: I32): seq<Key> {
    if from <= to then Repeated(Right, to - from) else Repeated(Left, from - to)
  }

  lemma {:induction false} ReachesThreshold(s: Session, to: I32)
    requires s.overlay.Editing? && 1 <= s.overlay.form.threshold <= s.overlay.form.max && 1 <= to <= s.overlay.form.max
    ensures AfterKeys(s, KeysTo(s.overlay.form.threshold, to)) ==
         s.(overlay := Editing(s.overlay.form.(threshold := to)))
    decreases Max(to - s.overlay.form.threshold, s.overlay.form.threshold - to)
  {
    hide KeysTo, Wrap;
    var from := s.overlay.form.threshold;
    if from == to {
      StayPut(from);
    } else {
      var near := if from < to then to - 1 else to + 1;
      ReachesThreshold(s, near);
      LastKeyTo(from, near, to);
      WrapInRange(to);
    }
  }

  lemma StayPut(n: I32)
    ensures KeysTo(n, n) == []
  {
  }

  lemma WrapInRange(n: I32)
    ensures Wrap(n) == n
  {
  }

  lemma LastKeyTo(from: I32, near: I32, to: I32)
    requires if from < to then near == to - 1 else from > to && near == to + 1
    ensures KeysTo(from, to) == KeysTo(from, near) + [if from < to then Right else Left]
    ensures KeysTo(from, to)[..|KeysTo(from, to)| - 1] == KeysTo(from, near)
  {
  }

  function RequestFor(form: Form, j: nat, threshold: I32): Request
    requires form.purpose != ChangeThreshold ==> j < |form.candidates|
  {
    match form.purpose
    case Kick => KickRequest(form.candidates[j], threshold, form.previous)
    case AddParty => AddRequest(form.candidates[j], threshold, form.previous)
    case ChangeThreshold => ChangeRequest(threshold, form.previous)
  }

  lemma OpenedForm(purpose: Purpose, party: Party, peers: seq<Peer>)
    requires Open(purpose, party, peers).Editing?
    ensures var form := Open(purpose, party, peers).form;
            form.purpose == purpose && form.selected == 0 && 1 <= form.threshold <= form.max
  {
  }

  /** On an opened form every candidate and every threshold in range can be chosen and sent. */
  lemma EveryChoiceCanBeSent(purpose: Purpose, party: Party, peers: seq<Peer>, j: nat, threshold: I32)
    returns (keys: seq<Key>)
    requires Open(purpose, party, peers).Editing?
    requires
      var form := Open(purpose, party, peers).form;
      && 1 <= threshold <= form.max
      && (if purpose == ChangeThreshold then threshold != form.previous else j < |form.candidates|)
    ensures
      var form := Open(purpose, party, peers).form;
      && (form.purpose != ChangeThreshold ==> j < |form.candidates|)
      && AfterKeys(Session(Open(purpose, party, peers), []), keys) == Session(Busy, [RequestFor(form, j, threshold)])
  {
    hide Open, Wrap, KeysTo;
    OpenedForm(purpose, party, peers);
    var s := Session(Open(purpose, party, peers), []);
    var form := s.overlay.form;
    var choose := if purpose == ChangeThreshold then [] else Repeated(Down, j);
    if purpose != ChangeThreshold {
      DownsSelect(s, j);
    }
    var chosen := AfterKeys(s, choose);
    var raise := KeysTo(form.threshold, threshold);
    ReachesThreshold(chosen, threshold);
    KeysConcat(s, choose, raise);
    keys := choose + raise + [Enter];
    assert keys[..|keys| - 1] == choose + raise;
  }

  /** The kick form opens with half of the remaining owners, rounded up, and leaves one owner or more. */
  lemma SuggestedThreshold(party: Party, peers: seq<Peer>)
    requires Open(Kick, party, peers).Editing?
    ensures var form := Open(Kick, party, peers).form;
            && form.max <= 2 * form.threshold <= form.max + 1
            && 2 <= |party.owners| && (|party.owners| <= I32_MAX ==> form.max == |party.owners| - 1)
  {
  }
}
