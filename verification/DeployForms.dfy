/** The form that deploys governance for a party, its default quorum and its validation. */
module DeployForms {
  import opened Prelude
  import opened Texts

  datatype KnownMember = KnownMember(participant: string, party: Option<string>)

  datatype DeployForm = DeployForm(
    partyId: string, packageId: string, operatorParty: string,
    participants: seq<string>, parties: seq<string>, threshold: string, timeoutMicros: string)

  datatype ContractsRequest = ContractsRequest(
    partyId: string, participants: seq<string>, parties: seq<string>, operatorParty: string,
    packageId: string, threshold: int, timeoutMicros: int)

  datatype DeployError =
    UnknownPackage | NoMembers | ThresholdNotWhole | TimeoutNotWhole | ThresholdOutOfRange | TimeoutNotPositive

  const DEFAULT_TIMEOUT := "86400000000"

  /** A length as a 64-bit number, zero when it does not fit. */
  function Count(length: nat): nat {
    if length <= I64_MAX then length else 0
  }

  function DefaultThreshold(count: nat): int {
    Min(Max((count * 2 + 2) / 3, 2), Max(count, 1))
  }

  predicate IsResolved(member: KnownMember) {
    member.party.Some? && member.party.value != []
  }

  /** The members whose party is known, in the order in which they were reported. */
  function Resolved(known: seq<KnownMember>): (r: seq<KnownMember>)
    ensures forall k | 0 <= k < |r| :: IsResolved(r[k])
  {
    if known == [] then []
    else
      var before, last := Resolved(known[..|known| - 1]), known[|known| - 1];
      if IsResolved(last) then before + [last] else before
  }

  /** Participants and parties list the members in one order. */
  predicate Aligned(participants: seq<string>, parties: seq<string>, members: seq<KnownMember>) {
    && |participants| == |parties| == |members|
    && forall k | 0 <= k < |members| :: members[k] == KnownMember(participants[k], Some(parties[k]))
  }

  method BuildDeployForm(partyId: string, packages: Outcome<Option<string>>, known: Outcome<seq<KnownMember>>,
                         operator: Outcome<string>) returns (r: Outcome<DeployForm>)
    ensures r.Failed? <==> packages.Failed? || known.Failed?
    ensures r.Ok? ==> IsFresh(r.value, partyId, packages.value, known.value, operator)
  {
    if packages.Failed? || known.Failed? {
      return Failed;
    }
    var operatorParty := if operator.Ok? then operator.value else "";
    var participants, parties: seq<string> := [], [];
    for i := 0 to |known.value|
      invariant Aligned(participants, parties, Resolved(known.value[..i]))
    {
      assert known.value[..i + 1][..i] == known.value[..i];
      var member := known.value[i];
      if member.party.Some? && member.party.value != [] {
        participants := participants + [member.participant];
        parties := parties + [member.party.value];
      }
    }
    assert known.value[..|known.value|] == known.value;
    var packageId := if packages.value.Some? then packages.value.value else "";
    r := Ok(DeployForm(partyId, packageId, operatorParty, participants, parties,
                       PrintInt(DefaultThreshold(Count(|parties|))), DEFAULT_TIMEOUT));
  }

  predicate IsFresh(form: DeployForm, partyId: string, package: Option<string>, known: seq<KnownMember>,
                    operator: Outcome<string>) {
    && form.partyId == partyId
    && form.packageId == (if package.Some? then package.value else "")
    && form.operatorParty == (if operator.Ok? then operator.value else "")
    && Aligned(form.participants, form.parties, Resolved(known))
    && form.threshold == PrintInt(DefaultThreshold(Count(|form.parties|)))
    && form.timeoutMicros == DEFAULT_TIMEOUT
  }

  function BuildContractsRequest(form: DeployForm): Result<ContractsRequest, DeployError> {
    var threshold, timeout := ParseI64(Trim(form.threshold)), ParseI64(Trim(form.timeoutMicros));
    if form.packageId == [] then Failure(UnknownPackage)
    else if form.parties == [] then Failure(NoMembers)
    else if threshold.None? then Failure(ThresholdNotWhole)
    else if timeout.None? then Failure(TimeoutNotWhole)
    else if !(1 <= threshold.value <= Min(|form.parties|, I64_MAX)) then Failure(ThresholdOutOfRange)
    else if timeout.value <= 0 then Failure(TimeoutNotPositive)
    else Success(ContractsRequest(form.partyId, form.participants, form.parties, form.operatorParty,
                                  form.packageId, threshold.value, timeout.value))
  }

  // ---------------------------------------------------------------- validation

  /** Any form, edited or not, passes exactly with a package, a member, a whole threshold between 1 and the number
   *  of members and a whole positive timeout; the request then carries what the form says. */
  lemma ValidatesExactly(form: DeployForm)
    ensures
      BuildContractsRequest(form).Success? <==>
      && form.packageId != [] && form.parties != []
      && exists t, u :: Reads(form.threshold, t) && Reads(form.timeoutMicros, u) && 1 <= t <= |form.parties| && u > 0
    ensures BuildContractsRequest(form).Success? ==>
      var request := BuildContractsRequest(form).value;
      && request.partyId == form.partyId && request.participants == form.participants && request.parties == form.parties
      && request.operatorParty == form.operatorParty && request.packageId == form.packageId
      && Reads(form.threshold, request.threshold) && Reads(form.timeoutMicros, request.timeoutMicros)
  {
    hide ParseI64, Trim, Reads;
    forall n: int
      ensures Reads(form.threshold, n) <==> ParseI64(Trim(form.threshold)) == Some(n)
      ensures Reads(form.timeoutMicros, n) <==> ParseI64(Trim(form.timeoutMicros)) == Some(n)
    {
      ReadsTrimmed(form.threshold, n);
      ReadsTrimmed(form.timeoutMicros, n);
    }
    var t, u := ParseI64(Trim(form.threshold)), ParseI64(Trim(form.timeoutMicros));
    assert t.Some? ==> Reads(form.threshold, t.value);
    assert u.Some? ==> Reads(form.timeoutMicros, u.value);
    if t.Some? {
      ReadsFits(form.threshold, t.value);
    }
  }

  lemma ReadsFits(text: string, n: int)
    requires Reads(text, n)
    ensures I64_MIN <= n <= I64_MAX
  {
  }

  /** What is reported is the first thing that is wrong. */
  lemma FirstProblem(form: DeployForm)
    requires BuildContractsRequest(form).Failure?
    ensures
      var t, u := ParseI64(Trim(form.threshold)), ParseI64(Trim(form.timeoutMicros));
      match BuildContractsRequest(form).error
      case UnknownPackage => form.packageId == []
      case NoMembers => form.packageId != [] && form.parties == []
      case ThresholdNotWhole => form.packageId != [] && form.parties != [] && t.None?
      case TimeoutNotWhole => form.packageId != [] && form.parties != [] && t.Some? && u.None?
      case ThresholdOutOfRange =>
        && form.packageId != [] && form.parties != [] && t.Some? && u.Some?
        && (t.value < 1 || t.value > |form.parties|)
      case TimeoutNotPositive =>
        && form.packageId != [] && form.parties != [] && t.Some? && u.Some?
        && 1 <= t.value <= |form.parties| && u.value <= 0
  {
    hide ParseI64, Trim;
    forall n: int
      ensures ParseI64(Trim(form.threshold)) == Some(n) ==> n <= I64_MAX
    {
      ReadsTrimmed(form.threshold, n);
    }
  }

  // ---------------------------------------------------------------- the default quorum

  /** The default is the smallest quorum of at least two thirds and at least two, where there are two. */
  lemma DefaultIsQuorum(n: nat)
    requires n >= 1
    ensures var t := DefaultThreshold(n);
            && 1 <= t <= n && 2 * n <= 3 * t
            && forall s: nat | Min(2, n) <= s && 2 * n <= 3 * s :: t <= s
  {
    forall s: nat | Min(2, n) <= s && 2 * n <= 3 * s
      ensures DefaultThreshold(n) <= s
    {
    }
  }

  lemma {:induction false} SubsetIsNoLarger<T>(small: set<T>, large: set<T>)
    requires small <= large
    ensures |small| <= |large|
  {
    if small != {} {
      var x :| x in small;
      SubsetIsNoLarger(small - {x}, large - {x});
    }
  }

  /** Any two quorums of the default size share at least a third of the members. */
  lemma QuorumsIntersect<T>(members: set<T>, a: set<T>, b: set<T>)
    requires members != {} && a <= members && b <= members
    requires |a| >= DefaultThreshold(|members|) && |b| >= DefaultThreshold(|members|)
    ensures 3 * |a * b| >= |members| && a * b != {}
  {
    DefaultIsQuorum(|members|);
    SubsetIsNoLarger(a + b, members);
    assert |a + b| + |a * b| == |a| + |b|;
  }

  /** A form passes validation as it was built exactly when there is a package and a resolved member; the
   *  request then lists the resolved members, participants and parties in one order, under a quorum. */
  lemma FreshFormIsValid(form: DeployForm, partyId: string, package: Option<string>, known: seq<KnownMember>,
                         operator: Outcome<string>)
    requires IsFresh(form, partyId, package, known, operator)
    ensures var r, n := BuildContractsRequest(form), |Resolved(known)|;
            && (r.Success? <==> package.Some? && package.value != [] && n > 0)
            && (r.Success? ==>
                && Aligned(r.value.participants, r.value.parties, Resolved(known))
                && r.value.partyId == partyId && r.value.packageId == package.value
                && r.value.threshold == DefaultThreshold(Count(n)) && r.value.timeoutMicros == 86_400_000_000)
  {
    hide ParseI64, Trim;
    var n := Count(|form.parties|);
    ParsesTrimmed(DefaultThreshold(n));
    DefaultTimeoutParses();
    if n >= 1 {
      DefaultIsQuorum(n);
    }
  }

  lemma ParsesTrimmed(n: int)
    ensures ParseI64(Trim(PrintInt(n))) == if I64_MIN <= n <= I64_MAX then Some(n) else None
  {
    ParsePrinted(n);
    TrimIsTrimmed(PrintInt(n));
    var s := PrintInt(n);
    assert s[|s| - 1] == (if n < 0 then Digits(-n) else Digits(n))[|s| - 1 - if n < 0 then 1 else 0];
  }

  lemma Tenfold(s: string, n: nat)
    requires AllDigits(s) && DigitsValue(s) == n
    ensures AllDigits(s + "0") && DigitsValue(s + "0") == 10 * n
  {
    assert (s + "0")[..|s|] == s;
  }

  lemma Thousandfold(s: string, n: nat)
    requires AllDigits(s) && DigitsValue(s) == n
    ensures AllDigits(s + "000") && DigitsValue(s + "000") == 1000 * n
  {
    hide *;
    Tenfold(s, n);
    Tenfold(s + "0", 10 * n);
    Tenfold(s + "0" + "0", 100 * n);
    assert s + "0" + "0" + "0" == s + "000";
  }

  lemma DefaultTimeoutParses()
    ensures ParseI64(Trim(DEFAULT_TIMEOUT)) == Some(86_400_000_000)
  {
    hide DigitsValue;
    DigitsOf86400();
    assert "86400000" == "86400" + "000" && DEFAULT_TIMEOUT == "86400000" + "000";
    Thousandfold("86400", 86_400);
    Thousandfold("86400000", 86_400_000);
    TrimIsTrimmed(DEFAULT_TIMEOUT);
  }

  lemma DigitsOf86400()
    ensures AllDigits("86400") && DigitsValue("86400") == 86_400
  {
    assert DigitsValue("8") == 8;
    assert "86"[..1] == "8" && "864"[..2] == "86" && "8640"[..3] == "864" && "86400"[..4] == "8640";
    assert DigitsValue("86") == 86;
    assert DigitsValue("864") == 864;
    assert DigitsValue("8640") == 8640;
  }
}
