/** Perpetual licences: a fixed number of activation and device slots, taken and given back under a
    lock per licence, and the suspension and revocation of the licence itself. */
module Licences {
  import opened Common

  // ---------------------------------------------------------------- state

  datatype LicenceStatus = Pending | Active | Suspended | Revoked

  datatype SlotStatus = InUse | Deactivated | Barred

  datatype Licence = Licence(accountId: string, status: LicenceStatus, activationLimit: Option<int>, deviceLimit: Option<int>)

  /** A row of either slot table; the fingerprint hash may be missing. */
  datatype Slot = Slot(accountId: string, status: SlotStatus, fingerprintHash: string)

  /** Both slot tables are unique in licence id and device id. */
  datatype Place = Place(licenceId: string, deviceId: string)

  type Slots = map<Place, Slot>

  datatype State = State(licences: map<string, Licence>, activations: Slots, devices: Slots)

  datatype Error = Forbidden | NotFound | AlreadyLicensed | NotActive | DeviceRevoked | FingerprintDiffers
                 | ActivationLimitReached | DeviceLimitReached

  datatype Actor = Actor(accountId: string, commercialOperator: bool)

  type Answer = Result<string, Error>

  function ActiveKeys(slots: Slots, licenceId: string): set<Place> {
    set k | k in slots && k.licenceId == licenceId && slots[k].status == InUse
  }

  predicate Below(limit: Option<int>, count: int) {
    limit.None? || count < limit.value
  }

  function StatusAt(slots: Slots, key: Place): Option<SlotStatus> {
    if key in slots then Some(slots[key].status) else None
  }

  predicate FingerprintOf(slots: Slots, key: Place, fingerprintHash: string) {
    key in slots ==> slots[key].fingerprintHash in {"", fingerprintHash}
  }

  // ---------------------------------------------------------------- operations

  predicate HasPendingOrActive(s: State, accountId: string) {
    exists id :: id in s.licences && s.licences[id].accountId == accountId && s.licences[id].status in {Pending, Active}
  }

  function Issue(s: State, id: string, licence: Licence, planActive: bool, actor: Actor): (State, Answer) {
    if !actor.commercialOperator then (s, Err(Forbidden))
    else if !planActive then (s, Err(NotFound))
    else if HasPendingOrActive(s, licence.accountId) then (s, Err(AlreadyLicensed))
    else (s.(licences := s.licences[id := licence.(status := Active)]), Ok(id))
  }

  /** The checks under the lock, for the licence that the key was found to name. */
  function ActivationCheck(s: State, licenceId: string, deviceId: string, fingerprintHash: string): Answer {
    var key := Place(licenceId, deviceId);
    if licenceId !in s.licences then Err(NotFound)
    else
      var licence := s.licences[licenceId];
      if licence.status != Active then Err(NotActive)
      else if Some(Barred) in {StatusAt(s.activations, key), StatusAt(s.devices, key)} then Err(DeviceRevoked)
      else if !FingerprintOf(s.activations, key, fingerprintHash) || !FingerprintOf(s.devices, key, fingerprintHash)
      then Err(FingerprintDiffers)
      else if StatusAt(s.activations, key) != Some(InUse) && !Below(licence.activationLimit, |ActiveKeys(s.activations, licenceId)|)
      then Err(ActivationLimitReached)
      else if StatusAt(s.devices, key) != Some(InUse) && !Below(licence.deviceLimit, |ActiveKeys(s.devices, licenceId)|)
      then Err(DeviceLimitReached)
      else Ok(licenceId)
  }

  function Taken(slots: Slots, key: Place, accountId: string, fingerprintHash: string): Slots {
    slots[key := Slot(if key in slots then slots[key].accountId else accountId, InUse, fingerprintHash)]
  }

  function Activate(s: State, licenceId: string, deviceId: string, fingerprintHash: string): (State, Answer) {
    var answer := ActivationCheck(s, licenceId, deviceId, fingerprintHash);
    if answer.Err? || licenceId !in s.licences then (s, answer)
    else
      var key, accountId := Place(licenceId, deviceId), s.licences[licenceId].accountId;
      (s.(activations := Taken(s.activations, key, accountId, fingerprintHash),
          devices := Taken(s.devices, key, accountId, fingerprintHash)), answer)
  }

  function WithStatus(slots: Slots, key: Place, status: SlotStatus): Slots {
    if key in slots then slots[key := slots[key].(status := status)] else slots
  }

  function Deactivate(s: State, licenceId: string, deviceId: string, actor: Actor): (State, Answer) {
    var key := Place(licenceId, deviceId);
    if key !in s.activations then (s, Err(NotFound))
    else if s.activations[key].accountId != actor.accountId && !actor.commercialOperator then (s, Err(Forbidden))
    else (s.(activations := WithStatus(s.activations, key, Deactivated), devices := WithStatus(s.devices, key, Deactivated)),
          Ok(licenceId))
  }

  function SetStatus(s: State, licenceId: string, status: LicenceStatus): State
    requires licenceId in s.licences
  {
    s.(licences := s.licences[licenceId := s.licences[licenceId].(status := status)])
  }

  function Suspend(s: State, licenceId: string, actor: Actor): (State, Answer) {
    if !actor.commercialOperator then (s, Err(Forbidden))
    else if licenceId !in s.licences then (s, Err(NotFound))
    else (SetStatus(s, licenceId, Suspended), Ok(licenceId))
  }

  function BarActive(slots: Slots, licenceId: string): Slots {
    map k | k in slots :: if k.licenceId == licenceId && slots[k].status == InUse then slots[k].(status := Barred) else slots[k]
  }

  function Revoke(s: State, licenceId: string, actor: Actor): (State, Answer) {
    if !actor.commercialOperator then (s, Err(Forbidden))
    else if licenceId !in s.licences then (s, Err(NotFound))
    else
      (SetStatus(s, licenceId, Revoked).(activations := BarActive(s.activations, licenceId),
                                         devices := BarActive(s.devices, licenceId)),
       Ok(licenceId))
  }

  // ---------------------------------------------------------------- what every operation keeps

  predicate Coupled(activations: Slots, devices: Slots) {
    activations.Keys == devices.Keys && forall k :: k in activations ==> activations[k].status == devices[k].status
  }

  predicate WithinLimit(limit: Option<int>, count: int) {
    limit.Some? ==> count <= if limit.value > 0 then limit.value else 0
  }

  ghost predicate LimitsKept(s: State, id: string)
    requires id in s.licences
  {
    && WithinLimit(s.licences[id].activationLimit, |ActiveKeys(s.activations, id)|)
    && WithinLimit(s.licences[id].deviceLimit, |ActiveKeys(s.devices, id)|)
  }

  ghost predicate Inv(s: State) {
    && Coupled(s.activations, s.devices)
    && (forall k :: k in s.activations ==> k.licenceId in s.licences)
    && forall id :: id in s.licences ==> LimitsKept(s, id)
  }

  lemma SameActiveKeys(activations: Slots, devices: Slots, id: string)
    requires Coupled(activations, devices)
    ensures ActiveKeys(activations, id) == ActiveKeys(devices, id)
  {
  }

  lemma SubsetCount<T>(a: set<T>, b: set<T>)
    requires a <= b
    ensures |a| <= |b|
  {
    assert b == a + (b - a);
  }

  lemma TakenActiveKeys(slots: Slots, key: Place, accountId: string, fingerprintHash: string, id: string)
    ensures ActiveKeys(Taken(slots, key, accountId, fingerprintHash), id) ==
            ActiveKeys(slots, id) + (if key.licenceId == id then {key} else {})
    ensures StatusAt(slots, key) == Some(InUse) ==> key in ActiveKeys(slots, key.licenceId)
  {
  }

  /** A slot is taken below the limit, or was taken before: the limit stays kept. */
  lemma TakingKeepsLimit(limit: Option<int>, slots: Slots, key: Place, accountId: string, fingerprintHash: string)
    requires WithinLimit(limit, |ActiveKeys(slots, key.licenceId)|)
    requires StatusAt(slots, key) == Some(InUse) || Below(limit, |ActiveKeys(slots, key.licenceId)|)
    ensures WithinLimit(limit, |ActiveKeys(Taken(slots, key, accountId, fingerprintHash), key.licenceId)|)
  {
    TakenActiveKeys(slots, key, accountId, fingerprintHash, key.licenceId);
  }

  lemma OthersKeepLimit(slots: Slots, key: Place, accountId: string, fingerprintHash: string, id: string)
    requires id != key.licenceId
    ensures ActiveKeys(Taken(slots, key, accountId, fingerprintHash), id) == ActiveKeys(slots, id)
  {
  }

  lemma TakeBoth(s: State, after: State, key: Place, accountId: string, fingerprintHash: string, id: string)
    requires key.licenceId in s.licences && id in s.licences && LimitsKept(s, id)
    requires after == s.(activations := Taken(s.activations, key, accountId, fingerprintHash),
                         devices := Taken(s.devices, key, accountId, fingerprintHash))
    requires StatusAt(s.activations, key) == Some(InUse) ||
             Below(s.licences[key.licenceId].activationLimit, |ActiveKeys(s.activations, key.licenceId)|)
    requires StatusAt(s.devices, key) == Some(InUse) ||
             Below(s.licences[key.licenceId].deviceLimit, |ActiveKeys(s.devices, key.licenceId)|)
    ensures LimitsKept(after, id)
  {
    if id == key.licenceId {
      TakingKeepsLimit(s.licences[id].activationLimit, s.activations, key, accountId, fingerprintHash);
      TakingKeepsLimit(s.licences[id].deviceLimit, s.devices, key, accountId, fingerprintHash);
    } else {
      OthersKeepLimit(s.activations, key, accountId, fingerprintHash, id);
      OthersKeepLimit(s.devices, key, accountId, fingerprintHash, id);
    }
  }

  lemma TakingCouples(activations: Slots, devices: Slots, key: Place, accountId: string, fingerprintHash: string)
    requires Coupled(activations, devices)
    ensures Coupled(Taken(activations, key, accountId, fingerprintHash), Taken(devices, key, accountId, fingerprintHash))
  {
  }

  lemma ActivateKeepsInv(s: State, licenceId: string, deviceId: string, fingerprintHash: string)
    requires Inv(s)
    ensures Inv(Activate(s, licenceId, deviceId, fingerprintHash).0)
  {
    var (after, answer) := Activate(s, licenceId, deviceId, fingerprintHash);
    if answer.Ok? {
      var key, accountId := Place(licenceId, deviceId), s.licences[licenceId].accountId;
      TakingCouples(s.activations, s.devices, key, accountId, fingerprintHash);
      forall id | id in after.licences ensures LimitsKept(after, id) {
        TakeBoth(s, after, key, accountId, fingerprintHash, id);
      }
    }
  }

  /** No slot comes into use, and licences, slots and limits are those there were. */
  ghost predicate Shrinks(s: State, after: State) {
    && Coupled(after.activations, after.devices)
    && after.activations.Keys == s.activations.Keys && s.licences.Keys == after.licences.Keys
    && (forall id :: id in s.licences ==>
          after.licences[id].activationLimit == s.licences[id].activationLimit &&
          after.licences[id].deviceLimit == s.licences[id].deviceLimit)
    && forall k :: k in s.activations && after.activations[k].status == InUse ==> s.activations[k].status == InUse
  }

  lemma FewerInUse(s: State, after: State, id: string)
    requires Coupled(s.activations, s.devices) && Shrinks(s, after)
    ensures ActiveKeys(after.activations, id) <= ActiveKeys(s.activations, id)
    ensures |ActiveKeys(after.activations, id)| <= |ActiveKeys(s.activations, id)|
    ensures |ActiveKeys(after.devices, id)| <= |ActiveKeys(s.devices, id)|
  {
    SubsetCount(ActiveKeys(after.activations, id), ActiveKeys(s.activations, id));
    SameActiveKeys(after.activations, after.devices, id);
    SameActiveKeys(s.activations, s.devices, id);
  }

  lemma ShrinkingKeepsInv(s: State, after: State)
    requires Inv(s) && Shrinks(s, after)
    ensures Inv(after)
  {
    forall id | id in after.licences ensures LimitsKept(after, id) {
      assert LimitsKept(s, id);
      FewerInUse(s, after, id);
    }
  }

  lemma IssueKeepsInv(s: State, id: string, licence: Licence, planActive: bool, actor: Actor)
    requires Inv(s) && id !in s.licences
    ensures Inv(Issue(s, id, licence, planActive, actor).0)
  {
    var after := Issue(s, id, licence, planActive, actor).0;
    assert ActiveKeys(s.activations, id) == {} && ActiveKeys(s.devices, id) == {};
    forall k | k in after.licences ensures LimitsKept(after, k) {
      assert k != id ==> LimitsKept(s, k);
    }
  }

  lemma DeactivateShrinks(s: State, licenceId: string, deviceId: string, actor: Actor)
    requires Inv(s)
    ensures Shrinks(s, Deactivate(s, licenceId, deviceId, actor).0)
  {
  }

  lemma SuspendShrinks(s: State, licenceId: string, actor: Actor)
    requires Inv(s)
    ensures Shrinks(s, Suspend(s, licenceId, actor).0)
  {
  }

  lemma BarringCouples(s: State, licenceId: string)
    requires Coupled(s.activations, s.devices)
    ensures Coupled(BarActive(s.activations, licenceId), BarActive(s.devices, licenceId))
    ensures ActiveKeys(BarActive(s.devices, licenceId), licenceId) == {}
    ensures forall k :: k in s.activations && BarActive(s.activations, licenceId)[k].status == InUse ==>
              s.activations[k].status == InUse
  {
  }

  lemma RevokeShrinks(s: State, licenceId: string, actor: Actor)
    requires Inv(s)
    ensures Shrinks(s, Revoke(s, licenceId, actor).0)
    ensures Revoke(s, licenceId, actor).1.Ok? ==> ActiveKeys(Revoke(s, licenceId, actor).0.devices, licenceId) == {}
  {
    BarringCouples(s, licenceId);
  }

  // ---------------------------------------------------------------- runs

  datatype Op =
    | DoIssue(id: string, licence: Licence, planActive: bool, actor: Actor)
    | DoActivate(licenceId: string, deviceId: string, fingerprintHash: string)
    | DoDeactivate(licenceId: string, deviceId: string, actor: Actor)
    | DoSuspend(licenceId: string, actor: Actor)
    | DoRevoke(licenceId: string, actor: Actor)

  function Apply(s: State, op: Op): (State, Answer) {
    match op
    case DoIssue(id, licence, planActive, actor) => Issue(s, id, licence, planActive, actor)
    case DoActivate(id, deviceId, fingerprintHash) => Activate(s, id, deviceId, fingerprintHash)
    case DoDeactivate(id, deviceId, actor) => Deactivate(s, id, deviceId, actor)
    case DoSuspend(id, actor) => Suspend(s, id, actor)
    case DoRevoke(id, actor) => Revoke(s, id, actor)
  }

  /** Operations one after another; the database makes new licence ids unique. */
  ghost predicate Run(states: seq<State>, ops: seq<Op>) {
    && |states| == |ops| + 1
    && forall i {:trigger ops[i]} :: 0 <= i < |ops| ==>
         (ops[i].DoIssue? ==> ops[i].id !in states[i].licences) && states[i + 1] == Apply(states[i], ops[i]).0
  }

  lemma ApplyKeepsInv(s: State, op: Op)
    requires Inv(s) && (op.DoIssue? ==> op.id !in s.licences)
    ensures Inv(Apply(s, op).0)
  {
    match op {
      case DoIssue(id, licence, planActive, actor) => IssueKeepsInv(s, id, licence, planActive, actor);
      case DoActivate(id, deviceId, fingerprintHash) => ActivateKeepsInv(s, id, deviceId, fingerprintHash);
      case DoDeactivate(id, deviceId, actor) =>
        DeactivateShrinks(s, id, deviceId, actor);
        ShrinkingKeepsInv(s, Apply(s, op).0);
      case DoSuspend(id, actor) =>
        SuspendShrinks(s, id, actor);
        ShrinkingKeepsInv(s, Apply(s, op).0);
      case DoRevoke(id, actor) =>
        RevokeShrinks(s, id, actor);
        ShrinkingKeepsInv(s, Apply(s, op).0);
    }
  }

  /** In every run from the empty store the two slot tables go together and no limit is exceeded. */
  lemma {:induction false} RunKeepsInv(states: seq<State>, ops: seq<Op>, i: nat)
    requires Run(states, ops) && Inv(states[0]) && i < |states|
    ensures Inv(states[i])
    decreases i
  {
    if i > 0 {
      RunKeepsInv(states, ops, i - 1);
      assert ops[i - 1] == ops[i - 1];
      ApplyKeepsInv(states[i - 1], ops[i - 1]);
    }
  }

  lemma EmptyStoreHasInv()
    ensures Inv(State(map[], map[], map[]))
  {
  }

  /** What a slot table would have to do for a licence that is no longer active. */
  ghost predicate OnlyLoses(s: State, after: State, id: string)
    requires id in s.licences
  {
    id in after.licences && after.licences[id].status != Active && ActiveKeys(after.devices, id) <= ActiveKeys(s.devices, id)
  }

  lemma ShrinkingOnlyLoses(s: State, after: State, id: string)
    requires Inv(s) && Shrinks(s, after) && id in s.licences && after.licences[id].status != Active
    ensures OnlyLoses(s, after, id)
  {
    FewerInUse(s, after, id);
    SameActiveKeys(after.activations, after.devices, id);
    SameActiveKeys(s.activations, s.devices, id);
  }

  lemma ActivateOnlyLoses(s: State, licenceId: string, deviceId: string, fingerprintHash: string, id: string)
    requires id in s.licences && s.licences[id].status != Active
    ensures OnlyLoses(s, Activate(s, licenceId, deviceId, fingerprintHash).0, id)
  {
    if Activate(s, licenceId, deviceId, fingerprintHash).1.Ok? {
      OthersKeepLimit(s.devices, Place(licenceId, deviceId), s.licences[licenceId].accountId, fingerprintHash, id);
    }
  }

  lemma SuspendOnlyLoses(s: State, licenceId: string, actor: Actor, id: string)
    requires Inv(s) && id in s.licences && s.licences[id].status != Active
    ensures OnlyLoses(s, Suspend(s, licenceId, actor).0, id)
  {
    SuspendShrinks(s, licenceId, actor);
    ShrinkingOnlyLoses(s, Suspend(s, licenceId, actor).0, id);
  }

  lemma RevokeOnlyLoses(s: State, licenceId: string, actor: Actor, id: string)
    requires Inv(s) && id in s.licences && s.licences[id].status != Active
    ensures OnlyLoses(s, Revoke(s, licenceId, actor).0, id)
  {
    RevokeShrinks(s, licenceId, actor);
    ShrinkingOnlyLoses(s, Revoke(s, licenceId, actor).0, id);
  }

  lemma InactiveOnlyLoses(s: State, op: Op, id: string)
    requires Inv(s) && (op.DoIssue? ==> op.id !in s.licences)
    requires id in s.licences && s.licences[id].status != Active
    ensures OnlyLoses(s, Apply(s, op).0, id)
  {
    match op {
      case DoIssue(_, _, _, _) =>
      case DoActivate(licenceId, deviceId, fingerprintHash) => ActivateOnlyLoses(s, licenceId, deviceId, fingerprintHash, id);
      case DoDeactivate(licenceId, deviceId, actor) =>
        DeactivateShrinks(s, licenceId, deviceId, actor);
        ShrinkingOnlyLoses(s, Deactivate(s, licenceId, deviceId, actor).0, id);
      case DoSuspend(licenceId, actor) => SuspendOnlyLoses(s, licenceId, actor, id);
      case DoRevoke(licenceId, actor) => RevokeOnlyLoses(s, licenceId, actor, id);
    }
  }

  /** A licence that has left the active state stays out of it and never gains a device in use. */
  lemma {:induction false} LeftActiveForGood(states: seq<State>, ops: seq<Op>, i: nat, j: nat, id: string)
    requires Run(states, ops) && Inv(states[0]) && i <= j < |states|
    requires id in states[i].licences && states[i].licences[id].status != Active
    ensures OnlyLoses(states[i], states[j], id)
    decreases j
  {
    if i < j {
      LeftActiveForGood(states, ops, i, j - 1, id);
      RunKeepsInv(states, ops, j - 1);
      assert ops[j - 1] == ops[j - 1];
      InactiveOnlyLoses(states[j - 1], ops[j - 1], id);
    }
  }

  /** After a revocation no device of the licence is ever in use again. */
  lemma RevokedStaysEmpty(states: seq<State>, ops: seq<Op>, i: nat, j: nat)
    requires Run(states, ops) && Inv(states[0]) && i < j < |states| && ops[i].DoRevoke?
    requires Apply(states[i], ops[i]).1.Ok?
    ensures ActiveKeys(states[j].devices, ops[i].licenceId) == {}
  {
    RunKeepsInv(states, ops, i);
    RevokeShrinks(states[i], ops[i].licenceId, ops[i].actor);
    LeftActiveForGood(states, ops, i + 1, j, ops[i].licenceId);
  }

  /** Exactly when a device may take or keep a slot; a device in use is never refused for a limit. */
  lemma ActivationSucceeds(s: State, licenceId: string, deviceId: string, fingerprintHash: string)
    requires Inv(s)
    ensures var key := Place(licenceId, deviceId);
            Activate(s, licenceId, deviceId, fingerprintHash).1.Ok? <==>
            && licenceId in s.licences && s.licences[licenceId].status == Active
            && (key in s.devices ==> s.devices[key].status != Barred)
            && FingerprintOf(s.activations, key, fingerprintHash) && FingerprintOf(s.devices, key, fingerprintHash)
            && (key in ActiveKeys(s.devices, licenceId) ||
                (Below(s.licences[licenceId].activationLimit, |ActiveKeys(s.devices, licenceId)|) &&
                 Below(s.licences[licenceId].deviceLimit, |ActiveKeys(s.devices, licenceId)|)))
  {
    SameActiveKeys(s.activations, s.devices, licenceId);
  }

  /** A new licence is usable at once: any device may take its first slot if both limits allow one. */
  lemma IssuedLicenceActivates(s: State, id: string, licence: Licence, planActive: bool, actor: Actor, deviceId: string, hash: string)
    requires Inv(s) && id !in s.licences && Issue(s, id, licence, planActive, actor).1.Ok?
    ensures Activate(Issue(s, id, licence, planActive, actor).0, id, deviceId, hash).1.Ok? <==>
            Below(licence.activationLimit, 0) && Below(licence.deviceLimit, 0)
  {
    var after := Issue(s, id, licence, planActive, actor).0;
    assert ActiveKeys(after.activations, id) == {} && ActiveKeys(after.devices, id) == {};
  }

  lemma SlotFreed(slots: Slots, key: Place, id: string)
    ensures ActiveKeys(WithStatus(slots, key, Deactivated), id) == ActiveKeys(slots, id) - {key}
    ensures WithStatus(slots, key, Deactivated).Keys == slots.Keys
    ensures forall k :: k in slots && k != key ==> WithStatus(slots, key, Deactivated)[k] == slots[k]
  {
  }

  /** Deactivating frees exactly the device's slot: it is out of use in both tables and every other
      slot is as it was. */
  lemma DeactivationFreesSlot(s: State, licenceId: string, deviceId: string, actor: Actor, id: string)
    requires Inv(s) && Deactivate(s, licenceId, deviceId, actor).1.Ok?
    ensures var (after, key) := (Deactivate(s, licenceId, deviceId, actor).0, Place(licenceId, deviceId));
            && ActiveKeys(after.activations, id) == ActiveKeys(s.activations, id) - {key}
            && ActiveKeys(after.devices, id) == ActiveKeys(s.devices, id) - {key}
            && after.activations.Keys == s.activations.Keys && after.devices.Keys == s.devices.Keys
            && (forall k :: k in s.activations && k != key ==> after.activations[k] == s.activations[k])
            && (forall k :: k in s.devices && k != key ==> after.devices[k] == s.devices[k])
  {
    SlotFreed(s.activations, Place(licenceId, deviceId), id);
    SlotFreed(s.devices, Place(licenceId, deviceId), id);
  }

  /** A device that took a new slot and gives it back leaves the slots in use as they were. */
  lemma DeactivateUndoesActivate(s: State, licenceId: string, deviceId: string, hash: string, actor: Actor, id: string)
    requires Inv(s) && Place(licenceId, deviceId) !in s.devices && Activate(s, licenceId, deviceId, hash).1.Ok?
    requires actor.accountId == s.licences[licenceId].accountId
    ensures var after := Deactivate(Activate(s, licenceId, deviceId, hash).0, licenceId, deviceId, actor);
            after.1.Ok? && ActiveKeys(after.0.devices, id) == ActiveKeys(s.devices, id)
  {
    var key, accountId := Place(licenceId, deviceId), s.licences[licenceId].accountId;
    TakenActiveKeys(s.devices, key, accountId, hash, id);
    SlotFreed(Taken(s.devices, key, accountId, hash), key, id);
    assert key !in ActiveKeys(s.devices, id);
  }

  /** Neither a suspended nor a revoked licence activates any device. */
  lemma ClosedLicenceRefuses(s: State, licenceId: string, actor: Actor, deviceId: string, hash: string)
    ensures Suspend(s, licenceId, actor).1.Ok? ==>
              Activate(Suspend(s, licenceId, actor).0, licenceId, deviceId, hash).1 == Err(NotActive)
    ensures Revoke(s, licenceId, actor).1.Ok? ==>
              Activate(Revoke(s, licenceId, actor).0, licenceId, deviceId, hash).1 == Err(NotActive)
  {
  }

  // ---------------------------------------------------------------- what each operation does

  /** A successful activation leaves the device's slot in use under the given fingerprint in both
      tables, for the account that had it or else the licence's, and changes nothing else. */
  lemma ActivationTakesSlot(s: State, licenceId: string, deviceId: string, hash: string)
    requires Activate(s, licenceId, deviceId, hash).1.Ok?
    ensures var (after, key) := (Activate(s, licenceId, deviceId, hash).0, Place(licenceId, deviceId));
            && after.licences == s.licences && licenceId in s.licences
            && after.activations.Keys == s.activations.Keys + {key} && after.devices.Keys == s.devices.Keys + {key}
            && after.activations[key] ==
               Slot(if key in s.activations then s.activations[key].accountId else s.licences[licenceId].accountId, InUse, hash)
            && after.devices[key] ==
               Slot(if key in s.devices then s.devices[key].accountId else s.licences[licenceId].accountId, InUse, hash)
            && (forall k :: k in s.activations && k != key ==> after.activations[k] == s.activations[k])
            && forall k :: k in s.devices && k != key ==> after.devices[k] == s.devices[k]
  {
  }

  /** The device is in use under this fingerprint in both tables of an active licence. */
  predicate Bound(s: State, key: Place, hash: string) {
    && key.licenceId in s.licences && s.licences[key.licenceId].status == Active && key in s.activations && key in s.devices
    && s.activations[key].status == s.devices[key].status == InUse
    && s.activations[key].fingerprintHash == s.devices[key].fingerprintHash == hash
  }

  lemma BoundAnswers(s: State, key: Place, hash: string, other: string)
    requires Bound(s, key, hash)
    ensures Activate(s, key.licenceId, key.deviceId, hash).1 == Ok(key.licenceId)
    ensures hash !in {"", other} ==> Activate(s, key.licenceId, key.deviceId, other).1 == Err(FingerprintDiffers)
  {
    assert Place(key.licenceId, key.deviceId) == key;
  }

  /** After a device has activated under a fingerprint, another one is refused for the same device and
      the same one is accepted again. */
  lemma FingerprintIsBound(s: State, licenceId: string, deviceId: string, hash: string, other: string)
    requires Activate(s, licenceId, deviceId, hash).1.Ok?
    ensures var after := Activate(s, licenceId, deviceId, hash).0;
            && Activate(after, licenceId, deviceId, hash).1 == Ok(licenceId)
            && (hash !in {"", other} ==> Activate(after, licenceId, deviceId, other).1 == Err(FingerprintDiffers))
  {
    ActivationTakesSlot(s, licenceId, deviceId, hash);
    BoundAnswers(Activate(s, licenceId, deviceId, hash).0, Place(licenceId, deviceId), hash, other);
  }

  /** Every refusal has its own cause, and changes nothing. */
  lemma ActivationRefused(s: State, licenceId: string, deviceId: string, hash: string)
    requires Activate(s, licenceId, deviceId, hash).1.Err?
    ensures var (after, answer) := Activate(s, licenceId, deviceId, hash);
            var key := Place(licenceId, deviceId);
            && after == s
            && (answer.error.NotFound? <==> licenceId !in s.licences)
            && (answer.error.NotActive? <==> licenceId in s.licences && s.licences[licenceId].status != Active)
            && (answer.error.DeviceRevoked? ==>
                  (key in s.activations && s.activations[key].status == Barred) || (key in s.devices && s.devices[key].status == Barred))
            && (answer.error.FingerprintDiffers? ==>
                  || (key in s.activations && s.activations[key].fingerprintHash !in {"", hash})
                  || (key in s.devices && s.devices[key].fingerprintHash !in {"", hash}))
            && (answer.error.ActivationLimitReached? ==>
                  && s.licences[licenceId].activationLimit.Some?
                  && |ActiveKeys(s.activations, licenceId)| >= s.licences[licenceId].activationLimit.value)
            && (answer.error.DeviceLimitReached? ==>
                  && s.licences[licenceId].deviceLimit.Some?
                  && |ActiveKeys(s.devices, licenceId)| >= s.licences[licenceId].deviceLimit.value)
            && !answer.error.Forbidden? && !answer.error.AlreadyLicensed?
  {
  }

  predicate Open(s: State, id: string, accountId: string) {
    id in s.licences && s.licences[id].accountId == accountId && s.licences[id].status in {Pending, Active}
  }

  /** A commercial operator issues an account's licence under an active plan, unless the account has an
      open one. */
  lemma IssueExactly(s: State, id: string, licence: Licence, planActive: bool, actor: Actor)
    ensures var (after, answer) := Issue(s, id, licence, planActive, actor);
            && (answer.Ok? <==> actor.commercialOperator && planActive && forall other :: !Open(s, other, licence.accountId))
            && after == if answer.Err? then s
                        else s.(licences := s.licences[id := Licence(licence.accountId, Active, licence.activationLimit, licence.deviceLimit)])
  {
    assert HasPendingOrActive(s, licence.accountId) <==> exists other :: Open(s, other, licence.accountId) by {
      if HasPendingOrActive(s, licence.accountId) {
        var other :| other in s.licences && s.licences[other].accountId == licence.accountId && s.licences[other].status in {Pending, Active};
        assert Open(s, other, licence.accountId);
      } else if other :| Open(s, other, licence.accountId) {
        assert false;
      }
    }
  }

  /** The device's owner and a commercial operator may give a slot back. */
  lemma DeactivationExactly(s: State, licenceId: string, deviceId: string, actor: Actor)
    requires Inv(s)
    ensures var ((after, answer), key) := (Deactivate(s, licenceId, deviceId, actor), Place(licenceId, deviceId));
            && (answer.Ok? <==>
                key in s.activations && (s.activations[key].accountId == actor.accountId || actor.commercialOperator))
            && (answer.Ok? ==>
                  && after.activations[key] == s.activations[key].(status := Deactivated)
                  && after.devices[key] == s.devices[key].(status := Deactivated))
            && (answer.Err? ==> after == s)
  {
  }

  /** Suspension leaves every slot as it is; revocation bars exactly those in use. Both are for
      commercial operators and change no other licence. */
  lemma ClosingExactly(s: State, licenceId: string, actor: Actor)
    ensures var ((suspended, a), (revoked, b)) := (Suspend(s, licenceId, actor), Revoke(s, licenceId, actor));
            && (a.Ok? <==> b.Ok?) && (a.Ok? <==> actor.commercialOperator && licenceId in s.licences)
            && (a.Ok? ==>
                  && suspended == s.(licences := s.licences[licenceId := s.licences[licenceId].(status := Suspended)])
                  && revoked.licences == s.licences[licenceId := s.licences[licenceId].(status := Revoked)]
                  && BarredFrom(s.activations, licenceId, revoked.activations) && BarredFrom(s.devices, licenceId, revoked.devices))
            && (a.Err? ==> suspended == s && revoked == s)
  {
  }

  predicate BarredFrom(before: Slots, licenceId: string, after: Slots) {
    after.Keys == before.Keys &&
    forall k :: k in before ==>
      after[k] == if k.licenceId == licenceId && before[k].status == InUse then before[k].(status := Barred) else before[k]
  }

  /** No account has two open licences. */
  ghost predicate OneOpen(s: State) {
    forall a, b, accountId :: Open(s, a, accountId) && Open(s, b, accountId) ==> a == b
  }

  lemma OpenElsewhere(s: State, after: State, changed: set<string>)
    requires forall k :: k in after.licences && k !in changed ==> k in s.licences && after.licences[k] == s.licences[k]
    ensures forall k, accountId :: k !in changed && Open(after, k, accountId) ==> Open(s, k, accountId)
  {
  }

  lemma ApplyKeepsOneOpen(s: State, op: Op)
    requires OneOpen(s)
    ensures OneOpen(Apply(s, op).0)
  {
    match op
    case DoIssue(id, licence, planActive, actor) =>
      IssueExactly(s, id, licence, planActive, actor);
      OpenElsewhere(s, Apply(s, op).0, {id});
    case DoActivate(_, _, _) => OpenElsewhere(s, Apply(s, op).0, {});
    case DoDeactivate(_, _, _) => OpenElsewhere(s, Apply(s, op).0, {});
    case DoSuspend(id, _) => OpenElsewhere(s, Apply(s, op).0, {id});
    case DoRevoke(id, _) => OpenElsewhere(s, Apply(s, op).0, {id});
  }

  /** In every run from a store without any, no account ever holds two open licences. */
  lemma {:induction false} RunKeepsOneOpen(states: seq<State>, ops: seq<Op>, i: nat)
    requires Run(states, ops) && OneOpen(states[0]) && i < |states|
    ensures OneOpen(states[i])
    decreases i
  {
    if i > 0 {
      RunKeepsOneOpen(states, ops, i - 1);
      assert ops[i - 1] == ops[i - 1];
      ApplyKeepsOneOpen(states[i - 1], ops[i - 1]);
    }
  }

  // ---------------------------------------------------------------- the services

  class LicenceServices {
    var licences: map<string, Licence>
    var activations: Slots
    var devices: Slots

    function View(): State
      reads this
    {
      State(licences, activations, devices)
    }

    constructor ()
      ensures View() == State(map[], map[], map[]) && Inv(View())
    {
      licences, activations, devices := map[], map[], map[];
      new;
      EmptyStoreHasInv();
    }

    method IssueLicence(id: string, licence: Licence, planActive: bool, actor: Actor) returns (answer: Answer)
      modifies this
      ensures (View(), answer) == Issue(old(View()), id, licence, planActive, actor)
    {
      if !actor.commercialOperator {
        return Err(Forbidden);
      }
      if !planActive {
        return Err(NotFound);
      }
      if HasPendingOrActive(View(), licence.accountId) {
        return Err(AlreadyLicensed);
      }
      licences := licences[id := licence.(status := Active)];
      return Ok(id);
    }

    method TakeActivation(key: Place, accountId: string, fingerprintHash: string)
      modifies `activations
      ensures activations == Taken(old(activations), key, accountId, fingerprintHash)
    {
      if key in activations {
        activations := activations[key := activations[key].(status := InUse, fingerprintHash := fingerprintHash)];
      } else {
        activations := activations[key := Slot(accountId, InUse, fingerprintHash)];
      }
    }

    method TakeDevice(key: Place, accountId: string, fingerprintHash: string)
      modifies `devices
      ensures devices == Taken(old(devices), key, accountId, fingerprintHash)
    {
      if key in devices {
        devices := devices[key := devices[key].(status := InUse, fingerprintHash := fingerprintHash)];
      } else {
        devices := devices[key := Slot(accountId, InUse, fingerprintHash)];
      }
    }

    method ActivateDevice(licenceId: string, deviceId: string, fingerprintHash: string) returns (answer: Answer)
      modifies this
      ensures (View(), answer) == Activate(old(View()), licenceId, deviceId, fingerprintHash)
    {
      if licenceId !in licences {
        return Err(NotFound);
      }
      var licence, key := licences[licenceId], Place(licenceId, deviceId);
      if licence.status != Active {
        return Err(NotActive);
      }
      var activation, device := StatusAt(activations, key), StatusAt(devices, key);
      if activation == Some(Barred) || device == Some(Barred) {
        return Err(DeviceRevoked);
      }
      if !FingerprintOf(activations, key, fingerprintHash) || !FingerprintOf(devices, key, fingerprintHash) {
        return Err(FingerprintDiffers);
      }
      if activation != Some(InUse) && !Below(licence.activationLimit, |ActiveKeys(activations, licenceId)|) {
        return Err(ActivationLimitReached);
      }
      if device != Some(InUse) && !Below(licence.deviceLimit, |ActiveKeys(devices, licenceId)|) {
        return Err(DeviceLimitReached);
      }
      TakeActivation(key, licence.accountId, fingerprintHash);
      TakeDevice(key, licence.accountId, fingerprintHash);
      return Ok(licenceId);
    }

    method DeactivateDevice(licenceId: string, deviceId: string, actor: Actor) returns (answer: Answer)
      modifies this
      ensures (View(), answer) == Deactivate(old(View()), licenceId, deviceId, actor)
    {
      var key := Place(licenceId, deviceId);
      if key !in activations {
        return Err(NotFound);
      }
      if activations[key].accountId != actor.accountId && !actor.commercialOperator {
        return Err(Forbidden);
      }
      ghost var before := View();
      if activations[key].status != Deactivated {
        activations := activations[key := activations[key].(status := Deactivated)];
      }
      if key in devices && devices[key].status != Deactivated {
        devices := devices[key := devices[key].(status := Deactivated)];
      }
      assert activations == WithStatus(before.activations, key, Deactivated);
      assert devices == WithStatus(before.devices, key, Deactivated);
      return Ok(licenceId);
    }

    method SuspendLicence(licenceId: string, actor: Actor) returns (answer: Answer)
      modifies `licences
      ensures (View(), answer) == Suspend(old(View()), licenceId, actor)
    {
      if !actor.commercialOperator {
        return Err(Forbidden);
      }
      if licenceId !in licences {
        return Err(NotFound);
      }
      licences := licences[licenceId := licences[licenceId].(status := Suspended)];
      return Ok(licenceId);
    }

    method RevokeLicence(licenceId: string, actor: Actor) returns (answer: Answer)
      modifies this
      ensures (View(), answer) == Revoke(old(View()), licenceId, actor)
    {
      if !actor.commercialOperator {
        return Err(Forbidden);
      }
      if licenceId !in licences {
        return Err(NotFound);
      }
      licences := licences[licenceId := licences[licenceId].(status := Revoked)];
      activations := BarActive(activations, licenceId);
      devices := BarActive(devices, licenceId);
      return Ok(licenceId);
    }
  }
}
