/** Pairing of encryption devices. Every handler is a sequence of database calls; Next performs one
    call of one handler, so a run may interleave handlers between any two calls. */
module DevicePairing {
  import opened Common
  import opened Text

  datatype User = User(accountId: string, userId: string)

  datatype Device = Device(owner: User, fingerprint: string, linkedAt: Option<int>, linkedBy: Option<string>, revokedAt: Option<int>)

  datatype LinkStatus = Pending | Approved | Completed | Cancelled

  datatype Link = Link(owner: User, target: string, code: string, expiresAt: int, status: LinkStatus,
                       attempts: nat, approvedBy: Option<string>)

  datatype KeySlot = KeySlot(messageId: string, target: string)

  datatype HistoryKey = HistoryKey(linkId: string, source: string, wrappedKey: string)

  datatype Db = Db(devices: map<string, Device>, links: map<string, Link>, keys: map<KeySlot, HistoryKey>)

  /** One wrapped message key of an upload, with the length of its JSON text. The flags are the
      verdicts of the shape check, the signature check, the conversation check and the
      stored-envelope check. */
  datatype Item = Item(conversationId: string, messageId: string, wrappedKey: string, jsonLength: nat,
                       wellFormed: bool, signed: bool, accessible: bool, encrypted: bool)

  datatype Failure = Refused | RateLimited | NotFound | AlreadyTaken

  /** A handler with the locals it still needs, named after the database call it makes next. */
  datatype Handler =
    | RegisterLookup(user: User, id: string, fingerprint: string)
    | RegisterCreate(user: User, id: string, fingerprint: string)
    | StartRead(user: User, target: string, linkId: string, code: string, limited: bool)
    | StartCancel(user: User, target: string, linkId: string, code: string)
    | StartCreate(user: User, target: string, linkId: string, code: string)
    | ApproveRead(user: User, linkId: string, source: string, code: string, signed: bool, limited: bool)
    | ApproveSource(user: User, linkId: string, source: string, row: Link, signed: bool)
    | ApproveMiss(linkId: string)
    | ApproveClaim(user: User, linkId: string, source: string, row: Link)
    | ApproveTarget(user: User, linkId: string, source: string, row: Link)
    | CancelRead(user: User, linkId: string)
    | CancelWrite(linkId: string)
    | UploadRead(user: User, linkId: string, source: string, items: seq<Item>)
    | UploadSource(user: User, linkId: string, source: string, row: Link, items: seq<Item>)
    | UploadTarget(user: User, linkId: string, source: string, row: Link, items: seq<Item>)
    | UploadWrite(linkId: string, source: string, row: Link, items: seq<Item>)
    | CompleteRead(user: User, linkId: string, source: string, signed: bool)
    | CompleteSource(user: User, linkId: string, source: string, signed: bool)
    | CompleteWrite(linkId: string)
    | RevokeSource(user: User, id: string, source: string, signed: bool)
    | RevokeTarget(user: User, id: string, source: string, signed: bool)
    | RevokeDevice(user: User, id: string, source: string)
    | RevokeKeys(id: string)
    | RevokeLinks(id: string)
    | Succeeded
    | Failed(failure: Failure)

  const LINK_TTL: int := 5 * 60 * 1000

  predicate Finished(h: Handler) {
    h.Succeeded? || h.Failed?
  }

  /** linkedDevice: the device belongs to the user, is linked and is not revoked. */
  predicate Trusted(db: Db, user: User, id: string) {
    IsUuid(id) && id in db.devices && db.devices[id].owner == user &&
    db.devices[id].linkedAt.Some? && db.devices[id].revokedAt.None?
  }

  predicate OwnLink(db: Db, user: User, linkId: string) {
    IsUuid(linkId) && linkId in db.links && db.links[linkId].owner == user
  }

  predicate IsCode(code: string) {
    |code| == 10 && Digits(code)
  }

  function SetStatus(links: map<string, Link>, ids: set<string>, status: LinkStatus): map<string, Link> {
    map id | id in links :: if id in ids then links[id].(status := status) else links[id]
  }

  /** The pending links of a user for one target. */
  function PendingFor(links: map<string, Link>, user: User, target: string): set<string> {
    set id | id in links && links[id].owner == user && links[id].target == target && links[id].status == Pending
  }

  function DropKeys(keys: map<KeySlot, HistoryKey>, target: string): map<KeySlot, HistoryKey> {
    map slot | slot in keys && slot.target != target :: keys[slot]
  }

  /** The links of a target that a revocation cancels. */
  function OpenFor(links: map<string, Link>, target: string): set<string> {
    set id | id in links && links[id].target == target && links[id].status in {Pending, Approved}
  }

  // ---------------------------------------------------------------- history batches

  predicate DistinctMessages(items: seq<Item>) {
    forall i, j :: 0 <= i < j < |items| ==> items[i].messageId != items[j].messageId
  }

  function Conversations(items: seq<Item>): set<string> {
    set i | 0 <= i < |items| :: items[i].conversationId
  }

  const MAX_BATCH_LENGTH := 1_300_000

  /** The length of the batch as a JSON array: the items, the commas between them and two brackets. */
  function BatchLength(items: seq<Item>): (n: nat)
    ensures n >= 2 && (items != [] ==> n >= |items| + 1)
  {
    if items == [] then 2
    else if |items| == 1 then items[0].jsonLength + 2
    else BatchLength(items[..|items| - 1]) + 1 + items[|items| - 1].jsonLength
  }

  predicate BatchAccepted(items: seq<Item>) {
    && 1 <= |items| <= 100
    && DistinctMessages(items)
    && BatchLength(items) <= MAX_BATCH_LENGTH
    && |Conversations(items)| <= 30
    && forall i :: 0 <= i < |items| ==> items[i].wellFormed && items[i].signed && items[i].accessible && items[i].encrypted
  }

  /** createMany with skipDuplicates: a slot that is already filled keeps its key. */
  function StoreKeys(keys: map<KeySlot, HistoryKey>, linkId: string, source: string, target: string, items: seq<Item>)
    : (after: map<KeySlot, HistoryKey>)
    ensures forall slot :: slot in keys ==> slot in after && after[slot] == keys[slot]
  {
    if items == [] then keys
    else
      var n := |items| - 1;
      var rest := StoreKeys(keys, linkId, source, target, items[..n]);
      var slot := KeySlot(items[n].messageId, target);
      if slot in rest then rest else rest[slot := HistoryKey(linkId, source, items[n].wrappedKey)]
  }

  // ---------------------------------------------------------------- one database call

  /** How many database calls a handler may still make. */
  function CallsLeft(h: Handler): nat {
    match h
    case RegisterLookup(_, _, _) => 2
    case RegisterCreate(_, _, _) => 1
    case StartRead(_, _, _, _, _) => 3
    case StartCancel(_, _, _, _) => 2
    case StartCreate(_, _, _, _) => 1
    case ApproveRead(_, _, _, _, _, _) => 4
    case ApproveSource(_, _, _, _, _) => 3
    case ApproveMiss(_) => 1
    case ApproveClaim(_, _, _, _) => 2
    case ApproveTarget(_, _, _, _) => 1
    case CancelRead(_, _) => 2
    case CancelWrite(_) => 1
    case UploadRead(_, _, _, _) => 4
    case UploadSource(_, _, _, _, _) => 3
    case UploadTarget(_, _, _, _, _) => 2
    case UploadWrite(_, _, _, _) => 1
    case CompleteRead(_, _, _, _) => 3
    case CompleteSource(_, _, _, _) => 2
    case CompleteWrite(_) => 1
    case RevokeSource(_, _, _, _) => 5
    case RevokeTarget(_, _, _, _) => 4
    case RevokeDevice(_, _, _) => 3
    case RevokeKeys(_) => 2
    case RevokeLinks(_) => 1
    case Succeeded => 0
    case Failed(_) => 0
  }

  predicate IsRegister(h: Handler) {
    h.RegisterLookup? || h.RegisterCreate?
  }

  predicate IsStart(h: Handler) {
    h.StartRead? || h.StartCancel? || h.StartCreate?
  }

  predicate IsApprove(h: Handler) {
    h.ApproveRead? || h.ApproveMiss? || h.ApproveSource? || h.ApproveClaim? || h.ApproveTarget?
  }

  predicate IsCancel(h: Handler) {
    h.CancelRead? || h.CancelWrite?
  }

  predicate IsUpload(h: Handler) {
    h.UploadRead? || h.UploadSource? || h.UploadTarget? || h.UploadWrite?
  }

  predicate IsComplete(h: Handler) {
    h.CompleteRead? || h.CompleteSource? || h.CompleteWrite?
  }

  predicate IsRevoke(h: Handler) {
    h.RevokeSource? || h.RevokeTarget? || h.RevokeDevice? || h.RevokeKeys? || h.RevokeLinks?
  }

  /** registerKey: only the first device a user ever registers links itself. */
  function RegisterCall(db: Db, h: Handler, now: int): (r: (Db, Handler))
    requires IsRegister(h)
    ensures CallsLeft(r.1) < CallsLeft(h)
  {
    match h
    case RegisterLookup(user, id, fingerprint) =>
      if !IsUuid(id) then (db, Failed(Refused))
      else if id in db.devices then
        var d := db.devices[id];
        (db, if d.owner == user && d.revokedAt.None? && d.fingerprint == fingerprint then Succeeded else Failed(Refused))
      else (db, RegisterCreate(user, id, fingerprint))
    case RegisterCreate(user, id, fingerprint) =>
      if id in db.devices then (db, Failed(AlreadyTaken))
      else
        var first := forall d :: d in db.devices ==> db.devices[d].owner != user;
        (db.(devices := db.devices[id := Device(user, fingerprint, if first then Some(now) else None, None, None)]), Succeeded)
  }

  /** start: a registered, unlinked device asks to be linked; older requests for it are cancelled. */
  function StartCall(db: Db, h: Handler, now: int): (r: (Db, Handler))
    requires IsStart(h)
    ensures CallsLeft(r.1) < CallsLeft(h)
  {
    match h
    case StartRead(user, target, linkId, code, limited) =>
      if !IsUuid(target) then (db, Failed(Refused))
      else if target !in db.devices || db.devices[target].owner != user || db.devices[target].revokedAt.Some? then
        (db, Failed(NotFound))
      else if db.devices[target].linkedAt.Some? then (db, Failed(Refused))
      else if limited then (db, Failed(RateLimited))
      else (db, StartCancel(user, target, linkId, code))
    case StartCancel(user, target, linkId, code) =>
      (db.(links := SetStatus(db.links, PendingFor(db.links, user, target), Cancelled)), StartCreate(user, target, linkId, code))
    case StartCreate(user, target, linkId, code) =>
      if linkId in db.links then (db, Failed(AlreadyTaken))
      else (db.(links := db.links[linkId := Link(user, target, code, now + LINK_TTL, Pending, 0, None)]), Succeeded)
  }

  /** approve: a trusted device proves the code; the link row is claimed by a conditional update before
      the device row is linked by another. */
  function ApproveCall(db: Db, h: Handler, now: int): (r: (Db, Handler))
    requires IsApprove(h)
    ensures CallsLeft(r.1) < CallsLeft(h)
  {
    match h
    case ApproveRead(user, linkId, source, code, signed, limited) =>
      if !OwnLink(db, user, linkId) then (db, Failed(NotFound))
      else
        var row := db.links[linkId];
        if limited then (db, Failed(RateLimited))
        else if row.status != Pending || row.expiresAt <= now || row.attempts >= 5 then (db, Failed(Refused))
        else if !IsCode(code) || !IsUuid(source) || source == row.target || code != row.code then (db, ApproveMiss(linkId))
        else (db, ApproveSource(user, linkId, source, row, signed))
    case ApproveMiss(linkId) =>
      (if linkId in db.links then
         db.(links := db.links[linkId := db.links[linkId].(attempts := db.links[linkId].attempts + 1)]) else db,
       Failed(Refused))
    case ApproveSource(user, linkId, source, row, signed) =>
      if !Trusted(db, user, source) then (db, Failed(Refused))
      else if !signed then (db, ApproveMiss(linkId))
      else (db, ApproveClaim(user, linkId, source, row))
    case ApproveClaim(user, linkId, source, row) =>
      if linkId in db.links && db.links[linkId].status == Pending && db.links[linkId].expiresAt > now && db.links[linkId].attempts < 5 then
        (db.(links := db.links[linkId := db.links[linkId].(status := Approved, approvedBy := Some(source))]),
         ApproveTarget(user, linkId, source, row))
      else (db, Failed(Refused))
    case ApproveTarget(user, linkId, source, row) =>
      if row.target in db.devices && db.devices[row.target].owner == user && db.devices[row.target].linkedAt.None? &&
         db.devices[row.target].revokedAt.None? then
        (db.(devices := db.devices[row.target := db.devices[row.target].(linkedAt := Some(now), linkedBy := Some(source))]), Succeeded)
      else (db, Failed(Refused))
  }

  /** cancel */
  function CancelCall(db: Db, h: Handler, now: int): (r: (Db, Handler))
    requires IsCancel(h)
    ensures CallsLeft(r.1) < CallsLeft(h)
  {
    match h
    case CancelRead(user, linkId) =>
      if !OwnLink(db, user, linkId) then (db, Failed(NotFound))
      else if db.links[linkId].status != Pending then (db, Failed(Refused))
      else (db, CancelWrite(linkId))
    case CancelWrite(linkId) =>
      (if linkId in db.links && db.links[linkId].status == Pending then
         db.(links := db.links[linkId := db.links[linkId].(status := Cancelled)]) else db,
       Succeeded)
  }

  /** uploadHistory: the approving device shares wrapped message keys with the linked device. */
  function UploadCall(db: Db, h: Handler, now: int): (r: (Db, Handler))
    requires IsUpload(h)
    ensures CallsLeft(r.1) < CallsLeft(h)
  {
    match h
    case UploadRead(user, linkId, source, items) =>
      if !OwnLink(db, user, linkId) then (db, Failed(NotFound))
      else
        var row := db.links[linkId];
        if row.status !in {Approved, Completed} || row.approvedBy != Some(source) then (db, Failed(Refused))
        else (db, UploadSource(user, linkId, source, row, items))
    case UploadSource(user, linkId, source, row, items) =>
      (db, if Trusted(db, user, source) then UploadTarget(user, linkId, source, row, items) else Failed(Refused))
    case UploadTarget(user, linkId, source, row, items) =>
      (db, if Trusted(db, user, row.target) && BatchAccepted(items) then UploadWrite(linkId, source, row, items) else Failed(Refused))
    case UploadWrite(linkId, source, row, items) =>
      (db.(keys := StoreKeys(db.keys, linkId, source, row.target, items)), Succeeded)
  }

  /** complete */
  function CompleteCall(db: Db, h: Handler, now: int): (r: (Db, Handler))
    requires IsComplete(h)
    ensures CallsLeft(r.1) < CallsLeft(h)
  {
    match h
    case CompleteRead(user, linkId, source, signed) =>
      if !OwnLink(db, user, linkId) then (db, Failed(NotFound))
      else if db.links[linkId].status !in {Approved, Completed} || db.links[linkId].approvedBy != Some(source) then (db, Failed(Refused))
      else (db, CompleteSource(user, linkId, source, signed))
    case CompleteSource(user, linkId, source, signed) =>
      (db, if Trusted(db, user, source) && signed then CompleteWrite(linkId) else Failed(Refused))
    case CompleteWrite(linkId) =>
      (if linkId in db.links then db.(links := db.links[linkId := db.links[linkId].(status := Completed)]) else db, Succeeded)
  }

  /** revoke: a trusted device revokes another one, drops its keys and closes its links. */
  function RevokeCall(db: Db, h: Handler, now: int): (r: (Db, Handler))
    requires IsRevoke(h)
    ensures CallsLeft(r.1) < CallsLeft(h)
  {
    match h
    case RevokeSource(user, id, source, signed) =>
      if !IsUuid(id) || id == source || !Trusted(db, user, source) then (db, Failed(Refused))
      else (db, RevokeTarget(user, id, source, signed))
    case RevokeTarget(user, id, source, signed) =>
      if id !in db.devices || db.devices[id].owner != user || db.devices[id].revokedAt.Some? then (db, Failed(NotFound))
      else if !signed then (db, Failed(Refused))
      else (db, RevokeDevice(user, id, source))
    case RevokeDevice(_, id, _) =>
      (if id in db.devices then db.(devices := db.devices[id := db.devices[id].(revokedAt := Some(now))]) else db, RevokeKeys(id))
    case RevokeKeys(id) =>
      (db.(keys := DropKeys(db.keys, id)), RevokeLinks(id))
    case RevokeLinks(id) =>
      (db.(links := SetStatus(db.links, OpenFor(db.links, id), Cancelled)), Succeeded)
  }

  function Next(db: Db, h: Handler, now: int): (r: (Db, Handler))
    requires !Finished(h)
    ensures CallsLeft(r.1) < CallsLeft(h)
  {
    if IsRegister(h) then RegisterCall(db, h, now)
    else if IsStart(h) then StartCall(db, h, now)
    else if IsApprove(h) then ApproveCall(db, h, now)
    else if IsCancel(h) then CancelCall(db, h, now)
    else if IsUpload(h) then UploadCall(db, h, now)
    else if IsComplete(h) then CompleteCall(db, h, now)
    else RevokeCall(db, h, now)
  }

  // ---------------------------------------------------------------- interleaved runs

  datatype Machine = Machine(db: Db, handlers: seq<Handler>)

  /** The handler at index i makes its next database call; a finished handler makes none. */
  function Step(m: Machine, i: nat, now: int): (after: Machine)
    requires i < |m.handlers|
    ensures |after.handlers| == |m.handlers|
  {
    if Finished(m.handlers[i]) then m
    else var (db, h) := Next(m.db, m.handlers[i], now); Machine(db, m.handlers[i := h])
  }

  predicate Initial(h: Handler) {
    h.RegisterLookup? || h.StartRead? || h.ApproveRead? || h.CancelRead? || h.UploadRead? || h.CompleteRead? || h.RevokeSource?
  }

  const EMPTY: Db := Db(map[], map[], map[])

  /** A run: any number of requests over an empty database, interleaved call by call. */
  ghost predicate Run(machines: seq<Machine>, schedule: seq<(nat, int)>) {
    && |machines| == |schedule| + 1
    && machines[0].db == EMPTY && (forall i :: 0 <= i < |machines[0].handlers| ==> Initial(machines[0].handlers[i]))
    && forall k {:trigger schedule[k]} :: 0 <= k < |schedule| ==>
         schedule[k].0 < |machines[k].handlers| && machines[k + 1] == Step(machines[k], schedule[k].0, schedule[k].1)
  }

  // ---------------------------------------------------------------- the trust tree

  /** The device is linked, and following linkedBy n times inside its user ends at a device that
      linked itself. */
  ghost predicate AtDepth(devices: map<string, Device>, user: User, id: string, n: nat)
    decreases n
  {
    && id in devices && devices[id].owner == user && devices[id].linkedAt.Some?
    && if n == 0 then devices[id].linkedBy.None?
       else devices[id].linkedBy.Some? && AtDepth(devices, user, devices[id].linkedBy.value, n - 1)
  }

  ghost predicate Rooted(devices: map<string, Device>, user: User, id: string) {
    exists n: nat :: AtDepth(devices, user, id, n)
  }

  predicate IsRoot(devices: map<string, Device>, user: User, id: string) {
    id in devices && devices[id].owner == user && devices[id].linkedAt.Some? && devices[id].linkedBy.None?
  }

  ghost predicate TrustTrees(devices: map<string, Device>) {
    && (forall id :: id in devices && devices[id].linkedAt.Some? ==> Rooted(devices, devices[id].owner, id))
    && (forall id :: id in devices && devices[id].linkedAt.None? ==> devices[id].linkedBy.None?)
    && (forall user, a, b :: IsRoot(devices, user, a) && IsRoot(devices, user, b) ==> a == b)
  }

  /** What a handler in the middle of an approval knows about its source for good. */
  ghost predicate HandlerInv(devices: map<string, Device>, h: Handler) {
    match h
    case ApproveClaim(user, _, source, row) => LinkedOnce(devices, user, source)
    case ApproveTarget(user, _, source, row) => LinkedOnce(devices, user, source)
    case _ => true
  }

  predicate LinkedOnce(devices: map<string, Device>, user: User, id: string) {
    id in devices && devices[id].owner == user && devices[id].linkedAt.Some?
  }

  ghost predicate TreeInv(m: Machine) {
    TrustTrees(m.db.devices) && forall i :: 0 <= i < |m.handlers| ==> HandlerInv(m.db.devices, m.handlers[i])
  }

  /** Linked devices stay, keep their owner, and keep who linked them. */
  ghost predicate KeepsLinked(before: map<string, Device>, after: map<string, Device>) {
    forall id :: id in before && before[id].linkedAt.Some? ==>
      id in after && after[id].owner == before[id].owner && after[id].linkedAt.Some? && after[id].linkedBy == before[id].linkedBy
  }

  lemma {:induction false} AtDepthKept(before: map<string, Device>, after: map<string, Device>, user: User, id: string, n: nat)
    requires KeepsLinked(before, after) && AtDepth(before, user, id, n)
    ensures AtDepth(after, user, id, n)
    decreases n
  {
    if n > 0 {
      AtDepthKept(before, after, user, before[id].linkedBy.value, n - 1);
    }
  }

  lemma RootedKept(before: map<string, Device>, after: map<string, Device>, user: User, id: string)
    requires KeepsLinked(before, after) && Rooted(before, user, id)
    ensures Rooted(after, user, id)
  {
    var n: nat :| AtDepth(before, user, id, n);
    AtDepthKept(before, after, user, id, n);
  }

  /** A device registered first becomes the only root of its user; later ones stay unlinked. */
  lemma RegisterKeepsTrees(devices: map<string, Device>, user: User, id: string, fingerprint: string, now: int)
    requires TrustTrees(devices) && id !in devices
    ensures var first := forall d :: d in devices ==> devices[d].owner != user;
            var after := devices[id := Device(user, fingerprint, if first then Some(now) else None, None, None)];
            TrustTrees(after) && KeepsLinked(devices, after)
  {
    var first := forall d :: d in devices ==> devices[d].owner != user;
    var after := devices[id := Device(user, fingerprint, if first then Some(now) else None, None, None)];
    forall d | d in after && after[d].linkedAt.Some? ensures Rooted(after, after[d].owner, d) {
      if d == id {
        assert AtDepth(after, user, id, 0);
      } else {
        RootedKept(devices, after, devices[d].owner, d);
      }
    }
    forall u, a, b | IsRoot(after, u, a) && IsRoot(after, u, b) ensures a == b {
      if a != id && b != id {
        assert IsRoot(devices, u, a) && IsRoot(devices, u, b);
      }
    }
  }

  /** Linking an unlinked device below a linked one of the same user extends that user's tree. */
  lemma LinkKeepsTrees(devices: map<string, Device>, user: User, target: string, source: string, now: int)
    requires TrustTrees(devices) && LinkedOnce(devices, user, source)
    requires target in devices && devices[target].owner == user && devices[target].linkedAt.None?
    ensures var after := devices[target := devices[target].(linkedAt := Some(now), linkedBy := Some(source))];
            TrustTrees(after) && KeepsLinked(devices, after)
  {
    var after := devices[target := devices[target].(linkedAt := Some(now), linkedBy := Some(source))];
    forall d | d in after && after[d].linkedAt.Some? ensures Rooted(after, after[d].owner, d) {
      if d == target {
        var n: nat :| AtDepth(devices, user, source, n);
        AtDepthKept(devices, after, user, source, n);
        assert AtDepth(after, user, target, n + 1);
      } else {
        RootedKept(devices, after, devices[d].owner, d);
      }
    }
    forall u, a, b | IsRoot(after, u, a) && IsRoot(after, u, b) ensures a == b {
      assert IsRoot(devices, u, a) && IsRoot(devices, u, b);
    }
  }

  /** Revocation leaves the tree as it was. */
  lemma RevokeKeepsTrees(devices: map<string, Device>, id: string, now: int)
    requires TrustTrees(devices) && id in devices
    ensures var after := devices[id := devices[id].(revokedAt := Some(now))]; TrustTrees(after) && KeepsLinked(devices, after)
  {
    var after := devices[id := devices[id].(revokedAt := Some(now))];
    forall d | d in after && after[d].linkedAt.Some? ensures Rooted(after, after[d].owner, d) {
      RootedKept(devices, after, devices[d].owner, d);
    }
    forall u, a, b | IsRoot(after, u, a) && IsRoot(after, u, b) ensures a == b {
      assert IsRoot(devices, u, a) && IsRoot(devices, u, b);
    }
  }

  lemma OtherCallsKeepDevices(db: Db, h: Handler, now: int)
    requires !Finished(h) && !h.RegisterCreate? && !h.ApproveTarget? && !h.RevokeDevice? && HandlerInv(db.devices, h)
    ensures Next(db, h, now).0.devices == db.devices && HandlerInv(db.devices, Next(db, h, now).1)
  {
  }

  /** Store and handler after a call that kept the trust trees. */
  ghost predicate TreesKept(before: map<string, Device>, after: (Db, Handler)) {
    TrustTrees(after.0.devices) && HandlerInv(after.0.devices, after.1) && KeepsLinked(before, after.0.devices)
  }

  lemma RegisterCallKeepsTrees(db: Db, user: User, id: string, fingerprint: string, now: int)
    requires TrustTrees(db.devices)
    ensures TreesKept(db.devices, RegisterCall(db, RegisterCreate(user, id, fingerprint), now))
  {
    if id !in db.devices {
      RegisterKeepsTrees(db.devices, user, id, fingerprint, now);
    }
  }

  lemma LinkCallKeepsTrees(db: Db, user: User, linkId: string, source: string, row: Link, now: int)
    requires TrustTrees(db.devices) && LinkedOnce(db.devices, user, source)
    ensures TreesKept(db.devices, ApproveCall(db, ApproveTarget(user, linkId, source, row), now))
  {
    if row.target in db.devices && db.devices[row.target].owner == user && db.devices[row.target].linkedAt.None? {
      LinkKeepsTrees(db.devices, user, row.target, source, now);
    }
  }

  lemma RevokeCallKeepsTrees(db: Db, user: User, id: string, source: string, now: int)
    requires TrustTrees(db.devices)
    ensures TreesKept(db.devices, RevokeCall(db, RevokeDevice(user, id, source), now))
  {
    if id in db.devices {
      RevokeKeepsTrees(db.devices, id, now);
    }
  }

  lemma NextKeepsTrees(db: Db, h: Handler, now: int)
    requires !Finished(h) && TrustTrees(db.devices) && HandlerInv(db.devices, h)
    ensures TreesKept(db.devices, Next(db, h, now))
  {
    match h
    case RegisterCreate(user, id, fingerprint) => RegisterCallKeepsTrees(db, user, id, fingerprint, now);
    case ApproveTarget(user, linkId, source, row) => LinkCallKeepsTrees(db, user, linkId, source, row, now);
    case RevokeDevice(user, id, source) => RevokeCallKeepsTrees(db, user, id, source, now);
    case _ => OtherCallsKeepDevices(db, h, now);
  }

  lemma StepKeepsTrees(m: Machine, i: nat, now: int)
    requires i < |m.handlers| && TreeInv(m)
    ensures TreeInv(Step(m, i, now))
  {
    if !Finished(m.handlers[i]) {
      NextKeepsTrees(m.db, m.handlers[i], now);
    }
  }

  lemma {:induction false} RunKeepsTrees(machines: seq<Machine>, schedule: seq<(nat, int)>, k: nat)
    requires Run(machines, schedule) && k < |machines|
    ensures TreeInv(machines[k])
  {
    if k > 0 {
      RunKeepsTrees(machines, schedule, k - 1);
      StepKeepsTrees(machines[k - 1], schedule[k - 1].0, schedule[k - 1].1);
    }
  }

  /** The device reached by following linkedBy k times, if there are that many links. */
  function Ancestor(devices: map<string, Device>, id: string, k: nat): Option<string>
    decreases k
  {
    if k == 0 then Some(id)
    else if id in devices && devices[id].linkedBy.Some? then Ancestor(devices, devices[id].linkedBy.value, k - 1)
    else None
  }

  lemma {:induction false} DepthUnique(devices: map<string, Device>, user: User, id: string, m: nat, n: nat)
    requires AtDepth(devices, user, id, m) && AtDepth(devices, user, id, n)
    ensures m == n
    decreases n
  {
    if m > 0 && n > 0 {
      DepthUnique(devices, user, devices[id].linkedBy.value, m - 1, n - 1);
    }
  }

  lemma {:induction false} AncestorDepth(devices: map<string, Device>, user: User, id: string, n: nat, k: nat)
    requires AtDepth(devices, user, id, n) && k <= n
    ensures Ancestor(devices, id, k).Some? && AtDepth(devices, user, Ancestor(devices, id, k).value, n - k)
    decreases k
  {
    if k > 0 {
      AncestorDepth(devices, user, devices[id].linkedBy.value, n - 1, k - 1);
    }
  }

  lemma {:induction false} NoAncestorPastRoot(devices: map<string, Device>, user: User, id: string, n: nat, k: nat)
    requires AtDepth(devices, user, id, n) && k > n
    ensures Ancestor(devices, id, k) == None
    decreases n
  {
    if n > 0 {
      NoAncestorPastRoot(devices, user, devices[id].linkedBy.value, n - 1, k - 1);
    }
  }

  /** In every run, at every point between database calls: each user has at most one device that
      linked itself, and from any linked device the linkedBy chain stays inside the user, never
      returns to the device, and ends at that one root. */
  lemma TrustTreeInEveryRun(machines: seq<Machine>, schedule: seq<(nat, int)>, k: nat, id: string)
    requires Run(machines, schedule) && k < |machines|
    requires id in machines[k].db.devices && machines[k].db.devices[id].linkedAt.Some?
    ensures var devices, user := machines[k].db.devices, machines[k].db.devices[id].owner;
            && (forall a, b :: IsRoot(devices, user, a) && IsRoot(devices, user, b) ==> a == b)
            && (exists n: nat :: Ancestor(devices, id, n).Some? && IsRoot(devices, user, Ancestor(devices, id, n).value))
            && (forall j: nat :: Ancestor(devices, id, j).Some? ==> LinkedOnce(devices, user, Ancestor(devices, id, j).value))
            && (forall j: nat :: j > 0 ==> Ancestor(devices, id, j) != Some(id))
  {
    RunKeepsTrees(machines, schedule, k);
    var devices, user := machines[k].db.devices, machines[k].db.devices[id].owner;
    assert Rooted(devices, user, id);
    var n: nat :| AtDepth(devices, user, id, n);
    AncestorDepth(devices, user, id, n, n);
    forall j: nat
      ensures Ancestor(devices, id, j).Some? ==> LinkedOnce(devices, user, Ancestor(devices, id, j).value)
      ensures j > 0 ==> Ancestor(devices, id, j) != Some(id)
    {
      if j <= n {
        AncestorDepth(devices, user, id, n, j);
        if j > 0 && Ancestor(devices, id, j) == Some(id) {
          DepthUnique(devices, user, id, n, n - j);
        }
      } else {
        NoAncestorPastRoot(devices, user, id, n, j);
      }
    }
  }

  // ---------------------------------------------------------------- handlers run one at a time

  /** All calls of a handler with no other handler in between. */
  function RunAlone(db: Db, h: Handler, now: int): (r: (Db, Handler))
    ensures Finished(r.1)
    decreases CallsLeft(h)
  {
    if Finished(h) then (db, h) else var (db', h') := Next(db, h, now); RunAlone(db', h', now)
  }

  // Running a handler alone starts with its own next call.

  lemma OneRegister(db: Db, h: Handler, now: int)
    requires IsRegister(h)
    ensures RunAlone(db, h, now) == RunAlone(RegisterCall(db, h, now).0, RegisterCall(db, h, now).1, now)
  {
  }

  lemma OneStart(db: Db, h: Handler, now: int)
    requires IsStart(h)
    ensures RunAlone(db, h, now) == RunAlone(StartCall(db, h, now).0, StartCall(db, h, now).1, now)
  {
  }

  lemma OneApprove(db: Db, h: Handler, now: int)
    requires IsApprove(h)
    ensures RunAlone(db, h, now) == RunAlone(ApproveCall(db, h, now).0, ApproveCall(db, h, now).1, now)
  {
  }

  lemma OneCancel(db: Db, h: Handler, now: int)
    requires IsCancel(h)
    ensures RunAlone(db, h, now) == RunAlone(CancelCall(db, h, now).0, CancelCall(db, h, now).1, now)
  {
  }

  lemma OneUpload(db: Db, h: Handler, now: int)
    requires IsUpload(h)
    ensures RunAlone(db, h, now) == RunAlone(UploadCall(db, h, now).0, UploadCall(db, h, now).1, now)
  {
  }

  lemma OneComplete(db: Db, h: Handler, now: int)
    requires IsComplete(h)
    ensures RunAlone(db, h, now) == RunAlone(CompleteCall(db, h, now).0, CompleteCall(db, h, now).1, now)
  {
  }

  lemma OneRevoke(db: Db, h: Handler, now: int)
    requires IsRevoke(h)
    ensures RunAlone(db, h, now) == RunAlone(RevokeCall(db, h, now).0, RevokeCall(db, h, now).1, now)
  {
  }

  predicate Active(devices: map<string, Device>, user: User, id: string) {
    id in devices && devices[id].owner == user && devices[id].linkedAt.Some? && devices[id].revokedAt.None?
  }

  ghost predicate HasActive(devices: map<string, Device>, user: User) {
    exists id :: Active(devices, user, id)
  }

  predicate AwaitsApproval(devices: map<string, Device>, link: Link) {
    link.target in devices && devices[link.target].owner == link.owner &&
    devices[link.target].linkedAt.None? && devices[link.target].revokedAt.None?
  }

  predicate ApproverLinked(devices: map<string, Device>, link: Link) {
    link.approvedBy.Some? && link.target in devices && devices[link.target].owner == link.owner &&
    devices[link.target].linkedBy == link.approvedBy
  }

  predicate KeyUsable(db: Db, slot: KeySlot, key: HistoryKey) {
    key.linkId in db.links && db.links[key.linkId].target == slot.target &&
    Active(db.devices, db.links[key.linkId].owner, slot.target)
  }

  /** No other pending link has the same target. */
  predicate OnlyPending(links: map<string, Link>, l: string)
    requires l in links
  {
    forall other :: other in links && other != l && links[other].status == Pending ==> links[other].target != links[l].target
  }

  predicate LinkInv(devices: map<string, Device>, links: map<string, Link>, l: string)
    requires l in links
  {
    match links[l].status
    case Pending => AwaitsApproval(devices, links[l]) && OnlyPending(links, l)
    case Approved => ApproverLinked(devices, links[l])
    case Completed => ApproverLinked(devices, links[l])
    case Cancelled => true
  }

  ghost predicate DevicesInv(devices: map<string, Device>) {
    && (forall id :: id in devices ==> HasActive(devices, devices[id].owner))
    && (forall id :: id in devices && devices[id].linkedAt.None? ==> devices[id].linkedBy.None?)
  }

  ghost predicate LinksInv(devices: map<string, Device>, links: map<string, Link>) {
    forall l :: l in links ==> LinkInv(devices, links, l)
  }

  ghost predicate KeysInv(db: Db) {
    forall slot :: slot in db.keys ==> KeyUsable(db, slot, db.keys[slot])
  }

  /** What holds between handlers when each runs without interruption. */
  ghost predicate PairingInv(db: Db) {
    DevicesInv(db.devices) && LinksInv(db.devices, db.links) && KeysInv(db)
  }

  predicate Unlinked(devices: map<string, Device>, user: User, id: string) {
    id in devices && devices[id].owner == user && devices[id].linkedAt.None? && devices[id].revokedAt.None?
  }

  predicate StillRow(db: Db, user: User, linkId: string, row: Link) {
    linkId in db.links && db.links[linkId] == row && row.owner == user
  }

  /** The store once a revocation has dropped the keys and the open links of the device. */
  function WithoutTarget(db: Db, id: string): Db {
    Db(db.devices, SetStatus(db.links, OpenFor(db.links, id), Cancelled),
       DropKeys(db.keys, id))
  }

  /** The consistent store around a handler: between the two writes of an approval the store before
      them, between the three of a revocation the store they are about to produce. */
  function Settled(db: Db, h: Handler): Db {
    match h
    case ApproveTarget(_, linkId, _, row) => db.(links := db.links[linkId := row])
    case RevokeKeys(id) => WithoutTarget(db, id)
    case RevokeLinks(id) => WithoutTarget(db, id)
    case _ => db
  }

  /** What a handler that runs without interruption still knows before its next call. */
  ghost predicate Knows(db: Db, h: Handler) {
    match h
    case StartCancel(user, target, _, _) => Unlinked(db.devices, user, target)
    case StartCreate(user, target, _, _) =>
      Unlinked(db.devices, user, target) &&
      forall l :: l in db.links && db.links[l].status == Pending ==> db.links[l].target != target
    case ApproveSource(user, linkId, source, row, _) => StillRow(db, user, linkId, row) && row.status == Pending
    case ApproveClaim(user, linkId, source, row) => StillRow(db, user, linkId, row) && row.status == Pending
    case ApproveTarget(user, linkId, source, row) =>
      && row.owner == user && row.status == Pending && linkId in db.links
      && db.links[linkId] == row.(status := Approved, approvedBy := Some(source))
    case UploadSource(user, linkId, source, row, _) => StillRow(db, user, linkId, row)
    case UploadTarget(user, linkId, source, row, _) => StillRow(db, user, linkId, row)
    case UploadWrite(linkId, source, row, _) =>
      StillRow(db, row.owner, linkId, row) && Active(db.devices, row.owner, row.target)
    case CompleteSource(user, linkId, _, _) => linkId in db.links && db.links[linkId].status in {Approved, Completed}
    case CompleteWrite(linkId) => linkId in db.links && db.links[linkId].status in {Approved, Completed}
    case RevokeTarget(user, id, source, _) => Active(db.devices, user, source) && id != source
    case RevokeDevice(user, id, source) =>
      id in db.devices && db.devices[id].owner == user && id != source && Active(db.devices, user, source)
    case RevokeLinks(id) => forall slot :: slot in db.keys ==> slot.target != id
    case _ => true
  }

  ghost predicate Uninterrupted(db: Db, h: Handler) {
    PairingInv(Settled(db, h)) && Knows(db, h)
  }

  predicate Writes(h: Handler) {
    h.RegisterCreate? || h.StartCancel? || h.StartCreate? || h.ApproveMiss? || h.ApproveClaim? || h.ApproveTarget? ||
    h.CancelWrite? || h.UploadWrite? || h.CompleteWrite? || h.RevokeDevice? || h.RevokeKeys? || h.RevokeLinks?
  }

  /** The store is as it was and the handler knows what it needs for its next call. */
  ghost predicate OnlyRead(db: Db, after: (Db, Handler)) {
    after.0 == db == Settled(db, after.1) && Knows(db, after.1)
  }

  lemma PairingReads(db: Db, h: Handler, now: int)
    requires !Finished(h) && !Writes(h) && Knows(db, h) && (IsRegister(h) || IsStart(h) || IsApprove(h) || IsCancel(h))
    ensures db == Settled(db, h) && OnlyRead(db, Next(db, h, now))
  {
  }

  lemma SharingReads(db: Db, h: Handler, now: int)
    requires !Finished(h) && !Writes(h) && Knows(db, h) && (IsUpload(h) || IsComplete(h) || IsRevoke(h))
    ensures db == Settled(db, h) && OnlyRead(db, Next(db, h, now))
  {
  }

  lemma ReadUninterrupted(db: Db, h: Handler, now: int)
    requires !Finished(h) && !Writes(h) && Knows(db, h)
    ensures db == Settled(db, h) && OnlyRead(db, Next(db, h, now))
  {
    if IsUpload(h) || IsComplete(h) || IsRevoke(h) {
      SharingReads(db, h, now);
    } else {
      PairingReads(db, h, now);
    }
  }

  lemma AddingUninterrupted(db: Db, h: Handler, now: int)
    requires h.RegisterCreate? || h.StartCreate? || h.UploadWrite?
    requires Uninterrupted(db, h)
    ensures Uninterrupted(Next(db, h, now).0, Next(db, h, now).1)
  {
    match h
    case RegisterCreate(user, id, fingerprint) => RegisterKeepsPairing(db, user, id, fingerprint, now);
    case StartCreate(user, target, linkId, code) => CreateKeepsPairing(db, user, target, linkId, code, now);
    case UploadWrite(linkId, source, row, items) => StoreKeepsPairing(db, linkId, source, row, items);
  }

  lemma ApprovingUninterrupted(db: Db, h: Handler, now: int)
    requires h.ApproveClaim? || h.ApproveTarget?
    requires Uninterrupted(db, h)
    ensures Uninterrupted(Next(db, h, now).0, Next(db, h, now).1)
  {
    match h
    case ApproveClaim(user, linkId, source, row) => ClaimRestorable(db, user, linkId, source, row, now);
    case ApproveTarget(user, linkId, source, row) => LinkKeepsPairing(db, user, linkId, source, row, now);
  }

  lemma CloseCallEditsLinks(db: Db, h: Handler, now: int)
    requires h.StartCancel? || h.ApproveMiss? || h.CancelWrite? || h.CompleteWrite?
    requires Knows(db, h)
    ensures var (after, next) := Next(db, h, now);
            && after == db.(links := after.links) && after.links.Keys == db.links.Keys
            && (forall l :: l in db.links ==> HarmlessEdit(db.links[l], after.links[l]))
            && Settled(after, next) == after && (!h.StartCancel? ==> Knows(after, next))
  {
  }

  /** Once its older requests are cancelled, no pending link asks for the device. */
  lemma NonePendingAfterCancel(db: Db, user: User, target: string, linkId: string, code: string, now: int)
    requires Uninterrupted(db, StartCancel(user, target, linkId, code))
    ensures var (after, next) := StartCall(db, StartCancel(user, target, linkId, code), now);
            next == StartCreate(user, target, linkId, code) && Knows(after, next)
  {
    forall l | l in db.links && db.links[l].status == Pending && db.links[l].target == target
      ensures l in PendingFor(db.links, user, target)
    {
      assert LinkInv(db.devices, db.links, l);
    }
  }

  lemma ClosingUninterrupted(db: Db, h: Handler, now: int)
    requires h.StartCancel? || h.ApproveMiss? || h.CancelWrite? || h.CompleteWrite?
    requires Uninterrupted(db, h)
    ensures Uninterrupted(Next(db, h, now).0, Next(db, h, now).1)
  {
    CloseCallEditsLinks(db, h, now);
    if h.StartCancel? {
      NonePendingAfterCancel(db, h.user, h.target, h.linkId, h.code, now);
    }
    LinkEditKeepsPairing(db, Next(db, h, now).0.links);
  }

  lemma DeviceRevokedUninterrupted(db: Db, user: User, id: string, source: string, now: int)
    requires Uninterrupted(db, RevokeDevice(user, id, source))
    ensures Uninterrupted(Next(db, RevokeDevice(user, id, source), now).0, Next(db, RevokeDevice(user, id, source), now).1)
  {
    RevokeKeepsPairing(db, user, id, source, now);
  }

  lemma KeysDroppedUninterrupted(db: Db, id: string, now: int)
    requires Uninterrupted(db, RevokeKeys(id))
    ensures Uninterrupted(Next(db, RevokeKeys(id), now).0, Next(db, RevokeKeys(id), now).1)
  {
    assert DropKeys(DropKeys(db.keys, id), id) == DropKeys(db.keys, id);
  }

  lemma LinksClosedUninterrupted(db: Db, id: string, now: int)
    requires Uninterrupted(db, RevokeLinks(id))
    ensures Uninterrupted(Next(db, RevokeLinks(id), now).0, Next(db, RevokeLinks(id), now).1)
  {
    assert DropKeys(db.keys, id) == db.keys;
  }

  lemma RevokingUninterrupted(db: Db, h: Handler, now: int)
    requires h.RevokeDevice? || h.RevokeKeys? || h.RevokeLinks?
    requires Uninterrupted(db, h)
    ensures Uninterrupted(Next(db, h, now).0, Next(db, h, now).1)
  {
    match h
    case RevokeDevice(user, id, source) => DeviceRevokedUninterrupted(db, user, id, source, now);
    case RevokeKeys(id) => KeysDroppedUninterrupted(db, id, now);
    case RevokeLinks(id) => LinksClosedUninterrupted(db, id, now);
  }

  lemma NextUninterrupted(db: Db, h: Handler, now: int)
    requires !Finished(h) && Uninterrupted(db, h)
    ensures Uninterrupted(Next(db, h, now).0, Next(db, h, now).1)
  {
    if !Writes(h) {
      ReadUninterrupted(db, h, now);
    } else if h.RevokeDevice? || h.RevokeKeys? || h.RevokeLinks? {
      RevokingUninterrupted(db, h, now);
    } else if h.StartCancel? || h.ApproveMiss? || h.CancelWrite? || h.CompleteWrite? {
      ClosingUninterrupted(db, h, now);
    } else if h.ApproveClaim? || h.ApproveTarget? {
      ApprovingUninterrupted(db, h, now);
    } else {
      AddingUninterrupted(db, h, now);
    }
  }

  /** Keys stay usable when links keep owner and target and active devices stay active. */
  lemma KeysKept(before: Db, after: Db)
    requires KeysInv(before) && after.keys.Keys <= before.keys.Keys
    requires forall slot :: slot in after.keys ==> after.keys[slot] == before.keys[slot]
    requires forall user, slot :: slot in after.keys && Active(before.devices, user, slot.target) ==> Active(after.devices, user, slot.target)
    requires forall l :: l in before.links ==>
      l in after.links && after.links[l].owner == before.links[l].owner && after.links[l].target == before.links[l].target
    ensures KeysInv(after)
  {
    forall slot | slot in after.keys ensures KeyUsable(after, slot, after.keys[slot]) {
      assert KeyUsable(before, slot, before.keys[slot]);
    }
  }

  /** An edit that does not reopen or retarget a link or change its approver. */
  predicate HarmlessEdit(x: Link, y: Link) {
    && y.owner == x.owner && y.target == x.target && y.approvedBy == x.approvedBy
    && (y.status == x.status || y.status == Cancelled || (x.status == Approved && y.status == Completed))
  }

  lemma LinkEditKeepsPairing(db: Db, links: map<string, Link>)
    requires PairingInv(db) && links.Keys == db.links.Keys
    requires forall l :: l in links ==> HarmlessEdit(db.links[l], links[l])
    ensures PairingInv(db.(links := links))
  {
    KeysKept(db, db.(links := links));
    forall l | l in links ensures LinkInv(db.devices, links, l) {
      assert LinkInv(db.devices, db.links, l);
    }
  }

  lemma CreateKeepsPairing(db: Db, user: User, target: string, linkId: string, code: string, now: int)
    requires Uninterrupted(db, StartCreate(user, target, linkId, code))
    ensures PairingInv(Next(db, StartCreate(user, target, linkId, code), now).0)
  {
    var after := Next(db, StartCreate(user, target, linkId, code), now).0;
    KeysKept(db, after);
    forall l | l in after.links ensures LinkInv(after.devices, after.links, l) {
      assert l in db.links ==> LinkInv(db.devices, db.links, l);
    }
  }

  lemma ClaimRestorable(db: Db, user: User, linkId: string, source: string, row: Link, now: int)
    requires Uninterrupted(db, ApproveClaim(user, linkId, source, row))
    ensures var (after, next) := Next(db, ApproveClaim(user, linkId, source, row), now);
            if next.ApproveTarget? then next == ApproveTarget(user, linkId, source, row) && Uninterrupted(after, next)
            else after == db && next == Failed(Refused)
  {
    var (after, next) := Next(db, ApproveClaim(user, linkId, source, row), now);
    if next.ApproveTarget? {
      assert after.links[linkId := row] == db.links;
      assert Settled(after, next) == db;
    }
  }

  /** Every user with a device keeps an active one when devices stay and active ones stay active. */
  lemma ActiveKept(before: map<string, Device>, after: map<string, Device>, user: User)
    requires HasActive(before, user)
    requires forall id :: Active(before, user, id) ==> Active(after, user, id)
    ensures HasActive(after, user)
  {
    var id :| Active(before, user, id);
  }

  lemma RegisterKeepsPairing(db: Db, user: User, id: string, fingerprint: string, now: int)
    requires PairingInv(db)
    ensures PairingInv(Next(db, RegisterCreate(user, id, fingerprint), now).0)
  {
    var after := Next(db, RegisterCreate(user, id, fingerprint), now).0;
    if id !in db.devices {
      forall d | d in after.devices ensures HasActive(after.devices, after.devices[d].owner) {
        if other :| other in db.devices && db.devices[other].owner == after.devices[d].owner {
          ActiveKept(db.devices, after.devices, after.devices[d].owner);
        } else {
          assert Active(after.devices, user, id);
        }
      }
      KeysKept(db, after);
      forall l | l in after.links ensures LinkInv(after.devices, after.links, l) {
        assert LinkInv(db.devices, db.links, l);
      }
    }
  }

  /** The second write of an approval always finds its device and restores consistency. */
  lemma LinkKeepsPairing(db: Db, user: User, linkId: string, source: string, row: Link, now: int)
    requires Uninterrupted(db, ApproveTarget(user, linkId, source, row))
    ensures var (after, next) := Next(db, ApproveTarget(user, linkId, source, row), now);
            PairingInv(after) && next == Succeeded && after.links == db.links &&
            row.target in after.devices && after.devices[row.target].linkedBy == Some(source)
  {
    assert LinkInv(db.devices, db.links[linkId := row], linkId);
    LinkingRestores(db, user, linkId, source, row, now);
  }

  lemma LinkingRestores(db: Db, user: User, linkId: string, source: string, row: Link, now: int)
    requires Uninterrupted(db, ApproveTarget(user, linkId, source, row)) && AwaitsApproval(db.devices, row)
    ensures PairingInv(db.(devices := db.devices[row.target := db.devices[row.target].(linkedAt := Some(now), linkedBy := Some(source))]))
  {
    var was := Settled(db, ApproveTarget(user, linkId, source, row));
    var after := db.(devices := db.devices[row.target := db.devices[row.target].(linkedAt := Some(now), linkedBy := Some(source))]);
    assert LinkInv(was.devices, was.links, linkId);
    forall d | d in after.devices ensures HasActive(after.devices, after.devices[d].owner) {
      ActiveKept(was.devices, after.devices, was.devices[d].owner);
    }
    KeysKept(was, after);
    forall l | l in after.links ensures LinkInv(after.devices, after.links, l) {
      if l != linkId {
        assert LinkInv(was.devices, was.links, l) && after.links[l] == was.links[l];
      }
    }
  }

  lemma {:induction false} StoredSlots(keys: map<KeySlot, HistoryKey>, linkId: string, source: string, target: string, items: seq<Item>, slot: KeySlot)
    requires slot in StoreKeys(keys, linkId, source, target, items) && slot !in keys
    ensures var key := StoreKeys(keys, linkId, source, target, items)[slot];
            slot.target == target && key.linkId == linkId && key.source == source
  {
    if items != [] {
      var n := |items| - 1;
      if slot in StoreKeys(keys, linkId, source, target, items[..n]) {
        StoredSlots(keys, linkId, source, target, items[..n], slot);
      }
    }
  }

  lemma StoreKeepsPairing(db: Db, linkId: string, source: string, row: Link, items: seq<Item>)
    requires PairingInv(db) && StillRow(db, row.owner, linkId, row) && Active(db.devices, row.owner, row.target)
    ensures PairingInv(db.(keys := StoreKeys(db.keys, linkId, source, row.target, items)))
  {
    var after := db.(keys := StoreKeys(db.keys, linkId, source, row.target, items));
    forall slot | slot in after.keys ensures KeyUsable(after, slot, after.keys[slot]) {
      if slot in db.keys {
        assert KeyUsable(db, slot, db.keys[slot]);
      } else {
        StoredSlots(db.keys, linkId, source, row.target, items, slot);
      }
    }
  }

  lemma RevokedDevices(devices: map<string, Device>, id: string, source: string, now: int)
    requires DevicesInv(devices) && id in devices && source != id && Active(devices, devices[id].owner, source)
    ensures DevicesInv(devices[id := devices[id].(revokedAt := Some(now))])
  {
    var after := devices[id := devices[id].(revokedAt := Some(now))];
    forall d | d in after ensures HasActive(after, after[d].owner) {
      if devices[d].owner == devices[id].owner {
        assert Active(after, devices[d].owner, source);
      } else {
        ActiveKept(devices, after, devices[d].owner);
      }
    }
  }

  lemma RevokeKeepsPairing(db: Db, user: User, id: string, source: string, now: int)
    requires Uninterrupted(db, RevokeDevice(user, id, source))
    ensures PairingInv(WithoutTarget(db.(devices := db.devices[id := db.devices[id].(revokedAt := Some(now))]), id))
  {
    var after := WithoutTarget(db.(devices := db.devices[id := db.devices[id].(revokedAt := Some(now))]), id);
    RevokedDevices(db.devices, id, source, now);
    KeysKept(db, after);
    forall l | l in after.links ensures LinkInv(after.devices, after.links, l) {
      assert LinkInv(db.devices, db.links, l);
    }
  }

  /** A property of store and handler that every single call keeps is kept by all calls of a handler
      that runs alone. */
  lemma {:induction false} AlonePreserves(inv: (Db, Handler) -> bool, db: Db, h: Handler, now: int)
    requires inv(db, h)
    requires forall d, k :: !Finished(k) && inv(d, k) ==> inv(Next(d, k, now).0, Next(d, k, now).1)
    ensures inv(RunAlone(db, h, now).0, RunAlone(db, h, now).1)
    decreases CallsLeft(h)
  {
    if !Finished(h) {
      AlonePreserves(inv, Next(db, h, now).0, Next(db, h, now).1, now);
    }
  }

  /** A handler that runs alone keeps the store consistent: every user who ever registered a device
      has an active one, pending links await a device that can be linked, the approver of a link is
      the device that linked its target, and stored keys are for active devices of the link's user. */
  lemma AloneKeepsPairing(db: Db, h: Handler, now: int)
    requires Uninterrupted(db, h)
    ensures PairingInv(RunAlone(db, h, now).0)
  {
    var inv := (d: Db, k: Handler) => Uninterrupted(d, k);
    forall d, k | !Finished(k) && inv(d, k) ensures inv(Next(d, k, now).0, Next(d, k, now).1) {
      NextUninterrupted(d, k, now);
    }
    AlonePreserves(inv, db, h, now);
    var (after, last) := RunAlone(db, h, now);
    assert Uninterrupted(after, last) && Settled(after, last) == after;
  }

  /** Any sequence of requests served one at a time. */
  ghost predicate SerialRun(states: seq<Db>, requests: seq<(Handler, int)>) {
    && |states| == |requests| + 1 && states[0] == EMPTY
    && forall k {:trigger requests[k]} :: 0 <= k < |requests| ==>
         Initial(requests[k].0) && states[k + 1] == RunAlone(states[k], requests[k].0, requests[k].1).0
  }

  lemma {:induction false} SerialRunKeepsPairing(states: seq<Db>, requests: seq<(Handler, int)>, k: nat)
    requires SerialRun(states, requests) && k < |states|
    ensures PairingInv(states[k])
  {
    if k > 0 {
      SerialRunKeepsPairing(states, requests, k - 1);
      AloneKeepsPairing(states[k - 1], requests[k - 1].0, requests[k - 1].1);
    }
  }

  /** An approval that wins its link also links the device; otherwise it changes nothing. */
  lemma WonApprovalLinksDevice(db: Db, user: User, linkId: string, source: string, row: Link, now: int)
    requires Uninterrupted(db, ApproveClaim(user, linkId, source, row))
    ensures var (after, h) := RunAlone(db, ApproveClaim(user, linkId, source, row), now);
            if h == Succeeded then
              linkId in after.links && row.target in after.devices &&
              after.links[linkId].status == Approved && after.links[linkId].approvedBy == Some(source) &&
              after.devices[row.target].linkedBy == Some(source)
            else after == db
  {
    var (claimed, h) := Next(db, ApproveClaim(user, linkId, source, row), now);
    ClaimRestorable(db, user, linkId, source, row, now);
    assert RunAlone(db, ApproveClaim(user, linkId, source, row), now) == RunAlone(claimed, h, now);
    if h.ApproveTarget? {
      LinkKeepsPairing(claimed, user, linkId, source, row, now);
      var (linked, h') := Next(claimed, h, now);
      assert RunAlone(claimed, h, now) == RunAlone(linked, h', now) == (linked, Succeeded);
    }
  }

  // ---------------------------------------------------------------- an active device, interleaved

  /** The next call of h marks the only active device of the user as revoked. */
  ghost predicate RevokesLast(devices: map<string, Device>, user: User, h: Handler) {
    && h.RevokeDevice? && Active(devices, user, h.id)
    && forall d :: Active(devices, user, d) ==> d == h.id
  }

  lemma OnlyRevocationDeactivates(db: Db, h: Handler, now: int, user: User, d: string)
    requires !Finished(h) && Active(db.devices, user, d) && !(h.RevokeDevice? && h.id == d)
    ensures Active(Next(db, h, now).0.devices, user, d)
  {
  }

  lemma RevocationActivatesNone(db: Db, h: Handler, now: int, user: User, d: string)
    requires h.RevokeDevice? && Active(Next(db, h, now).0.devices, user, d)
    ensures Active(db.devices, user, d) && d != h.id
  {
  }

  /** Exactly when one call leaves a user who has an active device without one: when it is the
      revoking write and hits the only active device. */
  lemma CallKeepsActive(db: Db, h: Handler, now: int, user: User)
    requires !Finished(h) && HasActive(db.devices, user)
    ensures HasActive(Next(db, h, now).0.devices, user) <==> !RevokesLast(db.devices, user, h)
  {
    var after := Next(db, h, now).0.devices;
    if RevokesLast(db.devices, user, h) {
      forall d ensures !Active(after, user, d) {
        if Active(after, user, d) {
          RevocationActivatesNone(db, h, now, user, d);
        }
      }
    } else {
      var d :| Active(db.devices, user, d) && !(h.RevokeDevice? && h.id == d);
      OnlyRevocationDeactivates(db, h, now, user, d);
    }
  }

  predicate Registered(devices: map<string, Device>, user: User) {
    exists d :: d in devices && devices[d].owner == user
  }

  /** A user's first registered device is active at once. */
  lemma FirstDeviceIsActive(db: Db, h: Handler, now: int, user: User)
    requires !Finished(h) && !Registered(db.devices, user) && Registered(Next(db, h, now).0.devices, user)
    ensures HasActive(Next(db, h, now).0.devices, user)
  {
    var after := Next(db, h, now).0.devices;
    var d :| d in after && after[d].owner == user;
    assert h.RegisterCreate?;
    assert Active(after, user, d);
  }

  /** The step at index k of a run is the write that takes the user's last active device. */
  ghost predicate LosesLast(machines: seq<Machine>, schedule: seq<(nat, int)>, user: User, k: nat)
    requires k < |schedule| && k < |machines|
  {
    var i := schedule[k].0;
    i < |machines[k].handlers| && RevokesLast(machines[k].db.devices, user, machines[k].handlers[i])
  }

  lemma StepOfRun(machines: seq<Machine>, schedule: seq<(nat, int)>, k: nat)
    requires Run(machines, schedule) && k < |schedule|
    ensures schedule[k].0 < |machines[k].handlers| && machines[k + 1] == Step(machines[k], schedule[k].0, schedule[k].1)
  {
    assert schedule[k] == schedule[k];
  }

  /** In every interleaved run a user loses the last active device exactly at such a step. */
  lemma LastActiveLostExactly(machines: seq<Machine>, schedule: seq<(nat, int)>, k: nat, user: User)
    requires Run(machines, schedule) && k < |schedule| && HasActive(machines[k].db.devices, user)
    ensures !HasActive(machines[k + 1].db.devices, user) <==> LosesLast(machines, schedule, user, k)
  {
    StepOfRun(machines, schedule, k);
    var h := machines[k].handlers[schedule[k].0];
    if !Finished(h) {
      CallKeepsActive(machines[k].db, h, schedule[k].1, user);
    }
  }

  ghost predicate KeepsAnActive(machines: seq<Machine>, user: User, k: nat)
    requires k < |machines|
  {
    Registered(machines[k].db.devices, user) ==> HasActive(machines[k].db.devices, user)
  }

  lemma {:induction false} NoneLostKeepsActive(machines: seq<Machine>, schedule: seq<(nat, int)>, user: User, k: nat)
    requires Run(machines, schedule) && k < |machines|
    requires forall j :: 0 <= j < k ==> !LosesLast(machines, schedule, user, j)
    ensures KeepsAnActive(machines, user, k)
    decreases k
  {
    if k > 0 {
      NoneLostKeepsActive(machines, schedule, user, k - 1);
      StepOfRun(machines, schedule, k - 1);
      var m, h := machines[k - 1], machines[k - 1].handlers[schedule[k - 1].0];
      if HasActive(m.db.devices, user) {
        LastActiveLostExactly(machines, schedule, k - 1, user);
      } else if !Finished(h) && Registered(machines[k].db.devices, user) {
        FirstDeviceIsActive(m.db, h, schedule[k - 1].1, user);
      }
    }
  }

  /** Exactly which interleaved runs always leave a registered user an active device: those in which
      no revoking write hits the only active one. */
  lemma InterleavedRunKeepsActive(machines: seq<Machine>, schedule: seq<(nat, int)>, user: User)
    requires Run(machines, schedule)
    ensures (forall k :: 0 <= k < |machines| ==> KeepsAnActive(machines, user, k)) <==>
            (forall k :: 0 <= k < |schedule| ==> !LosesLast(machines, schedule, user, k))
  {
    if forall k :: 0 <= k < |schedule| ==> !LosesLast(machines, schedule, user, k) {
      forall k | 0 <= k < |machines| ensures KeepsAnActive(machines, user, k) {
        NoneLostKeepsActive(machines, schedule, user, k);
      }
    } else {
      var k :| 0 <= k < |schedule| && LosesLast(machines, schedule, user, k);
      LosingStaysRegistered(machines, schedule, user, k);
      assert !KeepsAnActive(machines, user, k + 1);
    }
  }

  lemma LosingStaysRegistered(machines: seq<Machine>, schedule: seq<(nat, int)>, user: User, k: nat)
    requires Run(machines, schedule) && k < |schedule| && LosesLast(machines, schedule, user, k)
    ensures Registered(machines[k + 1].db.devices, user) && !HasActive(machines[k + 1].db.devices, user)
  {
    var d := machines[k].handlers[schedule[k].0].id;
    assert Active(machines[k].db.devices, user, d);
    LastActiveLostExactly(machines, schedule, k, user);
    StepOfRun(machines, schedule, k);
    assert d in machines[k + 1].db.devices && machines[k + 1].db.devices[d].owner == user;
  }

  /** A revocation on its way knows for good whose device it revokes and that another one signed. */
  predicate RevocationSound(devices: map<string, Device>, h: Handler) {
    match h
    case RevokeTarget(_, id, source, _) => id != source
    case RevokeDevice(user, id, source) => id != source && id in devices && devices[id].owner == user
    case _ => true
  }

  lemma CallKeepsRevocationSound(db: Db, h: Handler, now: int)
    requires !Finished(h) && RevocationSound(db.devices, h)
    ensures RevocationSound(Next(db, h, now).0.devices, Next(db, h, now).1)
    ensures forall d :: d in db.devices ==>
              d in Next(db, h, now).0.devices && Next(db, h, now).0.devices[d].owner == db.devices[d].owner
  {
  }

  ghost predicate RevocationsSound(m: Machine) {
    forall i :: 0 <= i < |m.handlers| ==> RevocationSound(m.db.devices, m.handlers[i])
  }

  lemma {:induction false} RunKeepsRevocationsSound(machines: seq<Machine>, schedule: seq<(nat, int)>, k: nat)
    requires Run(machines, schedule) && k < |machines|
    ensures RevocationsSound(machines[k])
    decreases k
  {
    if k > 0 {
      RunKeepsRevocationsSound(machines, schedule, k - 1);
      StepOfRun(machines, schedule, k - 1);
      var m, i := machines[k - 1], schedule[k - 1].0;
      if !Finished(m.handlers[i]) {
        CallKeepsRevocationSound(m.db, m.handlers[i], schedule[k - 1].1);
      }
    }
  }

  /** The device that signed a revocation is still active when the revocation is written. */
  ghost predicate SignerStillActive(machines: seq<Machine>, schedule: seq<(nat, int)>, k: nat)
    requires k < |schedule| && k < |machines|
  {
    var i := schedule[k].0;
    i < |machines[k].handlers| && machines[k].handlers[i].RevokeDevice? ==>
      var h := machines[k].handlers[i]; Active(machines[k].db.devices, h.user, h.source)
  }

  /** So a run in which every signer is still active when its revocation is written keeps an active
      device for every user, however its calls interleave. */
  lemma SignedRevocationsKeepActive(machines: seq<Machine>, schedule: seq<(nat, int)>, user: User, k: nat)
    requires Run(machines, schedule) && k < |machines|
    requires forall j :: 0 <= j < |schedule| ==> SignerStillActive(machines, schedule, j)
    ensures KeepsAnActive(machines, user, k)
  {
    forall j | 0 <= j < |schedule| ensures !LosesLast(machines, schedule, user, j) {
      RunKeepsRevocationsSound(machines, schedule, j);
      StepOfRun(machines, schedule, j);
      var h := machines[j].handlers[schedule[j].0];
      assert RevocationSound(machines[j].db.devices, h) && SignerStillActive(machines, schedule, j);
    }
    InterleavedRunKeepsActive(machines, schedule, user);
  }

  // ---------------------------------------------------------------- what one request does

  /** A device under a well-formed identifier that may approve, share and revoke for the user. */
  predicate MayAct(db: Db, user: User, id: string) {
    IsUuid(id) && Active(db.devices, user, id)
  }

  /** The link under this identifier, if the user asked for it. */
  predicate Asked(db: Db, user: User, linkId: string) {
    IsUuid(linkId) && linkId in db.links && db.links[linkId].owner == user
  }

  /** A registration succeeds for a new identifier, and for a known one only as a repetition. It adds
      one device, which is linked at once only if it is the user's first. */
  lemma RegistrationExactly(db: Db, user: User, id: string, fingerprint: string, now: int)
    ensures var (after, last) := RunAlone(db, RegisterLookup(user, id, fingerprint), now);
            var known := id in db.devices;
            && (last == Succeeded <==>
                IsUuid(id) && (known ==> var d := db.devices[id]; d.owner == user && d.fingerprint == fingerprint && d.revokedAt == None))
            && after == if last == Succeeded && !known then
                          var linkedAt := if Registered(db.devices, user) then None else Some(now);
                          db.(devices := db.devices[id := Device(user, fingerprint, linkedAt, None, None)])
                        else db
  {
    OneRegister(db, RegisterLookup(user, id, fingerprint), now);
    if IsUuid(id) && id !in db.devices {
      OneRegister(db, RegisterCreate(user, id, fingerprint), now);
    }
  }

  /** A link request succeeds exactly for the user's own device that waits to be linked. The new link
      lasts five minutes, and the user's older requests for that device are cancelled. */
  lemma StartExactly(db: Db, user: User, target: string, linkId: string, code: string, limited: bool, now: int)
    ensures var (after, last) := RunAlone(db, StartRead(user, target, linkId, code, limited), now);
            && (last == Succeeded <==> IsUuid(target) && Unlinked(db.devices, user, target) && !limited && linkId !in db.links)
            && after.devices == db.devices && after.keys == db.keys
            && (last == Succeeded ==>
                  && after.links.Keys == db.links.Keys + {linkId}
                  && after.links[linkId] == Link(user, target, code, now + 300_000, Pending, 0, None)
                  && forall l :: l in db.links ==>
                       var was := db.links[l];
                       after.links[l] == if was.owner == user && was.target == target && was.status == Pending
                                         then was.(status := Cancelled) else was)
  {
    OneStart(db, StartRead(user, target, linkId, code, limited), now);
    if IsUuid(target) && Unlinked(db.devices, user, target) && !limited {
      OneStart(db, StartCancel(user, target, linkId, code), now);
      OneStart(StartCall(db, StartCancel(user, target, linkId, code), now).0, StartCreate(user, target, linkId, code), now);
    }
  }

  /** The link waits for an approval, and the request is let through. */
  predicate OpenLink(db: Db, user: User, linkId: string, limited: bool, now: int) {
    Asked(db, user, linkId) && !limited &&
    db.links[linkId].status == Pending && now < db.links[linkId].expiresAt && db.links[linkId].attempts < 5
  }

  /** The request shows the link's own ten-digit code, signed by another of the user's devices. */
  predicate ShowsCode(db: Db, user: User, linkId: string, source: string, code: string)
    requires linkId in db.links
  {
    |code| == 10 && Digits(code) && code == db.links[linkId].code && source != db.links[linkId].target && MayAct(db, user, source)
  }

  /** Exactly when an approval that nothing interrupts succeeds; it then links the target to the
      source. Otherwise no device changes. */
  lemma ApprovalExactly(db: Db, user: User, linkId: string, source: string, code: string, signed: bool, limited: bool, now: int)
    ensures var (after, last) := RunAlone(db, ApproveRead(user, linkId, source, code, signed, limited), now);
            && (last == Succeeded <==>
                && OpenLink(db, user, linkId, limited, now) && ShowsCode(db, user, linkId, source, code) && signed
                && Unlinked(db.devices, user, db.links[linkId].target))
            && after.keys == db.keys
            && if last == Succeeded then
                 var target := db.links[linkId].target;
                 && after.links == db.links[linkId := db.links[linkId].(status := Approved, approvedBy := Some(source))]
                 && after.devices == db.devices[target := db.devices[target].(linkedAt := Some(now), linkedBy := Some(source))]
               else after.devices == db.devices
  {
    OneApprove(db, ApproveRead(user, linkId, source, code, signed, limited), now);
    if OpenLink(db, user, linkId, limited, now) {
      var row := db.links[linkId];
      if IsCode(code) && IsUuid(source) && source != row.target && code == row.code {
        SourceApproves(db, user, linkId, source, signed, now);
      } else {
        OneApprove(db, ApproveMiss(linkId), now);
      }
    }
  }

  lemma SourceApproves(db: Db, user: User, linkId: string, source: string, signed: bool, now: int)
    requires OpenLink(db, user, linkId, false, now) && IsUuid(source)
    ensures var row := db.links[linkId];
            var (after, last) := RunAlone(db, ApproveSource(user, linkId, source, row, signed), now);
            && (last == Succeeded <==> MayAct(db, user, source) && signed && Unlinked(db.devices, user, row.target))
            && after.keys == db.keys
            && if last == Succeeded then
                 && after.links == db.links[linkId := row.(status := Approved, approvedBy := Some(source))]
                 && after.devices == db.devices[row.target := db.devices[row.target].(linkedAt := Some(now), linkedBy := Some(source))]
               else after.devices == db.devices
  {
    var row := db.links[linkId];
    OneApprove(db, ApproveSource(user, linkId, source, row, signed), now);
    if MayAct(db, user, source) && signed {
      OneApprove(db, ApproveClaim(user, linkId, source, row), now);
      OneApprove(ApproveCall(db, ApproveClaim(user, linkId, source, row), now).0, ApproveTarget(user, linkId, source, row), now);
    } else if MayAct(db, user, source) {
      OneApprove(db, ApproveMiss(linkId), now);
    }
  }

  /** The approval is malformed, shows another code, or is not signed by the device that it names. */
  predicate Misses(db: Db, user: User, linkId: string, source: string, code: string, signed: bool)
    requires linkId in db.links
  {
    || |code| != 10 || !Digits(code) || code != db.links[linkId].code
    || !IsUuid(source) || source == db.links[linkId].target || (MayAct(db, user, source) && !signed)
  }

  /** Such an approval, with a wrong code above all, is counted as an attempt; nothing else changes. */
  lemma MissIsCounted(db: Db, user: User, linkId: string, source: string, code: string, signed: bool, now: int)
    requires OpenLink(db, user, linkId, false, now) && Misses(db, user, linkId, source, code, signed)
    ensures RunAlone(db, ApproveRead(user, linkId, source, code, signed, false), now) ==
            (db.(links := db.links[linkId := db.links[linkId].(attempts := db.links[linkId].attempts + 1)]), Failed(Refused))
  {
    var row := db.links[linkId];
    OneApprove(db, ApproveRead(user, linkId, source, code, signed, false), now);
    if IsCode(code) && IsUuid(source) && source != row.target && code == row.code {
      OneApprove(db, ApproveSource(user, linkId, source, row, signed), now);
    }
    OneApprove(db, ApproveMiss(linkId), now);
  }

  /** A pending link of the user is cancelled, and no other. */
  lemma CancelExactly(db: Db, user: User, linkId: string, now: int)
    ensures var (after, last) := RunAlone(db, CancelRead(user, linkId), now);
            && (last == Succeeded <==> Asked(db, user, linkId) && db.links[linkId].status == Pending)
            && after == if last == Succeeded then db.(links := db.links[linkId := db.links[linkId].(status := Cancelled)]) else db
  {
    OneCancel(db, CancelRead(user, linkId), now);
    if Asked(db, user, linkId) && db.links[linkId].status == Pending {
      OneCancel(db, CancelWrite(linkId), now);
    }
  }

  /** The device approved this link of the user, and still acts. */
  predicate Approver(db: Db, user: User, linkId: string, source: string) {
    && Asked(db, user, linkId) && db.links[linkId].status in {Approved, Completed}
    && db.links[linkId].approvedBy == Some(source) && MayAct(db, user, source)
  }

  lemma CompleteExactly(db: Db, user: User, linkId: string, source: string, signed: bool, now: int)
    ensures var (after, last) := RunAlone(db, CompleteRead(user, linkId, source, signed), now);
            && (last == Succeeded <==> Approver(db, user, linkId, source) && signed)
            && after == if last == Succeeded then db.(links := db.links[linkId := db.links[linkId].(status := Completed)]) else db
  {
    OneComplete(db, CompleteRead(user, linkId, source, signed), now);
    if Asked(db, user, linkId) && db.links[linkId].status in {Approved, Completed} && db.links[linkId].approvedBy == Some(source) {
      OneComplete(db, CompleteSource(user, linkId, source, signed), now);
      if Approver(db, user, linkId, source) && signed {
        OneComplete(db, CompleteWrite(linkId), now);
      }
    }
  }

  /** Each message of the batch has a key for the target: the one it had, else the item's own. */
  ghost predicate KeysShared(keys: map<KeySlot, HistoryKey>, linkId: string, source: string, target: string, items: seq<Item>,
                             after: map<KeySlot, HistoryKey>)
  {
    && after.Keys == keys.Keys + (set i | 0 <= i < |items| :: KeySlot(items[i].messageId, target))
    && (forall slot :: slot in keys ==> after[slot] == keys[slot])
    && forall i :: 0 <= i < |items| && KeySlot(items[i].messageId, target) !in keys ==>
         after[KeySlot(items[i].messageId, target)] == HistoryKey(linkId, source, items[i].wrappedKey)
  }

  lemma {:induction false} StoredKeys(keys: map<KeySlot, HistoryKey>, linkId: string, source: string, target: string, items: seq<Item>)
    ensures StoreKeys(keys, linkId, source, target, items).Keys ==
            keys.Keys + (set i | 0 <= i < |items| :: KeySlot(items[i].messageId, target))
  {
    if items != [] {
      var n := |items| - 1;
      StoredKeys(keys, linkId, source, target, items[..n]);
      assert (set i | 0 <= i < |items| :: KeySlot(items[i].messageId, target)) ==
             (set i | 0 <= i < n :: KeySlot(items[..n][i].messageId, target)) + {KeySlot(items[n].messageId, target)};
    }
  }

  lemma {:induction false} StoredItem(keys: map<KeySlot, HistoryKey>, linkId: string, source: string, target: string, items: seq<Item>, i: nat)
    requires DistinctMessages(items) && i < |items| && KeySlot(items[i].messageId, target) !in keys
    ensures KeySlot(items[i].messageId, target) in StoreKeys(keys, linkId, source, target, items)
    ensures StoreKeys(keys, linkId, source, target, items)[KeySlot(items[i].messageId, target)] ==
            HistoryKey(linkId, source, items[i].wrappedKey)
  {
    var n := |items| - 1;
    if i < n {
      StoredItem(keys, linkId, source, target, items[..n], i);
    } else {
      StoredKeys(keys, linkId, source, target, items[..n]);
    }
  }

  lemma StoringShares(keys: map<KeySlot, HistoryKey>, linkId: string, source: string, target: string, items: seq<Item>)
    requires DistinctMessages(items)
    ensures KeysShared(keys, linkId, source, target, items, StoreKeys(keys, linkId, source, target, items))
  {
    StoredKeys(keys, linkId, source, target, items);
    forall i | 0 <= i < |items| && KeySlot(items[i].messageId, target) !in keys
      ensures StoreKeys(keys, linkId, source, target, items)[KeySlot(items[i].messageId, target)] ==
              HistoryKey(linkId, source, items[i].wrappedKey)
    {
      StoredItem(keys, linkId, source, target, items, i);
    }
  }

  /** The batch that an approving device may share: 1 to 100 sound items on as many messages, in at
      most 30 conversations and 1,300,000 characters. */
  predicate Shareable(items: seq<Item>) {
    && 1 <= |items| <= 100 && |Messages(items)| == |items|
    && |set i | 0 <= i < |items| :: items[i].conversationId| <= 30 && BatchLength(items) <= 1_300_000
    && forall item :: item in items ==> item.wellFormed && item.signed && item.accessible && item.encrypted
  }

  function Messages(items: seq<Item>): set<string> {
    set i | 0 <= i < |items| :: items[i].messageId
  }

  lemma {:induction false} MessageCount(items: seq<Item>)
    ensures |Messages(items)| <= |items|
    ensures DistinctMessages(items) ==> |Messages(items)| == |items|
  {
    if items != [] {
      var n := |items| - 1;
      MessageCount(items[..n]);
      assert Messages(items) == Messages(items[..n]) + {items[n].messageId};
      assert DistinctMessages(items) ==> items[n].messageId !in Messages(items[..n]);
    }
  }

  lemma RepeatedMessage(items: seq<Item>, i: nat, j: nat)
    requires i < j < |items| && items[i].messageId == items[j].messageId
    ensures |Messages(items)| < |items|
  {
    var others := items[..j] + items[j + 1..];
    forall k | 0 <= k < |items| ensures items[k].messageId in Messages(others) {
      assert items[k].messageId == if k < j then others[k].messageId else if k == j then others[i].messageId else others[k - 1].messageId;
    }
    assert Messages(items) == Messages(others);
    MessageCount(others);
  }

  lemma AcceptedIsShareable(items: seq<Item>)
    ensures BatchAccepted(items) <==> Shareable(items)
  {
    MessageCount(items);
    if i, j :| 0 <= i < j < |items| && items[i].messageId == items[j].messageId {
      RepeatedMessage(items, i, j);
    }
    assert (forall item :: item in items ==> item.wellFormed && item.signed && item.accessible && item.encrypted) <==>
           (forall i :: 0 <= i < |items| ==> items[i].wellFormed && items[i].signed && items[i].accessible && items[i].encrypted);
  }

  /** An upload succeeds exactly for the link's approver, an active target and a sound batch; it then
      adds the keys that were missing. */
  lemma UploadExactly(db: Db, user: User, linkId: string, source: string, items: seq<Item>, now: int)
    ensures var (after, last) := RunAlone(db, UploadRead(user, linkId, source, items), now);
            && (last == Succeeded <==>
                Approver(db, user, linkId, source) && MayAct(db, user, db.links[linkId].target) && Shareable(items))
            && after == db.(keys := after.keys)
            && if last == Succeeded then KeysShared(db.keys, linkId, source, db.links[linkId].target, items, after.keys)
               else after.keys == db.keys
  {
    OneUpload(db, UploadRead(user, linkId, source, items), now);
    AcceptedIsShareable(items);
    if Asked(db, user, linkId) && db.links[linkId].status in {Approved, Completed} && db.links[linkId].approvedBy == Some(source) {
      var row := db.links[linkId];
      OneUpload(db, UploadSource(user, linkId, source, row, items), now);
      if Approver(db, user, linkId, source) {
        OneUpload(db, UploadTarget(user, linkId, source, row, items), now);
        if MayAct(db, user, row.target) && Shareable(items) {
          OneUpload(db, UploadWrite(linkId, source, row, items), now);
          StoringShares(db.keys, linkId, source, row.target, items);
        }
      }
    }
  }

  /** The joint length of two batches: one comma more and two brackets fewer than both have. */
  lemma {:induction false} BatchLengthsAdd(a: seq<Item>, b: seq<Item>)
    requires a != [] && b != []
    ensures BatchLength(a + b) == BatchLength(a) + BatchLength(b) - 1
  {
    var n := |b| - 1;
    assert (a + b)[..|a + b| - 1] == a + b[..n];
    if n == 0 {
      assert a + b[..n] == a;
    } else {
      BatchLengthsAdd(a, b[..n]);
    }
  }

  lemma RevokeAlone(db: Db, user: User, id: string, source: string, now: int)
    requires id in db.devices
    ensures RunAlone(db, RevokeDevice(user, id, source), now) ==
            (WithoutTarget(db.(devices := db.devices[id := db.devices[id].(revokedAt := Some(now))]), id), Succeeded)
  {
    var marked := db.(devices := db.devices[id := db.devices[id].(revokedAt := Some(now))]);
    OneRevoke(db, RevokeDevice(user, id, source), now);
    OneRevoke(marked, RevokeKeys(id), now);
    OneRevoke(marked.(keys := DropKeys(marked.keys, id)), RevokeLinks(id), now);
  }

  /** A revocation succeeds exactly when another acting device of the user signed it; the device is
      then marked, the keys for it are gone, its open links are cancelled, and nothing else changes. */
  lemma RevocationExactly(db: Db, user: User, id: string, source: string, signed: bool, now: int)
    ensures var (after, last) := RunAlone(db, RevokeSource(user, id, source, signed), now);
            && (last == Succeeded <==>
                && IsUuid(id) && id in db.devices && db.devices[id].owner == user && db.devices[id].revokedAt == None
                && id != source && MayAct(db, user, source) && signed)
            && if last == Succeeded then
                 && after.devices == db.devices[id := db.devices[id].(revokedAt := Some(now))]
                 && (forall slot :: slot in after.keys <==> slot in db.keys && slot.target != id)
                 && (forall slot :: slot in after.keys ==> after.keys[slot] == db.keys[slot])
                 && after.links.Keys == db.links.Keys
                 && forall l :: l in db.links ==>
                      after.links[l] == if db.links[l].target == id && db.links[l].status in {Pending, Approved}
                                        then db.links[l].(status := Cancelled) else db.links[l]
               else after == db
  {
    OneRevoke(db, RevokeSource(user, id, source, signed), now);
    if IsUuid(id) && id != source && MayAct(db, user, source) {
      OneRevoke(db, RevokeTarget(user, id, source, signed), now);
      if id in db.devices && db.devices[id].owner == user && db.devices[id].revokedAt == None && signed {
        RevokeAlone(db, user, id, source, now);
      }
    }
  }

  // ---------------------------------------------------------------- linked by code only

  /** Links stay, for the same user, device and code. */
  ghost predicate KeepsLinks(before: map<string, Link>, after: map<string, Link>) {
    forall l :: l in before ==>
      l in after && after[l].owner == before[l].owner && after[l].target == before[l].target && after[l].code == before[l].code
  }

  /** The request was a signed one of the device's user for a link to this device, from the device
      that linked it, and carried that link's code. */
  predicate AskedWithCode(request: Handler, db: Db, d: string)
    requires d in db.devices
  {
    && request.ApproveRead? && request.signed && request.user == db.devices[d].owner
    && db.devices[d].linkedBy == Some(request.source)
    && Asked(db, request.user, request.linkId)
    && db.links[request.linkId].target == d && db.links[request.linkId].code == request.code
  }

  predicate SameLink(db: Db, linkId: string, row: Link) {
    && linkId in db.links && db.links[linkId].owner == row.owner && db.links[linkId].target == row.target
    && db.links[linkId].code == row.code
  }

  /** What an approval under way says about the request that started it. */
  predicate ShownBy(request: Handler, db: Db, user: User, linkId: string, source: string, row: Link) {
    && request.ApproveRead? && request.user == user == row.owner && request.linkId == linkId && request.source == source
    && request.code == row.code && IsUuid(linkId) && SameLink(db, linkId, row)
  }

  predicate CarriesCode(request: Handler, db: Db, h: Handler) {
    match h
    case ApproveRead(_, _, _, _, _, _) => h == request
    case ApproveSource(user, linkId, source, row, signed) => ShownBy(request, db, user, linkId, source, row) && request.signed == signed
    case ApproveClaim(user, linkId, source, row) => ShownBy(request, db, user, linkId, source, row) && request.signed
    case ApproveTarget(user, linkId, source, row) => ShownBy(request, db, user, linkId, source, row) && request.signed
    case _ => true
  }

  lemma NextKeepsLinks(db: Db, h: Handler, now: int)
    requires !Finished(h)
    ensures KeepsLinks(db.links, Next(db, h, now).0.links)
  {
  }

  lemma NextCarriesCode(request: Handler, db: Db, h: Handler, now: int)
    requires !Finished(h) && CarriesCode(request, db, h)
    ensures CarriesCode(request, Next(db, h, now).0, Next(db, h, now).1)
  {
    NextKeepsLinks(db, h, now);
  }

  /** Only the second write of an approval gives a device its linkedBy. */
  lemma OnlyApprovalLinks(request: Handler, db: Db, h: Handler, now: int, d: string)
    requires !Finished(h) && CarriesCode(request, db, h)
    requires d in Next(db, h, now).0.devices && Next(db, h, now).0.devices[d].linkedBy.Some?
    ensures var after := Next(db, h, now).0;
            || (d in db.devices && db.devices[d].owner == after.devices[d].owner && db.devices[d].linkedBy == after.devices[d].linkedBy)
            || AskedWithCode(request, after, d)
  {
  }

  /** Every device that another one linked was asked for with its link's code. */
  ghost predicate LinkedWithCode(requests: seq<Handler>, db: Db) {
    forall d :: d in db.devices && db.devices[d].linkedBy.Some? ==>
      exists i :: 0 <= i < |requests| && AskedWithCode(requests[i], db, d)
  }

  lemma StepLinksWithCode(requests: seq<Handler>, m: Machine, i: nat, now: int)
    requires |requests| == |m.handlers| && i < |m.handlers|
    requires LinkedWithCode(requests, m.db) && forall j :: 0 <= j < |requests| ==> CarriesCode(requests[j], m.db, m.handlers[j])
    ensures var after := Step(m, i, now);
            LinkedWithCode(requests, after.db) && forall j :: 0 <= j < |requests| ==> CarriesCode(requests[j], after.db, after.handlers[j])
  {
    if !Finished(m.handlers[i]) {
      var after := Step(m, i, now);
      NextKeepsLinks(m.db, m.handlers[i], now);
      NextCarriesCode(requests[i], m.db, m.handlers[i], now);
      forall d | d in after.db.devices && after.db.devices[d].linkedBy.Some?
        ensures exists j :: 0 <= j < |requests| && AskedWithCode(requests[j], after.db, d)
      {
        OnlyApprovalLinks(requests[i], m.db, m.handlers[i], now, d);
        if !AskedWithCode(requests[i], after.db, d) {
          var j :| 0 <= j < |requests| && AskedWithCode(requests[j], m.db, d);
          assert AskedWithCode(requests[j], after.db, d);
        }
      }
    }
  }

  /** In every interleaved run a device is linked by another one only through a request that carried
      the one-time code of its link, signed by the linking device for the user of both. */
  lemma {:induction false} RunLinksWithCode(machines: seq<Machine>, schedule: seq<(nat, int)>, k: nat)
    requires Run(machines, schedule) && k < |machines|
    ensures LinkedWithCode(machines[0].handlers, machines[k].db)
    ensures |machines[k].handlers| == |machines[0].handlers|
    ensures forall j :: 0 <= j < |machines[0].handlers| ==> CarriesCode(machines[0].handlers[j], machines[k].db, machines[k].handlers[j])
    decreases k
  {
    if k > 0 {
      RunLinksWithCode(machines, schedule, k - 1);
      StepOfRun(machines, schedule, k - 1);
      StepLinksWithCode(machines[0].handlers, machines[k - 1], schedule[k - 1].0, schedule[k - 1].1);
    }
  }

  // ---------------------------------------------------------------- one approval wins

  /** No call opens a link again, and one that approves it finds it pending, unexpired and with attempts left. */
  lemma NextApprovesOpen(db: Db, h: Handler, now: int, l: string)
    requires !Finished(h) && l in Next(db, h, now).0.links
    ensures var after := Next(db, h, now).0.links;
            && (l in db.links && db.links[l].status != Pending ==> after[l].status != Pending)
            && (after[l].status == Approved && (l in db.links ==> db.links[l].status != Approved) ==>
                  l in db.links && db.links[l].status == Pending && now < db.links[l].expiresAt && db.links[l].attempts < 5)
  {
  }

  /** In every interleaved run a link is approved only while it is pending, unexpired and below five
      attempts, whatever happened since the approval was read. */
  lemma ApprovedWhileOpen(machines: seq<Machine>, schedule: seq<(nat, int)>, k: nat, l: string)
    requires Run(machines, schedule) && k < |schedule|
    requires l in machines[k + 1].db.links && machines[k + 1].db.links[l].status == Approved
    requires l in machines[k].db.links ==> machines[k].db.links[l].status != Approved
    ensures l in machines[k].db.links && machines[k].db.links[l].status == Pending
    ensures schedule[k].1 < machines[k].db.links[l].expiresAt && machines[k].db.links[l].attempts < 5
  {
    StepOfRun(machines, schedule, k);
    var h := machines[k].handlers[schedule[k].0];
    if !Finished(h) {
      NextApprovesOpen(machines[k].db, h, schedule[k].1, l);
    }
  }

  lemma NextUndoesApproval(db: Db, h: Handler, now: int, l: string)
    requires !Finished(h) && l in db.links && db.links[l].status in {Approved, Completed}
    ensures l in Next(db, h, now).0.links
    ensures Next(db, h, now).0.links[l].status == Cancelled ==> h.RevokeLinks? && h.id == db.links[l].target
  {
  }

  /** In every interleaved run an approved link is cancelled only by the revocation of its device, never
      by a cancellation that was read before the approval. */
  lemma OnlyRevocationUndoesApproval(machines: seq<Machine>, schedule: seq<(nat, int)>, k: nat, l: string)
    requires Run(machines, schedule) && k < |schedule|
    requires l in machines[k].db.links && machines[k].db.links[l].status in {Approved, Completed}
    ensures l in machines[k + 1].db.links && schedule[k].0 < |machines[k].handlers|
    ensures machines[k + 1].db.links[l].status == Cancelled ==>
              machines[k].handlers[schedule[k].0] == RevokeLinks(machines[k].db.links[l].target)
  {
    StepOfRun(machines, schedule, k);
    var h := machines[k].handlers[schedule[k].0];
    if !Finished(h) {
      NextUndoesApproval(machines[k].db, h, schedule[k].1, l);
    }
  }

  /** The approval has won its link: the device is linked, or about to be. */
  predicate Won(request: Handler, h: Handler) {
    request.ApproveRead? && (h.ApproveTarget? || h.Succeeded?)
  }

  /** The winner's link is closed, and an approval under way is one to the end. */
  predicate WinnerInv(request: Handler, db: Db, h: Handler) {
    && CarriesCode(request, db, h)
    && (request.ApproveRead? ==> IsApprove(h) || Finished(h))
    && (Won(request, h) ==> request.linkId in db.links && db.links[request.linkId].status != Pending)
  }

  lemma NextWins(request: Handler, db: Db, h: Handler, now: int)
    requires !Finished(h) && WinnerInv(request, db, h)
    ensures WinnerInv(request, Next(db, h, now).0, Next(db, h, now).1)
    ensures Won(request, Next(db, h, now).1) && !Won(request, h) ==>
              request.linkId in db.links && db.links[request.linkId].status == Pending
  {
    NextCarriesCode(request, db, h, now);
  }

  lemma OthersKeepWinner(request: Handler, db: Db, k: Handler, h: Handler, now: int)
    requires !Finished(h) && WinnerInv(request, db, k)
    ensures WinnerInv(request, Next(db, h, now).0, k)
  {
    NextKeepsLinks(db, h, now);
    if Won(request, k) {
      NextApprovesOpen(db, h, now, request.linkId);
    }
  }

  predicate BothWon(requests: seq<Handler>, m: Machine, i: nat, j: nat)
    requires |requests| == |m.handlers| && i < |requests| && j < |requests|
  {
    Won(requests[i], m.handlers[i]) && Won(requests[j], m.handlers[j]) && requests[i].linkId == requests[j].linkId
  }

  /** At most one approval of a link has won. */
  ghost predicate OneWinner(requests: seq<Handler>, m: Machine)
    requires |requests| == |m.handlers|
  {
    && (forall j :: 0 <= j < |requests| ==> WinnerInv(requests[j], m.db, m.handlers[j]))
    && forall i, j :: 0 <= i < |requests| && 0 <= j < |requests| && BothWon(requests, m, i, j) ==> i == j
  }

  lemma StepKeepsOneWinner(requests: seq<Handler>, m: Machine, i: nat, now: int)
    requires |requests| == |m.handlers| && i < |m.handlers| && OneWinner(requests, m)
    ensures OneWinner(requests, Step(m, i, now))
  {
    if !Finished(m.handlers[i]) {
      NextWins(requests[i], m.db, m.handlers[i], now);
      forall j | 0 <= j < |requests| && j != i ensures WinnerInv(requests[j], Step(m, i, now).db, m.handlers[j]) {
        OthersKeepWinner(requests[j], m.db, m.handlers[j], m.handlers[i], now);
      }
      forall a, b | 0 <= a < |requests| && 0 <= b < |requests| && BothWon(requests, Step(m, i, now), a, b) ensures a == b {
        assert WinnerInv(requests[a], m.db, m.handlers[a]) && WinnerInv(requests[b], m.db, m.handlers[b]);
        assert Won(requests[a], m.handlers[a]) && Won(requests[b], m.handlers[b]) ==> BothWon(requests, m, a, b);
      }
    }
  }

  lemma {:induction false} RunKeepsOneWinner(machines: seq<Machine>, schedule: seq<(nat, int)>, k: nat)
    requires Run(machines, schedule) && k < |machines|
    ensures |machines[k].handlers| == |machines[0].handlers| && OneWinner(machines[0].handlers, machines[k])
    decreases k
  {
    if k > 0 {
      RunKeepsOneWinner(machines, schedule, k - 1);
      StepOfRun(machines, schedule, k - 1);
      StepKeepsOneWinner(machines[0].handlers, machines[k - 1], schedule[k - 1].0, schedule[k - 1].1);
    }
  }

  /** However approvals of one link interleave, at most one of them ever succeeds. */
  lemma OneApprovalSucceeds(machines: seq<Machine>, schedule: seq<(nat, int)>, k: nat, i: nat, j: nat)
    requires Run(machines, schedule) && k < |machines| && i < |machines[0].handlers| && j < |machines[0].handlers|
    requires machines[0].handlers[i].ApproveRead? && machines[0].handlers[j].ApproveRead?
    requires machines[0].handlers[i].linkId == machines[0].handlers[j].linkId
    ensures |machines[k].handlers| == |machines[0].handlers|
    ensures machines[k].handlers[i] == machines[k].handlers[j] == Succeeded ==> i == j
  {
    RunKeepsOneWinner(machines, schedule, k);
    assert BothWon(machines[0].handlers, machines[k], i, j) <==>
           Won(machines[0].handlers[i], machines[k].handlers[i]) && Won(machines[0].handlers[j], machines[k].handlers[j]);
  }

  // ---------------------------------------------------------------- two devices revoke each other

  /** The checks of the revocations of handlers i and j, in turns. */
  function BothChecked(m: Machine, i: nat, j: nat, now: int): (checked: Machine)
    requires i < |m.handlers| && j < |m.handlers|
    ensures |checked.handlers| == |m.handlers|
  {
    Step(Step(Step(Step(m, i, now), j, now), i, now), j, now)
  }

  /** Handlers i and j ask, each signed by one of two trusted devices, to revoke the other one. */
  predicate RevokeEachOther(m: Machine, i: nat, j: nat, user: User, a: string, b: string) {
    && i < |m.handlers| && j < |m.handlers| && i != j && a != b
    && m.handlers[i] == RevokeSource(user, b, a, true) && m.handlers[j] == RevokeSource(user, a, b, true)
    && Trusted(m.db, user, a) && Trusted(m.db, user, b)
  }

  lemma PassesFirstCheck(m: Machine, i: nat, user: User, id: string, source: string, now: int)
    requires i < |m.handlers| && m.handlers[i] == RevokeSource(user, id, source, true)
    requires id != source && IsUuid(id) && Trusted(m.db, user, source)
    ensures Step(m, i, now) == Machine(m.db, m.handlers[i := RevokeTarget(user, id, source, true)])
  {
  }

  lemma PassesSecondCheck(m: Machine, i: nat, user: User, id: string, source: string, now: int)
    requires i < |m.handlers| && m.handlers[i] == RevokeTarget(user, id, source, true) && Trusted(m.db, user, id)
    ensures Step(m, i, now) == Machine(m.db, m.handlers[i := RevokeDevice(user, id, source)])
  {
  }

  lemma BothPassTheirChecks(m: Machine, i: nat, j: nat, user: User, a: string, b: string, now: int)
    requires RevokeEachOther(m, i, j, user, a, b)
    ensures BothChecked(m, i, j, now) ==
            Machine(m.db, m.handlers[i := RevokeDevice(user, b, a)][j := RevokeDevice(user, a, b)])
  {
    PassesFirstCheck(m, i, user, b, a, now);
    var m1 := Step(m, i, now);
    PassesFirstCheck(m1, j, user, a, b, now);
    var m2 := Step(m1, j, now);
    PassesSecondCheck(m2, i, user, b, a, now);
    var m3 := Step(m2, i, now);
    PassesSecondCheck(m3, j, user, a, b, now);
    assert Step(m3, j, now).handlers == m.handlers[i := RevokeDevice(user, b, a)][j := RevokeDevice(user, a, b)];
  }

  /** Two trusted devices that revoke each other at the same time leave their user without any active
      device: both checks come before both writes. */
  lemma MutualRevocation(m: Machine, i: nat, j: nat, user: User, a: string, b: string, now: int)
    requires RevokeEachOther(m, i, j, user, a, b)
    requires forall id :: Active(m.db.devices, user, id) ==> id == a || id == b
    ensures var last := Step(Step(BothChecked(m, i, j, now), i, now), j, now);
            Registered(last.db.devices, user) && !HasActive(last.db.devices, user)
  {
    BothPassTheirChecks(m, i, j, user, a, b, now);
    var checked := BothChecked(m, i, j, now);
    var after := Step(checked, i, now);
    assert after.handlers[j] == RevokeDevice(user, a, b);
    var last := Step(after, j, now);
    assert last.db.devices[a].owner == user;
    forall id ensures !Active(last.db.devices, user, id) {
      assert id != a && id != b ==> Active(last.db.devices, user, id) == Active(m.db.devices, user, id);
    }
  }

  lemma RunGoesOn(machines: seq<Machine>, schedule: seq<(nat, int)>, i: nat, now: int)
    returns (longer: seq<Machine>, turns: seq<(nat, int)>)
    requires Run(machines, schedule) && i < |machines[|schedule|].handlers|
    ensures Run(longer, turns) && machines < longer && |turns| == |schedule| + 1
    ensures longer[|turns|] == Step(machines[|schedule|], i, now)
  {
    longer, turns := machines + [Step(machines[|schedule|], i, now)], schedule + [(i, now)];
    forall k | 0 <= k < |turns|
      ensures turns[k].0 < |longer[k].handlers| && longer[k + 1] == Step(longer[k], turns[k].0, turns[k].1)
    {
      if k < |schedule| {
        StepOfRun(machines, schedule, k);
      }
    }
  }

  /** A run can go on with all calls of one handler, one after another. */
  lemma {:induction false} RunServes(machines: seq<Machine>, schedule: seq<(nat, int)>, i: nat, now: int)
    returns (longer: seq<Machine>, turns: seq<(nat, int)>)
    requires Run(machines, schedule) && i < |machines[|schedule|].handlers|
    ensures Run(longer, turns) && machines <= longer && |schedule| <= |turns|
    ensures var m := machines[|schedule|];
            var (db, h) := RunAlone(m.db, m.handlers[i], now);
            longer[|turns|] == Machine(db, m.handlers[i := h])
    decreases CallsLeft(machines[|schedule|].handlers[i])
  {
    var m := machines[|schedule|];
    longer, turns := machines, schedule;
    if Finished(m.handlers[i]) {
      assert m.handlers[i := m.handlers[i]] == m.handlers;
    } else {
      longer, turns := RunGoesOn(machines, schedule, i, now);
      var next := longer[|turns|];
      longer, turns := RunServes(longer, turns, i, now);
      assert m.handlers[i := next.handlers[i]] == next.handlers;
    }
  }

  /** Two registrations, the linking of the second device by the first, and two revocations. */
  function MutualRequests(user: User, a: string, b: string, linkId: string, code: string): seq<Handler> {
    [RegisterLookup(user, a, ""), RegisterLookup(user, b, ""), StartRead(user, b, linkId, code, false),
     ApproveRead(user, linkId, a, code, true, false), RevokeSource(user, b, a, true), RevokeSource(user, a, b, true)]
  }

  /** The first device linked itself and the second waits. */
  function OneLinked(user: User, a: string, b: string, now: int): Db {
    Db(map[a := Device(user, "", Some(now), None, None), b := Device(user, "", None, None, None)], map[], map[])
  }

  lemma BothRegister(user: User, a: string, b: string, now: int)
    requires IsUuid(a) && IsUuid(b) && a != b
    ensures var db := RunAlone(EMPTY, RegisterLookup(user, a, ""), now).0;
            RunAlone(db, RegisterLookup(user, b, ""), now).0 == OneLinked(user, a, b, now)
  {
    RegistrationExactly(EMPTY, user, a, "", now);
    var db := RunAlone(EMPTY, RegisterLookup(user, a, ""), now).0;
    assert db == Db(map[a := Device(user, "", Some(now), None, None)], map[], map[]);
    assert db.devices[a].owner == user;
    RegistrationExactly(db, user, b, "", now);
  }

  lemma FirstLinksSecond(user: User, a: string, b: string, linkId: string, code: string, now: int)
    requires IsUuid(a) && IsUuid(b) && IsUuid(linkId) && a != b && IsCode(code)
    ensures var asked := RunAlone(OneLinked(user, a, b, now), StartRead(user, b, linkId, code, false), now).0;
            var linked := RunAlone(asked, ApproveRead(user, linkId, a, code, true, false), now).0;
            && Trusted(linked, user, a) && Trusted(linked, user, b)
            && forall id :: Active(linked.devices, user, id) ==> id == a || id == b
  {
    var db := OneLinked(user, a, b, now);
    StartExactly(db, user, b, linkId, code, false, now);
    var asked := RunAlone(db, StartRead(user, b, linkId, code, false), now).0;
    assert asked.devices == db.devices && asked.links[linkId] == Link(user, b, code, now + LINK_TTL, Pending, 0, None);
    ApprovalExactly(asked, user, linkId, a, code, true, false, now);
  }

  lemma FourServed(requests: seq<Handler>, now: int) returns (machines: seq<Machine>, schedule: seq<(nat, int)>)
    requires |requests| == 6 && forall i :: 0 <= i < 6 ==> Initial(requests[i])
    ensures Run(machines, schedule) && machines[0] == Machine(EMPTY, requests)
    ensures var db := RunAlone(RunAlone(EMPTY, requests[0], now).0, requests[1], now).0;
            machines[|schedule|].db == RunAlone(RunAlone(db, requests[2], now).0, requests[3], now).0
    ensures |machines[|schedule|].handlers| == 6 && machines[|schedule|].handlers[4..] == requests[4..]
  {
    machines, schedule := [Machine(EMPTY, requests)], [];
    machines, schedule := RunServes(machines, schedule, 0, now);
    machines, schedule := RunServes(machines, schedule, 1, now);
    machines, schedule := RunServes(machines, schedule, 2, now);
    machines, schedule := RunServes(machines, schedule, 3, now);
  }

  /** The first four requests, served one after another from the empty database, leave exactly two
      active devices. */
  lemma TwoDevicesLinked(user: User, a: string, b: string, linkId: string, code: string, now: int)
    returns (machines: seq<Machine>, schedule: seq<(nat, int)>)
    requires IsUuid(a) && IsUuid(b) && IsUuid(linkId) && a != b && IsCode(code)
    ensures Run(machines, schedule) && machines[0].handlers == MutualRequests(user, a, b, linkId, code)
    ensures var m := machines[|schedule|];
            RevokeEachOther(m, 4, 5, user, a, b) && forall id :: Active(m.db.devices, user, id) ==> id == a || id == b
  {
    BothRegister(user, a, b, now);
    FirstLinksSecond(user, a, b, linkId, code, now);
    machines, schedule := FourServed(MutualRequests(user, a, b, linkId, code), now);
    var handlers := machines[|schedule|].handlers;
    assert handlers[4..][0] == handlers[4] && handlers[4..][1] == handlers[5];
  }

  /** The failure is real: from the empty database, with any three identifiers and code, those six
      requests have an interleaving that ends with a registered user without an active device. */
  lemma MutualRevocationFromEmpty(user: User, a: string, b: string, linkId: string, code: string, now: int)
    returns (machines: seq<Machine>, schedule: seq<(nat, int)>)
    requires IsUuid(a) && IsUuid(b) && IsUuid(linkId) && a != b && IsCode(code)
    ensures Run(machines, schedule) && machines[0].handlers == MutualRequests(user, a, b, linkId, code)
    ensures Registered(machines[|schedule|].db.devices, user) && !HasActive(machines[|schedule|].db.devices, user)
    ensures !forall k :: 0 <= k < |machines| ==> KeepsAnActive(machines, user, k)
  {
    machines, schedule := TwoDevicesLinked(user, a, b, linkId, code, now);
    MutualRevocation(machines[|schedule|], 4, 5, user, a, b, now);
    machines, schedule := RunGoesOn(machines, schedule, 4, now);
    machines, schedule := RunGoesOn(machines, schedule, 5, now);
    machines, schedule := RunGoesOn(machines, schedule, 4, now);
    machines, schedule := RunGoesOn(machines, schedule, 5, now);
    machines, schedule := RunGoesOn(machines, schedule, 4, now);
    machines, schedule := RunGoesOn(machines, schedule, 5, now);
    assert !KeepsAnActive(machines, user, |schedule|);
  }

  /** A version 4 identifier that ends in c. */
  function UuidEnding(c: char): string {
    seq(36, i => if i in {8, 13, 18, 23} then '-' else if i == 14 then '4' else if i == 19 then '8' else if i == 35 then c else '0')
  }

  lemma UuidEndingIsUuid(c: char)
    requires '0' <= c <= '9'
    ensures IsUuid(UuidEnding(c))
  {
  }

  /** Such identifiers and codes exist, so the run does. */
  lemma MutualRevocationHappens(user: User) returns (machines: seq<Machine>, schedule: seq<(nat, int)>)
    ensures Run(machines, schedule)
    ensures Registered(machines[|schedule|].db.devices, user) && !HasActive(machines[|schedule|].db.devices, user)
  {
    UuidEndingIsUuid('1');
    UuidEndingIsUuid('2');
    UuidEndingIsUuid('3');
    assert UuidEnding('1')[35] != UuidEnding('2')[35];
    machines, schedule := MutualRevocationFromEmpty(user, UuidEnding('1'), UuidEnding('2'), UuidEnding('3'), "0123456789", 0);
  }

  // ---------------------------------------------------------------- the services

  /** The device, link and history-key tables with the handlers that work on them. Each handler does
      what its database calls do when nothing comes between them. */
  class SupportDeviceLinks {
    var devices: map<string, Device>
    var links: map<string, Link>
    var keys: map<KeySlot, HistoryKey>

    constructor ()
      ensures View() == EMPTY
    {
      devices, links, keys := map[], map[], map[];
    }

    function View(): Db
      reads this
    {
      Db(devices, links, keys)
    }

    method RegisterKey(user: User, id: string, fingerprint: string, now: int) returns (answer: Handler)
      modifies this`devices
      ensures (View(), answer) == RunAlone(old(View()), RegisterLookup(user, id, fingerprint), now)
    {
      OneRegister(View(), RegisterLookup(user, id, fingerprint), now);
      if !IsUuid(id) {
        return Failed(Refused);
      }
      if id in devices {
        var existing := devices[id];
        if existing.owner != user || existing.revokedAt.Some? || existing.fingerprint != fingerprint {
          return Failed(Refused);
        }
        return Succeeded;
      }
      OneRegister(View(), RegisterCreate(user, id, fingerprint), now);
      var linked := set d | d in devices && devices[d].owner == user && devices[d].linkedAt.Some? && devices[d].revokedAt.None?;
      var registered := set d | d in devices && devices[d].owner == user;
      var linkedAt := if |linked| == 0 && |registered| == 0 then Some(now) else None;
      assert linked <= registered;
      if d :| d in devices && devices[d].owner == user {
        assert d in registered;
      } else {
        assert registered == {};
      }
      devices := devices[id := Device(user, fingerprint, linkedAt, None, None)];
      return Succeeded;
    }

    method Start(user: User, target: string, linkId: string, code: string, limited: bool, now: int) returns (answer: Handler)
      modifies this`links
      ensures (View(), answer) == RunAlone(old(View()), StartRead(user, target, linkId, code, limited), now)
    {
      OneStart(View(), StartRead(user, target, linkId, code, limited), now);
      if !IsUuid(target) {
        return Failed(Refused);
      }
      if target !in devices || devices[target].owner != user || devices[target].revokedAt.Some? {
        return Failed(NotFound);
      }
      if devices[target].linkedAt.Some? {
        return Failed(Refused);
      }
      if limited {
        return Failed(RateLimited);
      }
      OneStart(View(), StartCancel(user, target, linkId, code), now);
      links := SetStatus(links, PendingFor(links, user, target), Cancelled);
      OneStart(View(), StartCreate(user, target, linkId, code), now);
      if linkId in links {
        return Failed(AlreadyTaken);
      }
      links := links[linkId := Link(user, target, code, now + LINK_TTL, Pending, 0, None)];
      return Succeeded;
    }

    method Approve(user: User, linkId: string, source: string, code: string, signed: bool, limited: bool, now: int)
      returns (answer: Handler)
      modifies this`devices, this`links
      ensures (View(), answer) == RunAlone(old(View()), ApproveRead(user, linkId, source, code, signed, limited), now)
    {
      OneApprove(View(), ApproveRead(user, linkId, source, code, signed, limited), now);
      if !OwnLink(View(), user, linkId) {
        return Failed(NotFound);
      }
      var row := links[linkId];
      if limited {
        return Failed(RateLimited);
      }
      if row.status != Pending || row.expiresAt <= now || row.attempts >= 5 {
        return Failed(Refused);
      }
      if !IsCode(code) || !IsUuid(source) || source == row.target || code != row.code {
        OneApprove(View(), ApproveMiss(linkId), now);
        links := links[linkId := row.(attempts := row.attempts + 1)];
        return Failed(Refused);
      }
      OneApprove(View(), ApproveSource(user, linkId, source, row, signed), now);
      if !Trusted(View(), user, source) {
        return Failed(Refused);
      }
      if !signed {
        OneApprove(View(), ApproveMiss(linkId), now);
        links := links[linkId := row.(attempts := row.attempts + 1)];
        return Failed(Refused);
      }
      answer := ClaimAndLink(user, linkId, source, row, now);
    }

    /** The two conditional updates of an approval. */
    method ClaimAndLink(user: User, linkId: string, source: string, row: Link, now: int) returns (answer: Handler)
      requires linkId in links && links[linkId] == row
      modifies this`devices, this`links
      ensures (View(), answer) == RunAlone(old(View()), ApproveClaim(user, linkId, source, row), now)
    {
      OneApprove(View(), ApproveClaim(user, linkId, source, row), now);
      if row.status != Pending || row.expiresAt <= now || row.attempts >= 5 {
        return Failed(Refused);
      }
      links := links[linkId := row.(status := Approved, approvedBy := Some(source))];
      OneApprove(View(), ApproveTarget(user, linkId, source, row), now);
      if row.target !in devices || devices[row.target].owner != user || devices[row.target].linkedAt.Some? ||
         devices[row.target].revokedAt.Some? {
        return Failed(Refused);
      }
      devices := devices[row.target := devices[row.target].(linkedAt := Some(now), linkedBy := Some(source))];
      return Succeeded;
    }

    method Cancel(user: User, linkId: string, now: int) returns (answer: Handler)
      modifies this`links
      ensures (View(), answer) == RunAlone(old(View()), CancelRead(user, linkId), now)
    {
      OneCancel(View(), CancelRead(user, linkId), now);
      if !OwnLink(View(), user, linkId) {
        return Failed(NotFound);
      }
      if links[linkId].status != Pending {
        return Failed(Refused);
      }
      OneCancel(View(), CancelWrite(linkId), now);
      links := links[linkId := links[linkId].(status := Cancelled)];
      return Succeeded;
    }

    /** The checks of a history batch, with the set of message ids seen so far. */
    method CheckBatch(items: seq<Item>) returns (accepted: bool)
      ensures accepted == BatchAccepted(items)
    {
      if |items| < 1 || |items| > 100 {
        return false;
      }
      var seen: set<string> := {};
      for i := 0 to |items|
        invariant seen == set j | 0 <= j < i :: items[j].messageId
        invariant DistinctMessages(items[..i])
        invariant forall j :: 0 <= j < i ==> items[j].wellFormed && items[j].signed
      {
        if !items[i].wellFormed || !items[i].signed {
          return false;
        }
        if items[i].messageId in seen {
          var j :| 0 <= j < i && items[j].messageId == items[i].messageId;
          return false;
        }
        seen := seen + {items[i].messageId};
      }
      assert items[..|items|] == items;
      if BatchLength(items) > MAX_BATCH_LENGTH {
        return false;
      }
      if |Conversations(items)| > 30 {
        return false;
      }
      for i := 0 to |items|
        invariant forall j :: 0 <= j < i ==> items[j].accessible && items[j].encrypted
      {
        if !items[i].accessible || !items[i].encrypted {
          return false;
        }
      }
      return true;
    }

    method UploadHistory(user: User, linkId: string, source: string, items: seq<Item>, now: int) returns (answer: Handler)
      modifies this`keys
      ensures (View(), answer) == RunAlone(old(View()), UploadRead(user, linkId, source, items), now)
    {
      OneUpload(View(), UploadRead(user, linkId, source, items), now);
      if !OwnLink(View(), user, linkId) {
        return Failed(NotFound);
      }
      var row := links[linkId];
      if row.status !in {Approved, Completed} || row.approvedBy != Some(source) {
        return Failed(Refused);
      }
      answer := ShareKeys(user, linkId, source, row, items, now);
    }

    /** The upload once the link row has been read: device checks, batch checks, then the write. */
    method ShareKeys(user: User, linkId: string, source: string, row: Link, items: seq<Item>, now: int) returns (answer: Handler)
      modifies this`keys
      ensures (View(), answer) == RunAlone(old(View()), UploadSource(user, linkId, source, row, items), now)
    {
      OneUpload(View(), UploadSource(user, linkId, source, row, items), now);
      if !Trusted(View(), user, source) {
        return Failed(Refused);
      }
      OneUpload(View(), UploadTarget(user, linkId, source, row, items), now);
      var accepted := CheckBatch(items);
      if !Trusted(View(), user, row.target) || !accepted {
        return Failed(Refused);
      }
      OneUpload(View(), UploadWrite(linkId, source, row, items), now);
      StoreBatch(linkId, source, row.target, items);
      return Succeeded;
    }

    /** createMany with skipDuplicates. */
    method StoreBatch(linkId: string, source: string, target: string, items: seq<Item>)
      modifies this`keys
      ensures keys == StoreKeys(old(keys), linkId, source, target, items)
    {
      for i := 0 to |items|
        invariant keys == StoreKeys(old(keys), linkId, source, target, items[..i])
      {
        assert items[..i + 1][..i] == items[..i];
        var slot := KeySlot(items[i].messageId, target);
        if slot !in keys {
          keys := keys[slot := HistoryKey(linkId, source, items[i].wrappedKey)];
        }
      }
      assert items[..|items|] == items;
    }

    method Complete(user: User, linkId: string, source: string, signed: bool, now: int) returns (answer: Handler)
      modifies this`links
      ensures (View(), answer) == RunAlone(old(View()), CompleteRead(user, linkId, source, signed), now)
    {
      OneComplete(View(), CompleteRead(user, linkId, source, signed), now);
      if !OwnLink(View(), user, linkId) {
        return Failed(NotFound);
      }
      if links[linkId].status !in {Approved, Completed} || links[linkId].approvedBy != Some(source) {
        return Failed(Refused);
      }
      OneComplete(View(), CompleteSource(user, linkId, source, signed), now);
      if !Trusted(View(), user, source) || !signed {
        return Failed(Refused);
      }
      OneComplete(View(), CompleteWrite(linkId), now);
      links := links[linkId := links[linkId].(status := Completed)];
      return Succeeded;
    }

    method Revoke(user: User, id: string, source: string, signed: bool, now: int) returns (answer: Handler)
      modifies this
      ensures (View(), answer) == RunAlone(old(View()), RevokeSource(user, id, source, signed), now)
    {
      OneRevoke(View(), RevokeSource(user, id, source, signed), now);
      if !IsUuid(id) || id == source || !Trusted(View(), user, source) {
        return Failed(Refused);
      }
      OneRevoke(View(), RevokeTarget(user, id, source, signed), now);
      if id !in devices || devices[id].owner != user || devices[id].revokedAt.Some? {
        return Failed(NotFound);
      }
      if !signed {
        return Failed(Refused);
      }
      CloseDevice(user, id, source, now);
      return Succeeded;
    }

    /** The three writes of a revocation. */
    method CloseDevice(ghost user: User, id: string, ghost source: string, now: int)
      requires id in devices
      modifies this
      ensures (View(), Succeeded) == RunAlone(old(View()), RevokeDevice(user, id, source), now)
    {
      RevokeAlone(View(), user, id, source, now);
      devices := devices[id := devices[id].(revokedAt := Some(now))];
      keys := DropKeys(keys, id);
      links := SetStatus(links, OpenFor(links, id), Cancelled);
    }
  }
}
