/** The media rows of the synchronisation store: upserting a pushed asset, and retiring the asset
    that it replaces in its slot. */
module MediaStore {
  import opened Common
  import opened Text
  import opened MediaKey

  // ---------------------------------------------------------------- rows and pushes

  /** The fields of a media payload that decide about slots. */
  datatype Media = Media(ownerTable: Option<string>, fieldKey: Option<string>, ownerId: Option<string>, ownerTempKey: Option<string>,
                         deviceId: Option<string>, identityKey: Option<string>, active: bool, isDeleted: bool)

  datatype Asset = Asset(accountId: string, localId: string, deviceId: Option<string>, version: int, updatedAt: int, isDeleted: bool,
                         media: Media)

  datatype Push = Push(accountId: Option<string>, localId: Option<string>, cloudId: Option<string>, deviceId: Option<string>,
                       version: int, updatedAt: int, isDeleted: bool, media: Media)

  type Rows = map<string, Asset>

  const MULTI_MEDIA_FIELD_KEYS: set<string> := {"gallery", "schoolGalleryImages"}

  predicate MultiField(fieldKey: Option<string>) {
    CleanText(fieldKey).Some? && CleanText(fieldKey).value in MULTI_MEDIA_FIELD_KEYS
  }

  predicate Live(a: Asset) {
    !a.isDeleted && a.media.active && !a.media.isDeleted
  }

  function KeyIn(accountId: string, m: Media): Option<string> {
    BuildMediaIdentityKey(Some(accountId), CleanText(m.ownerTable), CleanText(m.fieldKey), CleanText(m.ownerId),
                          CleanText(m.ownerTempKey))
  }

  datatype UpsertError = AccountMissing | InvalidLocalId | IncompleteMedia | OtherAccount | UniqueConstraint

  datatype Outcome = Saved(id: string) | Stale(id: string) | Failed(error: UpsertError)

  function Normalized(m: Media, accountId: string, recordDeviceId: Option<string>): Media {
    m.(ownerTable := CleanText(m.ownerTable), fieldKey := CleanText(m.fieldKey), ownerId := CleanText(m.ownerId),
       ownerTempKey := CleanText(m.ownerTempKey), deviceId := CleanText(if Set(m.deviceId) then m.deviceId else recordDeviceId),
       identityKey := KeyIn(accountId, m))
  }

  function NormalizeMediaPayload(m: Media, accountId: string, recordDeviceId: Option<string>, isDeleted: bool): Result<Media, UpsertError> {
    var n := Normalized(m, accountId, recordDeviceId);
    if m.active && !m.isDeleted && !isDeleted && (n.ownerTable.None? || n.fieldKey.None? || n.identityKey.None?)
    then Err(IncompleteMedia)
    else Ok(n)
  }

  lemma CleanTextIdempotent(s: Option<string>)
    ensures CleanText(CleanText(s)) == CleanText(s)
    ensures Set(CleanText(s)) <==> CleanText(s).Some?
  {
    if s.Some? {
      TrimIdempotent(s.value);
    }
  }

  /** The pass after a save cannot fail, and changes nothing but a blank device id. */
  lemma NormalizeTwice(m: Media, accountId: string, deviceId: Option<string>, storedDevice: Option<string>, isDeleted: bool)
    requires NormalizeMediaPayload(m, accountId, deviceId, isDeleted).Ok?
    ensures var n := NormalizeMediaPayload(m, accountId, deviceId, isDeleted).value;
            && NormalizeMediaPayload(n, accountId, storedDevice, isDeleted).Ok?
            && NormalizeMediaPayload(n, accountId, storedDevice, isDeleted).value ==
               n.(deviceId := if n.deviceId.Some? then n.deviceId else CleanText(storedDevice))
  {
    CleanTextIdempotent(m.ownerTable);
    CleanTextIdempotent(m.fieldKey);
    CleanTextIdempotent(m.ownerId);
    CleanTextIdempotent(m.ownerTempKey);
    CleanTextIdempotent(if Set(m.deviceId) then m.deviceId else deviceId);
  }

  // ---------------------------------------------------------------- the lookup

  /** The account's rows, most recently updated first; ties are in any order. */
  ghost predicate ByRecency(rows: Rows, accountId: string, order: seq<string>) {
    && (forall id :: id in order <==> id in rows && rows[id].accountId == accountId)
    && (forall i, j :: 0 <= i < j < |order| ==> order[i] != order[j] && rows[order[i]].updatedAt >= rows[order[j]].updatedAt)
  }

  /** The ids among the first limit that pass the stored filter which also pass exact. */
  function FirstOf(order: seq<string>, stored: string -> bool, limit: nat, exact: string -> bool): (found: Option<string>)
    ensures found.Some? ==> found.value in order && stored(found.value) && exact(found.value)
    decreases |order|
  {
    if order == [] || limit == 0 then None
    else if !stored(order[0]) then FirstOf(order[1..], stored, limit, exact)
    else if exact(order[0]) then Some(order[0])
    else FirstOf(order[1..], stored, limit - 1, exact)
  }

  /** The key of the asset's slot; a row stored without one gets it from its fields. */
  function SlotKey(a: Asset): Option<string> {
    if CleanText(a.media.identityKey).Some? then CleanText(a.media.identityKey) else KeyIn(a.accountId, a.media)
  }

  predicate SameField(a: Asset, m: Media) {
    CleanText(a.media.ownerTable) == m.ownerTable && CleanText(a.media.fieldKey) == m.fieldKey
  }

  function ByLocalId(rows: Rows, order: seq<string>, localId: string): Option<string> {
    FirstOf(order, id => id in rows && rows[id].localId == localId, 1, id => true)
  }

  function ByKey(rows: Rows, order: seq<string>, m: Media): Option<string> {
    FirstOf(order, id => id in rows && rows[id].media.identityKey == m.identityKey, 20,
            id => id in rows && CleanText(rows[id].media.identityKey) == m.identityKey && SameField(rows[id], m))
  }

  function ByOwner(rows: Rows, order: seq<string>, m: Media): Option<string> {
    FirstOf(order, id => id in rows && rows[id].media.ownerId == m.ownerId, 50,
            id => id in rows && CleanText(rows[id].media.ownerId) == m.ownerId && SameField(rows[id], m))
  }

  function ByTempKey(rows: Rows, order: seq<string>, m: Media): Option<string> {
    FirstOf(order, id => id in rows && rows[id].media.ownerTempKey == m.ownerTempKey, 50,
            id => id in rows && CleanText(rows[id].media.ownerTempKey) == m.ownerTempKey && SameField(rows[id], m))
  }

  /** The row that the payload's slot, its owner or its temporary owner points to. */
  function BySlot(rows: Rows, order: seq<string>, m: Media): Option<string> {
    var complete := m.ownerTable.Some? && m.fieldKey.Some?;
    var byKey := if m.identityKey.Some? then ByKey(rows, order, m) else None;
    var byOwner := if m.ownerId.Some? && complete then ByOwner(rows, order, m) else None;
    if byKey.Some? then byKey
    else if byOwner.Some? then byOwner
    else if m.ownerTempKey.Some? && complete then ByTempKey(rows, order, m)
    else None
  }

  /** The row that a push updates: by cloud id, by local id, then - for a field with one slot - by
      the slot. */
  function FindExisting(rows: Rows, order: seq<string>, cloudId: Option<string>, localId: string, m: Media): (found: Option<string>)
    requires forall id :: id in order ==> id in rows
    ensures found.Some? ==> found.value in rows
  {
    var byLocalId := ByLocalId(rows, order, localId);
    if cloudId.Some? && cloudId.value in rows then cloudId
    else if byLocalId.Some? then byLocalId
    else if MultiField(m.fieldKey) then None
    else BySlot(rows, order, m)
  }

  /** id is the first in order that the stored filter passes. */
  ghost predicate IsFirst(order: seq<string>, stored: string -> bool, id: string) {
    exists i :: 0 <= i < |order| && order[i] == id && stored(id) && forall j :: 0 <= j < i ==> !stored(order[j])
  }

  lemma {:induction false} FirstOfIsFirst(order: seq<string>, stored: string -> bool, limit: nat, exact: string -> bool)
    requires limit > 0 && (forall id :: id in order && stored(id) ==> exact(id)) && exists id :: id in order && stored(id)
    ensures FirstOf(order, stored, limit, exact).Some? && IsFirst(order, stored, FirstOf(order, stored, limit, exact).value)
  {
    if stored(order[0]) {
      assert order[0] == order[0];
    } else {
      var rest := order[1..];
      FirstOfIsFirst(rest, stored, limit, exact);
      var found := FirstOf(rest, stored, limit, exact).value;
      var i :| 0 <= i < |rest| && rest[i] == found && stored(found) && forall j :: 0 <= j < i ==> !stored(rest[j]);
      assert order[i + 1] == found;
      assert forall j :: 0 < j < i + 1 ==> order[j] == rest[j - 1];
    }
  }

  /** A pushed asset whose local id the account already stores updates the most recent row with it,
      unless its cloud id names a row. */
  lemma KnownAssetIsFound(rows: Rows, order: seq<string>, cloudId: Option<string>, localId: string, m: Media)
    requires forall id :: id in order ==> id in rows
    requires (cloudId.None? || cloudId.value !in rows) && exists id :: id in order && rows[id].localId == localId
    ensures FindExisting(rows, order, cloudId, localId, m).Some?
    ensures IsFirst(order, id => id in rows && rows[id].localId == localId, FindExisting(rows, order, cloudId, localId, m).value)
  {
    var known: string :| known in order && rows[known].localId == localId;
    var stored := (id: string) => id in rows && rows[id].localId == localId;
    assert stored(known);
    FirstOfIsFirst(order, stored, 1, id => true);
    assert FirstOf(order, stored, 1, id => true) == ByLocalId(rows, order, localId);
  }

  function CountOf(order: seq<string>, stored: string -> bool): nat {
    if order == [] then 0 else (if stored(order[0]) then 1 else 0) + CountOf(order[1..], stored)
  }

  /** The row at i is the first that both filters pass, and the limit reaches it. */
  ghost predicate FirstWithin(order: seq<string>, stored: string -> bool, limit: nat, exact: string -> bool, i: nat) {
    && i < |order| && stored(order[i]) && exact(order[i]) && CountOf(order[..i], stored) < limit
    && forall j :: 0 <= j < i ==> !(stored(order[j]) && exact(order[j]))
  }

  lemma {:induction false} FirstOfReaches(order: seq<string>, stored: string -> bool, limit: nat, exact: string -> bool, i: nat)
    requires FirstWithin(order, stored, limit, exact, i)
    ensures FirstOf(order, stored, limit, exact) == Some(order[i])
  {
    if i > 0 {
      assert order[..i][1..] == order[1..][..i - 1];
      assert order[0] == order[..i][0];
      FirstOfReaches(order[1..], stored, if stored(order[0]) then limit - 1 else limit, exact, i - 1);
    }
  }

  lemma {:induction false} FirstOfMisses(order: seq<string>, stored: string -> bool, limit: nat, exact: string -> bool)
    requires forall id :: id in order ==> !(stored(id) && exact(id))
    ensures FirstOf(order, stored, limit, exact).None?
  {
    if order != [] {
      FirstOfMisses(order[1..], stored, limit, exact);
      if limit > 0 {
        FirstOfMisses(order[1..], stored, limit - 1, exact);
      }
    }
  }

  /** A cloud id that names a row decides. */
  lemma CloudIdDecides(rows: Rows, order: seq<string>, cloudId: string, localId: string, m: Media)
    requires cloudId in rows && forall id :: id in order ==> id in rows
    ensures FindExisting(rows, order, Some(cloudId), localId, m) == Some(cloudId)
  {
  }

  /** The push is for a one-asset slot and none of the account's rows has its local id or its key. */
  ghost predicate NewToSlot(rows: Rows, order: seq<string>, cloudId: Option<string>, localId: string, m: Media) {
    && (forall id :: id in order ==> id in rows && rows[id].localId != localId)
    && (cloudId.None? || cloudId.value !in rows)
    && CleanText(m.fieldKey) !in {Some("gallery"), Some("schoolGalleryImages")}
    && (m.identityKey.Some? ==> forall id :: id in order ==> rows[id].media.identityKey != m.identityKey)
  }

  lemma NewToSlotMisses(rows: Rows, order: seq<string>, cloudId: Option<string>, localId: string, m: Media)
    requires NewToSlot(rows, order, cloudId, localId, m)
    ensures FindExisting(rows, order, cloudId, localId, m) ==
            (var byOwner := if m.ownerId.Some? then ByOwner(rows, order, m) else None;
             if m.ownerTable.None? || m.fieldKey.None? then None
             else if byOwner.Some? then byOwner
             else if m.ownerTempKey.Some? then ByTempKey(rows, order, m)
             else None)
  {
    FirstOfMisses(order, id => id in rows && rows[id].localId == localId, 1, id => true);
    if m.identityKey.Some? {
      FirstOfMisses(order, id => id in rows && rows[id].media.identityKey == m.identityKey, 20,
                    id => id in rows && CleanText(rows[id].media.identityKey) == m.identityKey && SameField(rows[id], m));
    }
  }

  /** The row is for this table and field. */
  predicate ForField(rows: Rows, id: string, m: Media) {
    id in rows && CleanText(rows[id].media.ownerTable) == m.ownerTable && CleanText(rows[id].media.fieldKey) == m.fieldKey
  }

  /** A row that was stored without a key takes the push of its owner's field, if fewer than 50 rows of
      the owner were updated after it. */
  lemma OwnerRowIsFound(rows: Rows, order: seq<string>, cloudId: Option<string>, localId: string, m: Media, i: nat)
    requires NewToSlot(rows, order, cloudId, localId, m) && m.ownerTable.Some? && m.fieldKey.Some?
    requires m.ownerId.Some? && CleanText(m.ownerId) == m.ownerId
    requires FirstWithin(order, id => id in rows && rows[id].media.ownerId == m.ownerId, 50, id => ForField(rows, id, m), i)
    ensures FindExisting(rows, order, cloudId, localId, m) == Some(order[i])
  {
    NewToSlotMisses(rows, order, cloudId, localId, m);
    var stored := (id: string) => id in rows && rows[id].media.ownerId == m.ownerId;
    var exact := (id: string) => id in rows && CleanText(rows[id].media.ownerId) == m.ownerId && SameField(rows[id], m);
    SameCount(order[..i], id => id in rows && rows[id].media.ownerId == m.ownerId, stored);
    FirstOfReaches(order, stored, 50, exact, i);
    assert FirstOf(order, stored, 50, exact) == ByOwner(rows, order, m);
  }

  /** A row stored under its owner's temporary key is handed over once the owner has an id. */
  lemma TemporaryRowIsFound(rows: Rows, order: seq<string>, cloudId: Option<string>, localId: string, m: Media, i: nat)
    requires NewToSlot(rows, order, cloudId, localId, m) && m.ownerTable.Some? && m.fieldKey.Some?
    requires m.ownerTempKey.Some? && CleanText(m.ownerTempKey) == m.ownerTempKey
    requires m.ownerId.Some? ==> forall id :: id in order ==> !(rows[id].media.ownerId == m.ownerId && ForField(rows, id, m))
    requires FirstWithin(order, id => id in rows && rows[id].media.ownerTempKey == m.ownerTempKey, 50, id => ForField(rows, id, m), i)
    ensures FindExisting(rows, order, cloudId, localId, m) == Some(order[i])
  {
    NewToSlotMisses(rows, order, cloudId, localId, m);
    if m.ownerId.Some? {
      FirstOfMisses(order, id => id in rows && rows[id].media.ownerId == m.ownerId, 50,
                    id => id in rows && CleanText(rows[id].media.ownerId) == m.ownerId && SameField(rows[id], m));
    }
    var stored := (id: string) => id in rows && rows[id].media.ownerTempKey == m.ownerTempKey;
    var exact := (id: string) => id in rows && CleanText(rows[id].media.ownerTempKey) == m.ownerTempKey && SameField(rows[id], m);
    SameCount(order[..i], id => id in rows && rows[id].media.ownerTempKey == m.ownerTempKey, stored);
    FirstOfReaches(order, stored, 50, exact, i);
    assert FirstOf(order, stored, 50, exact) == ByTempKey(rows, order, m);
  }

  /** A push without a table or a field takes over no row of the slot's owner. */
  lemma NoFieldFindsNone(rows: Rows, order: seq<string>, cloudId: Option<string>, localId: string, m: Media)
    requires NewToSlot(rows, order, cloudId, localId, m) && (m.ownerTable.None? || m.fieldKey.None?)
    ensures FindExisting(rows, order, cloudId, localId, m) == None
  {
    NewToSlotMisses(rows, order, cloudId, localId, m);
  }

  lemma {:induction false} SameCount(order: seq<string>, a: string -> bool, b: string -> bool)
    requires forall id :: a(id) == b(id)
    ensures CountOf(order, a) == CountOf(order, b)
  {
    if order != [] {
      SameCount(order[1..], a, b);
    }
  }

  /** The row as a push stores it: clean fields and the key of its own slot. */
  ghost predicate Normal(a: Asset) {
    && a.media.identityKey == KeyIn(a.accountId, a.media) && CleanText(a.media.identityKey) == a.media.identityKey
    && CleanText(a.media.ownerTable) == a.media.ownerTable && CleanText(a.media.fieldKey) == a.media.fieldKey
  }

  lemma SameKeySameField(accountId: string, a: Media, b: Media)
    requires KeyIn(accountId, a).Some? && KeyIn(accountId, a) == KeyIn(accountId, b)
    ensures CleanText(a.ownerTable) == CleanText(b.ownerTable) && CleanText(a.fieldKey) == CleanText(b.fieldKey)
  {
    CleanTextIdempotent(a.ownerTable);
    CleanTextIdempotent(a.fieldKey);
    CleanTextIdempotent(b.ownerTable);
    CleanTextIdempotent(b.fieldKey);
    KeyInjective(
      IdentityOf(Some(accountId), CleanText(a.ownerTable), CleanText(a.fieldKey), CleanText(a.ownerId), CleanText(a.ownerTempKey)).value,
      IdentityOf(Some(accountId), CleanText(b.ownerTable), CleanText(b.fieldKey), CleanText(b.ownerId), CleanText(b.ownerTempKey)).value);
  }

  /** A new asset for a slot that holds one at a time takes over the slot's most recent row: the keys
      of other slots cannot be mistaken for its own. */
  lemma SlotRowIsFound(rows: Rows, order: seq<string>, accountId: string, cloudId: Option<string>, localId: string, m: Media)
    requires forall id :: id in order ==> id in rows && rows[id].accountId == accountId && Normal(rows[id])
    requires cloudId.None? || cloudId.value !in rows
    requires forall id :: id in order ==> rows[id].localId != localId
    requires m.fieldKey !in {Some("gallery"), Some("schoolGalleryImages")}
    requires m.identityKey.Some? && m.identityKey == KeyIn(accountId, m)
    requires CleanText(m.ownerTable) == m.ownerTable && CleanText(m.fieldKey) == m.fieldKey
    requires exists id :: id in order && rows[id].media.identityKey == m.identityKey
    ensures FindExisting(rows, order, cloudId, localId, m).Some?
    ensures IsFirst(order, id => id in rows && rows[id].media.identityKey == m.identityKey,
                    FindExisting(rows, order, cloudId, localId, m).value)
  {
    var known: string :| known in order && rows[known].media.identityKey == m.identityKey;
    var stored := (id: string) => id in rows && rows[id].media.identityKey == m.identityKey;
    var exact := (id: string) => id in rows && CleanText(rows[id].media.identityKey) == m.identityKey && SameField(rows[id], m);
    assert stored(known);
    forall id | id in order && stored(id) ensures exact(id) {
      SameKeySameField(accountId, rows[id].media, m);
    }
    FirstOfIsFirst(order, stored, 20, exact);
    assert FirstOf(order, stored, 20, exact) == ByKey(rows, order, m);
    FirstOfMisses(order, id => id in rows && rows[id].localId == localId, 1, id => true);
    OneAssetField(m.fieldKey);
  }

  lemma OneAssetField(fieldKey: Option<string>)
    ensures MultiField(fieldKey) <==> CleanText(fieldKey) in {Some("gallery"), Some("schoolGalleryImages")}
  {
  }

  // ---------------------------------------------------------------- saving

  function NonZero(n: int, other: int): int {
    if n == 0 then other else n
  }

  /** The row as it is first saved, and as the normalisation after the save leaves it. */
  function FirstSave(p: Push, accountId: string, localId: string, deviceId: Option<string>, n: Media, now: int): Asset {
    Asset(accountId, localId, deviceId, NonZero(p.version, 1), NonZero(p.updatedAt, now), p.isDeleted, n)
  }

  function Renormalized(a: Asset, incoming: Option<string>): Asset {
    a.(media := Normalized(a.media, a.accountId, if Set(a.deviceId) then a.deviceId else incoming))
  }

  /** The device that the row has after a push; a push without one leaves the row's. */
  function DeviceAfter(rows: Rows, id: string, p: Push): Option<string> {
    if CleanText(p.deviceId).Some? then CleanText(p.deviceId) else if id in rows then rows[id].deviceId else None
  }

  /** Another row already has this account, local id and device. */
  predicate Taken(rows: Rows, id: string, accountId: string, localId: string, deviceId: Option<string>) {
    exists other :: other in rows && other != id && rows[other].accountId == accountId && rows[other].localId == localId &&
                    deviceId.Some? && rows[other].deviceId == deviceId
  }

  predicate Newer(p: Push, existing: Asset, now: int) {
    NonZero(p.version, 1) > existing.version || NonZero(p.updatedAt, now) >= existing.updatedAt
  }

  /** What the lookup and the checks decide, before any row changes. */
  function Decide(rows: Rows, order: seq<string>, p: Push, newId: string, now: int): (outcome: Outcome)
    requires forall id :: id in order ==> id in rows
    ensures outcome.Saved? ==> Accepted(p).Ok? && (outcome.id in rows || outcome.id == newId)
  {
    var accepted := Accepted(p);
    if accepted.Err? then Failed(accepted.error)
    else
      var (accountId, localId, n) := accepted.value;
      DecideFound(rows, FindExisting(rows, order, CleanText(p.cloudId), localId, n), accountId, localId, p, newId, now)
  }

  function DecideFound(rows: Rows, found: Option<string>, accountId: string, localId: string, p: Push, newId: string, now: int)
    : (outcome: Outcome)
    requires found.Some? ==> found.value in rows
    ensures outcome.Saved? ==> outcome.id == if found.Some? then found.value else newId
  {
    if found.Some? && rows[found.value].accountId != accountId then Failed(OtherAccount)
    else if found.Some? && !Newer(p, rows[found.value], now) then Stale(found.value)
    else
      var id := if found.Some? then found.value else newId;
      if Taken(rows, id, accountId, localId, DeviceAfter(rows, id, p)) then Failed(UniqueConstraint) else Saved(id)
  }

  /** The cleaned account, the local id and the normalised payload of a push that may be stored. */
  function Accepted(p: Push): Result<(string, string, Media), UpsertError> {
    var accountId, localId := CleanText(p.accountId), CleanText(p.localId);
    if accountId.None? then Err(AccountMissing)
    else if localId.None? || !IsUuid(localId.value) then Err(InvalidLocalId)
    else
      var n := NormalizeMediaPayload(p.media, accountId.value, CleanText(p.deviceId), p.isDeleted);
      if n.Err? then Err(n.error) else Ok((accountId.value, localId.value, n.value))
  }

  function Written(rows: Rows, id: string, p: Push, now: int): Asset
    requires Accepted(p).Ok?
  {
    var (accountId, localId, n) := Accepted(p).value;
    Renormalized(FirstSave(p, accountId, localId, DeviceAfter(rows, id, p), n, now), p.deviceId)
  }

  // ---------------------------------------------------------------- retiring what was replaced

  predicate SameSlot(a: Asset, b: Asset) {
    a.accountId == b.accountId && CleanText(a.media.ownerTable) == CleanText(b.media.ownerTable) &&
    CleanText(a.media.fieldKey) == CleanText(b.media.fieldKey) && SlotKey(a) == SlotKey(b)
  }

  /** The asset sits in a slot that holds one asset at a time. */
  predicate Slotted(a: Asset) {
    !MultiField(a.media.fieldKey) && CleanText(a.media.ownerTable).Some? && CleanText(a.media.fieldKey).Some? && SlotKey(a).Some?
  }

  function Retired(a: Asset, now: int): Asset {
    a.(isDeleted := true, updatedAt := now, version := NonZero(a.version, 1) + 1,
       media := a.media.(active := false, isDeleted := true, identityKey := SlotKey(a)))
  }

  /** The most recently updated other rows, up to 500. */
  function Candidates(order: seq<string>, id: string): (c: seq<string>)
    ensures |c| <= 500 && forall k :: k in c ==> k in order && k != id
  {
    var others := Without(order, id);
    if |others| <= 500 then others
    else
      var c := others[..500];
      assert forall i :: 0 <= i < 500 ==> c[i] == others[i] && c[i] in others;
      c
  }

  function Without(order: seq<string>, id: string): (others: seq<string>)
    ensures forall k :: k in others <==> k in order && k != id
    ensures |others| <= |order|
  {
    if order == [] then [] else (if order[0] == id then [] else [order[0]]) + Without(order[1..], id)
  }

  predicate ReplacedBy(rows: Rows, id: string, k: string)
    requires id in rows && k in rows
  {
    k != id && Live(rows[id]) && Slotted(rows[id]) && Live(rows[k]) && SameSlot(rows[k], rows[id])
  }

  /** The rows after the asset at id has retired the live assets of its slot among the candidates. */
  function Deactivated(rows: Rows, id: string, candidates: seq<string>, now: int): Rows
    requires id in rows
  {
    map k | k in rows ::
      if k in candidates && ReplacedBy(rows, id, k) then Retired(rows[k], now) else rows[k]
  }

  /** The whole upsert on values. */
  function Upserted(rows: Rows, order: seq<string>, p: Push, newId: string, now: int): Rows
    requires forall id :: id in order ==> id in rows
  {
    var outcome := Decide(rows, order, p, newId, now);
    if !outcome.Saved? then rows
    else Deactivated(rows[outcome.id := Written(rows, outcome.id, p, now)], outcome.id, Candidates(order, outcome.id), now)
  }

  // ---------------------------------------------------------------- one live asset per slot

  ghost predicate OneLivePerSlot(rows: Rows) {
    forall a, b :: a in rows && b in rows && Live(rows[a]) && Live(rows[b]) && Slotted(rows[a]) && SameSlot(rows[a], rows[b]) ==>
      a == b
  }

  lemma RetiredIsNotLive(rows: Rows, id: string, candidates: seq<string>, now: int)
    requires id in rows
    ensures var after := Deactivated(rows, id, candidates, now);
            && after.Keys == rows.Keys && after[id] == rows[id]
            && forall k :: k in rows ==> if k in candidates && ReplacedBy(rows, id, k) then !Live(after[k]) else after[k] == rows[k]
  {
  }

  lemma DeactivationSuffices(rows: Rows, id: string, candidates: seq<string>, now: int)
    requires id in rows
    requires OneLivePerSlot(map k | k in rows && k != id :: rows[k])
    requires forall k :: k in rows && ReplacedBy(rows, id, k) ==> k in candidates
    ensures OneLivePerSlot(Deactivated(rows, id, candidates, now))
  {
    var after := Deactivated(rows, id, candidates, now);
    var others := map k | k in rows && k != id :: rows[k];
    RetiredIsNotLive(rows, id, candidates, now);
    assert forall k :: k in rows && Live(after[k]) ==> after[k] == rows[k] && !ReplacedBy(rows, id, k);
    forall a, b | a in others && b in others && Live(after[a]) && Live(after[b]) && Slotted(after[a]) && SameSlot(after[a], after[b])
      ensures a == b
    {
      assert others[a] == rows[a] && others[b] == rows[b];
    }
  }

  /** Retiring restores one live asset per slot exactly when it reaches every live asset of the slot
      outside id. */
  lemma DeactivationRestores(rows: Rows, id: string, candidates: seq<string>, now: int)
    requires id in rows
    requires OneLivePerSlot(map k | k in rows && k != id :: rows[k])
    ensures OneLivePerSlot(Deactivated(rows, id, candidates, now)) <==>
            forall k :: k in rows && ReplacedBy(rows, id, k) ==> k in candidates
  {
    var after := Deactivated(rows, id, candidates, now);
    RetiredIsNotLive(rows, id, candidates, now);
    if k :| k in rows && ReplacedBy(rows, id, k) && k !in candidates {
      assert SameSlot(after[id], after[k]);
    } else {
      DeactivationSuffices(rows, id, candidates, now);
    }
  }

  /** Exactly when an upsert keeps one live asset per slot: when no live asset of the pushed slot is
      older than the 500 other rows updated last. */
  lemma UpsertKeepsOneLive(rows: Rows, order: seq<string>, p: Push, newId: string, now: int)
    requires OneLivePerSlot(rows) && newId !in rows && forall id :: id in order ==> id in rows
    ensures var outcome := Decide(rows, order, p, newId, now);
            OneLivePerSlot(Upserted(rows, order, p, newId, now)) <==>
            (outcome.Saved? ==>
               var written := rows[outcome.id := Written(rows, outcome.id, p, now)];
               forall k :: k in rows && ReplacedBy(written, outcome.id, k) ==> k in Candidates(order, outcome.id))
  {
    var outcome := Decide(rows, order, p, newId, now);
    if outcome.Saved? {
      var written := rows[outcome.id := Written(rows, outcome.id, p, now)];
      var others := map k | k in written && k != outcome.id :: written[k];
      assert forall k :: k in others ==> k in rows && others[k] == rows[k];
      DeactivationRestores(written, outcome.id, Candidates(order, outcome.id), now);
    }
  }

  /** With at most 500 other media rows in the account it always does. */
  lemma SmallAccountKeepsOneLive(rows: Rows, order: seq<string>, p: Push, newId: string, now: int)
    requires OneLivePerSlot(rows) && newId !in rows && Accepted(p).Ok? && ByRecency(rows, Accepted(p).value.0, order)
    requires |order| <= 501 && (Decide(rows, order, p, newId, now) == Saved(newId) ==> |order| <= 500)
    ensures OneLivePerSlot(Upserted(rows, order, p, newId, now))
  {
    var outcome := Decide(rows, order, p, newId, now);
    UpsertKeepsOneLive(rows, order, p, newId, now);
    if outcome.Saved? {
      WithoutLength(order, outcome.id);
      SavedIdIsListed(rows, order, p, newId, now);
    }
  }

  lemma {:induction false} WithoutLength(order: seq<string>, id: string)
    ensures id in order ==> |Without(order, id)| < |order|
  {
    if order != [] {
      WithoutLength(order[1..], id);
    }
  }

  lemma SavedIdIsListed(rows: Rows, order: seq<string>, p: Push, newId: string, now: int)
    requires Accepted(p).Ok? && ByRecency(rows, Accepted(p).value.0, order) && newId !in rows
    requires Decide(rows, order, p, newId, now).Saved?
    ensures var id := Decide(rows, order, p, newId, now).id; id == newId || id in order
  {
  }

  /** What an upsert may change: its own row, and live rows of the same one-asset slot, which it
      retires. A push to a gallery field changes no other row. */
  lemma UpsertTouchesOneSlot(rows: Rows, order: seq<string>, p: Push, newId: string, now: int, k: string)
    requires newId !in rows && k in rows && forall id :: id in order ==> id in rows
    requires Upserted(rows, order, p, newId, now)[k] != rows[k]
    ensures Accepted(p).Ok? && Decide(rows, order, p, newId, now).Saved?
    ensures k == Decide(rows, order, p, newId, now).id ||
            (var written := Written(rows, Decide(rows, order, p, newId, now).id, p, now);
             && Live(rows[k]) && Live(written) && Slotted(written) && SameSlot(rows[k], written)
             && Upserted(rows, order, p, newId, now)[k] == Retired(rows[k], now))
  {
  }

  /** A new asset of a gallery field becomes a row of its own beside its siblings, all of which stay
      as they are. */
  lemma GalleryAddsSibling(rows: Rows, order: seq<string>, p: Push, newId: string, now: int)
    requires Accepted(p).Ok? && ByRecency(rows, Accepted(p).value.0, order) && newId !in rows
    requires CleanText(p.media.fieldKey) in {Some("gallery"), Some("schoolGalleryImages")}
    requires CleanText(p.cloudId).None? || CleanText(p.cloudId).value !in rows
    requires forall id :: id in order ==> rows[id].localId != Accepted(p).value.1
    ensures Decide(rows, order, p, newId, now) == Saved(newId)
    ensures Upserted(rows, order, p, newId, now) == rows[newId := Written(rows, newId, p, now)]
  {
    var (accountId, localId, n) := Accepted(p).value;
    GalleryFieldStays(rows, newId, p, now);
    FirstOfMisses(order, id => id in rows && rows[id].localId == localId, 1, id => true);
    assert FindExisting(rows, order, CleanText(p.cloudId), localId, n).None?;
    assert !Taken(rows, newId, accountId, localId, DeviceAfter(rows, newId, p));
    NothingReplaced(rows[newId := Written(rows, newId, p, now)], newId, Candidates(order, newId), now);
  }

  lemma GalleryFieldStays(rows: Rows, id: string, p: Push, now: int)
    requires Accepted(p).Ok? && MultiField(p.media.fieldKey)
    ensures MultiField(Accepted(p).value.2.fieldKey) && MultiField(Written(rows, id, p, now).media.fieldKey)
  {
    CleanTextIdempotent(p.media.fieldKey);
  }

  lemma NothingReplaced(rows: Rows, id: string, candidates: seq<string>, now: int)
    requires id in rows && !Slotted(rows[id])
    ensures Deactivated(rows, id, candidates, now) == rows
  {
  }

  lemma NormalizedIsNormal(m: Media, accountId: string, deviceId: Option<string>, a: Asset)
    requires a.accountId == accountId && a.media == Normalized(m, accountId, deviceId)
    ensures Normal(a)
  {
    CleanTextIdempotent(m.ownerTable);
    CleanTextIdempotent(m.fieldKey);
    CleanTextIdempotent(m.ownerId);
    CleanTextIdempotent(m.ownerTempKey);
    var identity := IdentityOf(Some(accountId), CleanText(m.ownerTable), CleanText(m.fieldKey), CleanText(m.ownerId),
                               CleanText(m.ownerTempKey));
    if identity.Some? {
      KeyIsClean(identity.value);
    }
  }

  ghost predicate AllNormal(rows: Rows) {
    forall id :: id in rows ==> Normal(rows[id])
  }

  /** Every row that pushes write or retire has clean fields and the key of its own slot. */
  lemma UpsertKeepsNormal(rows: Rows, order: seq<string>, p: Push, newId: string, now: int)
    requires AllNormal(rows) && forall id :: id in order ==> id in rows
    ensures AllNormal(Upserted(rows, order, p, newId, now))
  {
    var outcome := Decide(rows, order, p, newId, now);
    if outcome.Saved? {
      var (accountId, localId, n) := Accepted(p).value;
      var a := FirstSave(p, accountId, localId, DeviceAfter(rows, outcome.id, p), n, now);
      NormalizedIsNormal(n, accountId, if Set(a.deviceId) then a.deviceId else p.deviceId, Written(rows, outcome.id, p, now));
      var written := rows[outcome.id := Written(rows, outcome.id, p, now)];
      forall k | k in written ensures Normal(written[k]) && Normal(Retired(written[k], now)) {
        RetiredIsNormal(written[k], now);
      }
    }
  }

  lemma RetiredIsNormal(a: Asset, now: int)
    requires Normal(a)
    ensures Normal(Retired(a, now))
  {
  }

  // ---------------------------------------------------------------- what a push does to its row

  /** Which pushes may be stored: with an account, a permanent local id and, for a live asset, an
      owner table, a field and an owner or temporary owner. */
  lemma PushAccepted(p: Push)
    ensures Accepted(p).Ok? <==>
            && CleanText(p.accountId).Some? && CleanText(p.localId).Some? && IsUuid(CleanText(p.localId).value)
            && (p.media.active && !p.media.isDeleted && !p.isDeleted ==>
                  && CleanText(p.media.ownerTable).Some? && CleanText(p.media.fieldKey).Some?
                  && (CleanText(p.media.ownerId).Some? || CleanText(p.media.ownerTempKey).Some?))
    ensures Accepted(p).Ok? ==> Accepted(p).value.0 == CleanText(p.accountId).value && Accepted(p).value.1 == CleanText(p.localId).value
  {
    if CleanText(p.accountId).Some? {
      CleanTextIdempotent(p.accountId);
      CleanTextIdempotent(p.media.ownerTable);
      CleanTextIdempotent(p.media.fieldKey);
      CleanTextIdempotent(p.media.ownerId);
      CleanTextIdempotent(p.media.ownerTempKey);
    }
  }

  function VersionOf(p: Push): int {
    if p.version == 0 then 1 else p.version
  }

  function TimeOf(p: Push, now: int): int {
    if p.updatedAt == 0 then now else p.updatedAt
  }

  /** The lookup for this push ends at found. */
  predicate LooksUp(rows: Rows, order: seq<string>, p: Push, found: Option<string>)
    requires forall id :: id in order ==> id in rows
  {
    Accepted(p).Ok? && FindExisting(rows, order, CleanText(p.cloudId), Accepted(p).value.1, Accepted(p).value.2) == found
  }

  /** Another row of the account already stands for this asset on this device. */
  predicate Conflicts(rows: Rows, p: Push, id: string) {
    var device := if CleanText(p.deviceId).Some? then CleanText(p.deviceId) else if id in rows then rows[id].deviceId else None;
    device.Some? &&
    exists other :: && other in rows && other != id && rows[other].deviceId == device
                    && Some(rows[other].accountId) == CleanText(p.accountId) && Some(rows[other].localId) == CleanText(p.localId)
  }

  /** Exactly what happens to a known asset: another account's row is refused; a push that is neither
      of a higher version nor at least as recent is stale; any other is saved unless the row would
      stand for the same asset and device as another one. */
  lemma KnownAssetDecided(rows: Rows, order: seq<string>, p: Push, newId: string, now: int, id: string)
    requires forall k :: k in order ==> k in rows
    requires LooksUp(rows, order, p, Some(id)) && id in rows
    ensures var outcome := Decide(rows, order, p, newId, now);
            var ours := Some(rows[id].accountId) == CleanText(p.accountId);
            var newer := VersionOf(p) > rows[id].version || TimeOf(p, now) >= rows[id].updatedAt;
            && (outcome == Failed(OtherAccount) <==> !ours)
            && (outcome == Stale(id) <==> ours && !newer)
            && (outcome == Failed(UniqueConstraint) <==> ours && newer && Conflicts(rows, p, id))
            && (outcome == Saved(id) <==> ours && newer && !Conflicts(rows, p, id))
  {
    PushAccepted(p);
  }

  /** A new asset is saved as a new row, unless another row stands for the same asset and device. */
  lemma NewAssetDecided(rows: Rows, order: seq<string>, p: Push, newId: string, now: int)
    requires newId !in rows && forall k :: k in order ==> k in rows
    requires LooksUp(rows, order, p, None)
    ensures Decide(rows, order, p, newId, now) == if Conflicts(rows, p, newId) then Failed(UniqueConstraint) else Saved(newId)
  {
    PushAccepted(p);
  }

  /** Whatever is not saved changes no row; a saved push leaves its own account, identifiers, version,
      time, flags and clean fields in its row. */
  lemma SavedRowIsPushed(rows: Rows, order: seq<string>, p: Push, newId: string, now: int)
    requires forall k :: k in order ==> k in rows
    ensures var outcome, after := Decide(rows, order, p, newId, now), Upserted(rows, order, p, newId, now);
            if outcome.Saved? then
              && outcome.id in after && after.Keys == rows.Keys + {outcome.id}
              && var a := after[outcome.id];
                 && Some(a.accountId) == CleanText(p.accountId) && Some(a.localId) == CleanText(p.localId)
                 && a.version == VersionOf(p) && a.updatedAt == TimeOf(p, now) && a.isDeleted == p.isDeleted
                 && a.deviceId == (if CleanText(p.deviceId).Some? then CleanText(p.deviceId)
                                   else if outcome.id in rows then rows[outcome.id].deviceId else None)
                 && a.media.active == p.media.active && a.media.isDeleted == p.media.isDeleted
                 && a.media.ownerTable == CleanText(p.media.ownerTable) && a.media.fieldKey == CleanText(p.media.fieldKey)
                 && a.media.ownerId == CleanText(p.media.ownerId) && a.media.ownerTempKey == CleanText(p.media.ownerTempKey)
            else after == rows
  {
    CleanTextIdempotent(p.media.ownerTable);
    CleanTextIdempotent(p.media.fieldKey);
    CleanTextIdempotent(p.media.ownerId);
    CleanTextIdempotent(p.media.ownerTempKey);
    PushAccepted(p);
  }

  /** The row stands for an asset in use. */
  predicate InUse(a: Asset) {
    !a.isDeleted && a.media.active && !a.media.isDeleted
  }

  /** Two normal rows of one account sit in the same one-asset slot. */
  predicate ShareSlot(a: Asset, b: Asset) {
    && a.accountId == b.accountId && a.media.ownerTable == b.media.ownerTable && a.media.fieldKey == b.media.fieldKey
    && a.media.ownerTable.Some? && a.media.fieldKey.Some? && a.media.fieldKey !in {Some("gallery"), Some("schoolGalleryImages")}
    && (var x, y := CleanText(a.media.ownerId), CleanText(b.media.ownerId);
        if x.Some? || y.Some? then x == y
        else CleanText(a.media.ownerTempKey).Some? && CleanText(a.media.ownerTempKey) == CleanText(b.media.ownerTempKey))
  }

  /** The slot that a row's own fields describe. */
  function SlotIdentity(a: Asset): Option<Identity> {
    IdentityOf(Some(a.accountId), CleanText(a.media.ownerTable), CleanText(a.media.fieldKey), CleanText(a.media.ownerId),
               CleanText(a.media.ownerTempKey))
  }

  lemma SlotOfNormal(a: Asset)
    requires Normal(a)
    ensures SlotKey(a) == if SlotIdentity(a).Some? then Some(KeyOf(SlotIdentity(a).value)) else None
  {
  }

  lemma IdentityOfClean(a: Asset)
    requires Normal(a) && CleanText(Some(a.accountId)) == Some(a.accountId)
    ensures var table, field, owner, temporary := a.media.ownerTable, a.media.fieldKey, CleanText(a.media.ownerId), CleanText(a.media.ownerTempKey);
            SlotIdentity(a) ==
            if table.None? || field.None? then None
            else if owner.Some? then Some(Identity(a.accountId, table.value, field.value, true, owner.value))
            else if temporary.Some? then Some(Identity(a.accountId, table.value, field.value, false, temporary.value))
            else None
  {
    CleanTextIdempotent(a.media.ownerId);
    CleanTextIdempotent(a.media.ownerTempKey);
  }

  lemma SameKeySameIdentity(a: Asset, b: Asset)
    requires Normal(a) && Normal(b)
    ensures SlotKey(a).Some? && SlotKey(a) == SlotKey(b) <==> SlotIdentity(a).Some? && SlotIdentity(a) == SlotIdentity(b)
  {
    SlotOfNormal(a);
    SlotOfNormal(b);
    if SlotIdentity(a).Some? && SlotIdentity(b).Some? {
      KeyInjective(SlotIdentity(a).value, SlotIdentity(b).value);
    }
  }

  lemma SharingIsSameSlot(a: Asset, b: Asset)
    requires Normal(a) && Normal(b) && CleanText(Some(a.accountId)) == Some(a.accountId) && CleanText(Some(b.accountId)) == Some(b.accountId)
    ensures ShareSlot(a, b) <==> Slotted(b) && SameSlot(a, b)
  {
    SameKeySameIdentity(a, b);
    IdentityOfClean(a);
    IdentityOfClean(b);
    OneAssetField(a.media.fieldKey);
  }

  /** For normal rows the slot is what they say: account, table, field, and owner or temporary owner. */
  lemma SlotMeans(rows: Rows, id: string, k: string)
    requires id in rows && k in rows && Normal(rows[id]) && Normal(rows[k])
    requires CleanText(Some(rows[id].accountId)) == Some(rows[id].accountId) && CleanText(Some(rows[k].accountId)) == Some(rows[k].accountId)
    ensures ReplacedBy(rows, id, k) <==> k != id && InUse(rows[id]) && InUse(rows[k]) && ShareSlot(rows[k], rows[id])
  {
    SharingIsSameSlot(rows[k], rows[id]);
  }

  /** Exactly which rows a saved push retires: those in use in its slot, when it is in use itself, among
      the 500 other rows updated last. */
  lemma PushRetiresExactly(rows: Rows, order: seq<string>, p: Push, newId: string, now: int, k: string)
    requires AllNormal(rows) && newId !in rows && (forall id :: id in order ==> id in rows) && Decide(rows, order, p, newId, now).Saved?
    requires k in rows && k != Decide(rows, order, p, newId, now).id && CleanText(Some(rows[k].accountId)) == Some(rows[k].accountId)
    ensures var id, after := Decide(rows, order, p, newId, now).id, Upserted(rows, order, p, newId, now);
            && id in after && k in after
            && after[k] == if k in Candidates(order, id) && InUse(after[id]) && InUse(rows[k]) && ShareSlot(rows[k], after[id])
                           then Retired(rows[k], now) else rows[k]
  {
    var id := Decide(rows, order, p, newId, now).id;
    var written := rows[id := Written(rows, id, p, now)];
    UpsertKeepsNormal(rows, order, p, newId, now);
    CleanTextIdempotent(p.accountId);
    assert Upserted(rows, order, p, newId, now)[id] == written[id];
    SlotMeans(written, id, k);
  }

  /** A row that is retired is deleted and inactive under its slot's key, one version on. */
  lemma RetiredRow(a: Asset, now: int)
    ensures var r := Retired(a, now);
            && r.isDeleted && !r.media.active && r.media.isDeleted && r.updatedAt == now
            && r.version == (if a.version == 0 then 1 else a.version) + 1
            && SlotKey(r) == SlotKey(a) && (SlotKey(a).Some? ==> r.media.identityKey == SlotKey(a))
            && r.accountId == a.accountId && r.localId == a.localId && r.deviceId == a.deviceId
            && r.media == a.media.(active := false, isDeleted := true, identityKey := r.media.identityKey)
  {
    CleanTextIdempotent(a.media.identityKey);
    if CleanText(a.media.identityKey).None? && KeyIn(a.accountId, a.media).Some? {
      KeyIsClean(IdentityOf(Some(a.accountId), CleanText(a.media.ownerTable), CleanText(a.media.fieldKey),
                            CleanText(a.media.ownerId), CleanText(a.media.ownerTempKey)).value);
    }
  }

  /** A push never replaces a row, its own or one that it retires, by one that is both at no higher
      version and older. */
  lemma UpsertNeverGoesBack(rows: Rows, order: seq<string>, p: Push, newId: string, now: int, k: string)
    requires newId !in rows && k in rows && forall id :: id in order ==> id in rows
    ensures var after := Upserted(rows, order, p, newId, now);
            k in after && (after[k] == rows[k] || after[k].version > rows[k].version || after[k].updatedAt >= rows[k].updatedAt)
  {
    var outcome := Decide(rows, order, p, newId, now);
    SavedRowIsPushed(rows, order, p, newId, now);
    if outcome.Saved? && k == outcome.id {
      KnownAssetDecided(rows, order, p, newId, now, k);
    } else if Upserted(rows, order, p, newId, now)[k] != rows[k] {
      UpsertTouchesOneSlot(rows, order, p, newId, now, k);
      RetiredRow(rows[k], now);
    }
  }

  predicate StandsFor(a: Asset, b: Asset) {
    a.deviceId == b.deviceId && a.accountId == b.accountId && a.localId == b.localId
  }

  /** No two rows stand for the same asset of an account on the same device. */
  ghost predicate OneRowPerDevice(rows: Rows) {
    forall a, b :: a in rows && b in rows && rows[a].deviceId.Some? && StandsFor(rows[a], rows[b]) ==> a == b
  }

  lemma OneRowReplaced(rows: Rows, after: Rows, id: string)
    requires OneRowPerDevice(rows) && after.Keys == rows.Keys + {id}
    requires forall k :: k in rows && k != id ==> StandsFor(after[k], rows[k])
    requires forall k :: k in rows && k != id && after[id].deviceId.Some? ==> !StandsFor(rows[k], after[id])
    ensures OneRowPerDevice(after)
  {
  }

  lemma UpsertKeepsOneRow(rows: Rows, order: seq<string>, p: Push, newId: string, now: int)
    requires OneRowPerDevice(rows) && newId !in rows && forall id :: id in order ==> id in rows
    ensures OneRowPerDevice(Upserted(rows, order, p, newId, now))
  {
    var outcome, after := Decide(rows, order, p, newId, now), Upserted(rows, order, p, newId, now);
    SavedRowIsPushed(rows, order, p, newId, now);
    if outcome.Saved? {
      forall k | k in rows && k != outcome.id ensures StandsFor(after[k], rows[k]) {
        if after[k] != rows[k] {
          UpsertTouchesOneSlot(rows, order, p, newId, now, k);
        }
      }
      SavedConflictsWithNone(rows, order, p, newId, now);
      OneRowReplaced(rows, after, outcome.id);
    }
  }

  lemma SavedConflictsWithNone(rows: Rows, order: seq<string>, p: Push, newId: string, now: int)
    requires newId !in rows && (forall k :: k in order ==> k in rows) && Decide(rows, order, p, newId, now).Saved?
    ensures !Conflicts(rows, p, Decide(rows, order, p, newId, now).id)
  {
    PushAccepted(p);
  }

  // ---------------------------------------------------------------- runs

  datatype Step = Step(push: Push, order: seq<string>, newId: string, now: int)

  /** One push against the store. The account has at most 500 other media rows. */
  ghost predicate Next(rows: Rows, step: Step, after: Rows) {
    && step.newId !in rows
    && (forall id :: id in step.order ==> id in rows)
    && (Accepted(step.push).Ok? ==> ByRecency(rows, Accepted(step.push).value.0, step.order))
    && |step.order| <= 501 && (Decide(rows, step.order, step.push, step.newId, step.now) == Saved(step.newId) ==> |step.order| <= 500)
    && after == Upserted(rows, step.order, step.push, step.newId, step.now)
  }

  ghost predicate Run(states: seq<Rows>, steps: seq<Step>) {
    && |states| == |steps| + 1
    && forall i {:trigger steps[i]} :: 0 <= i < |steps| ==> Next(states[i], steps[i], states[i + 1])
  }

  lemma StepOfRun(states: seq<Rows>, steps: seq<Step>, i: nat)
    requires Run(states, steps) && i < |steps|
    ensures Next(states[i], steps[i], states[i + 1])
  {
    var step := steps[i];
  }

  lemma StepKeepsOneLive(rows: Rows, step: Step, after: Rows)
    requires OneLivePerSlot(rows) && Next(rows, step, after)
    ensures OneLivePerSlot(after)
  {
    if Accepted(step.push).Ok? {
      SmallAccountKeepsOneLive(rows, step.order, step.push, step.newId, step.now);
    }
  }

  /** In every run of pushes each slot holds at most one live asset. */
  lemma {:induction false} RunKeepsOneLive(states: seq<Rows>, steps: seq<Step>, i: nat)
    requires Run(states, steps) && OneLivePerSlot(states[0]) && i < |states|
    ensures OneLivePerSlot(states[i])
    decreases i
  {
    if i > 0 {
      RunKeepsOneLive(states, steps, i - 1);
      StepOfRun(states, steps, i - 1);
      StepKeepsOneLive(states[i - 1], steps[i - 1], states[i]);
    }
  }

  lemma StepKeepsNormal(rows: Rows, step: Step, after: Rows)
    requires AllNormal(rows) && Next(rows, step, after)
    ensures AllNormal(after)
  {
    UpsertKeepsNormal(rows, step.order, step.push, step.newId, step.now);
  }

  /** In every run from rows like that, all rows stay like that: a push to an occupied one-asset slot
      always finds the slot's row. */
  lemma {:induction false} RunKeepsNormal(states: seq<Rows>, steps: seq<Step>, i: nat)
    requires Run(states, steps) && AllNormal(states[0]) && i < |states|
    ensures AllNormal(states[i])
    decreases i
  {
    if i > 0 {
      RunKeepsNormal(states, steps, i - 1);
      StepOfRun(states, steps, i - 1);
      StepKeepsNormal(states[i - 1], steps[i - 1], states[i]);
    }
  }

  /** In every run a row gives way only to a newer version or a later time, */
  lemma RunNeverGoesBack(states: seq<Rows>, steps: seq<Step>, i: nat, id: string)
    requires Run(states, steps) && i < |steps| && id in states[i]
    ensures id in states[i + 1]
    ensures states[i + 1][id] == states[i][id] || states[i + 1][id].version > states[i][id].version ||
            states[i + 1][id].updatedAt >= states[i][id].updatedAt
  {
    StepOfRun(states, steps, i);
    var step := steps[i];
    UpsertNeverGoesBack(states[i], step.order, step.push, step.newId, step.now, id);
  }

  lemma StepKeepsOneRow(rows: Rows, step: Step, after: Rows)
    requires OneRowPerDevice(rows) && Next(rows, step, after)
    ensures OneRowPerDevice(after)
  {
    UpsertKeepsOneRow(rows, step.order, step.push, step.newId, step.now);
  }

  /** and the table's uniqueness constraint holds. */
  lemma {:induction false} RunKeepsOneRow(states: seq<Rows>, steps: seq<Step>, i: nat)
    requires Run(states, steps) && OneRowPerDevice(states[0]) && i < |states|
    ensures OneRowPerDevice(states[i])
    decreases i
  {
    if i > 0 {
      RunKeepsOneRow(states, steps, i - 1);
      StepOfRun(states, steps, i - 1);
      StepKeepsOneRow(states[i - 1], steps[i - 1], states[i]);
    }
  }

  // ---------------------------------------------------------------- the store

  lemma DeactivatedNext(rows: Rows, id: string, candidates: seq<string>, i: nat, now: int)
    requires id in rows && i < |candidates| && candidates[i] in rows
    ensures var before := Deactivated(rows, id, candidates[..i], now);
            Deactivated(rows, id, candidates[..i + 1], now) ==
            if ReplacedBy(rows, id, candidates[i]) then before[candidates[i] := Retired(rows[candidates[i]], now)] else before
  {
    assert candidates[..i + 1] == candidates[..i] + [candidates[i]];
  }

  lemma DeactivatedNone(rows: Rows, id: string, candidates: seq<string>, now: int)
    requires id in rows && (candidates == [] || !Live(rows[id]) || !Slotted(rows[id]))
    ensures Deactivated(rows, id, candidates, now) == rows
  {
  }

  method CollectUpdates(snapshot: Rows, id: string, candidates: seq<string>, now: int) returns (updated: Rows)
    requires id in snapshot && Live(snapshot[id]) && Slotted(snapshot[id])
    requires forall k :: k in candidates ==> k in snapshot && k != id
    ensures updated == Deactivated(snapshot, id, candidates, now)
  {
    updated := snapshot;
    DeactivatedNone(snapshot, id, [], now);
    for i := 0 to |candidates|
      invariant updated == Deactivated(snapshot, id, candidates[..i], now)
    {
      var k := candidates[i];
      DeactivatedNext(snapshot, id, candidates, i, now);
      var replaced := Live(snapshot[k]) && SameSlot(snapshot[k], snapshot[id]);
      assert replaced == ReplacedBy(snapshot, id, k);
      if replaced {
        updated := updated[k := Retired(snapshot[k], now)];
      }
    }
    assert candidates[..|candidates|] == candidates;
  }

  class MediaAssets {
    var rows: Rows

    constructor ()
      ensures rows == map[]
    {
      rows := map[];
    }

    /** Retire the live assets that the one at id replaces: the updates are collected against the rows
        read first, then written together. */
    method DeactivateReplacedMediaAssets(id: string, order: seq<string>, now: int)
      requires id in rows && forall k :: k in order ==> k in rows || k == id
      modifies this
      ensures rows == Deactivated(old(rows), id, Candidates(order, id), now)
    {
      var candidates := Candidates(order, id);
      if !Live(rows[id]) || !Slotted(rows[id]) {
        DeactivatedNone(rows, id, candidates, now);
        return;
      }
      rows := CollectUpdates(rows, id, candidates, now);
    }

    /** After a save: normalise the stored payload again, then retire what it replaces. */
    method AfterUpsertRecord(id: string, p: Push, order: seq<string>, now: int)
      requires id in rows && forall k :: k in order ==> k in rows || k == id
      modifies this
      ensures rows == Deactivated(old(rows)[id := Renormalized(old(rows)[id], p.deviceId)], id, Candidates(order, id), now)
    {
      rows := rows[id := Renormalized(rows[id], p.deviceId)];
      if !MultiField(rows[id].media.fieldKey) {
        DeactivateReplacedMediaAssets(id, order, now);
      } else {
        DeactivatedNone(rows, id, Candidates(order, id), now);
      }
    }

    method Save(id: string, p: Push, accountId: string, localId: string, n: Media, order: seq<string>, now: int)
      requires forall k :: k in order ==> k in rows
      modifies this
      ensures var first := FirstSave(p, accountId, localId, DeviceAfter(old(rows), id, p), n, now);
              rows == Deactivated(old(rows)[id := Renormalized(first, p.deviceId)], id, Candidates(order, id), now)
    {
      ghost var before, first := rows, FirstSave(p, accountId, localId, DeviceAfter(rows, id, p), n, now);
      rows := rows[id := FirstSave(p, accountId, localId, DeviceAfter(rows, id, p), n, now)];
      AfterUpsertRecord(id, p, order, now);
      assert before[id := first][id := Renormalized(first, p.deviceId)] == before[id := Renormalized(first, p.deviceId)];
    }

    method UpsertRecord(p: Push, order: seq<string>, newId: string, now: int) returns (outcome: Outcome)
      requires newId !in rows && forall id :: id in order ==> id in rows
      modifies this
      ensures outcome == Decide(old(rows), order, p, newId, now)
      ensures rows == Upserted(old(rows), order, p, newId, now)
    {
      var accepted := Accepted(p);
      if accepted.Err? {
        return Failed(accepted.error);
      }
      var (accountId, localId, n) := accepted.value;
      var found := FindExisting(rows, order, CleanText(p.cloudId), localId, n);
      if found.Some? {
        var existing := rows[found.value];
        if existing.accountId != accountId {
          return Failed(OtherAccount);
        }
        if !Newer(p, existing, now) {
          return Stale(found.value);
        }
      }
      var id := if found.Some? then found.value else newId;
      if Taken(rows, id, accountId, localId, DeviceAfter(rows, id, p)) {
        return Failed(UniqueConstraint);
      }
      Save(id, p, accountId, localId, n, order, now);
      return Saved(id);
    }
  }
}
