/**
 What the hub keeps: the records in durable storage, their keys, the copy of them in
 memory, and the loading of that copy after a restart (relay/src/device-hub.ts).
 */
module HubStorage {
  import opened Wrappers

  /** A hash as the hub stores it. SHA-256 is ideal: `Sha(s)` is the hash of `s` and of
      nothing else, and `Raw` is any string that is nobody's hash. */
  datatype Digest = Sha(secret: string) | Raw(text: string)

  datatype DaemonRecord = DaemonRecord(
    deviceId: string, deviceName: Option<string>, tokenHash: Digest, createdAt: int, updatedAt: int)

  datatype AppRecord = AppRecord(
    appInstallationId: string, appName: Option<string>, tokenHash: Digest, pairedAt: int, updatedAt: int)

  datatype PairingRecord = PairingRecord(
    pairingId: string, ticketHash: Digest, createdAt: int, expiresAt: int)

  datatype Record =
    | DaemonEntry(daemon: DaemonRecord)
    | AppEntry(app: AppRecord)
    | PairingEntry(pairing: PairingRecord)

  datatype Memory = Memory(
    daemon: Option<DaemonRecord>,
    apps: map<string, AppRecord>,
    pairings: map<string, PairingRecord>)

  const EMPTY_MEMORY := Memory(None, map[], map[])

  // ----- Keys -----

  const DAEMON_RECORD_KEY := "daemon_record"
  const APP_RECORD_PREFIX := "app_record:"
  const PAIRING_RECORD_PREFIX := "pairing_record:"

  function AppKey(id: string): string { APP_RECORD_PREFIX + id }

  function PairingKey(id: string): string { PAIRING_RECORD_PREFIX + id }

  /** The record that a key stands for. */
  datatype Slot = DaemonSlot | AppSlot(id: string) | PairingSlot(id: string) | NoSlot

  function SlotOf(key: string): Slot {
    if key == DAEMON_RECORD_KEY then DaemonSlot
    else if APP_RECORD_PREFIX <= key then AppSlot(key[|APP_RECORD_PREFIX|..])
    else if PAIRING_RECORD_PREFIX <= key then PairingSlot(key[|PAIRING_RECORD_PREFIX|..])
    else NoSlot
  }

  /** No two records share a key, and a prefix lists the records of one kind only. */
  lemma KeysNeverMix(key: string, id: string)
    ensures SlotOf(key) == DaemonSlot <==> key == DAEMON_RECORD_KEY
    ensures SlotOf(key) == AppSlot(id) <==> key == AppKey(id)
    ensures SlotOf(key) == PairingSlot(id) <==> key == PairingKey(id)
    ensures SlotOf(key).AppSlot? <==> APP_RECORD_PREFIX <= key
    ensures SlotOf(key).PairingSlot? <==> PAIRING_RECORD_PREFIX <= key
  {
    assert AppKey(id)[|APP_RECORD_PREFIX|..] == id && PairingKey(id)[|PAIRING_RECORD_PREFIX|..] == id;
    assert AppKey(id)[0] == 'a' && PairingKey(id)[0] == 'p' && DAEMON_RECORD_KEY[0] == 'd';
    if APP_RECORD_PREFIX <= key {
      assert key[0] == 'a' && key == APP_RECORD_PREFIX + key[|APP_RECORD_PREFIX|..];
    }
    if PAIRING_RECORD_PREFIX <= key {
      assert key[0] == 'p' && key == PAIRING_RECORD_PREFIX + key[|PAIRING_RECORD_PREFIX|..];
    }
  }

  // ----- Memory mirrors storage -----

  /** What storage must hold in a slot when memory is its copy. */
  function Image(m: Memory, slot: Slot): Option<Record> {
    match slot
    case DaemonSlot => if m.daemon.Some? then Some(DaemonEntry(m.daemon.value)) else None
    case AppSlot(id) => if id in m.apps then Some(AppEntry(m.apps[id])) else None
    case PairingSlot(id) => if id in m.pairings then Some(PairingEntry(m.pairings[id])) else None
    case NoSlot => None
  }

  /** Storage holds the records of memory, each under its own key, and nothing else. */
  ghost predicate Mirrors(m: Memory, storage: map<string, Record>) {
    && (forall key: string :: Lookup(storage, key) == Image(m, SlotOf(key)))
    && (forall id <- m.apps :: m.apps[id].appInstallationId == id)
    && (forall id <- m.pairings :: m.pairings[id].pairingId == id)
  }

  lemma DaemonStored(m: Memory, storage: map<string, Record>, r: DaemonRecord)
    requires Mirrors(m, storage)
    ensures Mirrors(m.(daemon := Some(r)), storage[DAEMON_RECORD_KEY := DaemonEntry(r)])
  {
    hide SlotOf;
    forall key: string ensures SlotOf(key) == DaemonSlot <==> key == DAEMON_RECORD_KEY { KeysNeverMix(key, ""); }
  }

  lemma AppStored(m: Memory, storage: map<string, Record>, r: AppRecord)
    requires Mirrors(m, storage)
    ensures var id := r.appInstallationId;
            Mirrors(m.(apps := m.apps[id := r]), storage[AppKey(id) := AppEntry(r)])
  {
    hide SlotOf, AppKey;
    var id := r.appInstallationId;
    forall key: string ensures SlotOf(key) == AppSlot(id) <==> key == AppKey(id) { KeysNeverMix(key, id); }
  }

  lemma PairingStored(m: Memory, storage: map<string, Record>, r: PairingRecord)
    requires Mirrors(m, storage)
    ensures var id := r.pairingId;
            Mirrors(m.(pairings := m.pairings[id := r]), storage[PairingKey(id) := PairingEntry(r)])
  {
    hide SlotOf, PairingKey;
    var id := r.pairingId;
    forall key: string ensures SlotOf(key) == PairingSlot(id) <==> key == PairingKey(id) { KeysNeverMix(key, id); }
  }

  lemma PairingDeleted(m: Memory, storage: map<string, Record>, id: string)
    requires Mirrors(m, storage)
    ensures Mirrors(m.(pairings := m.pairings - {id}), storage - {PairingKey(id)})
  {
    hide SlotOf, PairingKey;
    forall key: string ensures SlotOf(key) == PairingSlot(id) <==> key == PairingKey(id) { KeysNeverMix(key, id); }
  }

  // ----- Loading after a restart -----

  datatype Entry = Entry(key: string, record: Record)

  /** What `list({ prefix })` returns, in any order. */
  ghost predicate Lists(entries: seq<Entry>, storage: map<string, Record>, prefix: string) {
    && (forall e <- entries :: prefix <= e.key && Lookup(storage, e.key) == Some(e.record))
    && (forall key <- storage | prefix <= key :: Entry(key, storage[key]) in entries)
  }

  function LoadDaemon(storage: map<string, Record>): Option<DaemonRecord> {
    var stored := Lookup(storage, DAEMON_RECORD_KEY);
    if stored.Some? && stored.value.DaemonEntry? then Some(stored.value.daemon) else None
  }

  function LoadApp(apps: map<string, AppRecord>, record: Record): map<string, AppRecord> {
    if record.AppEntry? then apps[record.app.appInstallationId := record.app] else apps
  }

  function LoadApps(entries: seq<Entry>): map<string, AppRecord> {
    if entries == [] then map[]
    else LoadApp(LoadApps(entries[..|entries|-1]), entries[|entries|-1].record)
  }

  function LoadPairing(pairings: map<string, PairingRecord>, record: Record): map<string, PairingRecord> {
    if record.PairingEntry? then pairings[record.pairing.pairingId := record.pairing] else pairings
  }

  function LoadPairings(entries: seq<Entry>): map<string, PairingRecord> {
    if entries == [] then map[]
    else LoadPairing(LoadPairings(entries[..|entries|-1]), entries[|entries|-1].record)
  }

  function Loaded(storage: map<string, Record>, apps: seq<Entry>, pairings: seq<Entry>): Memory {
    Memory(LoadDaemon(storage), LoadApps(apps), LoadPairings(pairings))
  }

  lemma {:induction false} LoadAppsKeepsAll(entries: seq<Entry>, apps: map<string, AppRecord>)
    requires forall e <- entries :: e.record.AppEntry? && var r := e.record.app;
               r.appInstallationId in apps && apps[r.appInstallationId] == r
    ensures forall id <- LoadApps(entries) :: id in apps && LoadApps(entries)[id] == apps[id]
    ensures forall e <- entries :: e.record.app.appInstallationId in LoadApps(entries)
  {
    if entries != [] {
      LoadAppsKeepsAll(entries[..|entries|-1], apps);
      assert forall e <- entries :: e in entries[..|entries|-1] || e == entries[|entries|-1];
    }
  }

  lemma {:induction false} LoadPairingsKeepsAll(entries: seq<Entry>, pairings: map<string, PairingRecord>)
    requires forall e <- entries :: e.record.PairingEntry? && var r := e.record.pairing;
               r.pairingId in pairings && pairings[r.pairingId] == r
    ensures forall id <- LoadPairings(entries) :: id in pairings && LoadPairings(entries)[id] == pairings[id]
    ensures forall e <- entries :: e.record.pairing.pairingId in LoadPairings(entries)
  {
    if entries != [] {
      LoadPairingsKeepsAll(entries[..|entries|-1], pairings);
      assert forall e <- entries :: e in entries[..|entries|-1] || e == entries[|entries|-1];
    }
  }

  lemma RestartRestoresApps(m: Memory, storage: map<string, Record>, entries: seq<Entry>)
    requires Mirrors(m, storage) && Lists(entries, storage, APP_RECORD_PREFIX)
    ensures LoadApps(entries) == m.apps
  {
    hide SlotOf, AppKey, LoadApps;
    forall e <- entries
      ensures e.record.AppEntry? && e.record.app.appInstallationId in m.apps
              && m.apps[e.record.app.appInstallationId] == e.record.app
    {
      KeysNeverMix(e.key, "");
    }
    LoadAppsKeepsAll(entries, m.apps);
    forall id <- m.apps ensures id in LoadApps(entries) {
      KeysNeverMix(AppKey(id), id);
      assert Lookup(storage, AppKey(id)) == Some(AppEntry(m.apps[id]));
      assert Entry(AppKey(id), storage[AppKey(id)]) in entries;
    }
  }

  lemma RestartRestoresPairings(m: Memory, storage: map<string, Record>, entries: seq<Entry>)
    requires Mirrors(m, storage) && Lists(entries, storage, PAIRING_RECORD_PREFIX)
    ensures LoadPairings(entries) == m.pairings
  {
    hide SlotOf, PairingKey, LoadPairings;
    forall e <- entries
      ensures e.record.PairingEntry? && e.record.pairing.pairingId in m.pairings
              && m.pairings[e.record.pairing.pairingId] == e.record.pairing
    {
      KeysNeverMix(e.key, "");
    }
    LoadPairingsKeepsAll(entries, m.pairings);
    forall id <- m.pairings ensures id in LoadPairings(entries) {
      KeysNeverMix(PairingKey(id), id);
      assert Lookup(storage, PairingKey(id)) == Some(PairingEntry(m.pairings[id]));
      assert Entry(PairingKey(id), storage[PairingKey(id)]) in entries;
    }
  }

  /** A restart restores exactly the memory that storage mirrors, whatever the order in which
      storage lists the records. */
  lemma RestartRestoresMemory(m: Memory, storage: map<string, Record>, apps: seq<Entry>, pairings: seq<Entry>)
    requires Mirrors(m, storage)
    requires Lists(apps, storage, APP_RECORD_PREFIX) && Lists(pairings, storage, PAIRING_RECORD_PREFIX)
    ensures Loaded(storage, apps, pairings) == m
  {
    KeysNeverMix(DAEMON_RECORD_KEY, "");
    assert Lookup(storage, DAEMON_RECORD_KEY) == Image(m, DaemonSlot);
    hide Mirrors, Lists, SlotOf, LoadApps, LoadPairings;
    RestartRestoresApps(m, storage, apps);
    RestartRestoresPairings(m, storage, pairings);
  }
}
