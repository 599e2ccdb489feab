/**
 The slot configuration store of main/ntrip_slots.c: one table in memory, mirrored in a storage blob
 and, for slots 0 and 1, in the older single-value keys.
 */
module SlotStore {
  import opened Bytes

  const SLOTS: nat := 5
  const PORT_DEFAULT: Port := 2101

  type Port = n: nat | n < 65536
  type Buf16 = s: seq<byte> | |s| == 16 witness Zeros(16)
  type Buf32 = s: seq<byte> | |s| == 32 witness Zeros(32)
  type Buf64 = s: seq<byte> | |s| == 64 witness Zeros(64)
  type Buf96 = s: seq<byte> | |s| == 96 witness Zeros(96)

  /** ntrip_slot_config_t with its character arrays. */
  datatype Slot = Slot(enabled: bool, useTls: bool, lastKnownEnabled: bool, role: byte, name: Buf32, host: Buf96,
                       port: Port, mountpoint: Buf64, username: Buf64, password: Buf64, ntripVersion: Buf16)

  type Slots = s: seq<Slot> | |s| == SLOTS witness seq(SLOTS, i => Default(0))

  /** The six older keys of one slot; strings as the keys hold them. */
  datatype Legacy = Legacy(enabled: bool, host: seq<byte>, port: Port, mountpoint: seq<byte>, username: seq<byte>,
                           password: seq<byte>)

  // ----- Character arrays -----

  function Zeros(n: nat): (z: seq<byte>)
    ensures |z| == n && forall i | 0 <= i < n :: z[i] == 0
  {
    seq(n, i => 0)
  }

  /** buf[size - 1] = 0. */
  function Terminated(buf: seq<byte>): (r: seq<byte>)
    requires buf != []
    ensures |r| == |buf| && r[|r| - 1] == 0 && r[0] == (if |buf| == 1 then 0 else buf[0])
    ensures buf[|buf| - 1] == 0 ==> r == buf
  {
    buf[|buf| - 1 := 0]
  }

  /** snprintf(buf, size, "%s", text): cut to size - 1 bytes, with a NUL behind. */
  function Printed(buf: seq<byte>, text: seq<byte>): (r: seq<byte>)
    requires buf != []
    ensures |r| == |buf|
    ensures buf[|buf| - 1] == 0 ==> r[|r| - 1] == 0
    ensures text != [] && |buf| > 1 ==> r[0] == text[0]
  {
    var n := if |text| < |buf| then |text| else |buf| - 1;
    text[..n] + [0] + buf[n + 1..]
  }

  lemma PrintedText(buf: seq<byte>, text: seq<byte>)
    requires buf != [] && |text| < |buf| && 0 !in text
    ensures CStr(Printed(buf, text)) == text
  {
    var r := Printed(buf, text);
    assert r[..|text|] == text;
    CStrIs(r, |text|);
  }

  // ----- Defaults and sanitising -----

  /** "NTRIP Server A" to "NTRIP Server E". */
  function DefaultName(i: nat): (t: seq<byte>)
    requires i < SLOTS
    ensures |t| == 14 && 0 !in t
  {
    [78, 84, 82, 73, 80, 32, 83, 101, 114, 118, 101, 114, 32, 65 + i]
  }

  /** "2.0" */
  const VERSION_TEXT: seq<byte> := [50, 46, 48]

  /** ntrip_slot_default. */
  function Default(i: nat): Slot
    requires i < SLOTS
  {
    Slot(false, false, false, 0, Printed(Zeros(32), DefaultName(i)), Zeros(96), PORT_DEFAULT, Zeros(64), Zeros(64),
         Zeros(64), Printed(Zeros(16), VERSION_TEXT))
  }

  /** The first half of ntrip_slot_sanitize. */
  function Closed(s: Slot): Slot {
    s.(name := Terminated(s.name), host := Terminated(s.host), mountpoint := Terminated(s.mountpoint),
       username := Terminated(s.username), password := Terminated(s.password),
       ntripVersion := Terminated(s.ntripVersion), role := 0, port := if s.port == 0 then PORT_DEFAULT else s.port)
  }

  /** ntrip_slot_sanitize: a slot without a name is replaced by the default altogether. */
  function Sanitized(i: nat, s: Slot): Slot
    requires i < SLOTS
  {
    var s1 := Closed(s);
    var s2 := if s1.name[0] == 0 then Default(i) else s1;
    if s2.ntripVersion[0] == 0 then s2.(ntripVersion := Printed(s2.ntripVersion, VERSION_TEXT)) else s2
  }

  /** What a sanitised slot looks like. */
  predicate Sane(s: Slot) {
    && s.name[31] == 0 && s.host[95] == 0 && s.mountpoint[63] == 0 && s.username[63] == 0 && s.password[63] == 0
    && s.ntripVersion[15] == 0 && s.role == 0 && s.port != 0 && s.name[0] != 0 && s.ntripVersion[0] != 0
  }

  lemma DefaultIsSane(i: nat)
    requires i < SLOTS
    ensures Sane(Default(i))
  {
  }

  lemma SanitizedIsSane(i: nat, s: Slot)
    requires i < SLOTS
    ensures Sane(Sanitized(i, s))
  {
    DefaultIsSane(i);
  }

  lemma SaneIsFixed(i: nat, s: Slot)
    requires i < SLOTS && Sane(s)
    ensures Sanitized(i, s) == s
  {
    assert Closed(s) == s;
  }

  /** Sanitising twice is sanitising once. */
  lemma SanitizeIdempotent(i: nat, s: Slot)
    requires i < SLOTS
    ensures Sanitized(i, Sanitized(i, s)) == Sanitized(i, s)
  {
    SanitizedIsSane(i, s);
    SaneIsFixed(i, Sanitized(i, s));
  }

  /** ntrip_slots_set_config's preparation of a new slot. */
  function Prepared(i: nat, s: Slot): Slot
    requires i < SLOTS
  {
    Sanitized(i, s).(lastKnownEnabled := Sanitized(i, s).enabled)
  }

  // ----- Older keys -----

  /** Into a zeroed field: empty text clears it, longer text is cut. */
  function FromKey(size: nat, text: seq<byte>): (r: seq<byte>)
    requires size > 0
    ensures |r| == size && r[size - 1] == 0
  {
    Printed(Zeros(size), text)
  }

  /** ntrip_slot_read_legacy. */
  function ReadLegacy(i: nat, l: Legacy): Slot
    requires i < SLOTS
  {
    Sanitized(i, Default(i).(enabled := l.enabled, lastKnownEnabled := l.enabled, port := l.port,
                             host := FromKey(96, l.host), mountpoint := FromKey(64, l.mountpoint),
                             username := FromKey(64, l.username), password := FromKey(64, l.password)))
  }

  /** The first `n` of the six writes of ntrip_slots_sync_slot_to_legacy. */
  function Written(l: Legacy, s: Slot, n: nat): Legacy {
    Legacy(if n > 0 then s.enabled else l.enabled, if n > 1 then CStr(s.host) else l.host,
           if n > 2 then s.port else l.port, if n > 3 then CStr(s.mountpoint) else l.mountpoint,
           if n > 4 then CStr(s.username) else l.username, if n > 5 then CStr(s.password) else l.password)
  }

  /** The keys say what the slot says. */
  predicate KeysAgree(l: Legacy, s: Slot) {
    && l.enabled == s.enabled && l.port == s.port
    && l.host == CStr(s.host) && l.mountpoint == CStr(s.mountpoint)
    && l.username == CStr(s.username) && l.password == CStr(s.password)
  }

  /** Two slots agree on the six fields the keys hold. */
  predicate SharedFieldsAgree(a: Slot, b: Slot) {
    && a.enabled == b.enabled && a.port == b.port
    && CStr(a.host) == CStr(b.host) && CStr(a.mountpoint) == CStr(b.mountpoint)
    && CStr(a.username) == CStr(b.username) && CStr(a.password) == CStr(b.password)
  }

  lemma FieldThroughKey(buf: seq<byte>)
    requires buf != [] && buf[|buf| - 1] == 0
    ensures CStr(FromKey(|buf|, CStr(buf))) == CStr(buf)
  {
    CStrIsPrefix(buf);
    assert 0 in buf;
    assert |CStr(buf)| < |buf|;
    PrintedText(Zeros(|buf|), CStr(buf));
  }

  /**
   Reading back from keys that agree with a sane slot keeps the six shared fields; TLS, name and
   version fall back to the defaults.
   */
  lemma ReadBackKeepsShared(i: nat, l: Legacy, s: Slot)
    requires i < SLOTS && Sane(s) && KeysAgree(l, s)
    ensures var r := ReadLegacy(i, l);
      SharedFieldsAgree(r, s) && r.lastKnownEnabled == s.enabled &&
      !r.useTls && r.name == Default(i).name && r.ntripVersion == Default(i).ntripVersion
  {
    FieldThroughKey(s.host);
    FieldThroughKey(s.mountpoint);
    FieldThroughKey(s.username);
    FieldThroughKey(s.password);
    DefaultIsSane(i);
    var d := Default(i).(enabled := l.enabled, lastKnownEnabled := l.enabled, port := l.port,
                         host := FromKey(96, l.host), mountpoint := FromKey(64, l.mountpoint),
                         username := FromKey(64, l.username), password := FromKey(64, l.password));
    assert Sane(d);
    SaneIsFixed(i, d);
  }

  // ----- The store and its operations -----

  /**
   What storage holds under the blob's key: `Wrong` is a blob that is too short or has a bad header,
   `Overlong` one that the read refuses because it exceeds the table.
   */
  datatype Blob = Missing | Wrong | Overlong | Intact(slots: Slots)

  type Keys = s: seq<Legacy> | |s| == 2 witness seq(2, i => Legacy(false, [], 0, [], [], []))

  datatype State = State(mem: Slots, loaded: bool, blob: Blob, keys: Keys)

  /** How one save goes: a write whose commit fails may or may not stick. */
  datatype SaveIo = SaveIo(open: bool, write: bool, commit: bool, sticks: bool)

  /** How storage behaves during one operation; `keyWrites` single-value writes succeed before one fails. */
  datatype Env = Env(readable: bool, loadSave: SaveIo, save: SaveIo, keyWrites: nat, keyCommit: bool)

  datatype Op =
    | Init
    | GetConfig(i: nat)
    | SetConfig(i: nat, config: Slot)
    | SetAll(configs: seq<Slot>)
    | SyncFromLegacy
    | EditKeys(k: nat, legacy: Legacy)
    | Reboot

  datatype Result = Result(state: State, ok: bool)

  function SanitizedAll(slots: Slots): Slots {
    seq(SLOTS, i requires 0 <= i < SLOTS => Sanitized(i, slots[i]))
  }

  function Defaults(): Slots {
    seq(SLOTS, i requires 0 <= i < SLOTS => Default(i))
  }

  function PreparedAll(slots: Slots): Slots {
    seq(SLOTS, i requires 0 <= i < SLOTS => Prepared(i, slots[i]))
  }

  /** The first two slots read from the keys, the others kept. */
  function FromKeys(mem: Slots, keys: Keys): Slots {
    mem[0 := ReadLegacy(0, keys[0])][1 := ReadLegacy(1, keys[1])]
  }

  /** ntrip_slot_has_non_default_legacy_value. */
  predicate HasLegacy(l: Legacy) {
    l.enabled || l.host != [] || l.mountpoint != [] || l.username != [] || l.password != []
  }

  predicate SaveOk(io: SaveIo) {
    io.open && io.write && io.commit
  }

  /** The written table is in storage, whatever the save returned. */
  predicate SaveLands(io: SaveIo) {
    io.open && io.write && (io.commit || io.sticks)
  }

  /** ntrip_slots_store_save. */
  function SavedBlob(blob: Blob, mem: Slots, io: SaveIo): Blob {
    if SaveLands(io) then Intact(mem) else blob
  }

  /** ntrip_slots_ensure_loaded with ntrip_slots_store_load. */
  function EnsureLoaded(s: State, env: Env): Result {
    if s.loaded then Result(s, true)
    else if !env.readable || s.blob.Overlong? then Result(s, false)
    else if s.blob.Intact? then Result(s.(mem := SanitizedAll(s.blob.slots), loaded := true), true)
    else
      var mem := if s.blob.Wrong? || HasLegacy(s.keys[0]) || HasLegacy(s.keys[1]) then FromKeys(Defaults(), s.keys)
                 else Defaults();
      var ok := SaveOk(env.loadSave);
      Result(State(mem, ok, SavedBlob(s.blob, mem, env.loadSave), s.keys), ok)
  }

  /** ntrip_slots_sync_legacy_keys, stopping at the first write that fails. */
  function SyncedKeys(keys: Keys, mem: Slots, n: nat): Keys {
    [Written(keys[0], mem[0], n), Written(keys[1], mem[1], if n < 6 then 0 else n - 6)]
  }

  /** Save the table and, when that worked, the keys. */
  function SaveAndSync(s: State, env: Env): Result {
    var s1 := s.(blob := SavedBlob(s.blob, s.mem, env.save));
    if !SaveOk(env.save) then Result(s1, false)
    else Result(s1.(keys := SyncedKeys(s.keys, s.mem, env.keyWrites)), env.keyWrites >= 12 && env.keyCommit)
  }

  function Step(s: State, op: Op, env: Env): Result {
    var l := EnsureLoaded(s, env);
    match op
    case Init => l
    case GetConfig(i) => if i >= SLOTS then Result(s, false) else l
    case SetConfig(i, config) =>
      if i >= SLOTS then Result(s, false)
      else if !l.ok then l
      else SaveAndSync(l.state.(mem := l.state.mem[i := Prepared(i, config)]), env)
    case SetAll(configs) =>
      if |configs| != SLOTS then Result(s, false)
      else if !l.ok then l
      else SaveAndSync(l.state.(mem := PreparedAll(configs)), env)
    case SyncFromLegacy =>
      if !l.ok then l
      else
        var s1 := l.state.(mem := FromKeys(l.state.mem, l.state.keys));
        Result(s1.(blob := SavedBlob(s1.blob, s1.mem, env.save)), SaveOk(env.save))
    case EditKeys(k, legacy) => Result(if k < 2 then s.(keys := s.keys[k := legacy]) else s, true)
    case Reboot => Result(s.(loaded := false), true)
  }

  // ----- Agreement of memory and blob -----

  ghost predicate AllSane(slots: Slots) {
    forall i | 0 <= i < SLOTS :: Sane(slots[i])
  }

  ghost predicate Inv(s: State) {
    s.loaded ==> AllSane(s.mem)
  }

  /** Loading the blob again gives exactly the table in memory. */
  ghost predicate Agrees(s: State) {
    s.blob.Intact? && SanitizedAll(s.blob.slots) == s.mem
  }

  lemma SanitizedAllSane(slots: Slots)
    ensures AllSane(SanitizedAll(slots))
    ensures AllSane(slots) ==> SanitizedAll(slots) == slots
  {
    forall i | 0 <= i < SLOTS
      ensures Sane(SanitizedAll(slots)[i])
      ensures Sane(slots[i]) ==> SanitizedAll(slots)[i] == slots[i]
    {
      SanitizedIsSane(i, slots[i]);
      if Sane(slots[i]) {
        SaneIsFixed(i, slots[i]);
      }
    }
  }

  lemma DefaultsSane()
    ensures AllSane(Defaults())
  {
    forall i | 0 <= i < SLOTS
      ensures Sane(Defaults()[i])
    {
      DefaultIsSane(i);
    }
  }

  lemma PreparedSane(i: nat, c: Slot)
    requires i < SLOTS
    ensures Sane(Prepared(i, c))
  {
    SanitizedIsSane(i, c);
  }

  lemma PreparedAllSane(configs: Slots)
    ensures AllSane(PreparedAll(configs))
  {
    forall i | 0 <= i < SLOTS
      ensures Sane(PreparedAll(configs)[i])
    {
      PreparedSane(i, configs[i]);
    }
  }

  lemma FromKeysSane(mem: Slots, keys: Keys)
    requires AllSane(mem)
    ensures AllSane(FromKeys(mem, keys))
  {
    ReadLegacySane(0, keys[0]);
    ReadLegacySane(1, keys[1]);
  }

  lemma ReadLegacySane(i: nat, l: Legacy)
    requires i < SLOTS
    ensures Sane(ReadLegacy(i, l))
  {
    SanitizedIsSane(i, Default(i).(enabled := l.enabled, lastKnownEnabled := l.enabled, port := l.port,
                                   host := FromKey(96, l.host), mountpoint := FromKey(64, l.mountpoint),
                                   username := FromKey(64, l.username), password := FromKey(64, l.password)));
  }

  lemma LoadKeepsInv(s: State, env: Env)
    requires Inv(s)
    ensures Inv(EnsureLoaded(s, env).state)
    ensures EnsureLoaded(s, env).ok ==> EnsureLoaded(s, env).state.loaded
    ensures EnsureLoaded(s, env).ok && !s.loaded ==> Agrees(EnsureLoaded(s, env).state)
  {
    DefaultsSane();
    FromKeysSane(Defaults(), s.keys);
    SanitizedAllSane(Defaults());
    SanitizedAllSane(FromKeys(Defaults(), s.keys));
    if s.blob.Intact? {
      SanitizedAllSane(s.blob.slots);
    }
  }

  lemma SavedAgrees(s: State, env: Env)
    requires AllSane(s.mem)
    ensures SaveAndSync(s, env).ok ==> Agrees(SaveAndSync(s, env).state)
    ensures SaveAndSync(s, env).state.mem == s.mem && SaveAndSync(s, env).state.loaded == s.loaded
    ensures SaveOk(env.save) ==> Agrees(s.(blob := SavedBlob(s.blob, s.mem, env.save)))
  {
    SanitizedAllSane(s.mem);
  }

  predicate Mutates(op: Op) {
    op.SetConfig? || op.SetAll? || op.SyncFromLegacy?
  }

  predicate Reads(op: Op) {
    op.Init? || op.GetConfig?
  }

  /** Every operation, however storage behaves, leaves only sane slots in a loaded table. */
  lemma StepKeepsInv(s: State, op: Op, env: Env)
    requires Inv(s)
    ensures Inv(Step(s, op, env).state)
  {
    LoadKeepsInv(s, env);
    var l := EnsureLoaded(s, env);
    match op
    case SetConfig(i, config) =>
      if i < SLOTS && l.ok {
        PreparedSane(i, config);
        SavedAgrees(l.state.(mem := l.state.mem[i := Prepared(i, config)]), env);
      }
    case SetAll(configs) =>
      if |configs| == SLOTS && l.ok {
        PreparedAllSane(configs);
        SavedAgrees(l.state.(mem := PreparedAll(configs)), env);
      }
    case SyncFromLegacy =>
      if l.ok {
        FromKeysSane(l.state.mem, l.state.keys);
      }
    case _ =>
  }

  lemma OkSetConfigAgrees(s: State, i: nat, config: Slot, env: Env)
    requires Inv(s) && Step(s, SetConfig(i, config), env).ok
    ensures var t := Step(s, SetConfig(i, config), env).state; t.loaded && Agrees(t)
  {
    LoadKeepsInv(s, env);
    var l := EnsureLoaded(s, env);
    PreparedSane(i, config);
    SavedAgrees(l.state.(mem := l.state.mem[i := Prepared(i, config)]), env);
  }

  lemma OkSetAllAgrees(s: State, configs: seq<Slot>, env: Env)
    requires Inv(s) && Step(s, SetAll(configs), env).ok
    ensures var t := Step(s, SetAll(configs), env).state; t.loaded && Agrees(t)
  {
    LoadKeepsInv(s, env);
    PreparedAllSane(configs);
    SavedAgrees(EnsureLoaded(s, env).state.(mem := PreparedAll(configs)), env);
  }

  lemma OkSyncAgrees(s: State, env: Env)
    requires Inv(s) && Step(s, SyncFromLegacy, env).ok
    ensures var t := Step(s, SyncFromLegacy, env).state; t.loaded && Agrees(t)
  {
    LoadKeepsInv(s, env);
    var l := EnsureLoaded(s, env).state;
    FromKeysSane(l.mem, l.keys);
    SavedAgrees(l.(mem := FromKeys(l.mem, l.keys)), env);
  }

  /** A set or sync that returns OK leaves blob and memory in agreement. */
  lemma OkMutationAgrees(s: State, op: Op, env: Env)
    requires Inv(s) && Mutates(op) && Step(s, op, env).ok
    ensures Step(s, op, env).state.loaded && Agrees(Step(s, op, env).state)
  {
    match op
    case SetConfig(i, config) => OkSetConfigAgrees(s, i, config, env);
    case SetAll(configs) => OkSetAllAgrees(s, configs, env);
    case SyncFromLegacy => OkSyncAgrees(s, env);
  }

  /** An init or get that returns OK has agreement exactly when it loaded the table or it was there before. */
  lemma OkReadAgrees(s: State, op: Op, env: Env)
    requires Inv(s) && Reads(op) && Step(s, op, env).ok
    ensures Agrees(Step(s, op, env).state) <==> !s.loaded || Agrees(s)
  {
    LoadKeepsInv(s, env);
  }

  /** The states of a run from `s`. */
  function After(s: State, ops: seq<Op>, envs: seq<Env>): State
    requires |ops| == |envs|
    decreases |ops|
  {
    if ops == [] then s else After(Step(s, ops[0], envs[0]).state, ops[1..], envs[1..])
  }

  ghost predicate AllOk(s: State, ops: seq<Op>, envs: seq<Env>)
    requires |ops| == |envs|
    decreases |ops|
  {
    ops != [] ==> Step(s, ops[0], envs[0]).ok && AllOk(Step(s, ops[0], envs[0]).state, ops[1..], envs[1..])
  }

  ghost predicate LoadedAgrees(s: State) {
    Inv(s) && (s.loaded ==> Agrees(s))
  }

  lemma OkStepAgrees(s: State, op: Op, env: Env)
    requires LoadedAgrees(s) && Step(s, op, env).ok
    ensures LoadedAgrees(Step(s, op, env).state)
  {
    StepKeepsInv(s, op, env);
    if Mutates(op) {
      OkMutationAgrees(s, op, env);
    } else if Reads(op) {
      OkReadAgrees(s, op, env);
    }
  }

  /**
   Any run of operations, reboots and edits of the older keys in which every operation returned OK
   ends with blob and memory in agreement, whatever was stored before.
   */
  lemma {:induction false} OkRunAgrees(s: State, ops: seq<Op>, envs: seq<Env>)
    requires |ops| == |envs| && LoadedAgrees(s) && AllOk(s, ops, envs)
    ensures LoadedAgrees(After(s, ops, envs))
    decreases |ops|
  {
    if ops == [] {
    } else {
      OkStepAgrees(s, ops[0], envs[0]);
      OkRunAgrees(Step(s, ops[0], envs[0]).state, ops[1..], envs[1..]);
    }
  }

  // ----- Agreement when saves fail -----

  /** The arguments are in range. */
  predicate Accepts(op: Op) {
    match op
    case GetConfig(i) => i < SLOTS
    case SetConfig(i, _) => i < SLOTS
    case SetAll(configs) => |configs| == SLOTS
    case _ => true
  }

  /** The table a set or sync asks for. */
  function Proposed(mem: Slots, keys: Keys, op: Op): Slots
    requires Mutates(op) && Accepts(op)
  {
    match op
    case SetConfig(i, config) => mem[i := Prepared(i, config)]
    case SetAll(configs) => PreparedAll(configs)
    case SyncFromLegacy => FromKeys(mem, keys)
  }

  /** A set or sync puts the proposed table into memory, whether or not it can be saved. */
  lemma MutationProposes(s: State, op: Op, env: Env)
    requires Mutates(op) && Accepts(op) && EnsureLoaded(s, env).ok
    ensures var l := EnsureLoaded(s, env).state; var t := Step(s, op, env).state; var m := Proposed(l.mem, l.keys, op);
      t.mem == m && t.loaded == l.loaded && t.blob == SavedBlob(l.blob, m, env.save)
  {
  }

  /**
   Every set_config, set_all and sync, however its save and key writes go and whatever it returns:
   blob and memory agree afterwards if and only if the save landed or nothing was to change.
   */
  lemma MutationAgreesIff(s: State, op: Op, env: Env)
    requires LoadedAgrees(s) && Mutates(op) && Accepts(op) && EnsureLoaded(s, env).ok
    ensures var l := EnsureLoaded(s, env).state;
      Agrees(Step(s, op, env).state) <==> SaveLands(env.save) || Proposed(l.mem, l.keys, op) == l.mem
  {
    LoadKeepsInv(s, env);
    StepKeepsInv(s, op, env);
    MutationProposes(s, op, env);
    SanitizedAllSane(Step(s, op, env).state.mem);
  }

  /** The table that a reboot would bring back, when there is one in memory. */
  ghost predicate Holds(s: State, t: Slots) {
    Inv(s) && (s.loaded ==> s.blob.Intact? && SanitizedAll(s.blob.slots) == t)
  }

  /**
   The table last known to be in storage: the one a load brought into memory, then every one whose
   save landed. The blob matters only to that load; with a table in memory it is not looked at.
   */
  function Landed(s: State, t: Slots, op: Op, env: Env): Slots {
    var l := EnsureLoaded(s, env);
    if op.EditKeys? || op.Reboot? || !Accepts(op) || !l.ok then t
    else if Mutates(op) && SaveLands(env.save) then Proposed(l.state.mem, l.state.keys, op)
    else if s.loaded then t
    else l.state.mem
  }

  lemma LandedMutation(s: State, t: Slots, op: Op, env: Env)
    requires Holds(s, t) && Mutates(op) && Accepts(op) && EnsureLoaded(s, env).ok
    ensures Holds(Step(s, op, env).state, Landed(s, t, op, env))
  {
    StepKeepsInv(s, op, env);
    LoadKeepsInv(s, env);
    MutationProposes(s, op, env);
    SanitizedAllSane(Step(s, op, env).state.mem);
  }

  lemma LandedStep(s: State, t: Slots, op: Op, env: Env)
    requires Holds(s, t)
    ensures Holds(Step(s, op, env).state, Landed(s, t, op, env))
  {
    if Mutates(op) && Accepts(op) && EnsureLoaded(s, env).ok {
      LandedMutation(s, t, op, env);
    } else {
      StepKeepsInv(s, op, env);
      LoadKeepsInv(s, env);
    }
  }

  function LandedAfter(s: State, t: Slots, ops: seq<Op>, envs: seq<Env>): Slots
    requires |ops| == |envs|
    decreases |ops|
  {
    if ops == [] then t
    else LandedAfter(Step(s, ops[0], envs[0]).state, Landed(s, t, ops[0], envs[0]), ops[1..], envs[1..])
  }

  lemma {:induction false} RunLands(s: State, t: Slots, ops: seq<Op>, envs: seq<Env>)
    requires |ops| == |envs| && Holds(s, t)
    ensures Holds(After(s, ops, envs), LandedAfter(s, t, ops, envs))
    decreases |ops|
  {
    if ops == [] {
    } else {
      LandedStep(s, t, ops[0], envs[0]);
      RunLands(Step(s, ops[0], envs[0]).state, Landed(s, t, ops[0], envs[0]), ops[1..], envs[1..]);
    }
  }

  /**
   After any run at all, with any operation failing at any point: a loaded table agrees with its blob
   if and only if it is the table that landed last.
   */
  lemma RunAgreesIff(s: State, ops: seq<Op>, envs: seq<Env>)
    requires |ops| == |envs| && LoadedAgrees(s) && After(s, ops, envs).loaded
    ensures Agrees(After(s, ops, envs)) <==> After(s, ops, envs).mem == LandedAfter(s, s.mem, ops, envs)
  {
    RunLands(s, s.mem, ops, envs);
  }

  /**
   A get that returns OK after any such run returns what a reboot would bring back if and only if the
   slot is as it landed last.
   */
  lemma GetReturnsStoredIff(s: State, ops: seq<Op>, envs: seq<Env>, i: nat, env: Env)
    requires |ops| == |envs| && LoadedAgrees(s) && i < SLOTS
    requires Step(After(s, ops, envs), GetConfig(i), env).ok
    ensures var u := After(s, ops, envs); var w := Step(u, GetConfig(i), env).state;
      && w.blob.Intact?
      && (w.mem[i] == SanitizedAll(w.blob.slots)[i] <==>
          w.mem[i] == Landed(u, LandedAfter(s, s.mem, ops, envs), GetConfig(i), env)[i])
  {
    RunLands(s, s.mem, ops, envs);
    LandedStep(After(s, ops, envs), LandedAfter(s, s.mem, ops, envs), GetConfig(i), env);
    LoadKeepsInv(After(s, ops, envs), env);
  }

  /** A set that fails to save, and a later get that returns OK with a slot a reboot would not bring back. */
  lemma GetOkAfterFailedSave() returns (s: State, change: Op, fetch: Op, bad: Env)
    ensures Inv(s) && s.loaded && Agrees(s) && change.SetConfig? && fetch.GetConfig?
    ensures var s1 := Step(s, change, bad).state; Step(s1, fetch, bad).ok && !Agrees(Step(s1, fetch, bad).state)
  {
    var none := Legacy(false, [], 0, [], [], []);
    s := State(Defaults(), true, Intact(Defaults()), [none, none]);
    DefaultsSane();
    SanitizedAllSane(Defaults());
    var failing := SaveIo(true, false, false, false);
    bad := Env(true, failing, failing, 12, true);
    var config := Default(0).(enabled := true);
    change, fetch := SetConfig(0, config), GetConfig(0);
    DefaultIsSane(0);
    SaneIsFixed(0, config);
    assert Proposed(s.mem, s.keys, change)[0].enabled;
    MutationAgreesIff(s, change, bad);
  }

  // ----- Agreement with the older keys -----

  lemma SixWrites(l: Legacy, s: Slot, n: nat)
    requires n >= 6
    ensures KeysAgree(Written(l, s, n), s)
  {
  }

  predicate Sets(op: Op) {
    op.SetConfig? || op.SetAll?
  }

  /** After a set that returned OK the keys of slots 0 and 1 say what the slots say. */
  lemma OkSetSyncsKeys(s: State, op: Op, env: Env)
    requires Inv(s) && Sets(op) && Step(s, op, env).ok
    ensures var t := Step(s, op, env).state;
      KeysAgree(t.keys[0], t.mem[0]) && KeysAgree(t.keys[1], t.mem[1])
  {
    var l := EnsureLoaded(s, env);
    var m := if op.SetConfig? then l.state.mem[op.i := Prepared(op.i, op.config)] else PreparedAll(op.configs);
    var t := Step(s, op, env).state;
    assert t.mem == m && t.keys == SyncedKeys(l.state.keys, m, env.keyWrites);
    SixWrites(l.state.keys[0], m[0], env.keyWrites);
    SixWrites(l.state.keys[1], m[1], env.keyWrites - 6);
  }

  /** Syncing a loaded table from its keys: the first two slots come from the keys, the rest is untouched. */
  lemma SyncReadsKeys(t: State, env: Env)
    requires t.loaded
    ensures var u := Step(t, SyncFromLegacy, env).state;
      u.mem[0] == ReadLegacy(0, t.keys[0]) && u.mem[1] == ReadLegacy(1, t.keys[1]) && u.mem[2..] == t.mem[2..] &&
      u.keys == t.keys
  {
  }

  /**
   A sync from the older keys right after an OK set keeps the six shared fields of slots 0 and 1 and
   leaves slots 2 to 4 as they are.
   */
  lemma SyncAfterSetKeepsShared(s: State, op: Op, env: Env, env1: Env)
    requires Inv(s) && Sets(op) && Step(s, op, env).ok
    ensures var t := Step(s, op, env).state; var u := Step(t, SyncFromLegacy, env1).state;
      SharedFieldsAgree(u.mem[0], t.mem[0]) && SharedFieldsAgree(u.mem[1], t.mem[1]) && u.mem[2..] == t.mem[2..]
  {
    var t := Step(s, op, env).state;
    OkMutationAgrees(s, op, env);
    StepKeepsInv(s, op, env);
    OkSetSyncsKeys(s, op, env);
    SyncReadsKeys(t, env1);
    ReadBackKeepsShared(0, t.keys[0], t.mem[0]);
    ReadBackKeepsShared(1, t.keys[1], t.mem[1]);
  }

  /** The keys survive their own round trip: writing back what was read changes nothing that fits its field. */
  lemma KeysRoundTrip(i: nat, l: Legacy)
    requires i < SLOTS && l.port != 0
    requires 0 !in l.host && 0 !in l.mountpoint && 0 !in l.username && 0 !in l.password
    requires |l.host| < 96 && |l.mountpoint| < 64 && |l.username| < 64 && |l.password| < 64
    ensures KeysAgree(l, ReadLegacy(i, l))
  {
    PrintedText(Zeros(96), l.host);
    PrintedText(Zeros(64), l.mountpoint);
    PrintedText(Zeros(64), l.username);
    PrintedText(Zeros(64), l.password);
    DefaultIsSane(i);
    var d := Default(i).(enabled := l.enabled, lastKnownEnabled := l.enabled, port := l.port,
                         host := FromKey(96, l.host), mountpoint := FromKey(64, l.mountpoint),
                         username := FromKey(64, l.username), password := FromKey(64, l.password));
    assert Sane(d);
    SaneIsFixed(i, d);
  }

  // ----- What is stored -----

  /** `kept` is `given` with its last byte a NUL. */
  predicate CutToField(given: seq<byte>, kept: seq<byte>)
    requires given != []
  {
    |kept| == |given| && kept[|given| - 1] == 0 && kept[..|given| - 1] == given[..|given| - 1]
  }

  /** The text in such a field is the given one as far as the field goes. */
  lemma CutText(given: seq<byte>, kept: seq<byte>)
    requires given != [] && CutToField(given, kept)
    ensures CStr(kept) == CStr(given[..|given| - 1])
  {
    var n := |given| - 1;
    CStrIsPrefix(kept);
    CStrIsPrefix(given[..n]);
    assert kept == given[..n] + [0];
    CStrStops(given[..n]);
  }

  lemma {:induction false} CStrStops(t: seq<byte>)
    ensures CStr(t + [0]) == CStr(t)
  {
    if t == [] {
    } else {
      assert (t + [0])[1..] == t[1..] + [0];
      CStrStops(t[1..]);
    }
  }

  /**
   Slot `i` as a caller finds it who stored `c`: every setting is the one given, a zero port is 2101, an
   empty version is "2.0", the arrays are terminated; without a name all of it is the default.
   */
  predicate StoredAs(i: nat, c: Slot, t: Slot)
    requires i < SLOTS
  {
    if c.name[0] == 0 then t == Default(i)
    else
      && t.enabled == c.enabled && t.useTls == c.useTls && t.lastKnownEnabled == c.enabled && t.role == 0
      && t.port == (if c.port == 0 then 2101 else c.port)
      && CutToField(c.name, t.name) && CutToField(c.host, t.host) && CutToField(c.mountpoint, t.mountpoint)
      && CutToField(c.username, t.username) && CutToField(c.password, t.password)
      && (if c.ntripVersion[0] == 0 then CStr(t.ntripVersion) == VERSION_TEXT
          else CutToField(c.ntripVersion, t.ntripVersion))
  }

  lemma TerminatedCuts(buf: seq<byte>)
    requires buf != []
    ensures CutToField(buf, Terminated(buf))
  {
  }

  lemma PreparedStores(i: nat, c: Slot)
    requires i < SLOTS
    ensures StoredAs(i, c, Prepared(i, c))
    ensures Sane(c) ==> Prepared(i, c) == c.(lastKnownEnabled := c.enabled)
  {
    TerminatedCuts(c.name);
    TerminatedCuts(c.host);
    TerminatedCuts(c.mountpoint);
    TerminatedCuts(c.username);
    TerminatedCuts(c.password);
    TerminatedCuts(c.ntripVersion);
    PrintedText(Terminated(c.ntripVersion), VERSION_TEXT);
    DefaultIsSane(i);
  }

  /** The default slot: off, port 2101, its name, and nothing else set. */
  lemma DefaultIs(i: nat)
    requires i < SLOTS
    ensures var d := Default(i);
      && !d.enabled && !d.useTls && !d.lastKnownEnabled && d.role == 0 && d.port == 2101
      && CStr(d.name) == [78, 84, 82, 73, 80, 32, 83, 101, 114, 118, 101, 114, 32] + [65 + i]
      && CStr(d.host) == CStr(d.mountpoint) == CStr(d.username) == CStr(d.password) == []
      && CStr(d.ntripVersion) == [50, 46, 48]
  {
    PrintedText(Zeros(32), DefaultName(i));
    PrintedText(Zeros(16), VERSION_TEXT);
  }

  /** An OK set_config leaves the given slot and, besides it, the loaded table. */
  lemma SetConfigStores(s: State, i: nat, c: Slot, env: Env)
    requires Step(s, SetConfig(i, c), env).ok
    ensures var t := Step(s, SetConfig(i, c), env).state;
      && i < SLOTS && StoredAs(i, c, t.mem[i]) && (Sane(c) ==> t.mem[i] == c.(lastKnownEnabled := c.enabled))
      && forall j | 0 <= j < SLOTS && j != i :: t.mem[j] == EnsureLoaded(s, env).state.mem[j]
  {
    PreparedStores(i, c);
  }

  lemma SetAllStores(s: State, cs: seq<Slot>, env: Env)
    requires Step(s, SetAll(cs), env).ok
    ensures var t := Step(s, SetAll(cs), env).state;
      && |cs| == SLOTS
      && forall i | 0 <= i < SLOTS ::
           StoredAs(i, cs[i], t.mem[i]) && (Sane(cs[i]) ==> t.mem[i] == cs[i].(lastKnownEnabled := cs[i].enabled))
  {
    forall i | 0 <= i < SLOTS
      ensures StoredAs(i, cs[i], PreparedAll(cs)[i])
      ensures Sane(cs[i]) ==> PreparedAll(cs)[i] == cs[i].(lastKnownEnabled := cs[i].enabled)
    {
      PreparedStores(i, cs[i]);
    }
  }

  /**
   After an OK set the next get returns OK and that slot, however storage behaves; and so does the first
   one after a reboot, if only storage can be read.
   */
  lemma SetSurvivesReboot(s: State, op: Op, env: Env, i: nat, env1: Env)
    requires Inv(s) && Sets(op) && Step(s, op, env).ok && i < SLOTS
    ensures var t := Step(s, op, env).state;
      Step(t, GetConfig(i), env1).ok && Step(t, GetConfig(i), env1).state.mem == t.mem
    ensures var t := Step(s, op, env).state; var u := Step(Step(t, Reboot, env1).state, GetConfig(i), env1);
      env1.readable ==> u.ok && u.state.mem == t.mem
  {
    OkMutationAgrees(s, op, env);
    AgreedReload(Step(s, op, env).state, i, env1);
  }

  lemma AgreedReload(t: State, i: nat, env1: Env)
    requires t.loaded && Agrees(t) && i < SLOTS
    ensures Step(t, GetConfig(i), env1).ok && Step(t, GetConfig(i), env1).state.mem == t.mem
    ensures var u := Step(Step(t, Reboot, env1).state, GetConfig(i), env1);
      env1.readable ==> u.ok && u.state.mem == t.mem
  {
    var off := t.(loaded := false);
    assert Step(t, Reboot, env1).state == off;
    assert env1.readable ==> EnsureLoaded(off, env1) == Result(t, true);
  }

  // ----- What is loaded -----

  /** A key's text as the field holds it. */
  predicate TextFrom(size: nat, text: seq<byte>, field: seq<byte>) {
    |field| == size > 0 && (0 !in text ==> CStr(field) == if |text| < size then text else text[..size - 1])
  }

  lemma FromKeyText(size: nat, text: seq<byte>)
    requires size > 0
    ensures TextFrom(size, text, FromKey(size, text))
  {
    if 0 !in text {
      var n := if |text| < size then |text| else size - 1;
      var f := FromKey(size, text);
      assert f[..n] == text[..n] && f[n] == 0;
      CStrIs(f, n);
    }
  }

  /** A slot read from its older keys. */
  predicate ReadFrom(i: nat, l: Legacy, t: Slot)
    requires i < SLOTS
  {
    && t.enabled == l.enabled == t.lastKnownEnabled && t.port == (if l.port == 0 then 2101 else l.port) && !t.useTls
    && TextFrom(96, l.host, t.host) && TextFrom(64, l.mountpoint, t.mountpoint)
    && TextFrom(64, l.username, t.username) && TextFrom(64, l.password, t.password)
    && t.name == Default(i).name && t.ntripVersion == Default(i).ntripVersion
  }

  lemma ReadLegacyIs(i: nat, l: Legacy)
    requires i < SLOTS
    ensures ReadFrom(i, l, ReadLegacy(i, l))
  {
    FromKeyText(96, l.host);
    FromKeyText(64, l.mountpoint);
    FromKeyText(64, l.username);
    FromKeyText(64, l.password);
    DefaultIsSane(i);
    var d := Default(i).(enabled := l.enabled, lastKnownEnabled := l.enabled,
                         port := if l.port == 0 then PORT_DEFAULT else l.port,
                         host := FromKey(96, l.host), mountpoint := FromKey(64, l.mountpoint),
                         username := FromKey(64, l.username), password := FromKey(64, l.password));
    assert Sane(d);
    SaneIsFixed(i, d);
    assert ReadLegacy(i, l) == d;
  }

  /** Whether somebody has used the older keys of a slot. */
  predicate InUse(l: Legacy) {
    l.enabled || |l.host| > 0 || |l.mountpoint| > 0 || |l.username| > 0 || |l.password| > 0
  }

  /** An intact table is loaded, each slot as it is if it needs no correction. */
  lemma LoadBringsTable(s: State, env: Env)
    requires !s.loaded && s.blob.Intact? && EnsureLoaded(s, env).ok
    ensures var mem := EnsureLoaded(s, env).state.mem;
      forall i | 0 <= i < SLOTS :: Sane(s.blob.slots[i]) ==> mem[i] == s.blob.slots[i]
  {
    forall i | 0 <= i < SLOTS
      ensures Sane(s.blob.slots[i]) ==> Sanitized(i, s.blob.slots[i]) == s.blob.slots[i]
    {
      if Sane(s.blob.slots[i]) {
        SaneIsFixed(i, s.blob.slots[i]);
      }
    }
  }

  /** Slots 0 and 1 as the keys say, or by default, and the rest by default. */
  predicate KeysAndDefaults(keys: Keys, used: bool, mem: Slots) {
    && (if used then ReadFrom(0, keys[0], mem[0]) && ReadFrom(1, keys[1], mem[1])
        else mem[0] == Default(0) && mem[1] == Default(1))
    && mem[2] == Default(2) && mem[3] == Default(3) && mem[4] == Default(4)
  }

  lemma DefaultTable(keys: Keys)
    ensures KeysAndDefaults(keys, false, Defaults())
  {
  }

  lemma KeyTable(keys: Keys)
    ensures KeysAndDefaults(keys, true, FromKeys(Defaults(), keys))
  {
    ReadLegacyIs(0, keys[0]);
    ReadLegacyIs(1, keys[1]);
    DefaultTable(keys);
    FirstTwo(Defaults(), keys, ReadLegacy(0, keys[0]), ReadLegacy(1, keys[1]));
  }

  lemma FirstTwo(mem: Slots, keys: Keys, a: Slot, b: Slot)
    requires KeysAndDefaults(keys, false, mem) && ReadFrom(0, keys[0], a) && ReadFrom(1, keys[1], b)
    ensures KeysAndDefaults(keys, true, mem[0 := a][1 := b])
  {
  }

  lemma LoadedTable(s: State, env: Env, used: bool)
    requires !s.loaded && !s.blob.Intact? && EnsureLoaded(s, env).ok
    requires used == (s.blob.Wrong? || InUse(s.keys[0]) || InUse(s.keys[1]))
    ensures EnsureLoaded(s, env).state.mem == if used then FromKeys(Defaults(), s.keys) else Defaults()
  {
    assert HasLegacy(s.keys[0]) == InUse(s.keys[0]) && HasLegacy(s.keys[1]) == InUse(s.keys[1]);
  }

  /**
   Without an intact table, slots 0 and 1 are loaded from their older keys if the table is damaged or the
   keys are in use, and everything else is the default.
   */
  lemma LoadBringsKeys(s: State, env: Env)
    requires !s.loaded && !s.blob.Intact? && EnsureLoaded(s, env).ok
    ensures KeysAndDefaults(s.keys, s.blob.Wrong? || InUse(s.keys[0]) || InUse(s.keys[1]), EnsureLoaded(s, env).state.mem)
  {
    LoadedTable(s, env, s.blob.Wrong? || InUse(s.keys[0]) || InUse(s.keys[1]));
    KeyTable(s.keys);
    DefaultTable(s.keys);
  }

  // ----- The store itself -----

  class Store {
    var mem: Slots
    var loaded: bool
    var blob: Blob
    var keys: Keys

    ghost function View(): State
      reads this
    {
      State(mem, loaded, blob, keys)
    }

    constructor (stored: Blob, legacy: Keys)
      ensures !loaded && blob == stored && keys == legacy
    {
      mem := Defaults();
      loaded := false;
      blob, keys := stored, legacy;
    }

    /** ntrip_slot_sanitize on the slot at `i`, field by field. */
    method Sanitize(i: nat)
      requires i < SLOTS
      modifies this`mem
      ensures mem == old(mem)[i := Sanitized(i, old(mem)[i])]
    {
      var s := Closed(mem[i]);
      if s.name[0] == 0 {
        s := Default(i);
      }
      if s.ntripVersion[0] == 0 {
        s := s.(ntripVersion := Printed(s.ntripVersion, VERSION_TEXT));
      }
      mem := mem[i := s];
    }

    method Save(io: SaveIo) returns (ok: bool)
      modifies this`blob
      ensures ok == SaveOk(io) && blob == SavedBlob(old(blob), mem, io)
    {
      if !io.open || !io.write {
        return false;
      }
      if io.commit || io.sticks {
        blob := Intact(mem);
      }
      return io.commit;
    }

    /** ntrip_slots_store_default. */
    method StoreDefault()
      modifies this`mem
      ensures mem == Defaults()
    {
      var i := 0;
      while i < SLOTS
        invariant i <= SLOTS && mem[..i] == Defaults()[..i]
      {
        mem := mem[i := Default(i)];
        i := i + 1;
      }
    }

    /** ntrip_slot_read_legacy: defaults, then the keys, then sanitised. */
    method ReadKey(i: nat)
      requires i < 2
      modifies this`mem
      ensures mem == old(mem)[i := ReadLegacy(i, keys[i])]
    {
      mem := mem[i := Default(i)];
      var l := keys[i];
      mem := mem[i := mem[i].(enabled := l.enabled, lastKnownEnabled := l.enabled, port := l.port)];
      mem := mem[i := mem[i].(host := FromKey(96, l.host), mountpoint := FromKey(64, l.mountpoint),
                              username := FromKey(64, l.username), password := FromKey(64, l.password))];
      Sanitize(i);
    }

    /** The loop over slots 0 and 1. */
    method ReadKeys()
      modifies this`mem
      ensures mem == FromKeys(old(mem), keys)
    {
      var i := 0;
      while i < 2
        invariant i <= 2
        invariant i == 0 ==> mem == old(mem)
        invariant i == 1 ==> mem == old(mem)[0 := ReadLegacy(0, keys[0])]
        invariant i == 2 ==> mem == FromKeys(old(mem), keys)
      {
        ReadKey(i);
        i := i + 1;
      }
    }

    /** The sanitising loop at the end of ntrip_slots_store_load. */
    method SanitizeTable()
      modifies this`mem
      ensures mem == SanitizedAll(old(mem))
    {
      var i := 0;
      while i < SLOTS
        invariant i <= SLOTS && mem[i..] == old(mem)[i..]
        invariant forall k | 0 <= k < i :: mem[k] == Sanitized(k, old(mem)[k])
      {
        assert mem[i] == mem[i..][0] == old(mem)[i..][0] == old(mem)[i];
        ghost var was := mem;
        Sanitize(i);
        assert mem[i + 1..] == was[i..][1..] == old(mem)[i + 1..];
        i := i + 1;
      }
    }

    /** ntrip_slots_ensure_loaded and ntrip_slots_store_load. */
    method Load(env: Env) returns (ok: bool)
      modifies this
      ensures Result(View(), ok) == EnsureLoaded(old(View()), env)
    {
      if loaded {
        return true;
      }
      if !env.readable || blob.Overlong? {
        return false;
      }
      if blob.Intact? {
        mem := blob.slots;
        SanitizeTable();
        loaded := true;
        return true;
      }
      var migrate := blob.Wrong? || HasLegacy(keys[0]) || HasLegacy(keys[1]);
      StoreDefault();
      if migrate {
        ReadKeys();
      }
      ok := Save(env.loadSave);
      loaded := ok;
    }

    /** ntrip_slots_sync_slot_to_legacy: six writes, of which the first `budget` succeed. */
    method SyncSlotToLegacy(i: nat, budget: nat) returns (ok: bool)
      requires i < 2
      modifies this`keys
      ensures keys == old(keys)[i := Written(old(keys)[i], mem[i], budget)] && ok == (budget >= 6)
    {
      var l, slot := keys[i], mem[i];
      ok := false;
      if budget > 0 {
        l := l.(enabled := slot.enabled);
        if budget > 1 {
          l := l.(host := CStr(slot.host));
          if budget > 2 {
            l := l.(port := slot.port);
            if budget > 3 {
              l := l.(mountpoint := CStr(slot.mountpoint));
              if budget > 4 {
                l := l.(username := CStr(slot.username));
                if budget > 5 {
                  l := l.(password := CStr(slot.password));
                  ok := true;
                }
              }
            }
          }
        }
      }
      keys := keys[i := l];
    }

    /** ntrip_slots_sync_legacy_keys: slot 0, then slot 1, then the commit. */
    method SyncLegacyKeys(env: Env) returns (ok: bool)
      modifies this`keys
      ensures keys == SyncedKeys(old(keys), mem, env.keyWrites)
      ensures ok == (env.keyWrites >= 12 && env.keyCommit)
    {
      ok := SyncSlotToLegacy(0, env.keyWrites);
      if !ok {
        assert Written(keys[1], mem[1], 0) == keys[1];
        return;
      }
      ok := SyncSlotToLegacy(1, env.keyWrites - 6);
      if ok {
        ok := env.keyCommit;
      }
    }

    method SaveThenSync(env: Env) returns (ok: bool)
      modifies this`blob, this`keys
      ensures Result(View(), ok) == SaveAndSync(old(View()), env)
    {
      ok := Save(env.save);
      if ok {
        ok := SyncLegacyKeys(env);
      }
    }

    /** ntrip_slots_get_config. */
    method GetConfig(i: nat, env: Env) returns (ok: bool, config: Slot)
      modifies this
      ensures Result(View(), ok) == Step(old(View()), Op.GetConfig(i), env)
      ensures ok ==> i < SLOTS && config == mem[i]
    {
      config := Default(0);
      if i >= SLOTS {
        return false, config;
      }
      ok := Load(env);
      if ok {
        config := mem[i];
      }
    }

    /** ntrip_slots_set_config. */
    method SetConfig(i: nat, config: Slot, env: Env) returns (ok: bool)
      modifies this
      ensures Result(View(), ok) == Step(old(View()), Op.SetConfig(i, config), env)
      ensures ok ==> i < SLOTS && StoredAs(i, config, mem[i])
      ensures ok && Sane(config) ==> mem[i] == config.(lastKnownEnabled := config.enabled)
      ensures ok && old(loaded) ==> forall j | 0 <= j < SLOTS && j != i :: mem[j] == old(mem)[j]
    {
      if i >= SLOTS {
        return false;
      }
      ok := Load(env);
      if !ok {
        return;
      }
      ghost var was := mem;
      mem := mem[i := config];
      Sanitize(i);
      mem := mem[i := mem[i].(lastKnownEnabled := mem[i].enabled)];
      assert mem == was[i := Prepared(i, config)];
      PreparedStores(i, config);
      ok := SaveThenSync(env);
    }

    /** The loop of ntrip_slots_set_all. */
    method StoreAll(configs: seq<Slot>)
      requires |configs| == SLOTS
      modifies this`mem
      ensures mem == PreparedAll(configs)
    {
      var i := 0;
      while i < SLOTS
        invariant i <= SLOTS
        invariant forall k | 0 <= k < i :: mem[k] == Prepared(k, configs[k])
      {
        mem := mem[i := configs[i]];
        Sanitize(i);
        mem := mem[i := mem[i].(lastKnownEnabled := mem[i].enabled)];
        i := i + 1;
      }
    }

    /** ntrip_slots_set_all. */
    method SetAll(configs: seq<Slot>, env: Env) returns (ok: bool)
      modifies this
      ensures Result(View(), ok) == Step(old(View()), Op.SetAll(configs), env)
      ensures ok ==> |configs| == SLOTS && forall i | 0 <= i < SLOTS :: StoredAs(i, configs[i], mem[i])
      ensures ok ==> forall i | 0 <= i < SLOTS && Sane(configs[i]) ::
                mem[i] == configs[i].(lastKnownEnabled := configs[i].enabled)
    {
      if |configs| != SLOTS {
        return false;
      }
      ok := Load(env);
      if ok {
        StoreAll(configs);
        ok := SaveThenSync(env);
        if ok {
          SetAllStores(old(View()), configs, env);
        }
      }
    }

    /** ntrip_slots_sync_from_legacy. */
    method SyncFromLegacy(env: Env) returns (ok: bool)
      modifies this
      ensures Result(View(), ok) == Step(old(View()), Op.SyncFromLegacy, env)
    {
      ok := Load(env);
      if ok {
        ReadKeys();
        ok := Save(env.save);
      }
    }
  }
}
