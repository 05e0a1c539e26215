/** Members and their devices in one workspace (packages/domain/src/auth/members.ts,
    packages/domain/src/auth/devices.ts): disabling, enabling, role changes, pairing, rotation and revocation. Each
    member operation and each pairing is one transaction; rotating and revoking check first and update then. */
module Members {
  import opened Basics

  type UserId = nat
  type DeviceKey = nat
  type Code = nat
  type SessionKey = nat
  /** Tokens and codes are random: a new one was never issued before. */
  type Token = nat

  datatype Role = Admin | Operator | Readonly
  datatype Member = Member(role: Role, active: bool)
  datatype Device = Device(owner: UserId, active: bool, token: Token)
  datatype PairingCode = PairingCode(creator: UserId, expiresAt: int, pairedDevice: Option<DeviceKey>)

  datatype Session = Session(user: UserId, live: bool)

  datatype State = State(
    members: map<UserId, Member>,
    sessions: map<SessionKey, Session>,
    devices: map<DeviceKey, Device>,
    codes: map<Code, PairingCode>,
    issued: set<Token>)

  datatype MemberError =
    | SelfDisable
    | UserNotFound
    | LastActiveAdmin
    | PairingCodeInvalid
    | PairingCodeAlreadyUsed
    | PairingCodeExpired
    | DeviceNotActive
    | DeviceAccessDenied
    | NotFresh

  /** `Join` stands for an accepted invitation, `CreateCode` for a new pairing code, `OpenSession` for the insertion at
      the end of a login. `Rotate` and `Revoke` are the guarded updates: they change an active device and no other. */
  datatype Operation =
    | Disable(actor: UserId, target: UserId)
    | Enable(target: UserId)
    | ChangeRole(target: UserId, role: Role)
    | Join(user: UserId, newRole: Role)
    | CreateCode(code: Code, creator: UserId, expiresAt: int)
    | Pair(usedCode: Code, now: int, newDevice: DeviceKey, token: Token)
    | OpenSession(session: SessionKey, sessionUser: UserId)
    | CloseSession(session: SessionKey)
    | Rotate(device: DeviceKey, token: Token)
    | Revoke(device: DeviceKey)

  predicate IsActiveAdmin(members: map<UserId, Member>, user: UserId) {
    user in members && members[user].role == Admin && members[user].active
  }

  ghost function AdminsAmong(members: map<UserId, Member>, users: set<UserId>): set<UserId> {
    set u | u in users && IsActiveAdmin(members, u)
  }

  ghost function ActiveAdmins(members: map<UserId, Member>): set<UserId> {
    AdminsAmong(members, members.Keys)
  }

  function RevokeAllOf(devices: map<DeviceKey, Device>, owner: UserId): map<DeviceKey, Device> {
    map d | d in devices :: if devices[d].owner == owner then devices[d].(active := false) else devices[d]
  }

  function CloseAllOf(sessions: map<SessionKey, Session>, user: UserId): map<SessionKey, Session> {
    map k | k in sessions :: if sessions[k].user == user then sessions[k].(live := false) else sessions[k]
  }

  /** Losing an admin, by disabling or by a new role, is refused while at most one active admin is left. */
  ghost function LoseAdmin(s: State, target: UserId): Option<MemberError> {
    if target !in s.members then Some(UserNotFound)
    else if s.members[target].role == Admin && |ActiveAdmins(s.members)| <= 1 then Some(LastActiveAdmin)
    else None
  }

  function ManagementScope(s: State, device: DeviceKey, actor: UserId, actorRole: Role): Option<MemberError> {
    if !IsActiveDevice(s, device) then Some(DeviceNotActive)
    else if actorRole != Admin && s.devices[device].owner != actor then Some(DeviceAccessDenied)
    else None
  }

  predicate MayOwnDevices(s: State, user: UserId) {
    user in s.members && s.members[user].active && s.members[user].role != Readonly
  }

  ghost function Apply(s: State, op: Operation): Result<State, MemberError> {
    match op
    case Disable(actor, target) =>
      if actor == target then Err(SelfDisable)
      else
        var refused := LoseAdmin(s, target);
        if refused.Some? then Err(refused.value)
        else Ok(s.(members := s.members[target := s.members[target].(active := false)],
                   sessions := CloseAllOf(s.sessions, target),
                   devices := RevokeAllOf(s.devices, target)))
    case Enable(target) =>
      if target !in s.members then Err(UserNotFound)
      else Ok(s.(members := s.members[target := s.members[target].(active := true)]))
    case ChangeRole(target, role) =>
      if target !in s.members then Err(UserNotFound)
      else if s.members[target].role == role then Ok(s)
      else
        var refused := LoseAdmin(s, target);
        if refused.Some? then Err(refused.value)
        else Ok(s.(members := s.members[target := s.members[target].(role := role)]))
    case Join(user, role) =>
      if user in s.members then Err(NotFresh) else Ok(s.(members := s.members[user := Member(role, true)]))
    case CreateCode(code, creator, expiresAt) =>
      if code in s.codes then Err(NotFresh)
      else Ok(s.(codes := s.codes[code := PairingCode(creator, expiresAt, None)]))
    case Pair(code, now, device, token) =>
      if code !in s.codes || !MayOwnDevices(s, s.codes[code].creator) then Err(PairingCodeInvalid)
      else if s.codes[code].pairedDevice.Some? then Err(PairingCodeAlreadyUsed)
      else if s.codes[code].expiresAt <= now then Err(PairingCodeExpired)
      else if device in s.devices || token in s.issued then Err(NotFresh)
      else Ok(s.(devices := s.devices[device := Device(s.codes[code].creator, true, token)],
                 codes := s.codes[code := s.codes[code].(pairedDevice := Some(device))],
                 issued := s.issued + {token}))
    case OpenSession(session, user) =>
      if session in s.sessions || user !in s.members then Err(NotFresh)
      else Ok(s.(sessions := s.sessions[session := Session(user, true)]))
    case CloseSession(session) =>
      if session !in s.sessions then Ok(s)
      else Ok(s.(sessions := s.sessions[session := s.sessions[session].(live := false)]))
    case Rotate(device, token) =>
      if token in s.issued then Err(NotFresh)
      else
        var rotated := if IsActiveDevice(s, device) then s.devices[device := s.devices[device].(token := token)]
                       else s.devices;
        Ok(s.(devices := rotated, issued := s.issued + {token}))
    case Revoke(device) =>
      if !IsActiveDevice(s, device) then Ok(s)
      else Ok(s.(devices := s.devices[device := s.devices[device].(active := false)]))
  }

  predicate IsActiveDevice(s: State, device: DeviceKey) {
    device in s.devices && s.devices[device].active
  }

  /** The device a request with this token speaks for. */
  ghost predicate Authenticates(s: State, token: Token, device: DeviceKey) {
    && device in s.devices && s.devices[device].token == token && s.devices[device].active
    && MayOwnDevices(s, s.devices[device].owner)
  }

  /** Any two active admins are one and the same. */
  ghost predicate AtMostOneActiveAdmin(members: map<UserId, Member>) {
    forall u, v :: u in members && v in members && members[u] == members[v] == Member(Admin, true) ==> u == v
  }

  lemma AtMostOneIsAtMostOne(members: map<UserId, Member>)
    ensures |ActiveAdmins(members)| <= 1 <==> AtMostOneActiveAdmin(members)
  {
    var admins := ActiveAdmins(members);
    if !AtMostOneActiveAdmin(members) {
      var u, v :| u in members && v in members && members[u] == members[v] == Member(Admin, true) && u != v;
      assert {u, v} <= admins;
      SubsetIsSmaller({u, v}, admins);
    } else if admins != {} {
      var u :| u in admins;
      forall v | v in admins ensures v == u {
        assert members[u] == members[v] == Member(Admin, true);
      }
      assert admins == {u};
    }
  }

  /** An active admin or operator. */
  ghost predicate ActiveAndWriting(members: map<UserId, Member>, user: UserId) {
    user in members && members[user].active && (members[user].role == Admin || members[user].role == Operator)
  }

  // ---------------------------------------------------------------- the tables, updated in place

  class MemberTables {
    var members: map<UserId, Member>
    var sessions: map<SessionKey, Session>
    var devices: map<DeviceKey, Device>
    var codes: map<Code, PairingCode>
    ghost var issued: set<Token>

    ghost function Contents(): State
      reads this
    {
      State(members, sessions, devices, codes, issued)
    }

    constructor (admin: UserId)
      ensures Contents() == Founded(admin)
    {
      members, sessions, devices, codes, issued := map[admin := Member(Admin, true)], map[], map[], map[], {};
    }

    /** SELECT COUNT(*) ... WHERE role = 'admin' AND status = 'active', under the workspace lock. */
    method CountActiveAdmins() returns (total: nat)
      ensures total == |ActiveAdmins(members)|
    {
      var users := members.Keys;
      total := 0;
      ghost var counted: set<UserId> := {};
      while users != {}
        invariant users !! counted && users + counted == members.Keys
        invariant total == |AdminsAmong(members, counted)|
        decreases |users|
      {
        var u :| u in users;
        users := users - {u};
        if IsActiveAdmin(members, u) {
          assert AdminsAmong(members, counted + {u}) == AdminsAmong(members, counted) + {u};
          total := total + 1;
        } else {
          assert AdminsAmong(members, counted + {u}) == AdminsAmong(members, counted);
        }
        counted := counted + {u};
      }
      assert counted == members.Keys;
    }

    method DisableUserAccount(actor: UserId, target: UserId) returns (result: Option<MemberError>)
      modifies this
      ensures Performed(old(Contents()), Disable(actor, target), Contents(), result)
      ensures result == if actor == target then Some(SelfDisable)
                        else if target !in old(members) then Some(UserNotFound)
                        else if old(members)[target].role == Admin && AtMostOneActiveAdmin(old(members))
                        then Some(LastActiveAdmin)
                        else None
      ensures result == None ==>
                && members == old(members)[target := Member(old(members)[target].role, false)]
                && (forall k :: k in sessions <==> k in old(sessions))
                && (forall k :: k in sessions ==>
                      sessions[k] == Session(
                        old(sessions)[k].user, old(sessions)[k].live && old(sessions)[k].user != target))
                && (forall d :: d in devices <==> d in old(devices))
                && (forall d :: d in devices ==>
                      devices[d] == Device(
                        old(devices)[d].owner, old(devices)[d].active && old(devices)[d].owner != target,
                        old(devices)[d].token))
    {
      AtMostOneIsAtMostOne(members);
      if actor == target {
        return Some(SelfDisable);
      }
      var activeAdmins := CountActiveAdmins();
      if target !in members {
        return Some(UserNotFound);
      }
      if members[target].role == Admin && activeAdmins <= 1 {
        return Some(LastActiveAdmin);
      }
      members := members[target := members[target].(active := false)];
      sessions := CloseAllOf(sessions, target);
      devices := RevokeAllOf(devices, target);
      result := None;
    }

    method EnableUserAccount(target: UserId) returns (result: Option<MemberError>)
      modifies this
      ensures Performed(old(Contents()), Enable(target), Contents(), result)
      ensures result == if target in old(members) then None else Some(UserNotFound)
      ensures result == None ==> members == old(members)[target := Member(old(members)[target].role, true)]
      ensures sessions == old(sessions) && devices == old(devices) && codes == old(codes)
    {
      if target !in members {
        return Some(UserNotFound);
      }
      members := members[target := members[target].(active := true)];
      result := None;
    }

    method ChangeMemberRole(target: UserId, role: Role) returns (result: Option<MemberError>)
      modifies this
      ensures Performed(old(Contents()), ChangeRole(target, role), Contents(), result)
      ensures result == if target !in old(members) then Some(UserNotFound)
                        else if old(members)[target].role == Admin && role != Admin
                             && AtMostOneActiveAdmin(old(members)) then Some(LastActiveAdmin)
                        else None
      ensures result == None ==> members == old(members)[target := Member(role, old(members)[target].active)]
      ensures sessions == old(sessions) && devices == old(devices) && codes == old(codes)
    {
      AtMostOneIsAtMostOne(members);
      var activeAdmins := CountActiveAdmins();
      if target !in members {
        return Some(UserNotFound);
      }
      if members[target].role != role {
        if members[target].role == Admin && activeAdmins <= 1 {
          return Some(LastActiveAdmin);
        }
        members := members[target := members[target].(role := role)];
      }
      result := None;
    }

    method PairDevice(code: Code, now: int, device: DeviceKey, token: Token) returns (result: Option<MemberError>)
      requires device !in devices && token !in issued
      modifies this
      ensures Performed(old(Contents()), Pair(code, now, device, token), Contents(), result)
      ensures result == if code !in old(codes) || !ActiveAndWriting(old(members), old(codes)[code].creator)
                        then Some(PairingCodeInvalid)
                        else if old(codes)[code].pairedDevice != None then Some(PairingCodeAlreadyUsed)
                        else if old(codes)[code].expiresAt <= now then Some(PairingCodeExpired)
                        else None
      ensures result == None ==>
                && devices == old(devices)[device := Device(old(codes)[code].creator, true, token)]
                && codes == old(codes)[
                     code := PairingCode(old(codes)[code].creator, old(codes)[code].expiresAt, Some(device))]
      ensures members == old(members) && sessions == old(sessions)
    {
      if code !in codes {
        return Some(PairingCodeInvalid);
      }
      var pairing := codes[code];
      if pairing.creator !in members || !members[pairing.creator].active || members[pairing.creator].role == Readonly {
        return Some(PairingCodeInvalid);
      }
      if pairing.pairedDevice.Some? {
        return Some(PairingCodeAlreadyUsed);
      }
      if pairing.expiresAt <= now {
        return Some(PairingCodeExpired);
      }
      devices := devices[device := Device(pairing.creator, true, token)];
      codes := codes[code := pairing.(pairedDevice := Some(device))];
      issued := issued + {token};
      result := None;
    }

    /** Operations of anybody, between two statements; nobody else comes up with the token kept in `reserved`. */
    method Others(ghost reserved: set<Token>)
      requires reserved !! issued
      modifies this
      ensures LeadsTo(old(Contents()), Contents()) && reserved !! issued
    {
      NoOperations(Contents());
    }

    /** A SELECT for the scope, then the guarded UPDATE; the token is handed out either way. `middle` is the state the
        UPDATE finds. */
    method RotateDeviceToken(device: DeviceKey, actor: UserId, actorRole: Role, token: Token)
      returns (result: Option<MemberError>, ghost middle: State)
      requires token !in issued
      modifies this
      ensures result == ManagementScope(old(Contents()), device, actor, actorRole)
      ensures result == Refusal(old(devices), device, actor, actorRole)
      ensures result.None? && device in middle.devices ==>
                && device in devices
                && devices[device] == if !middle.devices[device].active then middle.devices[device]
                                      else Device(middle.devices[device].owner, true, token)
      ensures result.Some? ==> Contents() == old(Contents())
      ensures result.None? ==> LeadsTo(old(Contents()), middle) && Apply(middle, Rotate(device, token)) == Ok(Contents())
    {
      middle := Contents();
      result := CheckScope(device, actor, actorRole);
      if result.Some? {
        return;
      }
      Others({token});
      middle := Contents();
      if device in devices && devices[device].active {
        devices := devices[device := devices[device].(token := token)];
      }
      issued := issued + {token};
    }

    method RevokeDevice(device: DeviceKey, actor: UserId, actorRole: Role)
      returns (result: Option<MemberError>, ghost middle: State)
      modifies this
      ensures result == ManagementScope(old(Contents()), device, actor, actorRole)
      ensures result == Refusal(old(devices), device, actor, actorRole)
      ensures result.None? && device in middle.devices ==>
                && device in devices
                && devices[device] == Device(middle.devices[device].owner, false, middle.devices[device].token)
      ensures result.Some? ==> Contents() == old(Contents())
      ensures result.None? ==> LeadsTo(old(Contents()), middle) && Apply(middle, Revoke(device)) == Ok(Contents())
      ensures result.None? ==> device in devices ==> !devices[device].active
    {
      middle := Contents();
      result := CheckScope(device, actor, actorRole);
      if result.Some? {
        return;
      }
      Others({});
      middle := Contents();
      if device in devices && devices[device].active {
        devices := devices[device := devices[device].(active := false)];
      }
    }

    /** A device is managed while it is active, by an admin or its owner. */
    static ghost function Refusal(devices: map<DeviceKey, Device>, device: DeviceKey, actor: UserId, actorRole: Role)
      : Option<MemberError>
    {
      if device !in devices || !devices[device].active then Some(DeviceNotActive)
      else if actorRole == Admin || devices[device].owner == actor then None
      else Some(DeviceAccessDenied)
    }

    /** Only an active device, and only by an admin or its owner. */
    method CheckScope(device: DeviceKey, actor: UserId, actorRole: Role) returns (refused: Option<MemberError>)
      ensures refused == ManagementScope(Contents(), device, actor, actorRole)
    {
      if device !in devices || !devices[device].active {
        return Some(DeviceNotActive);
      }
      if actorRole != Admin && devices[device].owner != actor {
        return Some(DeviceAccessDenied);
      }
      refused := None;
    }
  }

  ghost predicate Performed(before: State, op: Operation, after: State, refused: Option<MemberError>) {
    match Apply(before, op)
    case Ok(next) => refused == None && after == next
    case Err(error) => refused == Some(error) && after == before
  }

  // ---------------------------------------------------------------- whole histories

  /** A workspace as it is bootstrapped. */
  function Founded(admin: UserId): State {
    State(map[admin := Member(Admin, true)], map[], map[], map[], {})
  }

  ghost function Step(s: State, op: Operation): State {
    var result := Apply(s, op);
    if result.Ok? then result.value else s
  }

  ghost function RunOps(s: State, ops: seq<Operation>): State {
    if ops == [] then s else Step(RunOps(s, ops[..|ops| - 1]), ops[|ops| - 1])
  }

  ghost predicate LeadsTo(s: State, t: State) {
    exists ops :: t == RunOps(s, ops)
  }

  lemma NoOperations(s: State)
    ensures LeadsTo(s, s)
  {
    assert s == RunOps(s, []);
  }

  ghost function After(admin: UserId, ops: seq<Operation>): State {
    RunOps(Founded(admin), ops)
  }

  ghost predicate SomeActiveAdmin(s: State) {
    |ActiveAdmins(s.members)| > 0
  }

  ghost predicate DevicesOwned(s: State) {
    forall d :: d in s.devices ==>
      s.devices[d].token in s.issued && s.devices[d].owner in s.members &&
      (s.devices[d].active ==> s.members[s.devices[d].owner].active)
  }

  ghost predicate TokensDistinct(s: State) {
    forall d, e :: d in s.devices && e in s.devices && s.devices[d].token == s.devices[e].token ==> d == e
  }

  ghost predicate CodesUsedOnce(s: State) {
    && (forall c :: c in s.codes && s.codes[c].pairedDevice.Some? ==>
          var d := s.codes[c].pairedDevice.value; d in s.devices && s.devices[d].owner == s.codes[c].creator)
    && (forall c, e :: c in s.codes && e in s.codes && c != e && s.codes[c].pairedDevice.Some? ==>
          s.codes[c].pairedDevice != s.codes[e].pairedDevice)
  }

  ghost predicate Inv(s: State) {
    SomeActiveAdmin(s) && DevicesOwned(s) && TokensDistinct(s) && CodesUsedOnce(s)
  }

  lemma StepKeepsAdmin(s: State, op: Operation)
    requires SomeActiveAdmin(s)
    ensures SomeActiveAdmin(Step(s, op))
  {
    var before, after := ActiveAdmins(s.members), ActiveAdmins(Step(s, op).members);
    match op {
      case Disable(_, target) =>
        assert before - {target} <= after;
        if LoseAdmin(s, target).None? && s.members[target].role != Admin {
          assert target !in before;
        }
      case ChangeRole(target, _) =>
        assert before - {target} <= after;
        if target in s.members && s.members[target].role != Admin {
          assert target !in before;
        }
      case _ => assert before <= after;
    }
    var kept := if op.Disable? || op.ChangeRole? then before - {op.target} else before;
    SubsetIsSmaller(kept, after);
  }

  lemma {:induction false} SubsetIsSmaller(a: set<UserId>, b: set<UserId>)
    requires a <= b
    ensures |a| <= |b|
  {
    if a != {} {
      var x :| x in a;
      SubsetIsSmaller(a - {x}, b - {x});
    }
  }

  lemma StepKeepsOwners(s: State, op: Operation)
    requires DevicesOwned(s)
    ensures DevicesOwned(Step(s, op))
  {
  }

  lemma StepKeepsTokens(s: State, op: Operation)
    requires DevicesOwned(s) && TokensDistinct(s)
    ensures TokensDistinct(Step(s, op))
  {
  }

  lemma StepKeepsCodes(s: State, op: Operation)
    requires CodesUsedOnce(s)
    ensures CodesUsedOnce(Step(s, op))
  {
  }

  lemma {:induction false} HistoryKeepsInv(admin: UserId, ops: seq<Operation>)
    ensures Inv(After(admin, ops))
  {
    if ops == [] {
      assert ActiveAdmins(Founded(admin).members) == {admin};
    } else {
      HistoryKeepsInv(admin, ops[..|ops| - 1]);
      StepKeepsAdmin(After(admin, ops[..|ops| - 1]), ops[|ops| - 1]);
      StepKeepsOwners(After(admin, ops[..|ops| - 1]), ops[|ops| - 1]);
      StepKeepsTokens(After(admin, ops[..|ops| - 1]), ops[|ops| - 1]);
      StepKeepsCodes(After(admin, ops[..|ops| - 1]), ops[|ops| - 1]);
    }
  }

  /** Whatever members and admins do: there is always an active admin, a disabled member owns no active device, every
      pairing code became at most one device, and a token speaks for at most one device. */
  lemma MembersInvariant(admin: UserId, ops: seq<Operation>, token: Token, d: DeviceKey, e: DeviceKey)
    ensures var s := After(admin, ops);
            && ActiveAdmins(s.members) != {}
            && (d in s.devices && s.devices[d].active ==>
                  s.devices[d].owner in s.members && s.members[s.devices[d].owner].active)
            && (Authenticates(s, token, d) && Authenticates(s, token, e) ==> d == e)
            && CodesUsedOnce(s)
  {
    HistoryKeepsInv(admin, ops);
  }

  /** What stays cut off: a device once revoked, a session once closed. */
  ghost predicate StaysCut(s: State, t: State, d: DeviceKey, k: SessionKey) {
    && (d in s.devices && !s.devices[d].active ==> d in t.devices && !t.devices[d].active)
    && (k in s.sessions && !s.sessions[k].live ==> k in t.sessions && !t.sessions[k].live)
  }

  lemma {:induction false} CutForGood(s: State, ops: seq<Operation>, d: DeviceKey, k: SessionKey)
    ensures StaysCut(s, RunOps(s, ops), d, k)
  {
    if ops != [] {
      CutForGood(s, ops[..|ops| - 1], d, k);
    }
  }

  lemma {:induction false} RunAppend(s: State, first: seq<Operation>, second: seq<Operation>)
    ensures RunOps(s, first + second) == RunOps(RunOps(s, first), second)
  {
    if second == [] {
      assert first + second == first;
    } else {
      var n := |second| - 1;
      assert (first + second)[..|first + second| - 1] == first + second[..n];
      RunAppend(s, first, second[..n]);
    }
  }

  /** A revoked device is never active again: not by enabling its owner, not by rotating, not by pairing anew. */
  lemma RevokedForGood(admin: UserId, past: seq<Operation>, future: seq<Operation>, d: DeviceKey)
    requires d in After(admin, past).devices && !After(admin, past).devices[d].active
    ensures d in After(admin, past + future).devices && !After(admin, past + future).devices[d].active
  {
    RunAppend(Founded(admin), past, future);
    CutForGood(After(admin, past), future, d, 0);
  }

  /** The operation makes this device, out of a code that is unused and not expired, of a member who is active and more
      than a reader, and under an id and a token nobody has. */
  ghost predicate Pairs(s: State, op: Operation, d: DeviceKey, owner: UserId) {
    && op.Pair? && op.newDevice == d
    && op.usedCode in s.codes && s.codes[op.usedCode].creator == owner
    && s.codes[op.usedCode].pairedDevice == None && op.now < s.codes[op.usedCode].expiresAt
    && ActiveAndWriting(s.members, owner) && d !in s.devices && op.token !in s.issued
  }

  lemma DevicesComeByPairing(s: State, op: Operation, d: DeviceKey)
    requires d in Step(s, op).devices
    ensures if d in s.devices then Step(s, op).devices[d].owner == s.devices[d].owner
            else Pairs(s, op, d, Step(s, op).devices[d].owner)
  {
  }

  ghost predicate PairedBy(admin: UserId, ops: seq<Operation>, i: nat, d: DeviceKey, owner: UserId)
    requires i < |ops|
  {
    Pairs(After(admin, ops[..i]), ops[i], d, owner)
  }

  /** Every device there ever is was paired like that, and still belongs to the member it was paired for. */
  lemma {:induction false} EveryDeviceWasPaired(admin: UserId, ops: seq<Operation>, d: DeviceKey)
    requires d in After(admin, ops).devices
    ensures exists i :: 0 <= i < |ops| && PairedBy(admin, ops, i, d, After(admin, ops).devices[d].owner)
  {
    var n := |ops| - 1;
    DevicesComeByPairing(After(admin, ops[..n]), ops[n], d);
    if d in After(admin, ops[..n]).devices {
      EveryDeviceWasPaired(admin, ops[..n], d);
      var i :| 0 <= i < n && PairedBy(admin, ops[..n], i, d, After(admin, ops[..n]).devices[d].owner);
      assert ops[..n][..i] == ops[..i];
      assert PairedBy(admin, ops, i, d, After(admin, ops).devices[d].owner);
    } else {
      assert PairedBy(admin, ops, n, d, After(admin, ops).devices[d].owner);
    }
  }

  /** A code keeps the expiry and the creator it was made with. */
  lemma {:induction false} EveryCodeWasMade(admin: UserId, ops: seq<Operation>, c: Code)
    requires c in After(admin, ops).codes
    ensures exists i :: 0 <= i < |ops| &&
              ops[i] == CreateCode(c, After(admin, ops).codes[c].creator, After(admin, ops).codes[c].expiresAt)
  {
    var n := |ops| - 1;
    if c in After(admin, ops[..n]).codes {
      EveryCodeWasMade(admin, ops[..n], c);
      var code := After(admin, ops[..n]).codes[c];
      var i :| 0 <= i < n && ops[..n][i] == CreateCode(c, code.creator, code.expiresAt);
      assert ops[i] == ops[..n][i];
    } else {
      assert ops[n] == CreateCode(c, After(admin, ops).codes[c].creator, After(admin, ops).codes[c].expiresAt);
    }
  }

  /** A request with this session is let in. */
  ghost predicate LetsIn(s: State, k: SessionKey) {
    && k in s.sessions && s.sessions[k].live
    && s.sessions[k].user in s.members && s.members[s.sessions[k].user].active
  }

  /** Disabling a member cuts off, for good, every device and every session they have at that moment, also when the
      member is enabled again. A login that was let through just before may still open a session afterwards. */
  lemma DisablingCutsAccess(
    admin: UserId, past: seq<Operation>, actor: UserId, target: UserId, future: seq<Operation>,
    d: DeviceKey, token: Token, k: SessionKey)
    requires Apply(After(admin, past), Disable(actor, target)).Ok?
    ensures var s, t := After(admin, past), After(admin, past + [Disable(actor, target)] + future);
            && (d in s.devices && s.devices[d].owner == target ==> !Authenticates(t, token, d))
            && (k in s.sessions && s.sessions[k].user == target ==> !LetsIn(t, k))
  {
    var now := past + [Disable(actor, target)];
    assert now[..|now| - 1] == past;
    RunAppend(Founded(admin), now, future);
    CutForGood(After(admin, now), future, d, k);
  }

  /** A closed session lets nobody in again. */
  lemma ClosedForGood(admin: UserId, past: seq<Operation>, k: SessionKey, future: seq<Operation>)
    requires k in After(admin, past).sessions
    ensures !LetsIn(After(admin, past + [CloseSession(k)] + future), k)
  {
    var now := past + [CloseSession(k)];
    assert now[..|now| - 1] == past;
    RunAppend(Founded(admin), now, future);
    CutForGood(After(admin, now), future, 0, k);
  }

  lemma TwoSteps(s: State, a: Operation, b: Operation)
    ensures RunOps(s, [a, b]) == Step(Step(s, a), b)
  {
    assert [a, b][..1] == [a] && [a][..0] == [];
    assert RunOps(s, [a]) == Step(s, a);
  }

  /** Whatever went before: who joins can log in right away, and nobody else's standing changes. */
  lemma NewMemberLogsIn(admin: UserId, past: seq<Operation>, u: UserId, role: Role, k: SessionKey)
    requires u !in After(admin, past).members && k !in After(admin, past).sessions
    ensures var s, t := After(admin, past), After(admin, past + [Join(u, role), OpenSession(k, u)]);
            && LetsIn(t, k) && t.sessions[k].user == u
            && t.members == s.members[u := Member(role, true)] && t.devices == s.devices
  {
    RunAppend(Founded(admin), past, [Join(u, role), OpenSession(k, u)]);
    TwoSteps(After(admin, past), Join(u, role), OpenSession(k, u));
  }

  /** Whatever went before: an active member who is more than a reader can make a code and pair a device with it until
      the code expires, and the device's token speaks for it. */
  lemma NewDeviceWorks(
    admin: UserId, past: seq<Operation>, u: UserId, c: Code, expiresAt: int, now: int, d: DeviceKey, token: Token)
    requires ActiveAndWriting(After(admin, past).members, u) && c !in After(admin, past).codes && now < expiresAt
    requires d !in After(admin, past).devices && token !in After(admin, past).issued
    ensures var s, t := After(admin, past), After(admin, past + [CreateCode(c, u, expiresAt), Pair(c, now, d, token)]);
            && Authenticates(t, token, d) && t.devices == s.devices[d := Device(u, true, token)]
            && t.members == s.members && t.sessions == s.sessions
  {
    RunAppend(Founded(admin), past, [CreateCode(c, u, expiresAt), Pair(c, now, d, token)]);
    TwoSteps(After(admin, past), CreateCode(c, u, expiresAt), Pair(c, now, d, token));
  }

  // ---------------------------------------------------------------- rotation in two statements

  /** The token a rotation hands out speaks for the device right afterwards if and only if the device was still active,
      and its owner still allowed devices, when the update ran. */
  lemma RotatedTokenWorks(s: State, device: DeviceKey, token: Token)
    requires Inv(s) && token !in s.issued
    ensures Authenticates(Step(s, Rotate(device, token)), token, device) <==>
            IsActiveDevice(s, device) && MayOwnDevices(s, s.devices[device].owner)
  {
  }

  /** The check alone does not settle that: a device the check lets through, revoked in between, gets no new token, and
      the one handed out opens nothing. */
  lemma RotationCanComeTooLate(s: State, device: DeviceKey, actor: UserId, actorRole: Role, token: Token, d: DeviceKey)
    requires Inv(s) && ManagementScope(s, device, actor, actorRole) == None && token !in s.issued
    ensures var t := RunOps(s, [Revoke(device), Rotate(device, token)]);
            t.devices == Step(s, Revoke(device)).devices && !Authenticates(t, token, d)
  {
    var ops := [Revoke(device), Rotate(device, token)];
    assert ops[..1] == [Revoke(device)] && ops[..1][..0] == [];
    assert RunOps(s, [Revoke(device)]) == Step(s, Revoke(device));
  }
}
