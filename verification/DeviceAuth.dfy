/** Device credentials: pairing, refresh-token rotation with family revocation, access tokens.

    Every operation is one atomic update of the credential state, and an operation that throws
    leaves the state as it was. Cryptography is symbolic: a hash or a MAC is a constructor applied
    to what it covers, so it is injective, and a proof is valid exactly when it is the signature of
    the expected transcript by the expected key. Random ids and secrets are fresh numbers. */
module DeviceAuth {
  import opened Wrappers

  const ACCESS_TOKEN_TTL_MS := 15 * 60 * 1000
  const REFRESH_TOKEN_TTL_MS := 30 * 24 * 60 * 60 * 1000

  datatype Hash = Hash(secret: nat)

  datatype Scope = AgRead | TerminalWrite | GithubRead | GithubWrite

  datatype Transcript =
    | Pairing(challengeId: nat, hostFingerprint: string, publicKey: nat, nonce: string)
    | Refreshing(deviceId: nat, tokenHash: Hash, nonce: string, generation: nat)

  datatype Proof = Signed(key: nat, transcript: Transcript) | Malformed

  datatype Challenge = Challenge(codeHash: Hash, hostFingerprint: string, scopes: seq<Scope>, expiresAt: int, consumed: bool)

  datatype Device = Device(principalId: nat, publicKey: nat, scopes: seq<Scope>, generation: nat, active: bool)

  datatype Status = Active | Rotated | Revoked

  datatype RefreshRecord = RefreshRecord(deviceId: nat, familyId: nat, deviceGeneration: nat, status: Status, expiresAt: int)

  datatype Claims = Claims(sub: nat, deviceId: nat, scopes: seq<Scope>, generation: nat, iat: int, exp: int, jti: nat)

  datatype Mac = Mac(key: nat, claims: Claims)

  datatype AccessToken = AccessToken(claims: Claims, mac: Mac)

  datatype TokenPair = TokenPair(access: AccessToken, refreshToken: nat)

  datatype Error =
    | InvalidPairing | PairingExpired | PairingConsumed | InvalidDeviceProof | InvalidRefreshToken
    | RefreshTokenExpired | RefreshTokenReuse | DeviceRevoked | InvalidAccessToken | AccessTokenExpired

  /** `supply` is the next unused number. `issued` is history: the claims of every access token. */
  datatype State = State(
    signingKey: nat,
    challenges: map<nat, Challenge>,
    devices: map<nat, Device>,
    refreshTokens: map<Hash, RefreshRecord>,
    supply: nat,
    issued: set<Claims>)

  datatype RedeemInput = RedeemInput(challengeId: nat, oneTimeCode: nat, fieldsValid: bool, publicKey: nat, nonce: string, proof: Proof, now: int)

  datatype RefreshInput = RefreshInput(deviceId: nat, refreshToken: nat, nonce: string, proof: Proof, now: int)

  function NewClaims(s: State, deviceId: nat, device: Device, now: int): Claims {
    Claims(device.principalId, deviceId, device.scopes, device.generation,
           now / 1000, (now + ACCESS_TOKEN_TTL_MS) / 1000, s.supply)
  }

  /** Signing an access token and storing a new refresh token of `familyId`. */
  function Issue(s: State, deviceId: nat, device: Device, familyId: nat, now: int): (r: (State, TokenPair)) {
    var claims, token := NewClaims(s, deviceId, device, now), s.supply + 1;
    var record := RefreshRecord(deviceId, familyId, device.generation, Active, now + REFRESH_TOKEN_TTL_MS);
    (s.(refreshTokens := s.refreshTokens[Hash(token) := record], supply := s.supply + 2, issued := s.issued + {claims}),
     TokenPair(AccessToken(claims, Mac(s.signingKey, claims)), token))
  }

  function PairingError(s: State, i: RedeemInput): Option<Error> {
    if !i.fieldsValid || |i.nonce| < 16 then Some(InvalidPairing)
    else if i.challengeId !in s.challenges || s.challenges[i.challengeId].codeHash != Hash(i.oneTimeCode) then Some(InvalidPairing)
    else
      var challenge := s.challenges[i.challengeId];
      if challenge.consumed then Some(PairingConsumed)
      else if i.now >= challenge.expiresAt then Some(PairingExpired)
      else if i.proof != Signed(i.publicKey, Pairing(i.challengeId, challenge.hostFingerprint, i.publicKey, i.nonce)) then Some(InvalidDeviceProof)
      else None
  }

  function Redeem(s: State, i: RedeemInput): (r: (State, Result<(nat, TokenPair), Error>)) {
    var error := PairingError(s, i);
    if error.Some? then (s, Err(error.value))
    else
      var challenge := s.challenges[i.challengeId];
      var deviceId := s.supply;
      var device := Device(s.supply + 1, i.publicKey, challenge.scopes, 1, true);
      var s1 := s.(challenges := s.challenges[i.challengeId := challenge.(consumed := true)],
                   devices := s.devices[deviceId := device], supply := s.supply + 3);
      var (s2, pair) := Issue(s1, deviceId, device, s.supply + 2, i.now);
      (s2, Ok((deviceId, pair)))
  }

  /** The checks of `refresh` that throw, in their order. */
  function RefreshError(s: State, i: RefreshInput): Option<Error> {
    var h := Hash(i.refreshToken);
    if h !in s.refreshTokens || s.refreshTokens[h].deviceId != i.deviceId || i.deviceId !in s.devices then Some(InvalidRefreshToken)
    else
      var record, device := s.refreshTokens[h], s.devices[i.deviceId];
      if !device.active then Some(DeviceRevoked)
      else if |i.nonce| < 16 then Some(InvalidDeviceProof)
      else if i.proof != Signed(device.publicKey, Refreshing(i.deviceId, h, i.nonce, device.generation)) then Some(InvalidDeviceProof)
      else if record.status.Revoked? then Some(InvalidRefreshToken)
      else None
  }

  function RevokedWhere(tokens: map<Hash, RefreshRecord>, deviceId: nat, familyId: Option<nat>): (r: map<Hash, RefreshRecord>) {
    map h | h in tokens ::
      if tokens[h].deviceId == deviceId && (familyId.None? || tokens[h].familyId == familyId.value)
      then tokens[h].(status := Revoked) else tokens[h]
  }

  function RevokeFamily(s: State, deviceId: nat, familyId: nat): State
    requires deviceId in s.devices
  {
    var device := s.devices[deviceId];
    s.(devices := s.devices[deviceId := device.(generation := device.generation + 1)],
       refreshTokens := RevokedWhere(s.refreshTokens, deviceId, Some(familyId)))
  }

  function Refresh(s: State, i: RefreshInput): (r: (State, Result<TokenPair, Error>)) {
    var error := RefreshError(s, i);
    if error.Some? then (s, Err(error.value))
    else
      var h := Hash(i.refreshToken);
      var record, device := s.refreshTokens[h], s.devices[i.deviceId];
      if record.status.Rotated? then (RevokeFamily(s, i.deviceId, record.familyId), Err(RefreshTokenReuse))
      else if record.deviceGeneration != device.generation || i.now >= record.expiresAt then
        (s.(refreshTokens := s.refreshTokens[h := record.(status := Revoked)]), Err(RefreshTokenExpired))
      else
        var s1 := s.(refreshTokens := s.refreshTokens[h := record.(status := Rotated)]);
        var (s2, pair) := Issue(s1, i.deviceId, device, record.familyId, i.now);
        (s2, Ok(pair))
  }

  function RevokeDevice(s: State, deviceId: nat): State {
    if deviceId !in s.devices then s
    else
      var device := s.devices[deviceId];
      s.(devices := s.devices[deviceId := device.(active := false, generation := device.generation + 1)],
         refreshTokens := RevokedWhere(s.refreshTokens, deviceId, None))
  }

  /** Scopes and issuer are checked on claims this host signed itself; they are left out here. */
  function Authenticate(s: State, token: AccessToken, now: int): (r: Result<Claims, Error>) {
    var claims := token.claims;
    if token.mac != Mac(s.signingKey, claims) then Err(InvalidAccessToken)
    else if claims.deviceId !in s.devices then Err(InvalidAccessToken)
    else
      var device := s.devices[claims.deviceId];
      if !device.active || claims.sub != device.principalId || claims.generation != device.generation then Err(InvalidAccessToken)
      else if now / 1000 >= claims.exp then Err(AccessTokenExpired)
      else Ok(claims)
  }

  function CreateChallenge(s: State, hostFingerprint: string, scopes: seq<Scope>, ttlMs: int, now: int): State {
    s.(challenges := s.challenges[s.supply := Challenge(Hash(s.supply + 1), hostFingerprint, scopes, now + ttlMs, false)],
       supply := s.supply + 2)
  }

  // ----- the service -----

  class DeviceAuthService {
    var signingKey: nat
    var challenges: map<nat, Challenge>
    var devices: map<nat, Device>
    var refreshTokens: map<Hash, RefreshRecord>
    var supply: nat
    ghost var issued: set<Claims>

    ghost function View(): State
      reads this
    {
      State(signingKey, challenges, devices, refreshTokens, supply, issued)
    }

    constructor (signingKey: nat)
      ensures View() == Empty(signingKey)
    {
      this.signingKey := signingKey;
      challenges, devices, refreshTokens, supply, issued := map[], map[], map[], 0, {};
    }

    /** Marks every matching refresh record revoked, record by record. */
    method RevokeRecords(deviceId: nat, familyId: Option<nat>)
      modifies this`refreshTokens
      ensures refreshTokens == RevokedWhere(old(refreshTokens), deviceId, familyId)
    {
      var before := refreshTokens;
      var todo := refreshTokens.Keys;
      while todo != {}
        invariant todo <= before.Keys && refreshTokens.Keys == before.Keys
        invariant forall h :: h in before ==>
          refreshTokens[h] == if h in todo then before[h] else RevokedWhere(before, deviceId, familyId)[h]
        decreases |todo|
      {
        var h :| h in todo;
        var record := refreshTokens[h];
        if record.deviceId == deviceId && (familyId.None? || record.familyId == familyId.value) {
          refreshTokens := refreshTokens[h := record.(status := Revoked)];
        }
        todo := todo - {h};
      }
    }

    method IssuePair(deviceId: nat, device: Device, familyId: nat, now: int) returns (pair: TokenPair)
      modifies this
      ensures (View(), pair) == Issue(old(View()), deviceId, device, familyId, now)
    {
      var jti, token := supply, supply + 1;
      supply := supply + 2;
      var claims := Claims(device.principalId, deviceId, device.scopes, device.generation,
                           now / 1000, (now + ACCESS_TOKEN_TTL_MS) / 1000, jti);
      issued := issued + {claims};
      refreshTokens := refreshTokens[Hash(token) :=
        RefreshRecord(deviceId, familyId, device.generation, Active, now + REFRESH_TOKEN_TTL_MS)];
      pair := TokenPair(AccessToken(claims, Mac(signingKey, claims)), token);
    }

    method RedeemPairingChallenge(i: RedeemInput) returns (r: Result<(nat, TokenPair), Error>)
      modifies this
      ensures (View(), r) == Redeem(old(View()), i)
    {
      if !i.fieldsValid || |i.nonce| < 16 { return Err(InvalidPairing); }
      if i.challengeId !in challenges || challenges[i.challengeId].codeHash != Hash(i.oneTimeCode) { return Err(InvalidPairing); }
      var challenge := challenges[i.challengeId];
      if challenge.consumed { return Err(PairingConsumed); }
      if i.now >= challenge.expiresAt { return Err(PairingExpired); }
      if i.proof != Signed(i.publicKey, Pairing(i.challengeId, challenge.hostFingerprint, i.publicKey, i.nonce)) {
        return Err(InvalidDeviceProof);
      }
      challenges := challenges[i.challengeId := challenge.(consumed := true)];
      var deviceId, principalId, familyId := supply, supply + 1, supply + 2;
      supply := supply + 3;
      var device := Device(principalId, i.publicKey, challenge.scopes, 1, true);
      devices := devices[deviceId := device];
      var pair := IssuePair(deviceId, device, familyId, i.now);
      r := Ok((deviceId, pair));
    }

    method RefreshTokens(i: RefreshInput) returns (r: Result<TokenPair, Error>)
      modifies this
      ensures (View(), r) == Refresh(old(View()), i)
    {
      var h := Hash(i.refreshToken);
      if h !in refreshTokens || refreshTokens[h].deviceId != i.deviceId || i.deviceId !in devices {
        return Err(InvalidRefreshToken);
      }
      var record, device := refreshTokens[h], devices[i.deviceId];
      if !device.active { return Err(DeviceRevoked); }
      if |i.nonce| < 16 { return Err(InvalidDeviceProof); }
      if i.proof != Signed(device.publicKey, Refreshing(i.deviceId, h, i.nonce, device.generation)) { return Err(InvalidDeviceProof); }
      if !record.status.Active? {
        if record.status.Rotated? {
          devices := devices[i.deviceId := device.(generation := device.generation + 1)];
          RevokeRecords(i.deviceId, Some(record.familyId));
          return Err(RefreshTokenReuse);
        }
        return Err(InvalidRefreshToken);
      }
      if record.deviceGeneration != device.generation || i.now >= record.expiresAt {
        refreshTokens := refreshTokens[h := record.(status := Revoked)];
        return Err(RefreshTokenExpired);
      }
      refreshTokens := refreshTokens[h := record.(status := Rotated)];
      var pair := IssuePair(i.deviceId, device, record.familyId, i.now);
      r := Ok(pair);
    }

    method RevokeOne(deviceId: nat)
      modifies this
      ensures View() == RevokeDevice(old(View()), deviceId)
    {
      if deviceId !in devices { return; }
      var device := devices[deviceId];
      devices := devices[deviceId := device.(active := false, generation := device.generation + 1)];
      RevokeRecords(deviceId, None);
    }
  }

  // ----- every run -----

  function Empty(signingKey: nat): State { State(signingKey, map[], map[], map[], 0, {}) }

  datatype Op =
    | DoCreate(hostFingerprint: string, scopes: seq<Scope>, ttlMs: int, now: int)
    | DoRedeem(redeem: RedeemInput)
    | DoRefresh(refresh: RefreshInput)
    | DoRevoke(deviceId: nat)

  function After(s: State, op: Op): State {
    match op
    case DoCreate(host, scopes, ttlMs, now) => CreateChallenge(s, host, scopes, ttlMs, now)
    case DoRedeem(i) => Redeem(s, i).0
    case DoRefresh(i) => Refresh(s, i).0
    case DoRevoke(deviceId) => RevokeDevice(s, deviceId)
  }

  function AfterAll(s: State, ops: seq<Op>): State
    decreases |ops|
  {
    if ops == [] then s else AfterAll(After(s, ops[0]), ops[1..])
  }

  predicate IsActive(s: State, h: Hash) {
    h in s.refreshTokens && s.refreshTokens[h].status.Active?
  }

  predicate SameFamily(s: State, g: Hash, h: Hash)
    requires g in s.refreshTokens && h in s.refreshTokens
  {
    s.refreshTokens[g].familyId == s.refreshTokens[h].familyId
  }

  ghost predicate OneActive(s: State) {
    forall g, h :: IsActive(s, g) && IsActive(s, h) && SameFamily(s, g, h) ==> g == h
  }

  ghost predicate Consistent(s: State) {
    && OneActive(s)
    && (forall d :: d in s.devices ==> d < s.supply)
    && (forall h :: h in s.refreshTokens ==>
          h.secret < s.supply && s.refreshTokens[h].familyId < s.supply && s.refreshTokens[h].deviceId in s.devices)
    && (forall g, h :: g in s.refreshTokens && h in s.refreshTokens && SameFamily(s, g, h) ==>
          s.refreshTokens[g].deviceId == s.refreshTokens[h].deviceId)
    && (forall c :: c in s.issued ==> c.deviceId in s.devices && c.generation <= s.devices[c.deviceId].generation)
  }

  /** What any operation does to the records: none is forgotten or reactivated, and at most one is
      added, which opens a new family or replaces the active token `parent` of its family. */
  ghost predicate Evolves(s: State, t: State, added: Option<Hash>, parent: Option<Hash>) {
    && s.supply <= t.supply
    && (forall h :: h in s.refreshTokens ==>
          && h in t.refreshTokens
          && t.refreshTokens[h].(status := s.refreshTokens[h].status) == s.refreshTokens[h]
          && (IsActive(t, h) ==> IsActive(s, h)))
    && (forall h :: h in t.refreshTokens ==> h in s.refreshTokens || added == Some(h))
    && (added.Some? ==>
          && s.supply <= added.value.secret < t.supply
          && added.value in t.refreshTokens
          && var record := t.refreshTokens[added.value];
             if parent.None? then s.supply <= record.familyId < t.supply && record.deviceId in t.devices
             else IsActive(s, parent.value) && !IsActive(t, parent.value)
                  && record.familyId == s.refreshTokens[parent.value].familyId
                  && record.deviceId == s.refreshTokens[parent.value].deviceId)
  }

  /** Devices are never forgotten, generations never fall, and no claim runs ahead of its device. */
  ghost predicate DevicesEvolve(s: State, t: State) {
    && (forall d :: d in s.devices ==> d in t.devices && t.devices[d].generation >= s.devices[d].generation)
    && (forall d :: d in t.devices ==> d in s.devices || s.supply <= d < t.supply)
    && (forall c :: c in t.issued ==> c in s.issued || (c.deviceId in t.devices && c.generation <= t.devices[c.deviceId].generation))
  }

  function Added(s: State, op: Op): Option<Hash> {
    if op.DoRedeem? && PairingError(s, op.redeem).None? then Some(Hash(s.supply + 4))
    else if op.DoRefresh? && Refresh(s, op.refresh).1.Ok? then Some(Hash(s.supply + 1))
    else None
  }

  function Parent(op: Op): Option<Hash> {
    if op.DoRefresh? then Some(Hash(op.refresh.refreshToken)) else None
  }

  lemma RefreshEvolves(s: State, i: RefreshInput)
    requires Consistent(s)
    ensures var op := DoRefresh(i); Evolves(s, After(s, op), Added(s, op), Parent(op)) && DevicesEvolve(s, After(s, op))
  {
    if RefreshError(s, i).None? {
      var h := Hash(i.refreshToken);
      var record, device := s.refreshTokens[h], s.devices[i.deviceId];
      if record.status.Active? && record.deviceGeneration == device.generation && i.now < record.expiresAt {
        var added := Hash(s.supply + 1);
        var t := After(s, DoRefresh(i));
        assert added != h;
        assert t.refreshTokens == s.refreshTokens[h := record.(status := Rotated)]
          [added := RefreshRecord(i.deviceId, record.familyId, device.generation, Active, i.now + REFRESH_TOKEN_TTL_MS)];
      }
    }
  }

  lemma RedeemEvolves(s: State, i: RedeemInput)
    requires Consistent(s)
    ensures var op := DoRedeem(i); Evolves(s, After(s, op), Added(s, op), Parent(op)) && DevicesEvolve(s, After(s, op))
  {
  }

  lemma OpEvolves(s: State, op: Op)
    requires Consistent(s)
    ensures Evolves(s, After(s, op), Added(s, op), Parent(op)) && DevicesEvolve(s, After(s, op))
  {
    match op
    case DoRefresh(i) => RefreshEvolves(s, i);
    case DoRedeem(i) => RedeemEvolves(s, i);
    case DoCreate(_, _, _, _) =>
    case DoRevoke(_) =>
  }

  lemma EvolvingKeepsConsistent(s: State, t: State, added: Option<Hash>, parent: Option<Hash>)
    requires Consistent(s) && Evolves(s, t, added, parent) && DevicesEvolve(s, t)
    ensures Consistent(t)
  {
    forall g, h | IsActive(t, g) && IsActive(t, h) && SameFamily(t, g, h) ensures g == h {
      if g in s.refreshTokens && h in s.refreshTokens {
        assert SameFamily(s, g, h);
      } else if parent.Some? && added.Some? {
        assert IsActive(s, parent.value);
        if g != h {
          var other := if Some(g) == added then h else g;
          assert other in s.refreshTokens && SameFamily(s, other, parent.value);
        }
      }
    }
    forall g, h | g in t.refreshTokens && h in t.refreshTokens && SameFamily(t, g, h)
      ensures t.refreshTokens[g].deviceId == t.refreshTokens[h].deviceId
    {
      if g in s.refreshTokens && h in s.refreshTokens {
        assert SameFamily(s, g, h);
      } else if parent.Some? && g != h {
        var other := if Some(g) == added then h else g;
        assert other in s.refreshTokens && SameFamily(s, other, parent.value);
      }
    }
  }

  lemma ConsistentAfter(s: State, op: Op)
    requires Consistent(s)
    ensures Consistent(After(s, op))
  {
    OpEvolves(s, op);
    EvolvingKeepsConsistent(s, After(s, op), Added(s, op), Parent(op));
  }

  lemma {:induction false} ConsistentAfterAll(s: State, ops: seq<Op>)
    requires Consistent(s)
    ensures Consistent(AfterAll(s, ops))
    decreases |ops|
  {
    if ops != [] {
      ConsistentAfter(s, ops[0]);
      ConsistentAfterAll(After(s, ops[0]), ops[1..]);
    }
  }

  /** In every run a token family never has two active tokens. */
  lemma OneActiveTokenPerFamily(key: nat, ops: seq<Op>, g: Hash, h: Hash)
    requires var s := AfterAll(Empty(key), ops); IsActive(s, g) && IsActive(s, h) && SameFamily(s, g, h)
    ensures g == h
  {
    ConsistentAfterAll(Empty(key), ops);
  }

  /** A family that has been created and has no active token. */
  ghost predicate Dead(s: State, familyId: nat) {
    && familyId < s.supply
    && forall h :: h in s.refreshTokens && s.refreshTokens[h].familyId == familyId ==> !IsActive(s, h)
  }

  lemma DeadAfter(s: State, t: State, added: Option<Hash>, parent: Option<Hash>, familyId: nat)
    requires Consistent(s) && Dead(s, familyId) && Evolves(s, t, added, parent)
    ensures Dead(t, familyId)
  {
  }

  lemma {:induction false} DeadStaysDead(s: State, ops: seq<Op>, familyId: nat)
    requires Consistent(s) && Dead(s, familyId)
    ensures Consistent(AfterAll(s, ops)) && Dead(AfterAll(s, ops), familyId)
    decreases |ops|
  {
    if ops != [] {
      OpEvolves(s, ops[0]);
      ConsistentAfter(s, ops[0]);
      DeadAfter(s, After(s, ops[0]), Added(s, ops[0]), Parent(ops[0]), familyId);
      DeadStaysDead(After(s, ops[0]), ops[1..], familyId);
    }
  }

  lemma DeadRefuses(s: State, i: RefreshInput, familyId: nat)
    requires Dead(s, familyId)
    requires Hash(i.refreshToken) in s.refreshTokens && s.refreshTokens[Hash(i.refreshToken)].familyId == familyId
    ensures Refresh(s, i).1.Err?
  {
    assert !IsActive(s, Hash(i.refreshToken));
  }

  lemma ReuseKills(s: State, reuse: RefreshInput)
    requires Consistent(s)
    requires RefreshError(s, reuse).None? && s.refreshTokens[Hash(reuse.refreshToken)].status.Rotated?
    ensures Refresh(s, reuse).1 == Err(RefreshTokenReuse) && Consistent(Refresh(s, reuse).0)
    ensures Dead(Refresh(s, reuse).0, s.refreshTokens[Hash(reuse.refreshToken)].familyId)
  {
    assert Refresh(s, reuse).0 == After(s, DoRefresh(reuse));
    ConsistentAfter(s, DoRefresh(reuse));
  }

  /** The holder of a rotated token proves possession: the family is shut down for good. Nothing that
      happens later makes a token of that family acceptable, whoever presents it with whatever proof. */
  lemma ReuseKillsFamily(key: nat, before: seq<Op>, s: State, reuse: RefreshInput, ops: seq<Op>, later: RefreshInput)
    requires s == AfterAll(Empty(key), before)
    requires RefreshError(s, reuse).None? && s.refreshTokens[Hash(reuse.refreshToken)].status.Rotated?
    ensures Refresh(s, reuse).1 == Err(RefreshTokenReuse)
    ensures var t := AfterAll(Refresh(s, reuse).0, ops);
      var h := Hash(later.refreshToken);
      && Dead(t, s.refreshTokens[Hash(reuse.refreshToken)].familyId)
      && (h in t.refreshTokens && t.refreshTokens[h].familyId == s.refreshTokens[Hash(reuse.refreshToken)].familyId ==>
            Refresh(t, later).1.Err?)
  {
    ConsistentAfterAll(Empty(key), before);
    var s1 := Refresh(s, reuse).0;
    var family := s.refreshTokens[Hash(reuse.refreshToken)].familyId;
    ReuseKills(s, reuse);
    DeadStaysDead(s1, ops, family);
    var t := AfterAll(s1, ops);
    var h := Hash(later.refreshToken);
    if h in t.refreshTokens && t.refreshTokens[h].familyId == family { DeadRefuses(t, later, family); }
  }

  /** A record that has left `Active` never returns to it. */
  ghost predicate Spent(s: State, h: Hash) {
    h in s.refreshTokens && !IsActive(s, h)
  }

  lemma {:induction false} SpentStaysSpent(s: State, ops: seq<Op>, h: Hash)
    requires Consistent(s) && Spent(s, h)
    ensures Spent(AfterAll(s, ops), h)
    decreases |ops|
  {
    if ops != [] {
      OpEvolves(s, ops[0]);
      ConsistentAfter(s, ops[0]);
      assert Spent(After(s, ops[0]), h);
      SpentStaysSpent(After(s, ops[0]), ops[1..], h);
    }
  }

  /** No refresh token is ever exchanged twice. */
  lemma AcceptedAtMostOnce(key: nat, before: seq<Op>, s: State, first: RefreshInput, ops: seq<Op>, again: RefreshInput)
    requires s == AfterAll(Empty(key), before) && Refresh(s, first).1.Ok? && again.refreshToken == first.refreshToken
    ensures Refresh(AfterAll(Refresh(s, first).0, ops), again).1.Err?
  {
    ConsistentAfterAll(Empty(key), before);
    assert Refresh(s, first).0 == After(s, DoRefresh(first));
    ConsistentAfter(s, DoRefresh(first));
    SpentStaysSpent(Refresh(s, first).0, ops, Hash(first.refreshToken));
  }

  lemma {:induction false} GenerationOnlyGrows(s: State, ops: seq<Op>, deviceId: nat)
    requires Consistent(s) && deviceId in s.devices
    ensures deviceId in AfterAll(s, ops).devices
    ensures AfterAll(s, ops).devices[deviceId].generation >= s.devices[deviceId].generation
    decreases |ops|
  {
    if ops != [] {
      OpEvolves(s, ops[0]);
      ConsistentAfter(s, ops[0]);
      GenerationOnlyGrows(After(s, ops[0]), ops[1..], deviceId);
    }
  }

  /** Once an operation has raised a device's generation, no access token issued before it ever
      authenticates again. */
  lemma GenerationBumpEndsAccess(key: nat, before: seq<Op>, bump: Op, later: seq<Op>, token: AccessToken, now: int)
    requires var s := AfterAll(Empty(key), before);
      && token.claims in s.issued
      && token.claims.deviceId in s.devices && token.claims.deviceId in After(s, bump).devices
      && After(s, bump).devices[token.claims.deviceId].generation > s.devices[token.claims.deviceId].generation
    ensures Authenticate(AfterAll(After(AfterAll(Empty(key), before), bump), later), token, now).Err?
  {
    var s := AfterAll(Empty(key), before);
    ConsistentAfterAll(Empty(key), before);
    ConsistentAfter(s, bump);
    GenerationOnlyGrows(After(s, bump), later, token.claims.deviceId);
  }

  /** The operations that raise a device's generation are exactly its revocation and the reuse of one
      of its rotated tokens. */
  lemma WhatRaisesGeneration(s: State, op: Op, deviceId: nat)
    requires Consistent(s) && deviceId in s.devices
    ensures deviceId in After(s, op).devices
    ensures After(s, op).devices[deviceId].generation > s.devices[deviceId].generation <==>
      || op == DoRevoke(deviceId)
      || (op.DoRefresh? && op.refresh.deviceId == deviceId && Refresh(s, op.refresh).1 == Err(RefreshTokenReuse))
  {
  }
}
