/** Why the transaction of ClaimDevice (internal/devices/pairing.go) has to run alone. Its
    UPDATE guards against a consumed code, but nobody looks at how many rows it touched. */
module ClaimRace {
  import opened Wrappers
  import opened Tables
  import opened Tenancy

  /** Two claims of one live code. Serialised, the second is refused. Had the second read
      the code's row before the first finished, it would go through as well: its UPDATE
      would touch nothing, unnoticed, and leave a second device and token on one code. */
  lemma ExclusiveOnlySerialised(db: Db, code: string, now: Time, d: Id, t: Id, hash: string,
                                now': Time, d': Id, t': Id, hash': string)
    requires Closed(db) && ClaimDevice(db, code, now, d, t, hash).Ok?
    requires ClaimDevice(db, code, now', d', t', hash').Ok? && d' != d && t' != t && hash' != hash
    ensures var first := ClaimDevice(db, code, now, d, t, hash).value;
            && ClaimDevice(first, code, now', d', t', hash') == Err(CodeInvalid)
            && var second := FinishClaim(first, code, db.codes[code], now', d', t', hash');
               && second.Ok? && second.value.codes == first.codes
               && d' in second.value.devices && HasToken(second.value.tokens, d')
               && !CodesMatchDevices(second.value.codes, second.value.devices)
  {
    hide Closed, ClaimDevice, FinishClaim, CodesMatchDevices, DeviceOf, TokenHash;
    ClaimRows(db, code, now, d, t, hash);
    ClaimRows(db, code, now', d', t', hash');
    var first, row := ClaimDevice(db, code, now, d, t, hash).value, db.codes[code];
    FreshHash(db.tokens, first.tokens, t, hash');
    ClaimRefused(first, code, now', d', t', hash');
    OwnerOf(db, code, now, d, t, hash);
    var second := first.(devices := first.devices[d' := Device(row.account, row.user, false)],
                         tokens := first.tokens[t' := ApiToken(row.account, row.user, Some(d'), hash', None, false)]);
    FinishedAnyway(first, code, row, now', d', t', hash');
    assert second.tokens[t'].device == Some(d');
    forall c ensures DeviceOf(second.codes, c) != Some(d') {
      NotConsumedBy(db, code, d, now, d', c);
    }
    NotFromCode(second.codes, second.devices, d');
  }

  lemma ClaimRefused(db: Db, code: string, now: Time, d: Id, t: Id, hash: string)
    requires code in db.codes && db.codes[code].consumed.Some?
    ensures ClaimDevice(db, code, now, d, t, hash) == Err(CodeInvalid)
  {}

  lemma OwnerOf(db: Db, code: string, now: Time, d: Id, t: Id, hash: string)
    requires ClaimDevice(db, code, now, d, t, hash).Ok?
    ensures code in db.codes && db.codes[code].account in db.accounts && db.codes[code].user in db.users
  {}

  lemma FinishedAnyway(db: Db, code: string, row: PairCode, now: Time, d: Id, t: Id, hash: string)
    requires code in db.codes && db.codes[code].consumed.Some? && row.account in db.accounts && row.user in db.users
    requires d !in db.devices && t !in db.tokens && !TokenHash(db.tokens, hash)
    ensures FinishClaim(db, code, row, now, d, t, hash) ==
            Ok(db.(devices := db.devices[d := Device(row.account, row.user, false)],
                   tokens := db.tokens[t := ApiToken(row.account, row.user, Some(d), hash, None, false)]))
  {
    hide TokenHash;
  }

  lemma NotFromCode(codes: map<string, PairCode>, devices: map<Id, Device>, d: Id)
    requires d in devices && forall c :: DeviceOf(codes, c) != Some(d)
    ensures !CodesMatchDevices(codes, devices)
  {
    assert !ComesFromCode(codes, d);
  }

  lemma FreshHash(a: map<Id, ApiToken>, b: map<Id, ApiToken>, t: Id, hash: string)
    requires t in b && b == a[t := b[t]] && b[t].hash != hash && !TokenHash(a, hash)
    ensures !TokenHash(b, hash)
  {}

  lemma NotConsumedBy(db: Db, code: string, d: Id, now: Time, d': Id, c: string)
    requires Closed(db) && code in db.codes && d' !in db.devices && d' != d
    ensures DeviceOf(db.codes[code := db.codes[code].(consumed := Some(Consumption(d, now)))], c) != Some(d')
  {
    hide EmailsUnique, OneHome, SessionsHome, TokensHome, CodesHome, DevicesHome, AgentsHome, IdentitiesOk, VTokensOk;
    hide TokensMatchDevices;
  }
}
