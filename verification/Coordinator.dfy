/** The coordination service: one durable row per shop, and what each signed request
    does to it inside its transaction. A refused request leaves the row as it was. */
module Coordinator {
  import opened Wrappers
  import opened Contract

  const LEASE_MS: int := 60_000
  const LARGEST_COUNTER: nat := 9_223_372_036_854_775_806

  /** The coordinator columns, and the columns of the other tables that a snapshot
      reads with it: the digest of the stored offline payload, the installation
      generation and the digest of the installed credential. An owner is the SHA-256
      digest of the lease token; tokens are told apart by it. */
  datatype Row = Row(
    revision: nat,
    epoch: nat,
    owner: Option<string>,
    expires: Option<int>,
    digest: string,
    generation: Option<string>,
    credential: Option<string>)

  datatype Refusal = InvalidScope | LeaseBusy | StaleSession

  datatype Outcome<+T> = Done(value: T) | Refused(refusal: Refusal)

  function Counter(s: string): Option<nat> {
    if IsCounter(s) && Value(s) <= LARGEST_COUNTER then Some(Value(s)) else None
  }

  function Observe(row: Row): Observation {
    Observation(Decimal(row.epoch), Decimal(row.revision), row.digest, row.generation, row.credential)
  }

  predicate Live(row: Row, now: int) {
    row.expires.Some? && row.expires.value > now
  }

  predicate Names(row: Row, lease: Lease) {
    row.owner == Some(lease.token) && Counter(lease.epoch) == Some(row.epoch)
  }

  /** A new owner gets the next epoch; a live owner that asks again with the same
      observation gets the same answer. */
  function Acquire(row: Row, now: int, token: string, observed: Observation): Outcome<(Row, Lease)> {
    var epoch, revision := Counter(observed.epoch), Counter(observed.revision);
    if !IsHex64(token) || epoch.None? || revision.None? then Refused(InvalidScope)
    else
      var free := !Live(row, now) && row.owner != Some(token);
      var current := row.epoch == epoch.value && row.revision == revision.value && row.epoch < LARGEST_COUNTER;
      var next := if free && current
                  then row.(owner := Some(token), epoch := row.epoch + 1, expires := Some(now + LEASE_MS)) else row;
      if !Live(next, now) || next.owner != Some(token) then Refused(LeaseBusy)
      else if next.epoch != epoch.value + 1 || next.revision != revision.value then Refused(StaleSession)
      else if !SameObservation(Observe(next), observed) then Refused(StaleSession)
      else Done((next, Lease(token, Decimal(next.epoch), Decimal(next.revision))))
  }

  function Renew(row: Row, now: int, lease: Lease, checked: Option<Observation>): Outcome<Row> {
    if !IsHex64(lease.token) || Counter(lease.epoch).None? then Refused(InvalidScope)
    else if !Names(row, lease) || !Live(row, now) then Refused(StaleSession)
    else if checked.Some? && !SameObservation(Observe(row), checked.value) then Refused(StaleSession)
    else Done(row.(expires := Some(now + LEASE_MS)))
  }

  /** The last owner stays named, so that replaying its acquisition does not reopen
      its epoch. */
  function Release(row: Row, lease: Lease): Row {
    if Names(row, lease) then row.(expires := None) else row
  }

  function Advance(row: Row, now: int, lease: Lease): Outcome<(Row, Lease)> {
    var revision := Counter(lease.revision);
    if revision.None? || !IsHex64(lease.token) || Counter(lease.epoch).None? then Refused(InvalidScope)
    else if !Names(row, lease) || row.revision != revision.value || !Live(row, now) then Refused(StaleSession)
    else Done((row.(revision := row.revision + 1), lease.(revision := Decimal(row.revision + 1))))
  }

  /** A privacy or installation change takes the lease away from whoever holds it. */
  function Revoke(row: Row): Outcome<Row> {
    if row.revision < LARGEST_COUNTER && row.epoch < LARGEST_COUNTER
    then Done(row.(revision := row.revision + 1, epoch := row.epoch + 1, owner := None, expires := None))
    else Refused(StaleSession)
  }

  /** A writer from before coordination; none may write once a lease has been taken. */
  function AdvanceLegacy(row: Row): Outcome<Row> {
    if row.epoch == 0 && row.revision < LARGEST_COUNTER
    then Done(row.(revision := row.revision + 1))
    else Refused(StaleSession)
  }

  /** An online publication or deletion: ownership is renewed, the revision stays. */
  function TouchOnline(row: Row, now: int, lease: Lease, observed: Observation): Outcome<Row> {
    if !SameObservation(Observe(row), observed) then Refused(StaleSession)
    else if !Present(row.generation) || !Present(row.credential) || lease.revision != observed.revision
         then Refused(StaleSession)
    else Renew(row, now, lease, None)
  }

  /** An offline publication. `digest` is the digest of the payload it stores and
      `credential` that of the credential installed with it. */
  function WriteOffline(row: Row, now: int, lease: Lease, observed: Observation, expectedHash: Option<string>,
                        digest: string, credential: Option<string>): Outcome<(Row, Fence)> {
    if !SameObservation(Observe(row), observed) then Refused(StaleSession)
    else if lease.revision != observed.revision || expectedHash != observed.credentialTokenHash
         then Refused(StaleSession)
    else
      match Advance(row, now, lease)
      case Refused(refusal) => Refused(refusal)
      case Done((advanced, next)) =>
        var stored := advanced.(digest := digest, credential := credential);
        Done((stored, Fence(next, Observe(stored))))
  }

  function DeleteOffline(row: Row, now: int, lease: Lease, observed: Observation,
                         digest: string): Outcome<(Row, Fence)> {
    WriteOffline(row, now, lease, observed, observed.credentialTokenHash, digest, row.credential)
  }

  // ------------------------------------------------------------ what it promises

  lemma CounterOfDecimal(n: nat)
    ensures Counter(Decimal(n)).Some? ==> Counter(Decimal(n)) == Some(n)
  {
  }

  /** Every counter the service keeps is read back as the number it is, and has the next
      number for its successor. */
  lemma CountersAreRead(n: nat)
    requires n <= LARGEST_COUNTER
    ensures Counter(Decimal(n)) == Some(n) && NextCounter(Decimal(n)) == Some(Decimal(n + 1))
  {
    DecimalIsCounter(n);
    hide IsCounter, Decimal;
    assert Pow10(1) == 10 && Pow10(2) == 100 && Pow10(3) == 1000 && Pow10(4) == 10000 && Pow10(5) == 100000;
    assert Pow10(6) == 1000000 && Pow10(7) == 10000000 && Pow10(8) == 100000000 && Pow10(9) == 1000000000;
    assert Pow10(10) == 10 * Pow10(9) && Pow10(11) == 10 * Pow10(10) && Pow10(12) == 10 * Pow10(11);
    assert Pow10(13) == 10 * Pow10(12) && Pow10(14) == 10 * Pow10(13) && Pow10(15) == 10 * Pow10(14);
    assert Pow10(16) == 10 * Pow10(15) && Pow10(17) == 10 * Pow10(16) && Pow10(18) == 10 * Pow10(17);
    assert Pow10(19) == 10 * Pow10(18);
  }

  /** The epoch counts ownerships: it rises exactly when the owner changes, by one, and
      then the lease before it was over. */
  lemma AcquireChangesOwnerOnce(row: Row, now: int, token: string, observed: Observation)
    requires Acquire(row, now, token, observed).Done?
    ensures
      var (next, lease) := Acquire(row, now, token, observed).value;
      && next.owner == Some(token) && Live(next, now) && next.revision == row.revision
      && Admitted(next, lease, observed)
      && (next == row || (!Live(row, now) && row.owner != Some(token)
                          && next == row.(owner := Some(token), epoch := row.epoch + 1,
                                          expires := Some(now + LEASE_MS))))
  {
    CounterOfDecimal(row.epoch);
  }

  predicate Admitted(row: Row, lease: Lease, observed: Observation) {
    && row.owner == Some(lease.token)
    && lease.epoch == Decimal(row.epoch) && lease.revision == Decimal(row.revision)
    && AllDigits(lease.epoch) && Value(lease.epoch) == row.epoch
  }

  /** Releasing and asking again with the same token never reopens an ownership. */
  lemma ReleasedTokenStaysOut(row: Row, lease: Lease, now: int, observed: Observation)
    requires Names(row, lease)
    ensures Acquire(Release(row, lease), now, lease.token, observed).Refused?
  {
  }

  /** A row that nobody owns is given to whoever asks with what it shows. */
  lemma FreeRowIsGranted(row: Row, now: int, token: string)
    requires !Live(row, now) && row.owner != Some(token) && IsHex64(token)
    requires row.epoch < LARGEST_COUNTER && row.revision <= LARGEST_COUNTER
    ensures
      Acquire(row, now, token, Observe(row))
        == Done((row.(owner := Some(token), epoch := row.epoch + 1, expires := Some(now + LEASE_MS)),
                 Lease(token, Decimal(row.epoch + 1), Decimal(row.revision))))
  {
    CountersAreRead(row.epoch);
    CountersAreRead(row.revision);
    hide Counter, Decimal, NextCounter, IsHex64;
  }

  /** And the owner's writes are accepted while its lease lives and nothing else has
      changed the row. */
  lemma OwnerWrites(row: Row, now: int, token: string, observed: Observation, digest: string,
                    credential: Option<string>)
    requires row.owner == Some(token) && Live(row, now) && IsHex64(token)
    requires row.epoch <= LARGEST_COUNTER && row.revision <= LARGEST_COUNTER
    requires SameObservation(Observe(row), observed)
    ensures
      var lease := Lease(token, Decimal(row.epoch), Decimal(row.revision));
      var stored := row.(revision := row.revision + 1, digest := digest, credential := credential);
      WriteOffline(row, now, lease, observed, observed.credentialTokenHash, digest, credential)
        == Done((stored, Fence(lease.(revision := Decimal(row.revision + 1)), Observe(stored))))
  {
    CountersAreRead(row.epoch);
    CountersAreRead(row.revision);
    hide Counter, Decimal, NextCounter, IsHex64;
  }
}
