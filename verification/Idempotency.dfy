/** Claim, complete, resolve: the life of one `idempotency_keys` row. */
module Idempotency {
  import opened Tables
  import opened Fingerprint

  function KeyOf(req: Request, key: Text): KeyId
    requires Guarded(req)
  {
    KeyId(req.org, OperationOf(req), key)
  }

  function ClaimedRow(fingerprint: Text): KeyRow {
    KeyRow(fingerprint, InProgress, None, None)
  }

  function CompletedRow(row: KeyRow, out: Outcome): KeyRow {
    row.(state := Completed, responseStatus := Some(out.status), responseBody := Some(out.body))
  }

  function GetKey(keys: map<KeyId, KeyRow>, id: KeyId): Option<KeyRow> {
    if id in keys then Some(keys[id]) else None
  }

  /** What a request whose claim lost is answered. */
  function ResolveConflict(existing: Option<KeyRow>, fingerprint: Text): Outcome {
    if existing.None? then Outcome(false, 409, KeyVanished)
    else if existing.value.fingerprint != fingerprint then Outcome(false, 409, KeyReused)
    else if existing.value.state.Completed? then
      var status := if existing.value.responseStatus.Some? then existing.value.responseStatus.value else 500;
      var body := if existing.value.responseBody.Some? then existing.value.responseBody.value else NoBody;
      Outcome(status < 400, status, body)
    else Outcome(false, 409, KeyInProgress)
  }

  /** The stored row forgets the `ok` flag; replay rebuilds it exactly when `ok` agreed with
      `status < 400` in the first place. */
  lemma CompleteThenResolve(fingerprint: Text, out: Outcome)
    ensures ResolveConflict(Some(CompletedRow(ClaimedRow(fingerprint), out)), fingerprint) == out
            <==> (out.ok <==> out.status < 400)
  {
  }
}
