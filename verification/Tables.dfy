/** The Postgres tables as values, with the constraints the schema declares.
    An operation that would break a constraint yields None. */
module Tables {
  import opened Text
  import opened Domain

  datatype Db = Db(
    purchases: map<string, Purchase>,   // by id
    grants: map<string, Grant>,         // by id
    payments: map<string, Event>,       // payment_events, by charge id
    processed: set<string>,             // idempotency_keys
    outbox: seq<OutboxRow>,             // in created_at order
    contents: map<string, Content>)     // by id

  // ---------- purchases ----------

  /** UNIQUE on telegram_payload and on telegram_charge_id, where "" stands for NULL. */
  predicate Conflicts(a: Purchase, b: Purchase) {
    a.payload == b.payload || (a.chargeId != "" && a.chargeId == b.chargeId)
  }

  ghost predicate FitsAmong(db: Db, p: Purchase) {
    forall id | id in db.purchases && id != p.id :: !Conflicts(p, db.purchases[id])
  }

  ghost function InsertPurchase(db: Db, p: Purchase): Option<Db> {
    if p.id !in db.purchases && FitsAmong(db, p) then Some(db.(purchases := db.purchases[p.id := p])) else None
  }

  /** UPDATE ... WHERE id: without such a row nothing happens and nothing fails. */
  ghost function UpdatePurchase(db: Db, p: Purchase): Option<Db> {
    if p.id !in db.purchases then Some(db)
    else if FitsAmong(db, p) then Some(db.(purchases := db.purchases[p.id := p]))
    else None
  }

  ghost function FindByPayload(db: Db, payload: string): Option<Purchase> {
    if exists id :: id in db.purchases && db.purchases[id].payload == payload then
      var id :| id in db.purchases && db.purchases[id].payload == payload;
      Some(db.purchases[id])
    else None
  }

  // ---------- access grants ----------

  ghost function InsertGrant(db: Db, g: Grant): Option<Db> {
    if g.id !in db.grants
       && forall id | id in db.grants ::
            db.grants[id].purchaseId != g.purchaseId && db.grants[id].tokenHash != g.tokenHash
    then Some(db.(grants := db.grants[g.id := g])) else None
  }

  function MarkUsed(db: Db, id: string, now: Time): Db {
    if id in db.grants && db.grants[id].usedAt.None?
    then db.(grants := db.grants[id := db.grants[id].(usedAt := Some(now))])
    else db
  }

  ghost function FindByHash(db: Db, hash: string): Option<Grant> {
    if exists id :: id in db.grants && db.grants[id].tokenHash == hash then
      var id :| id in db.grants && db.grants[id].tokenHash == hash;
      Some(db.grants[id])
    else None
  }

  // ---------- payment events, idempotency keys, outbox ----------

  function LogPayment(db: Db, ev: Event): Db {
    if ev.chargeId in db.payments then db else db.(payments := db.payments[ev.chargeId := ev])
  }

  function AddKey(db: Db, chargeId: string): Db {
    db.(processed := db.processed + {chargeId})
  }

  function EventId(nano: nat, purchaseId: string): string {
    DecimalNat(nano) + "-" + purchaseId
  }

  ghost function AppendEvent(db: Db, id: string, purchaseId: string): Option<Db> {
    if exists i :: 0 <= i < |db.outbox| && db.outbox[i].id == id then None
    else Some(db.(outbox := db.outbox + [OutboxRow(id, CONFIRMED, purchaseId, false)]))
  }

  function Flagged(outbox: seq<OutboxRow>, id: string): (flagged: seq<OutboxRow>)
    ensures |flagged| == |outbox|
    ensures forall i | 0 <= i < |outbox| ::
              flagged[i] == if outbox[i].id == id then outbox[i].(published := true) else outbox[i]
  {
    seq(|outbox|, i requires 0 <= i < |outbox| =>
      if outbox[i].id == id then outbox[i].(published := true) else outbox[i])
  }

  function MarkPublished(db: Db, id: string): Db {
    db.(outbox := Flagged(db.outbox, id))
  }

  /** The rows still to be published, oldest first. */
  function Unpublished(outbox: seq<OutboxRow>): seq<OutboxRow> {
    if outbox == [] then []
    else if outbox[0].published then Unpublished(outbox[1..])
    else [outbox[0]] + Unpublished(outbox[1..])
  }

  function Oldest<T>(rows: seq<T>, limit: nat): seq<T> {
    if |rows| <= limit then rows else rows[..limit]
  }

  // ---------- content ----------

  /** The administrator's upsert or delete; CHECK (price_stars > 0) refuses the rest. */
  function EditRows(rows: map<string, Content>, id: string, row: Option<Content>): map<string, Content> {
    match row
    case None => map k | k in rows && k != id :: rows[k]
    case Some(c) => if c.price > 0 && c.id == id then rows[id := c] else rows
  }

  function EditContent(db: Db, id: string, row: Option<Content>): Db {
    db.(contents := EditRows(db.contents, id, row))
  }
}
