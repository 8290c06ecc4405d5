/** The repositories over mutable tables. Every call takes the environment's choice, and its
    contract says what it does to the tables as the protocol sees them. */
module Store {
  import opened Text
  import opened Domain
  import opened Tables
  import opened Protocol
  import opened Serial

  // ---------- rows and NULL ----------

  datatype PurchaseRow = PurchaseRow(
    id: string, userId: int, contentId: string, status: Status, payload: string, chargeId: Option<string>,
    stars: int, createdAt: Time, paidAt: Option<Time>,
    attempts: int, lastError: Option<string>, lastIssueAt: Option<Time>, reviewAt: Option<Time>)

  /** The empty string is stored as NULL, and NULL is read as the empty string. */
  function Nullable(v: string): Option<string> {
    if v == "" then None else Some(v)
  }

  function Plain(v: Option<string>): string {
    match v
    case None => ""
    case Some(s) => s
  }

  function ToRow(p: Purchase): PurchaseRow {
    PurchaseRow(p.id, p.userId, p.contentId, p.status, p.payload, Nullable(p.chargeId), p.stars, p.createdAt,
                p.paidAt, p.attempts, Nullable(p.lastError), p.lastIssueAt, p.reviewAt)
  }

  function FromRow(r: PurchaseRow): Purchase {
    Purchase(r.id, r.userId, r.contentId, r.status, r.payload, Plain(r.chargeId), r.stars, r.createdAt,
             r.paidAt, r.attempts, Plain(r.lastError), r.lastIssueAt, r.reviewAt)
  }

  /** Storing and loading a purchase is the identity; loading and storing a row is, exactly when the
      row has NULL and not an empty string for a missing charge or error. */
  lemma RowRoundTrip(p: Purchase, r: PurchaseRow)
    ensures FromRow(ToRow(p)) == p
    ensures ToRow(FromRow(r)) == r <==> r.chargeId != Some("") && r.lastError != Some("")
  {
    assert ToRow(FromRow(r)).chargeId == Nullable(Plain(r.chargeId));
    assert ToRow(FromRow(r)).lastError == Nullable(Plain(r.lastError));
  }

  class Store {
    var purchases: map<string, PurchaseRow>
    var grants: map<string, Grant>
    var payments: map<string, Event>
    var processed: set<string>
    var outbox: seq<OutboxRow>
    var contents: map<string, Content>
    var cache: map<string, string>
    ghost var sent: seq<Sent>

    function Purchases(): map<string, Purchase>
      reads this
    {
      map id | id in purchases :: FromRow(purchases[id])
    }

    ghost function Db(): Db
      reads this
    {
      Tables.Db(Purchases(), grants, payments, processed, outbox, contents)
    }

    ghost function World(): World
      reads this
    {
      Protocol.World(Db(), cache, sent)
    }

    /** The keys and the UNIQUE constraints of the schema that the lookups rely on. */
    ghost predicate Valid()
      reads this
    {
      && (forall id | id in purchases :: purchases[id].id == id && purchases[id].chargeId != Some(""))
      && (forall a, b | a in purchases && b in purchases && purchases[a].payload == purchases[b].payload :: a == b)
      && (forall a, b | a in grants && b in grants && grants[a].tokenHash == grants[b].tokenHash :: a == b)
    }

    constructor ()
      ensures Valid() && Db() == Tables.Db(map[], map[], map[], {}, [], map[]) && cache == map[] && sent == []
    {
      purchases, grants, payments, processed := map[], map[], map[], {};
      outbox, contents, cache, sent := [], map[], map[], [];
    }

    // ---------- purchases ----------

    method CreatePurchase(p: Purchase, c: Choice) returns (ok: bool)
      requires Valid()
      modifies this`purchases
      ensures Valid()
      ensures match InsertPurchase(old(Db()), p)
              case None => !ok && World() == old(World())
              case Some(db) => ok == c.outcome.Served? && World() == Written(old(World()), db, c)
      ensures purchases == old(purchases) || (p.id !in old(purchases) && purchases == old(purchases)[p.id := ToRow(p)])
      ensures ok ==> p.id in purchases && purchases[p.id] == ToRow(p)
    {
      ClashIsConflict(p);
      if p.id in purchases {
        return false;
      }
      if exists id :: id in purchases && Clash(purchases[id], p) {
        return false;
      }
      if !c.outcome.Refused? {
        purchases := purchases[p.id := ToRow(p)];
        assert Purchases() == old(Purchases())[p.id := p];
      }
      return c.outcome.Served?;
    }

    /** The unique indexes, on rows. */
    static predicate Clash(r: PurchaseRow, p: Purchase) {
      r.id != p.id && (r.payload == p.payload || (r.chargeId.Some? && r.chargeId.value == p.chargeId))
    }

    lemma ClashIsConflict(p: Purchase)
      requires Valid()
      ensures (exists id :: id in purchases && Clash(purchases[id], p)) <==> !FitsAmong(Db(), p)
    {
      forall id | id in purchases
        ensures Clash(purchases[id], p) <==> id != p.id && Conflicts(p, Db().purchases[id])
      {
      }
    }

    method UpdatePurchase(p: Purchase, c: Choice) returns (ok: bool)
      requires Valid()
      modifies this`purchases
      ensures Valid()
      ensures match Tables.UpdatePurchase(old(Db()), p)
              case None => !ok && World() == old(World())
              case Some(db) => ok == c.outcome.Served? && World() == Written(old(World()), db, c)
      ensures purchases == old(purchases) || (p.id in old(purchases) && purchases == old(purchases)[p.id := ToRow(p)])
      ensures ok && p.id in old(purchases) ==> purchases[p.id] == ToRow(p)
      ensures p.id !in old(purchases) ==> ok == c.outcome.Served?
    {
      if p.id !in purchases {
        return c.outcome.Served?;
      }
      ClashIsConflict(p);
      if exists id :: id in purchases && Clash(purchases[id], p) {
        return false;
      }
      if !c.outcome.Refused? {
        purchases := purchases[p.id := ToRow(p)];
        assert Purchases() == old(Purchases())[p.id := p];
      }
      return c.outcome.Served?;
    }

    method GetPurchase(id: string, c: Choice) returns (p: Option<Purchase>)
      ensures p == if c.outcome.Served? && id in Db().purchases then Some(Db().purchases[id]) else None
    {
      p := if c.outcome.Served? && id in purchases then Some(FromRow(purchases[id])) else None;
    }

    method GetByPayload(payload: string, c: Choice) returns (p: Option<Purchase>)
      requires Valid()
      ensures p == if c.outcome.Served? then FindByPayload(Db(), payload) else None
    {
      p := None;
      if c.outcome.Served? {
        if id :| id in purchases && purchases[id].payload == payload {
          p := Some(FromRow(purchases[id]));
          assert Db().purchases[id].payload == payload;
        } else {
          assert forall id | id in Db().purchases :: Db().purchases[id] == FromRow(purchases[id]);
        }
      }
    }

    // ---------- grants ----------

    method CreateGrant(g: Grant, c: Choice) returns (ok: bool)
      requires Valid()
      modifies this`grants
      ensures Valid()
      ensures match InsertGrant(old(Db()), g)
              case None => !ok && World() == old(World())
              case Some(db) => ok == c.outcome.Served? && World() == Written(old(World()), db, c)
      ensures grants == old(grants) || (g.id !in old(grants) && grants == old(grants)[g.id := g])
      ensures ok <==> c.outcome.Served? && g.id !in old(grants)
                      && forall id | id in old(grants) ::
                           old(grants)[id].purchaseId != g.purchaseId && old(grants)[id].tokenHash != g.tokenHash
      ensures ok ==> g.id in grants
    {
      if g.id in grants
         || exists id :: id in grants && (grants[id].purchaseId == g.purchaseId || grants[id].tokenHash == g.tokenHash)
      {
        return false;
      }
      if !c.outcome.Refused? {
        grants := grants[g.id := g];
      }
      return c.outcome.Served?;
    }

    method GetByTokenHash(hash: string, c: Choice) returns (g: Option<Grant>)
      requires Valid()
      ensures g == if c.outcome.Served? then FindByHash(Db(), hash) else None
    {
      g := None;
      if c.outcome.Served? {
        if id :| id in grants && grants[id].tokenHash == hash {
          g := Some(grants[id]);
        }
      }
    }

    /** The affected-row count is not looked at: marking a used grant succeeds and changes nothing. */
    method MarkGrantUsed(id: string, c: Choice) returns (ok: bool)
      requires Valid()
      modifies this`grants
      ensures Valid() && ok == c.outcome.Served? && World() == Written(old(World()), MarkUsed(old(Db()), id, c.now), c)
      ensures grants == if !c.outcome.Refused? && id in old(grants) && old(grants)[id].usedAt == None
                        then old(grants)[id := old(grants)[id].(usedAt := Some(c.now))] else old(grants)
    {
      if !c.outcome.Refused? && id in grants && grants[id].usedAt.None? {
        grants := grants[id := grants[id].(usedAt := Some(c.now))];
      }
      return c.outcome.Served?;
    }

    // ---------- payment events, idempotency keys, outbox, content ----------

    method SavePaymentEvent(ev: Event, c: Choice) returns (ok: bool)
      requires Valid()
      modifies this`payments
      ensures Valid() && ok == c.outcome.Served? && World() == Written(old(World()), LogPayment(old(Db()), ev), c)
      ensures payments == if c.outcome.Refused? || ev.chargeId in old(payments) then old(payments)
                          else old(payments)[ev.chargeId := ev]
    {
      if !c.outcome.Refused? && ev.chargeId !in payments {
        payments := payments[ev.chargeId := ev];
      }
      return c.outcome.Served?;
    }

    method IsProcessed(chargeId: string, c: Choice) returns (ok: bool, found: bool)
      ensures ok == c.outcome.Served? && (ok ==> found == (chargeId in Db().processed))
    {
      return c.outcome.Served?, chargeId in processed;
    }

    method MarkProcessed(chargeId: string, c: Choice) returns (ok: bool)
      requires Valid()
      modifies this`processed
      ensures Valid() && ok == c.outcome.Served? && World() == Written(old(World()), AddKey(old(Db()), chargeId), c)
      ensures processed == if c.outcome.Refused? then old(processed) else old(processed) + {chargeId}
    {
      if !c.outcome.Refused? {
        processed := processed + {chargeId};
      }
      return c.outcome.Served?;
    }

    method PublishPurchaseConfirmed(purchaseId: string, c: Choice) returns (ok: bool)
      requires Valid()
      modifies this`outbox
      ensures Valid()
      ensures match AppendEvent(old(Db()), EventId(c.nano, purchaseId), purchaseId)
              case None => !ok && World() == old(World())
              case Some(db) => ok == c.outcome.Served? && World() == Written(old(World()), db, c)
      ensures var row := OutboxRow(DecimalNat(c.nano) + "-" + purchaseId, "purchase_confirmed", purchaseId, false);
              && (ok ==> outbox == old(outbox) + [row])
              && (outbox == old(outbox) || outbox == old(outbox) + [row])
    {
      var id := EventId(c.nano, purchaseId);
      if exists i :: 0 <= i < |outbox| && outbox[i].id == id {
        return false;
      }
      if !c.outcome.Refused? {
        outbox := outbox + [OutboxRow(id, CONFIRMED, purchaseId, false)];
      }
      return c.outcome.Served?;
    }

    /** Collected from the first i rows, with the rest still to come. */
    static predicate Collected(rows: seq<OutboxRow>, i: nat, result: seq<OutboxRow>) {
      i <= |rows| && Unpublished(rows) == result + Unpublished(rows[i..])
    }

    static lemma CollectNone(rows: seq<OutboxRow>)
      ensures Collected(rows, 0, [])
    {
    }

    static lemma CollectNext(rows: seq<OutboxRow>, i: nat, result: seq<OutboxRow>)
      requires Collected(rows, i, result) && i < |rows|
      ensures Collected(rows, i + 1, if rows[i].published then result else result + [rows[i]])
    {
      var tail := rows[i..];
      assert tail[0] == rows[i] && tail[1..] == rows[i + 1..];
    }

    static lemma CollectEnd(rows: seq<OutboxRow>, i: nat, result: seq<OutboxRow>, most: nat)
      requires Collected(rows, i, result) && |result| <= most && (i == |rows| || |result| == most)
      ensures result == Oldest(Unpublished(rows), most)
    {
    }

    method UnpublishedEvents(limit: int) returns (result: seq<OutboxRow>)
      ensures result == Oldest(Unpublished(outbox), if limit <= 0 then 20 else limit)
    {
      var most := if limit <= 0 then BATCH else limit;
      result := [];
      var i := 0;
      CollectNone(outbox);
      while i < |outbox| && |result| < most
        invariant 0 <= i <= |outbox| && |result| <= most && Collected(outbox, i, result)
      {
        CollectNext(outbox, i, result);
        if !outbox[i].published {
          result := result + [outbox[i]];
        }
        i := i + 1;
      }
      CollectEnd(outbox, i, result, most);
    }

    method MarkEventPublished(id: string, c: Choice)
      requires Valid()
      modifies this`outbox
      ensures Valid() && World() == Written(old(World()), MarkPublished(old(Db()), id), c)
      ensures |outbox| == |old(outbox)|
      ensures forall i | 0 <= i < |outbox| ::
                outbox[i] == if !c.outcome.Refused? && old(outbox)[i].id == id then old(outbox)[i].(published := true)
                             else old(outbox)[i]
    {
      if !c.outcome.Refused? {
        outbox := Flagged(outbox, id);
      }
    }

    method GetContent(id: string, c: Choice) returns (row: Option<Content>)
      ensures row == if c.outcome.Served? && id in Db().contents then Some(Db().contents[id]) else None
    {
      row := if c.outcome.Served? && id in contents then Some(contents[id]) else None;
    }

    // ---------- the token cache and the sender ----------

    method PutToken(hash: string, purchaseId: string, c: Choice)
      requires Valid()
      modifies this`cache
      ensures Valid()
      ensures World() == if c.cacheOutcome.Refused? then old(World())
                         else old(World()).(cache := old(cache)[hash := purchaseId])
    {
      if !c.cacheOutcome.Refused? {
        cache := cache[hash := purchaseId];
      }
    }

    method DeleteToken(hash: string, c: Choice)
      requires Valid()
      modifies this`cache
      ensures Valid()
      ensures World() == if c.cacheOutcome.Refused? then old(World()) else old(World()).(cache := old(cache) - {hash})
    {
      if !c.cacheOutcome.Refused? {
        cache := cache - {hash};
      }
    }

    method PeekToken(hash: string, c: Choice) returns (purchaseId: string)
      ensures purchaseId == if c.cacheOutcome.Served? && hash in cache then cache[hash] else ""
    {
      purchaseId := if c.cacheOutcome.Served? && hash in cache then cache[hash] else "";
    }

    method SendAccessLink(ghost purchaseId: string, userId: int, link: string, ghost raw: string, c: Choice)
      returns (ok: bool)
      requires Valid()
      modifies this`sent
      ensures Valid() && ok == c.outcome.Served?
      ensures World() == old(World()).(sent := old(sent) + [Sent(purchaseId, userId, link, raw, ok)])
    {
      sent := sent + [Sent(purchaseId, userId, link, raw, c.outcome.Served?)];
      return c.outcome.Served?;
    }
  }
}
