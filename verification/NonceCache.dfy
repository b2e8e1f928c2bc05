/** The in-memory nonce store: a map from jti to expiry, and its sweeper. */
module NonceCaches {
  import opened Clock

  /** What CheckAndStore leaves in the map; it lets the jti in exactly when it was absent. */
  function Stored(items: map<string, int>, ttl: int, jti: string, exp: int, now: int): (items': map<string, int>)
    ensures jti in items'
    ensures jti in items ==> items' == items
    ensures jti !in items ==> items'[jti] == if exp == ZERO_TIME then now + ttl else exp
    ensures forall k | k in items :: k in items' && items'[k] == items[k]
  {
    if jti in items then items
    else items[jti := if exp == ZERO_TIME then now + ttl else exp]
  }

  /** What a sweep with clock reading `now` keeps: the entries that have not expired. */
  function Swept(items: map<string, int>, now: int): (items': map<string, int>)
    ensures forall k :: k in items' <==> k in items && now <= items[k]
    ensures forall k | k in items' :: items'[k] == items[k]
  {
    map k | k in items && now <= items[k] :: items[k]
  }

  class NonceCache {
    var items: map<string, int>
    const ttl: int

    constructor (ttl: int)
      ensures items == map[]
      ensures this.ttl == if ttl <= 0 then 300_000_000_000 else ttl
      ensures this.ttl > 0
    {
      items := map[];
      this.ttl := if ttl <= 0 then FIVE_MINUTES else ttl;
    }

    /** The whole body runs under the mutex, so it is one step. */
    method CheckAndStore(jti: string, exp: int, now: int) returns (isNew: bool)
      modifies this
      ensures isNew <==> jti !in old(items)
      ensures items == Stored(old(items), ttl, jti, exp, now)
    {
      if jti in items {
        return false;
      }
      var until := exp;
      if exp == ZERO_TIME {
        until := now + ttl;
      }
      items := items[jti := until];
      return true;
    }

    /** One pass of the sweeper, in whatever order the map is iterated. */
    method Sweep(now: int)
      modifies this
      ensures items == Swept(old(items), now)
    {
      var todo := items.Keys;
      while todo != {}
        invariant todo <= items.Keys
        invariant forall k :: k in items ==> k in old(items) && items[k] == old(items)[k]
        invariant forall k :: k in old(items) && k !in todo ==> (k in items <==> now <= old(items)[k])
        decreases todo
      {
        var k :| k in todo;
        todo := todo - {k};
        if now > items[k] {
          items := items - {k};
        }
      }
    }
  }
}
