/** The Redis nonce store: one SET NX with a computed time to live, failing closed. */
module RedisNonces {
  import opened Clock

  /** A key is visible up to and including its deadline. */
  predicate Visible(keys: map<string, int>, key: string, time: int) {
    key in keys && time <= keys[key]
  }

  /** The server's keys after SET key NX PX ttl at `time`. */
  function AfterSetNx(keys: map<string, int>, key: string, time: int, ttl: int): (keys': map<string, int>)
    ensures ttl > 0 ==> Visible(keys', key, time)
    ensures Visible(keys, key, time) ==> keys' == keys
    ensures forall k | k != key :: (k in keys' <==> k in keys) && (k in keys ==> keys'[k] == keys[k])
  {
    if Visible(keys, key, time) then keys else keys[key := time + ttl]
  }

  function Key(jti: string): (key: string) {
    "nonce:" + jti
  }

  lemma {:induction false} KeyInjective(a: string, b: string)
    ensures Key(a) == Key(b) <==> a == b
  {
    assert Key(a)[6..] == a && Key(b)[6..] == b;
  }

  /** time.Until(exp), replaced by five minutes when nothing is left. */
  function Ttl(exp: int, now: int): (ttl: int)
    ensures ttl > 0
    ensures exp <= now + ttl
    ensures now < exp ==> now + ttl == exp
    ensures exp <= now ==> ttl == 300_000_000_000
  {
    if exp - now <= 0 then FIVE_MINUTES else exp - now
  }

  /** How a SET NX ends for the caller; an error may hide a command that was carried out. */
  datatype Delivery = Answered | FailedAfterSet | FailedBeforeSet

  class RedisServer {
    var keys: map<string, int>

    constructor ()
      ensures keys == map[]
    {
      keys := map[];
    }

    method SetNx(key: string, ttl: int, time: int) returns (isNew: bool)
      modifies this
      ensures isNew <==> !Visible(old(keys), key, time)
      ensures keys == AfterSetNx(old(keys), key, time, ttl)
    {
      isNew := !(key in keys && time <= keys[key]);
      if isNew {
        keys := keys[key := time + ttl];
      }
    }
  }

  class RedisNonceStore {
    const client: RedisServer

    constructor (client: RedisServer)
      ensures this.client == client
    {
      this.client := client;
    }

    /** `now` is the gateway's clock at time.Until; `time` is the server's when the command runs. */
    method CheckAndStore(jti: string, exp: int, now: int, time: int, delivery: Delivery) returns (isNew: bool)
      modifies client
      ensures isNew <==> delivery == Answered && !Visible(old(client.keys), "nonce:" + jti, time)
      ensures client.keys == if delivery == FailedBeforeSet then old(client.keys)
                             else AfterSetNx(old(client.keys), "nonce:" + jti, time, Ttl(exp, now))
    {
      var ttl := exp - now;
      if ttl <= 0 {
        ttl := FIVE_MINUTES;
      }
      if delivery == FailedBeforeSet {
        return false;
      }
      var ok := client.SetNx("nonce:" + jti, ttl, time);
      isNew := ok && delivery == Answered;
    }
  }
}
