/** The decisions of `JwkGen.Exec`: is the newest key old enough, and what row is written if so. */
module Issuance {
  import opened Wrappers
  import opened Time
  import opened Config
  import opened KeyTable

  /** Creation time of the head of the list, or Go's zero time when there is none. */
  function LastCreated(keys: seq<Row>): Time {
    if |keys| > 0 then keys[0].created else ZERO_TIME
  }

  /** The rotation window has elapsed: the age is at least the interval. */
  predicate Overdue(keys: seq<Row>, now: Time, rotation: Duration) {
    Since(LastCreated(keys), now) >= rotation
  }

  function MintedRow(id: KeyId, priv: string, pub: Option<string>, usage: Usage, now: Time, ttl: Duration): Row {
    StoredRow(id, priv, pub, usage, now, now + ttl)
  }

  /**
   The skip branch indexes the list, and does so safely for every representable interval: the age
   of the zero time saturates at the longest duration there is.
   */
  lemma SkipOnlyRecent(keys: seq<Row>, now: Time, rotation: Duration)
    requires 0 <= now && !Overdue(keys, now, rotation)
    ensures |keys| > 0 && now - keys[0].created < rotation
  {
    if |keys| > 0 {
      assert Since(keys[0].created, now) < rotation;
    }
  }

  lemma OverdueMeansAged(keys: seq<Row>, now: Time, rotation: Duration)
    requires |keys| > 0 && 0 <= rotation
    ensures Overdue(keys, now, rotation) <==> now - keys[0].created >= rotation
  {
  }

  /** How a minted row's stored times relate to the clock and to the configured lifetime. */
  lemma MintedTimes(id: KeyId, priv: string, pub: Option<string>, usage: Usage, now: Time, ttl: Duration)
    requires 0 <= now && 0 <= ttl
    ensures var row := MintedRow(id, priv, pub, usage, now, ttl);
            && Whole(row.created) && Whole(row.expires)
            && 0 <= row.created == RoundToSecond(now)
            && row.created + FloorSecond(ttl) <= row.expires <= row.created + CeilSecond(ttl)
  {
    RoundFacts(now);
    RoundFacts(now + ttl);
    RoundShift(now, ttl);
  }

  /**
   When storing rounds a creation time it may shorten the distance to an earlier key. Whatever the
   earlier key and the moment, a key made once the interval has elapsed is stored at least one
   interval later exactly when the interval does not round down.
   */
  lemma StoredDistanceCoversInterval(rotation: Duration)
    requires 0 <= rotation
    ensures (forall made, now :: 0 <= made && Whole(made) && now - made >= rotation ==>
                                   RoundToSecond(now) - made >= rotation)
            <==> RoundToSecond(rotation) >= rotation
  {
    if RoundToSecond(rotation) >= rotation {
      forall made, now | 0 <= made && Whole(made) && now - made >= rotation
        ensures RoundToSecond(now) - made >= rotation
      {
        RoundMonotone(made + rotation, now);
        RoundPastWhole(made, rotation);
      }
    } else {
      assert Whole(0);
    }
  }

  /** An interval of 1.4 seconds does round down: a key made 1.4 seconds after another is stored one second after it. */
  lemma FractionalIntervalFallsShort(
    head: Row, id: KeyId, priv: string, pub: Option<string>, usage: Usage, ttl: Duration)
    requires head.created == 0
    ensures var rotation := 14 * SECOND / 10;
            && Overdue([head], rotation, rotation)
            && MintedRow(id, priv, pub, usage, rotation, ttl).created - head.created == SECOND < rotation
  {
    assert Since(0, 14 * SECOND / 10) == 14 * SECOND / 10;
  }
}
