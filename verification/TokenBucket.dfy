/**
 The byte budget used at three places of the program: per TCP connection and direction (src/tcp_proxy.cpp:72-75,
 112-136), per UDP client and direction (src/udp_proxy.cpp:179-190, 241-244, 296-299) and per client address
 (src/ip_proxy.cpp:63-86). A balance may be charged once it is not negative, by any amount, and is refilled only
 while it is negative.
 */
module TokenBucket {

  const TCP_BUFFER_SIZE := 4096
  const UDP_BUFFER_SIZE := 1500
  const TCP_PACKET_EXTRA_OVERHEAD := 54
  const UDP_PACKET_EXTRA_OVERHEAD := 42
  const INT32_LIMIT := 0x8000_0000

  /** `interval * bandwidth / 1000`, the bytes a bandwidth allows in so many milliseconds. */
  function Quota(bandwidth: nat, ms: nat): nat {
    ms * bandwidth / 1000
  }

  function Refill(balance: int, bytes: int): int {
    if balance < 0 then balance + bytes else balance
  }

  /**
   What a budget has been through. `origin` is the time of the first charge; `refilled` and `charged` are the sums of
   all refills and of all charges since.
   */
  datatype Ledger = Ledger(origin: int, refilled: int, charged: int)

  const NEW_LEDGER := Ledger(0, 0, 0)

  function Charged(l: Ledger, amount: int, now: int): Ledger {
    l.(origin := if l.charged == 0 then now else l.origin, charged := l.charged + amount)
  }

  function Refilled(l: Ledger, balance: int, bytes: int): Ledger {
    if balance < 0 then l.(refilled := l.refilled + bytes) else l
  }

  /**
   Conservation (the balance is what was refilled minus what was charged), the lower bound on the balance, and the
   quota that the refills up to time `last` stay within.
   */
  ghost predicate Sound(bandwidth: nat, largest: nat, balance: int, l: Ledger, last: int) {
    && balance == l.refilled - l.charged
    && 0 <= balance + largest
    && (if l.charged == 0 then l.refilled == 0
        else 0 < l.charged && l.origin <= last && 0 <= l.refilled <= Quota(bandwidth, last - l.origin))
  }

  lemma {:induction false} QuotaAdds(bandwidth: nat, x: nat, y: nat)
    ensures Quota(bandwidth, x) + Quota(bandwidth, y) <= Quota(bandwidth, x + y)
  {
    var a, b, c := x * bandwidth, y * bandwidth, (x + y) * bandwidth;
    assert a + b == c;
    assert a / 1000 * 1000 <= a && b / 1000 * 1000 <= b;
  }

  lemma {:induction false} QuotaMonotone(bandwidth: nat, x: nat, y: nat)
    requires x <= y
    ensures Quota(bandwidth, x) <= Quota(bandwidth, y)
  {
    QuotaAdds(bandwidth, x, y - x);
  }

  lemma {:induction false} ChargeSound(bandwidth: nat, largest: nat, balance: int, l: Ledger, last: int, amount: int)
    requires Sound(bandwidth, largest, balance, l, last)
    requires balance >= 0 && 0 < amount <= largest
    ensures Sound(bandwidth, largest, balance - amount, Charged(l, amount, last), last)
  {
  }

  lemma {:induction false} RefillSound(bandwidth: nat, largest: nat, balance: int, l: Ledger, last: int, now: int)
    requires Sound(bandwidth, largest, balance, l, last) && last <= now
    ensures var bytes := Quota(bandwidth, now - last);
            Sound(bandwidth, largest, Refill(balance, bytes), Refilled(l, balance, bytes), now)
  {
    if l.charged != 0 {
      QuotaAdds(bandwidth, last - l.origin, now - last);
    }
  }

  /** Time passing without a refill. */
  lemma {:induction false} LaterSound(bandwidth: nat, largest: nat, balance: int, l: Ledger, last: int, now: int)
    requires Sound(bandwidth, largest, balance, l, last) && last <= now
    ensures Sound(bandwidth, largest, balance, l, now)
  {
    if l.charged != 0 {
      QuotaMonotone(bandwidth, last - l.origin, now - l.origin);
    }
  }

  /** The rate bound: at most the quota of the time since the first charge, plus one largest charge. */
  lemma {:induction false} RateBound(bandwidth: nat, largest: nat, balance: int, l: Ledger, last: int)
    requires Sound(bandwidth, largest, balance, l, last) && l.charged > 0
    ensures l.origin <= last
    ensures l.charged <= Quota(bandwidth, last - l.origin) + largest
  {
  }

  /** The balance never leaves the 32-bit range when no single refill does. */
  lemma {:induction false} BalanceFits(bandwidth: nat, largest: nat, balance: int, l: Ledger, last: int, bytes: int)
    requires Sound(bandwidth, largest, balance, l, last) && -INT32_LIMIT < balance < INT32_LIMIT
    requires 0 <= bytes < INT32_LIMIT
    ensures -INT32_LIMIT < Refill(balance, bytes) < INT32_LIMIT
  {
  }
}
