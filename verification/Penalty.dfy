/** Decaying link penalties (ironwood/network/router.go). */
module Penalty {

  const HALF_LIFE: nat := 300000      // five minutes, in milliseconds
  const TWO_HALF_LIVES: nat := 600000
  const MAX_PENALTY: nat := 30000
  const NS_PER_MS: nat := 1000000

  /** `p >> s`: halve `s` times, rounding down. */
  function Shifted(p: nat, s: nat): (r: nat)
  {
    if s == 0 then p else Shifted(p, s - 1) / 2
  }

  function Pow2(s: nat): (n: nat)
    ensures n > 0
  {
    if s == 0 then 1 else 2 * Pow2(s - 1)
  }

  lemma {:induction false} ShiftedIsQuotient(p: nat, s: nat)
    ensures Shifted(p, s) == p / Pow2(s)
  {
    if s > 0 {
      ShiftedIsQuotient(p, s - 1);
      QuotientTwice(p, Pow2(s - 1));
    }
  }

  lemma QuotientTwice(p: nat, n: nat)
    requires n > 0
    ensures p / n / 2 == p / (2 * n)
  {
    var q, r := p / n, p % n;
    var h := q / 2;
    Halved(p, n, q, r, h);
    QuotientIs(p, 2 * n, h, if q == 2 * h then r else n + r);
  }

  lemma Halved(p: nat, n: nat, q: nat, r: nat, h: nat)
    requires p == n * q + r && (q == 2 * h || q == 2 * h + 1)
    ensures p == (2 * n) * h + if q == 2 * h then r else n + r
  {
    assert n * (2 * h) == (2 * n) * h;
    if q != 2 * h { assert n * (2 * h + 1) == n * (2 * h) + n; }
  }

  lemma QuotientIs(p: nat, d: nat, q: nat, r: nat)
    requires d > 0 && p == d * q + r && r < d
    ensures p / d == q
  {
    assert d * (p / d) + p % d == p;
    if p / d > q {
      MulMonotone(d, q + 1, p / d);
    } else if p / d < q {
      MulMonotone(d, p / d + 1, q);
    }
  }

  /** After whole half-lives exactly the halves are left; in between, the reading is
      on the line from one to the next, rounded down. */
  lemma HalvesExactly(p: nat, s: nat, frac: nat)
    requires s < 63 && frac < HALF_LIFE
    ensures frac == 0 ==> Decayed(p, s * HALF_LIFE + frac) == p / Pow2(s)
    ensures var q, r := p / Pow2(s), Decayed(p, s * HALF_LIFE + frac);
            TWO_HALF_LIVES * (q - r) - TWO_HALF_LIVES < q * frac <= TWO_HALF_LIVES * (q - r)
  {
    var q := p / Pow2(s);
    ShiftedIsQuotient(p, s);
    QuotientIs(s * HALF_LIFE + frac, HALF_LIFE, s, frac);
    assert Decayed(p, s * HALF_LIFE + frac) == Interpolated(q, frac);
    assert q * (TWO_HALF_LIVES - frac) == TWO_HALF_LIVES * q - q * frac;
  }

  lemma {:induction false} ShiftedFalls(p: nat, s: nat, t: nat)
    requires s <= t
    ensures Shifted(p, t) <= Shifted(p, s)
    decreases t - s
  {
    if s < t {
      ShiftedFalls(p, s, t - 1);
    }
  }

  lemma MulMonotone(q: nat, a: nat, b: nat)
    requires a <= b
    ensures q * a <= q * b
  {
  }

  lemma DivMonotone(a: nat, b: nat)
    requires a <= b
    ensures a / TWO_HALF_LIVES <= b / TWO_HALF_LIVES
  {
  }

  /** Linear interpolation within a half-life. */
  function Interpolated(q: nat, frac: nat): (r: nat)
    requires frac < HALF_LIFE
  {
    q * (TWO_HALF_LIVES - frac) / TWO_HALF_LIVES
  }

  /** A penalty of `p` milliseconds, read `elapsed` milliseconds later. */
  function Decayed(p: nat, elapsed: nat): (r: nat)
  {
    var shifts := elapsed / HALF_LIFE;
    if shifts >= 63 then 0 else Interpolated(Shifted(p, shifts), elapsed % HALF_LIFE)
  }

  lemma InterpolatedBounds(q: nat, frac: nat)
    requires frac < HALF_LIFE
    ensures q / 2 <= Interpolated(q, frac) <= q
  {
    MulMonotone(q, HALF_LIFE, TWO_HALF_LIVES - frac);
    MulMonotone(q, TWO_HALF_LIVES - frac, TWO_HALF_LIVES);
    DivMonotone(q * HALF_LIFE, q * (TWO_HALF_LIVES - frac));
    DivMonotone(q * (TWO_HALF_LIVES - frac), q * TWO_HALF_LIVES);
    assert q * HALF_LIFE / TWO_HALF_LIVES == q / 2;
    assert q * TWO_HALF_LIVES / TWO_HALF_LIVES == q;
  }

  lemma InterpolatedFalls(q: nat, f: nat, g: nat)
    requires f <= g < HALF_LIFE
    ensures Interpolated(q, g) <= Interpolated(q, f)
  {
    MulMonotone(q, TWO_HALF_LIVES - g, TWO_HALF_LIVES - f);
    DivMonotone(q * (TWO_HALF_LIVES - g), q * (TWO_HALF_LIVES - f));
  }

  /** After `s` whole half-lives the reading lies between p >> (s+1) and p >> s. */
  lemma DecayBounds(p: nat, elapsed: nat)
    requires elapsed / HALF_LIFE < 63
    ensures Shifted(p, elapsed / HALF_LIFE + 1) <= Decayed(p, elapsed) <= Shifted(p, elapsed / HALF_LIFE)
  {
    var s := elapsed / HALF_LIFE;
    InterpolatedBounds(Shifted(p, s), elapsed % HALF_LIFE);
  }

  /** Readings never increase with time, including across half-life boundaries. */
  lemma DecayFalls(p: nat, e: nat, f: nat)
    requires e <= f
    ensures Decayed(p, f) <= Decayed(p, e)
  {
    var s, t := e / HALF_LIFE, f / HALF_LIFE;
    if t < 63 {
      if s == t {
        InterpolatedFalls(Shifted(p, s), e % HALF_LIFE, f % HALF_LIFE);
      } else {
        DecayBounds(p, e);
        DecayBounds(p, f);
        ShiftedFalls(p, s + 1, t);
      }
    }
  }

  // ------------------------------------------------------------------- the table

  datatype Entry = Entry(penaltyMs: nat, recordedAt: int)

  /** Milliseconds from `since` to `now`, both in nanoseconds; never negative. */
  function ElapsedMs(since: int, now: int): (ms: nat)
  {
    if now < since then 0 else (now - since) / NS_PER_MS
  }

  function Reading(m: map<string, Entry>, key: string, now: int): (r: nat)
  {
    if key !in m then 0 else Decayed(m[key].penaltyMs, ElapsedMs(m[key].recordedAt, now))
  }

  lemma ReadingFalls(m: map<string, Entry>, key: string, t: int, u: int)
    requires t <= u
    ensures Reading(m, key, u) <= Reading(m, key, t)
  {
    if key in m {
      var r := m[key].recordedAt;
      assert ElapsedMs(r, t) <= ElapsedMs(r, u);
      DecayFalls(m[key].penaltyMs, ElapsedMs(r, t), ElapsedMs(r, u));
    }
  }

  /** From `now` on, nobody can tell the two tables apart. */
  ghost predicate SameReadings(m: map<string, Entry>, n: map<string, Entry>, now: int)
  {
    forall key: string, t :: now <= t ==> Reading(m, key, t) == Reading(n, key, t)
  }

  /** `penalties` of the router, with a ghost copy from which nothing is ever cleaned up. */
  class Penalties {
    var penalties: map<string, Entry>
    ghost var everything: map<string, Entry>

    ghost predicate Valid(now: int)
      reads this
    {
      && (forall k :: k in penalties ==> 1 <= penalties[k].penaltyMs <= MAX_PENALTY)
      && SameReadings(penalties, everything, now)
    }

    constructor ()
      ensures forall now :: Valid(now)
      ensures penalties == map[]
    {
      penalties, everything := map[], map[];
    }

    /** `_getDecayedPenalty`: reading may delete a small entry, unobservably. */
    method GetDecayedPenalty(key: string, now: int) returns (r: nat)
      requires Valid(now)
      modifies this`penalties
      ensures Valid(now)
      ensures r == Reading(everything, key, now) == Reading(old(penalties), key, now)
      ensures penalties == if r == 0 then old(penalties) - {key} else old(penalties)
    {
      if key !in penalties {
        assert penalties - {key} == penalties;
        return 0;
      }
      var entry := penalties[key];
      var elapsedMs := ElapsedMs(entry.recordedAt, now);
      var shifts := elapsedMs / HALF_LIFE;
      if shifts >= 63 {
        ForgetIsUnobservable(penalties, everything, key, now);
        penalties := penalties - {key};
        return 0;
      }
      var penaltyMs := Shifted(entry.penaltyMs, shifts);
      penaltyMs := Interpolated(penaltyMs, elapsedMs % HALF_LIFE);
      if penaltyMs < 1 {
        ForgetIsUnobservable(penalties, everything, key, now);
        penalties := penalties - {key};
        return 0;
      }
      r := penaltyMs;
    }

    /** `_addPenalty`: on top of what is left of the old penalty, up to the cap. */
    method AddPenalty(key: string, component: int, now: int)
      requires Valid(now)
      modifies this
      ensures Valid(now)
      ensures component <= 0 ==> penalties == old(penalties) && everything == old(everything)
      ensures component > 0 ==>
                Reading(penalties, key, now) == (if Reading(old(penalties), key, now) + component <= MAX_PENALTY
                                                 then Reading(old(penalties), key, now) + component else MAX_PENALTY)
      ensures forall k :: k != key ==>
                && (k in penalties <==> k in old(penalties))
                && (k in penalties ==> penalties[k] == old(penalties)[k])
    {
      if component <= 0 {
        return;
      }
      var existing := GetDecayedPenalty(key, now);
      var total := existing + component;
      if total > MAX_PENALTY {
        total := MAX_PENALTY;
      }
      RecordIsSeen(penalties, everything, key, total, now);
      penalties := penalties[key := Entry(total, now)];
      everything := everything[key := Entry(total, now)];
    }
  }

  lemma ForgetIsUnobservable(m: map<string, Entry>, n: map<string, Entry>, key: string, now: int)
    requires SameReadings(m, n, now) && Reading(m, key, now) == 0
    ensures SameReadings(m - {key}, n, now)
  {
    forall k: string, t | now <= t ensures Reading(m - {key}, k, t) == Reading(n, k, t) {
      assert Reading(m, k, t) == Reading(n, k, t);
      if k == key { ReadingFalls(m, key, now, t); }
    }
  }

  lemma FreshReading(p: nat)
    ensures Decayed(p, 0) == p
  {
    assert Shifted(p, 0) == p;
  }

  /** Whole milliseconds later it has decayed by so many, and never before it was
      recorded. */
  lemma RecordDecays(m: map<string, Entry>, key: string, p: nat, at: int, ms: nat, ns: nat)
    requires ns < NS_PER_MS
    ensures Reading(m[key := Entry(p, at)], key, at + ms * NS_PER_MS + ns) == Decayed(p, ms)
    ensures Reading(m[key := Entry(p, at)], key, at - ns) == p
  {
    FreshReading(p);
  }

  /** Recording in both tables keeps them indistinguishable, and reads back at once. */
  lemma RecordIsSeen(m: map<string, Entry>, n: map<string, Entry>, key: string, p: nat, now: int)
    requires SameReadings(m, n, now)
    ensures SameReadings(m[key := Entry(p, now)], n[key := Entry(p, now)], now)
    ensures Reading(m[key := Entry(p, now)], key, now) == p
  {
    var m', n' := m[key := Entry(p, now)], n[key := Entry(p, now)];
    FreshReading(p);
    forall k: string, t | now <= t ensures Reading(m', k, t) == Reading(n', k, t) {
      assert k != key ==> Reading(m, k, t) == Reading(n, k, t);
    }
  }
}
