/**
 Timestamps as the API writes them, and what comparing them as text does.

 A time is written to the second, then a fraction of six digits unless the microseconds are zero, then
 "Z". In text "." sorts before "Z", so within one second a whole second sorts after every fraction.
 */
module Timestamps {
  import opened Ordering
  import opened Contract

  type Micros = x: int | 0 <= x < 1_000_000

  datatype Stamp = Stamp(second: int, micros: Micros)

  predicate Earlier(a: Stamp, b: Stamp) { a.second < b.second || (a.second == b.second && a.micros < b.micros) }

  /** `n` in `width` digits, zeros in front. */
  function Padded(n: nat, width: nat): (s: string)
    ensures |s| == width
  {
    if width == 0 then "" else Padded(n / 10, width - 1) + [Digit(n % 10)]
  }

  function Fraction(m: Micros): string { if m == 0 then "Z" else "." + (Padded(m, 6) + "Z") }

  /** `clock` writes a time to the second. */
  function Text(clock: int -> string, s: Stamp): string { clock(s.second) + Fraction(s.micros) }

  /** Nineteen characters that sort as the seconds do: four digits of year down to two of second. */
  ghost predicate Chronological(clock: int -> string) {
    && (forall s :: |clock(s)| == 19)
    && (forall s, t :: s < t ==> StrLess(clock(s), clock(t)))
  }

  /** The order of the texts. */
  predicate TextLess(a: Stamp, b: Stamp) {
    a.second < b.second || (a.second == b.second && a.micros != 0 && (b.micros == 0 || a.micros < b.micros))
  }

  lemma {:induction false} SamePrefix(p: string, a: string, b: string)
    ensures StrLess(p + a, p + b) <==> StrLess(a, b)
  {
    if p == "" {
      assert p + a == a && p + b == b;
    } else {
      SamePrefix(p[1..], a, b);
      assert (p + a)[1..] == p[1..] + a && (p + b)[1..] == p[1..] + b;
    }
  }

  lemma {:induction false} EarlierPrefix(p: string, q: string, a: string, b: string)
    requires |p| == |q| && StrLess(p, q)
    ensures StrLess(p + a, q + b)
  {
    if p[0] == q[0] {
      EarlierPrefix(p[1..], q[1..], a, b);
      assert (p + a)[1..] == p[1..] + a && (q + b)[1..] == q[1..] + b;
    }
  }

  function TenTo(k: nat): nat { if k == 0 then 1 else 10 * TenTo(k - 1) }

  lemma {:induction false} PaddedOrder(m: nat, n: nat, width: nat)
    requires m < n < TenTo(width)
    ensures StrLess(Padded(m, width), Padded(n, width))
  {
    var p, q := Padded(m / 10, width - 1), Padded(n / 10, width - 1);
    if m / 10 < n / 10 {
      PaddedOrder(m / 10, n / 10, width - 1);
      EarlierPrefix(p, q, [Digit(m % 10)], [Digit(n % 10)]);
    } else {
      SamePrefix(p, [Digit(m % 10)], [Digit(n % 10)]);
    }
  }

  lemma FractionOrder(a: Micros, b: Micros)
    ensures StrLess(Fraction(a), Fraction(b)) <==> a != 0 && (b == 0 || a < b)
  {
    assert TenTo(1) == 10 && TenTo(2) == 100 && TenTo(3) == 1000 && TenTo(4) == 10_000 && TenTo(5) == 100_000;
    if a != 0 && b != 0 {
      var x, y := Padded(a, 6), Padded(b, 6);
      SamePrefix(".", x + "Z", y + "Z");
      if a < b {
        PaddedOrder(a, b, 6);
        EarlierPrefix(x, y, "Z", "Z");
      } else {
        if b < a {
          PaddedOrder(b, a, 6);
          EarlierPrefix(y, x, "Z", "Z");
        }
        StrLessTrichotomy(x + "Z", y + "Z");
      }
    }
  }

  /** Comparing the texts is comparing by second, and within a second a whole one comes last. */
  lemma TextOrder(clock: int -> string, a: Stamp, b: Stamp)
    requires Chronological(clock)
    ensures StrLess(Text(clock, a), Text(clock, b)) <==> TextLess(a, b)
  {
    hide Fraction;
    var p, q, x, y := clock(a.second), clock(b.second), Fraction(a.micros), Fraction(b.micros);
    if a.second < b.second {
      EarlierPrefix(p, q, x, y);
    } else if b.second < a.second {
      EarlierPrefix(q, p, y, x);
      StrLessTrichotomy(p + x, q + y);
    } else {
      SamePrefix(p, x, y);
      FractionOrder(a.micros, b.micros);
    }
  }

  /** The order of the texts is the order in time unless, within one second, exactly one of the two is whole. */
  lemma TextIsTimeIff(a: Stamp, b: Stamp)
    ensures (TextLess(a, b) <==> Earlier(a, b)) <==> !(a.second == b.second && (a.micros == 0) != (b.micros == 0))
  {
  }

  /** Half a second past sorts before the second itself. */
  lemma HalfPastSortsFirst()
    ensures StrLess("2026-01-01T00:00:00.500000Z", "2026-01-01T00:00:00Z")
    ensures forall s :: TextLess(Stamp(s, 500_000), Stamp(s, 0)) && Earlier(Stamp(s, 0), Stamp(s, 500_000))
  {
    var p := "2026-01-01T00:00:00";
    SamePrefix(p, ".500000Z", "Z");
    assert p + ".500000Z" == "2026-01-01T00:00:00.500000Z" && p + "Z" == "2026-01-01T00:00:00Z";
  }

  /** Stamps numbered in text order. */
  function Rank(s: Stamp): int { s.second * 1_000_000 + if s.micros == 0 then 999_999 else s.micros - 1 }

  lemma RankOrder(a: Stamp, b: Stamp)
    ensures Rank(a) < Rank(b) <==> TextLess(a, b)
    ensures Rank(a) == Rank(b) <==> a == b
  {
  }

  /** `f` comes first in text among `ts`; `l` last. */
  predicate FirstInText(ts: seq<Stamp>, f: Stamp) { f in ts && forall t :: t in ts ==> !TextLess(t, f) }

  predicate LastInText(ts: seq<Stamp>, l: Stamp) { l in ts && forall t :: t in ts ==> !TextLess(l, t) }

  /** What comes first in text is the earliest unless it has a fraction and its second also occurs whole. */
  lemma FirstIsEarliestIff(ts: seq<Stamp>, f: Stamp)
    requires FirstInText(ts, f)
    ensures (forall t :: t in ts ==> !Earlier(t, f)) <==> (f.micros == 0 || Stamp(f.second, 0) !in ts)
  {
    assert f.micros != 0 ==> Earlier(Stamp(f.second, 0), f);
    forall t | t in ts ensures Earlier(t, f) ==> f.micros != 0 && t == Stamp(f.second, 0) {
      assert !TextLess(t, f);
    }
  }

  /** What comes last in text is the latest unless it is whole and its second also occurs with a fraction. */
  lemma LastIsLatestIff(ts: seq<Stamp>, l: Stamp)
    requires LastInText(ts, l)
    ensures (forall t :: t in ts ==> !Earlier(l, t)) <==>
      (l.micros != 0 || forall t :: t in ts ==> t.second != l.second || t.micros == 0)
  {
    forall t | t in ts ensures Earlier(l, t) <==> l.micros == 0 && t.second == l.second && t.micros != 0 {
      assert !TextLess(l, t);
    }
  }
}
