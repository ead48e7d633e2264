/** Random identifiers cut from 63-bit draws, six bits at a time, the low bits first. */
module Uid {
  import opened Bytes
  import opened Options

  const DIGITS_PER_DRAW: nat := 10

  type Draw = x: int | 0 <= x < 0x8000_0000_0000_0000

  /** Six bits, and those that name a letter. */
  type Digit = x: int | 0 <= x < 64

  type Letter = x: int | 0 <= x < 52

  type Base62 = x: int | 0 <= x < 62

  /** The letters a-z and A-Z, in ASCII. */
  function LetterAt(d: Letter): byte { if d < 26 then 97 + d else 65 + d - 26 }

  /** The characters 0-9, a-z and A-Z, in ASCII. */
  function CharAt(d: Base62): byte { if d < 10 then 48 + d else LetterAt(d - 10) }

  /** The shared source, holding the draws it will still give; an endless one is the limit of longer and longer ones. */
  class Source {
    var rest: seq<Draw>

    constructor (draws: seq<Draw>)
      ensures rest == draws
    {
      rest := draws;
    }

    method Int63() returns (draw: Draw)
      requires rest != []
      modifies this
      ensures draw == old(rest)[0] && rest == old(rest)[1..]
    {
      draw, rest := rest[0], rest[1..];
    }
  }

  /** The `k` lowest six-bit digits of `cache`, lowest first. */
  function Digits(cache: nat, k: nat): (ds: seq<Digit>)
    ensures |ds| == k
  {
    if k == 0 then [] else [cache % 64] + Digits(cache / 64, k - 1)
  }

  /** The digits of a run of draws, ten each. */
  function Stream(draws: seq<Draw>): seq<Digit> {
    if draws == [] then []
    else Stream(draws[..|draws| - 1]) + Digits(draws[|draws| - 1], DIGITS_PER_DRAW)
  }

  /** The digits that name a letter. */
  function Accepted(ds: seq<Digit>): seq<Letter>
  {
    if ds == [] then []
    else
      var rest, d := Accepted(ds[..|ds| - 1]), ds[|ds| - 1];
      if d < 52 then rest + [d] else rest
  }

  lemma {:induction false} AcceptedJoins(a: seq<Digit>, b: seq<Digit>)
    ensures Accepted(a + b) == Accepted(a) + Accepted(b)
    decreases |b|
  {
    if b == [] {
      assert a + b == a;
    } else {
      var front := b[..|b| - 1];
      AcceptedJoins(a, front);
      assert (a + b)[..|a + b| - 1] == a + front;
    }
  }

  /** The first `n` accepted digits as letters, last digit first. */
  ghost function Word(accepted: seq<Letter>, n: nat): Bytes
    requires n <= |accepted|
  {
    seq(n, i requires 0 <= i < n => LetterAt(accepted[n - 1 - i]))
  }

  /** `word` is what the draws `taken` give, and fewer draws do not hold `n` letters. */
  ghost predicate Drawn(taken: seq<Draw>, n: nat, word: Bytes) {
    && taken != []
    && n <= |Accepted(Stream(taken))|
    && word == Word(Accepted(Stream(taken)), n)
    && NeedsLast(taken, n)
  }

  /** A draw beyond the first is taken only for want of letters. */
  ghost predicate NeedsLast(taken: seq<Draw>, n: nat)
    requires taken != []
  {
    |taken| == 1 || |Accepted(Stream(taken[..|taken| - 1]))| < n
  }

  /** `RandStr` has found `letters` in the digits of the draws `taken`; the last `remain` of them are in `cache`. */
  ghost predicate Cut(taken: seq<Draw>, letters: seq<Letter>, cache: nat, remain: nat, n: nat) {
    && taken != []
    && NeedsLast(taken, n)
    && exists seen: seq<Digit> :: Stream(taken) == seen + Digits(cache, remain) && letters == Accepted(seen)
  }

  lemma CutStart(draw: Draw, n: nat)
    ensures Cut([draw], [], draw, DIGITS_PER_DRAW, n)
  {
    assert [draw][..0] == [];
    assert Stream([draw]) == [] + Digits(draw, DIGITS_PER_DRAW);
    assert Accepted([]) == [];
  }

  /** With no digit left and too few letters, another draw is needed. */
  lemma CutNextDraw(taken: seq<Draw>, letters: seq<Letter>, cache: nat, draw: Draw, n: nat)
    requires Cut(taken, letters, cache, 0, n) && |letters| < n
    ensures Cut(taken + [draw], letters, draw, DIGITS_PER_DRAW, n)
  {
    assert (taken + [draw])[..|taken|] == taken;
    var seen: seq<Digit> :| Stream(taken) == seen + Digits(cache, 0) && letters == Accepted(seen);
    assert Stream(taken) == seen;
    assert Stream(taken + [draw]) == Stream(taken) + Digits(draw, DIGITS_PER_DRAW);
  }

  lemma CutOut(taken: seq<Draw>, letters: seq<Letter>, cache: nat, n: nat)
    requires Cut(taken, letters, cache, 0, n)
    ensures Accepted(Stream(taken + [])) == letters
  {
    var seen: seq<Digit> :| Stream(taken) == seen + Digits(cache, 0) && letters == Accepted(seen);
    assert taken + [] == taken && seen + [] == seen;
  }

  lemma CutNextDigit(taken: seq<Draw>, letters: seq<Letter>, cache: nat, remain: nat, n: nat)
    requires Cut(taken, letters, cache, remain, n) && remain > 0
    ensures Cut(taken, letters + (if cache % 64 < 52 then [cache % 64] else []), cache / 64, remain - 1, n)
  {
    var seen: seq<Digit> :| Stream(taken) == seen + Digits(cache, remain) && letters == Accepted(seen);
    var more: seq<Digit> := seen + [cache % 64];
    assert more[..|seen|] == seen;
    assert Stream(taken) == more + Digits(cache / 64, remain - 1);
    assert Accepted(more) == letters + if cache % 64 < 52 then [cache % 64] else [];
  }

  lemma CutEnd(taken: seq<Draw>, letters: seq<Letter>, cache: nat, remain: nat, n: nat, word: Bytes, rest: seq<Draw>)
    requires Cut(taken, letters, cache, remain, n)
    requires |letters| == n && word == Word(letters, n)
    ensures Drawn(taken, n, word)
    ensures |Accepted(Stream(taken + rest))| >= n
  {
    var seen: seq<Digit> :| Stream(taken) == seen + Digits(cache, remain) && letters == Accepted(seen);
    AcceptedJoins(seen, Digits(cache, remain));
    AcceptedGrows(taken, rest);
  }

  /** Takes another draw if no digit is left; fails if there is none. */
  method Refill(src: Source, cache: nat, remain: nat, n: nat, ghost taken: seq<Draw>, ghost letters: seq<Letter>)
    returns (ok: bool, cache': nat, remain': nat, ghost taken': seq<Draw>)
    requires Cut(taken, letters, cache, remain, n) && |letters| < n
    modifies src
    ensures taken' + src.rest == taken + old(src.rest)
    ensures ok ==> remain' > 0 && Cut(taken', letters, cache', remain', n)
    ensures ok ==> |src.rest| < |old(src.rest)| || (src.rest == old(src.rest) && remain' == remain)
    ensures !ok ==> Accepted(Stream(taken' + src.rest)) == letters
  {
    ok, cache', remain', taken' := true, cache, remain, taken;
    if remain == 0 {
      if src.rest == [] {
        CutOut(taken, letters, cache, n);
        ok := false;
        return;
      }
      cache' := src.Int63();
      remain' := DIGITS_PER_DRAW;
      taken' := taken + [cache'];
      CutNextDraw(taken, letters, cache, cache', n);
    }
  }

  /**
   The string is the reverse of the first `n` accepted digits of the stream, and the call takes the
   fewest draws that hold so many, but always one; it cannot end only if the whole stream holds too few.
   */
  method RandStr(src: Source, n: nat) returns (result: Option<Bytes>, ghost taken: seq<Draw>)
    modifies src
    ensures old(src.rest) == taken + src.rest
    ensures result.None? <==> old(src.rest) == [] || |Accepted(Stream(old(src.rest)))| < n
    ensures result.Some? ==> Drawn(taken, n, result.value)
  {
    var b := new byte[n];
    taken := [];
    if src.rest == [] {
      return None, [];
    }
    var cache: nat := src.Int63();
    taken := [cache];
    ghost var letters: seq<Letter> := [];
    CutStart(cache, n);
    var i, remain: nat := n - 1, DIGITS_PER_DRAW;
    while i >= 0
      invariant -1 <= i < n
      invariant Cut(taken, letters, cache, remain, n)
      invariant old(src.rest) == taken + src.rest
      invariant |letters| == n - 1 - i
      invariant forall j | i < j < n :: b[j] == LetterAt(letters[n - 1 - j])
      decreases |src.rest|, remain
    {
      var ok;
      ok, cache, remain, taken := Refill(src, cache, remain, n, taken, letters);
      if !ok {
        return None, taken;
      }
      CutNextDigit(taken, letters, cache, remain, n);
      var idx := cache % 64;
      if idx < 52 {
        letters := letters + [idx];
        b[i] := LetterAt(idx);
        i := i - 1;
      } else {
        assert letters + [] == letters;
      }
      cache := cache / 64;
      remain := remain - 1;
    }
    assert b[..] == Word(letters, n);
    CutEnd(taken, letters, cache, remain, n, b[..], src.rest);
    result := Some(b[..]);
  }

  lemma {:induction false} AcceptedGrows(taken: seq<Draw>, rest: seq<Draw>)
    ensures |Accepted(Stream(taken))| <= |Accepted(Stream(taken + rest))|
    decreases |rest|
  {
    if rest == [] {
      assert taken + rest == taken;
    } else {
      var front, last := rest[..|rest| - 1], rest[|rest| - 1];
      AcceptedGrows(taken, front);
      assert (taken + rest)[..|taken + rest| - 1] == taken + front;
      AcceptedJoins(Stream(taken + front), Digits(last, DIGITS_PER_DRAW));
    }
  }

  // ---- Eight base-62 characters from one draw ----

  /** The digits without the first `skips` of them that are too large. */
  function Skip(ds: seq<Digit>, skips: nat): seq<Digit> {
    if ds == [] then []
    else if ds[0] >= 62 && skips > 0 then Skip(ds[1..], skips - 1)
    else [ds[0]] + Skip(ds[1..], skips)
  }

  lemma {:induction false} SkipLength(ds: seq<Digit>, skips: nat)
    ensures |ds| - skips <= |Skip(ds, skips)| <= |ds|
  {
    if ds != [] {
      SkipLength(ds[1..], if ds[0] >= 62 && skips > 0 then skips - 1 else skips);
    }
  }

  /** A digit's index into the alphabet at place `i`; a large one, 62 or 63, is folded back. */
  function Fold(idx: Digit, i: nat): Base62 {
    if idx < 62 then idx else if idx == 62 then (62 + i) % 62 else (63 + 2 * i) % 62
  }

  /** The character for a digit that is not skipped. */
  method CharFor(digit: Digit, i: nat) returns (c: byte)
    ensures c == CharAt(Fold(digit, i))
  {
    var idx := digit;
    if idx >= 62 {
      idx := (idx + (idx - 61) * i) % 62;
    }
    c := CharAt(idx);
  }

  /** The eight characters for eight digits, the first digit at the last place. */
  ghost function Id8Of(ds: seq<Digit>): Bytes
    requires |ds| >= 8
  {
    seq(8, i requires 0 <= i < 8 => CharAt(Fold(ds[7 - i], i)))
  }

  /** The identifier made from a draw, from its digits alone. */
  ghost function Id8(draw: nat): Bytes {
    SkipLength(Digits(draw, DIGITS_PER_DRAW), 2);
    Id8Of(Skip(Digits(draw, DIGITS_PER_DRAW), 2))
  }

  lemma SkipStep(cache: nat, left: nat, skips: nat)
    requires left > 0
    ensures Skip(Digits(cache, left), skips)
         == if cache % 64 >= 62 && skips > 0 then Skip(Digits(cache / 64, left - 1), skips - 1)
            else [cache % 64] + Skip(Digits(cache / 64, left - 1), skips)
  {
    assert Digits(cache, left)[1..] == Digits(cache / 64, left - 1);
  }

  /** All eight places are filled in at most ten steps, two of which may skip a digit. */
  method RandStr8Base62(src: Source, buf8: array<byte>) returns (result: Bytes, ghost steps: nat)
    requires src.rest != [] && buf8.Length == 8
    modifies src, buf8
    ensures src.rest == old(src.rest)[1..]
    ensures result == buf8[..] == Id8(old(src.rest)[0])
    ensures 8 <= steps <= 10
  {
    var draw := src.Int63();
    steps := FillPlaces(buf8, draw);
    result := buf8[..];
  }

  /** Place `i` is next, `ds` are the digits not skipped, and `rest` those of them still to come. */
  ghost predicate Filling(ds: seq<Digit>, i: int, cache: nat, left: nat, skips: nat) {
    && -1 <= i <= 7 && |ds| >= 8
    && ds[7 - i..] == Skip(Digits(cache, left), skips)
  }

  lemma FillStep(ds: seq<Digit>, i: nat, cache: nat, left: nat, skips: nat)
    requires Filling(ds, i, cache, left, skips) && left > 0
    ensures if cache % 64 >= 62 && skips > 0 then Filling(ds, i, cache / 64, left - 1, skips - 1)
            else Filling(ds, i - 1, cache / 64, left - 1, skips) && Id8Of(ds)[i] == CharAt(Fold(cache % 64, i))
  {
    SkipStep(cache, left, skips);
    if !(cache % 64 >= 62 && skips > 0) {
      IdStep(ds, i, cache % 64, Skip(Digits(cache / 64, left - 1), skips));
    }
  }

  /** The loop over the places, from the last to the first. */
  method FillPlaces(buf8: array<byte>, draw: nat) returns (ghost steps: nat)
    requires buf8.Length == 8
    modifies buf8
    ensures buf8[..] == Id8(draw)
    ensures 8 <= steps <= 10
  {
    var remain, cache, i := 2, draw, 7;
    steps := 0;
    SkipLength(Digits(draw, DIGITS_PER_DRAW), 2);
    ghost var ds := Skip(Digits(draw, DIGITS_PER_DRAW), 2);
    ghost var id := Id8Of(ds);
    while i >= 0
      invariant 0 <= remain <= 2
      invariant steps == 7 - i + 2 - remain
      invariant Filling(ds, i, cache, DIGITS_PER_DRAW - steps, remain)
      invariant forall j | i < j <= 7 :: buf8[j] == id[j]
      decreases i + remain
    {
      FillStep(ds, i, cache, DIGITS_PER_DRAW - steps, remain);
      var idx := cache % 64;
      cache := cache / 64;
      steps := steps + 1;
      if idx >= 62 && remain > 0 {
        remain := remain - 1;
        continue;
      }
      buf8[i] := CharFor(idx, i);
      i := i - 1;
    }
    assert buf8[..] == id;
  }

  lemma IdStep(ds: seq<Digit>, i: nat, idx: Digit, rest: seq<Digit>)
    requires i < 8 <= |ds| && ds[7 - i..] == [idx] + rest
    ensures Id8Of(ds)[i] == CharAt(Fold(idx, i))
    ensures ds[7 - (i - 1)..] == rest
  {
    assert ds[7 - i..][0] == idx;
    assert ds[7 - (i - 1)..] == ds[7 - i..][1..];
  }

  // ---- What an identifier can be ----

  predicate IsBase62(c: byte) { 48 <= c <= 57 || 65 <= c <= 90 || 97 <= c <= 122 }

  function IndexOf(c: byte): (i: Base62)
    requires IsBase62(c)
    ensures CharAt(i) == c
  {
    if c <= 57 then c - 48 else if c <= 90 then c - 65 + 36 else c - 97 + 10
  }

  lemma Id8IsBase62(draw: nat)
    ensures |Id8(draw)| == 8 && forall i | 0 <= i < 8 :: IsBase62(Id8(draw)[i])
  {
    SkipLength(Digits(draw, DIGITS_PER_DRAW), 2);
    CharsAreBase62(Skip(Digits(draw, DIGITS_PER_DRAW), 2));
  }

  lemma CharsAreBase62(ds: seq<Digit>)
    requires |ds| >= 8
    ensures forall i | 0 <= i < 8 :: IsBase62(Id8Of(ds)[i])
  {
    forall i | 0 <= i < 8 ensures IsBase62(Id8Of(ds)[i]) {
      assert Id8Of(ds)[i] == CharAt(Fold(ds[7 - i], i));
    }
  }

  function Pow64(k: nat): (p: nat)
    ensures p > 0
  {
    if k == 0 then 1 else 64 * Pow64(k - 1)
  }

  /** Only the bits below 6k matter for k digits. */
  lemma {:induction false} DigitsUseLowBits(high: nat, low: nat, k: nat)
    ensures Digits(high * Pow64(k) + low, k) == Digits(low, k)
    decreases k
  {
    if k > 0 {
      var h := high * Pow64(k - 1);
      assert high * Pow64(k) == 64 * h by { MulSwap(high, Pow64(k - 1)); }
      assert (64 * h + low) / 64 == h + low / 64;
      assert (64 * h + low) % 64 == low % 64;
      DigitsUseLowBits(high, low / 64, k - 1);
    }
  }

  lemma MulSwap(a: nat, b: nat)
    ensures a * (64 * b) == 64 * (a * b)
  {
  }

  /** The identifier depends on the lowest 60 bits of the draw alone. */
  lemma Id8UsesSixtyBits(high: nat, low: nat)
    ensures Id8(high * Pow64(DIGITS_PER_DRAW) + low) == Id8(low)
  {
    DigitsUseLowBits(high, low, DIGITS_PER_DRAW);
  }

  function Undigits(ds: seq<Digit>): nat {
    if ds == [] then 0 else ds[0] + 64 * Undigits(ds[1..])
  }

  lemma {:induction false} DigitsOfUndigits(ds: seq<Digit>)
    ensures Digits(Undigits(ds), |ds|) == ds && Undigits(ds) < Pow64(|ds|)
  {
    if ds != [] {
      DigitsOfUndigits(ds[1..]);
    }
  }

  lemma {:induction false} SkipKeepsSmall(ds: seq<Digit>, skips: nat)
    requires forall k | 0 <= k < |ds| :: ds[k] < 62
    ensures Skip(ds, skips) == ds
  {
    if ds != [] {
      SkipKeepsSmall(ds[1..], skips);
      assert ds == [ds[0]] + ds[1..];
    }
  }

  function DigitsOf(id: Bytes): (ds: seq<Digit>)
    requires |id| == 8 && forall i | 0 <= i < 8 :: IsBase62(id[i])
    ensures |ds| == 10 && (forall k | 0 <= k < 10 :: ds[k] < 62)
    ensures forall i | 0 <= i < 8 :: ds[7 - i] == IndexOf(id[i])
  {
    seq(10, k requires 0 <= k < 10 => if k < 8 then IndexOf(id[7 - k]) else 0)
  }

  lemma SmallDraw(ds: seq<Digit>) returns (draw: Draw)
    requires |ds| == DIGITS_PER_DRAW && forall k | 0 <= k < |ds| :: ds[k] < 62
    ensures Skip(Digits(draw, DIGITS_PER_DRAW), 2) == ds
  {
    DigitsOfUndigits(ds);
    SkipKeepsSmall(ds, 2);
    PowTen();
    draw := Undigits(ds);
  }

  lemma PowTen()
    ensures Pow64(DIGITS_PER_DRAW) == 0x1000_0000_0000_0000
  {
    assert Pow64(5) == 0x4000_0000;
  }

  /** Every string of eight base-62 characters is the identifier of some draw. */
  lemma EveryIdHasADraw(id: Bytes)
    requires |id| == 8 && forall i | 0 <= i < 8 :: IsBase62(id[i])
    ensures exists draw: Draw :: Id8(draw) == id
  {
    var ds := DigitsOf(id);
    var draw := SmallDraw(ds);
    assert Id8Of(ds) == id by {
      forall i | 0 <= i < 8 ensures Id8Of(ds)[i] == id[i] {
        assert ds[7 - i] == IndexOf(id[i]);
      }
    }
    assert Id8(draw) == id;
  }

  // ---- Skips and alphabets ----

  function Large(ds: seq<Digit>): nat {
    if ds == [] then 0 else (if ds[0] >= 62 then 1 else 0) + Large(ds[1..])
  }

  function Small(ds: seq<Digit>): seq<Digit> {
    if ds == [] then [] else (if ds[0] >= 62 then [] else [ds[0]]) + Small(ds[1..])
  }

  lemma {:induction false} FewLargeAreSkipped(ds: seq<Digit>, skips: nat)
    requires Large(ds) <= skips
    ensures Skip(ds, skips) == Small(ds)
  {
    if ds != [] {
      FewLargeAreSkipped(ds[1..], if ds[0] >= 62 then skips - 1 else skips);
    }
  }

  lemma {:induction false} SmallCount(ds: seq<Digit>)
    ensures |Small(ds)| + Large(ds) == |ds|
    ensures forall k :: 0 <= k < |Small(ds)| ==> Small(ds)[k] < 62
  {
    if ds != [] { SmallCount(ds[1..]); }
  }

  /** If at most two of a draw's ten digits are too large, they are left out and nothing is folded. */
  lemma FewLargeDigits(draw: nat, i: nat)
    requires Large(Digits(draw, DIGITS_PER_DRAW)) <= 2 && i < 8
    ensures var ds := Small(Digits(draw, DIGITS_PER_DRAW));
            && |ds| >= 8
            && ds[7 - i] < 62
            && |Id8(draw)| == 8
            && Id8(draw)[i] == CharAt(ds[7 - i])
  {
    var all := Digits(draw, DIGITS_PER_DRAW);
    FewLargeAreSkipped(all, 2);
    SmallCount(all);
    PlainDigit(Small(all), i);
  }

  lemma PlainDigit(ds: seq<Digit>, i: nat)
    requires |ds| >= 8 && i < 8 && ds[7 - i] < 62
    ensures |Id8Of(ds)| == 8 && Id8Of(ds)[i] == CharAt(ds[7 - i])
  {
    assert Id8Of(ds)[i] == CharAt(Fold(ds[7 - i], i));
  }

  /** The alphabet of identifiers: digits, small letters and capitals, each in ASCII order. */
  lemma Alphabet(d: Base62)
    ensures CharAt(0) == '0' as int && CharAt(10) == 'a' as int && CharAt(36) == 'A' as int
    ensures d != 0 && d != 10 && d != 36 ==> CharAt(d) == CharAt(d - 1) + 1
    ensures d >= 10 ==> LetterAt(d - 10) == CharAt(d)
  {
  }
}
