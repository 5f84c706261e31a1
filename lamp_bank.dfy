/** The moodlight lamp bank: ten colours updated in place, and the wire
    payload that is sent for them. */
module LampBank {
  import opened Colors

  /** Number of lamps in a bank (`MOODLIGHTS_LAMPS`). */
  const LAMPS: nat := 10

  /** The C++ `unsigned int` a lamp number is passed as. */
  type uint32 = x: int | 0 <= x < 0x1_0000_0000

  /** What `set`, `get` and their wrappers throw for a lamp number out of range. */
  datatype LampError = InvalidLamp

  datatype Outcome = Pass | Fail(error: LampError)

  datatype Result<T> = Ok(value: T) | Err(error: LampError)

  // ---------------------------------------------------------------------------
  // Lamp numbers

  /** The lamp numbers that name a slot of the bank: 0 up to, not including, LAMPS. */
  predicate ValidLamp(no: int) {
    0 <= no < LAMPS
  }

  /** The guard as the source writes it: a number passes unless it is greater
      than LAMPS, so LAMPS itself passes. */
  predicate SourceGuardAdmits(no: int) {
    !(no > LAMPS)
  }

  /** The source guard lets through exactly one number that names no lamp:
      LAMPS, one past the last slot. */
  lemma SourceGuardAdmitsOnePastEnd()
    ensures SourceGuardAdmits(LAMPS) && !ValidLamp(LAMPS)
    ensures forall no: uint32 :: SourceGuardAdmits(no) && !ValidLamp(no) <==> no == LAMPS
  {
  }

  // ---------------------------------------------------------------------------
  // The bank as a value

  /** The bank after `set(no, c)`: slot `no` holds `c` when `no` names a lamp,
      and the bank is untouched when it does not. */
  function Assign(bank: seq<Color>, no: int, c: Color): (r: seq<Color>)
    requires |bank| == LAMPS
    ensures |r| == LAMPS
    ensures forall j :: 0 <= j < LAMPS ==> r[j] == if j == no then c else bank[j]
  {
    if ValidLamp(no) then bank[no := c] else bank
  }

  /** A bank in which every lamp shows `c`. */
  function Filled(c: Color): (r: seq<Color>)
    ensures |r| == LAMPS
    ensures forall j :: 0 <= j < LAMPS ==> r[j] == c
  {
    seq(LAMPS, _ => c)
  }

  /** The wire payload of a bank: the R, G, B bytes of each lamp in turn,
      lamp 0 first, copied unchanged. */
  function Payload(bank: seq<Color>): (p: seq<Byte>)
    ensures |p| == 3 * |bank|
  {
    if bank == [] then []
    else
      var last := bank[|bank| - 1];
      Payload(bank[..|bank| - 1]) + [last.r, last.g, last.b]
  }

  /** Byte `m` of the payload is channel `m % 3` of lamp `m / 3`. */
  lemma {:induction false} PayloadAt(bank: seq<Color>, m: nat)
    requires m < 3 * |bank|
    ensures Payload(bank)[m] == bank[m / 3].Channel(m % 3)
  {
    var n := |bank| - 1;
    var init := bank[..n];
    assert Payload(bank) == Payload(init) + [bank[n].r, bank[n].g, bank[n].b];
    if m < 3 * n {
      PayloadAt(init, m);
    } else {
      assert m / 3 == n;
    }
  }

  /** The byte layout: byte `3 * i + k` is channel `k` of lamp `i`. */
  lemma PayloadLayout(bank: seq<Color>, i: nat, k: nat)
    requires i < |bank| && k < 3
    ensures Payload(bank)[3 * i + k] == bank[i].Channel(k)
  {
    PayloadAt(bank, 3 * i + k);
    assert (3 * i + k) / 3 == i && (3 * i + k) % 3 == k;
  }

  /** The payload determines the bank: two banks of one size with the same
      payload hold the same colours. */
  lemma PayloadInjective(a: seq<Color>, b: seq<Color>)
    requires |a| == |b| && Payload(a) == Payload(b)
    ensures a == b
  {
    forall i | 0 <= i < |a| ensures a[i] == b[i] {
      PayloadLayout(a, i, 0); PayloadLayout(b, i, 0);
      PayloadLayout(a, i, 1); PayloadLayout(b, i, 1);
      PayloadLayout(a, i, 2); PayloadLayout(b, i, 2);
    }
  }

  /** Setting one lamp changes only its three payload bytes, which become
      the new colour's channels. */
  lemma PayloadAfterAssign(bank: seq<Color>, no: nat, c: Color, m: nat)
    requires |bank| == LAMPS && ValidLamp(no) && m < 3 * LAMPS
    ensures Payload(Assign(bank, no, c))[m] ==
            if m / 3 == no then c.Channel(m % 3) else Payload(bank)[m]
  {
    PayloadAt(Assign(bank, no, c), m);
    PayloadAt(bank, m);
  }

  /** A bank filled with one colour repeats that colour's bytes; a blank bank
      is thirty zero bytes. */
  lemma PayloadOfFilled(c: Color)
    ensures forall m :: 0 <= m < 3 * LAMPS ==> Payload(Filled(c))[m] == c.Channel(m % 3)
    ensures Payload(Filled(BLACK)) == seq(3 * LAMPS, _ => 0)
  {
    forall m | 0 <= m < 3 * LAMPS ensures Payload(Filled(c))[m] == c.Channel(m % 3) {
      PayloadAt(Filled(c), m);
    }
    forall m | 0 <= m < 3 * LAMPS ensures Payload(Filled(BLACK))[m] == 0 {
      PayloadAt(Filled(BLACK), m);
    }
  }

  // ---------------------------------------------------------------------------
  // Randomness

  /** The process-wide generator behind `::rand()`. Only the bytes it hands out
      are modelled, not how it computes them; `drawn` records them in order. */
  class RandomSource {
    ghost var drawn: seq<Byte>

    constructor ()
      ensures drawn == []
    {
      drawn := [];
    }

    /** `rand_byte()`: an arbitrary byte, the low byte of `::rand()`. */
    method NextByte() returns (v: Byte)
      modifies this
      ensures drawn == old(drawn) + [v]
    {
      v :| true;
      drawn := drawn + [v];
    }
  }

  // ---------------------------------------------------------------------------
  // The lamp bank object

  class Moodlights {
    /** Bus addresses of the sender and of the lamps, fixed at construction. */
    const src: Byte
    const dst: Byte
    /** The lamps; the array itself is never replaced or resized. */
    const lamps: array<Color>

    ghost predicate Valid()
      reads this
    {
      lamps.Length == LAMPS
    }

    /** A bank with the given addresses and every lamp black. */
    constructor (src: Byte, dst: Byte)
      ensures Valid() && fresh(lamps)
      ensures this.src == src && this.dst == dst
      ensures lamps[..] == Filled(BLACK)
    {
      this.src := src;
      this.dst := dst;
      lamps := new Color[LAMPS];
      new;
      SetAll(BLACK);
    }

    /** `rand_color`: a colour from three fresh random bytes, red first. It
        touches no lamp. */
    static method RandColor(rng: RandomSource) returns (c: Color)
      modifies rng
      ensures rng.drawn == old(rng.drawn) + [c.r, c.g, c.b]
    {
      var r := rng.NextByte();
      var g := rng.NextByte();
      var b := rng.NextByte();
      c := Color(r, g, b);
    }

    /** `set`: lamp `no` shows `c` and no other lamp changes; a number that
        names no lamp fails with InvalidLamp and changes nothing. */
    method Set(no: uint32, c: Color) returns (status: Outcome)
      requires Valid()
      modifies lamps
      ensures status == if ValidLamp(no) then Pass else Fail(InvalidLamp)
      ensures lamps[..] == Assign(old(lamps[..]), no, c)
      ensures ValidLamp(no) ==> Get(no) == Ok(c)
      ensures forall j: uint32 :: j != no ==> Get(j) == old(Get(j))
    {
      if no >= LAMPS {
        return Fail(InvalidLamp);
      }
      lamps[no] := c;
      status := Pass;
    }

    /** `set_all`: `set` on every lamp in turn; afterwards every lamp shows `c`. */
    method SetAll(c: Color)
      requires Valid()
      modifies lamps
      ensures lamps[..] == Filled(c)
    {
      for i := 0 to LAMPS
        invariant forall j :: 0 <= j < i ==> lamps[j] == c
      {
        var status := Set(i, c);
        assert status == Pass;
      }
    }

    /** `get`: the colour of lamp `no`, or InvalidLamp when `no` names no lamp. */
    function Get(no: uint32): (r: Result<Color>)
      requires Valid()
      reads this, lamps
      ensures r.Ok? <==> ValidLamp(no)
      ensures r.Ok? ==> r.value == lamps[no]
    {
      if no < LAMPS then Ok(lamps[no]) else Err(InvalidLamp)
    }

    /** `blank`: `set(no, BLACK)`. */
    method Blank(no: uint32) returns (status: Outcome)
      requires Valid()
      modifies lamps
      ensures status == if ValidLamp(no) then Pass else Fail(InvalidLamp)
      ensures lamps[..] == Assign(old(lamps[..]), no, BLACK)
    {
      status := Set(no, BLACK);
    }

    /** `blank_all`: `set_all(BLACK)`. */
    method BlankAll()
      requires Valid()
      modifies lamps
      ensures lamps[..] == Filled(BLACK)
    {
      SetAll(BLACK);
    }

    /** `rand`: draws a random colour, then sets lamp `no` to it. The three
        bytes are drawn even when `no` names no lamp. */
    method Rand(no: uint32, rng: RandomSource) returns (status: Outcome)
      requires Valid()
      modifies lamps, rng
      ensures status == if ValidLamp(no) then Pass else Fail(InvalidLamp)
      ensures |rng.drawn| == |old(rng.drawn)| + 3
      ensures rng.drawn[..|old(rng.drawn)|] == old(rng.drawn)
      ensures
        var n := |old(rng.drawn)|;
        lamps[..] == Assign(old(lamps[..]), no, Color(rng.drawn[n], rng.drawn[n + 1], rng.drawn[n + 2]))
    {
      var c := RandColor(rng);
      status := Set(no, c);
    }

    /** `rand_all`: every lamp in turn gets a random colour. The bank's
        payload is then exactly the thirty bytes drawn, in draw order. */
    method RandAll(rng: RandomSource)
      requires Valid()
      modifies lamps, rng
      ensures |rng.drawn| == |old(rng.drawn)| + 3 * LAMPS
      ensures rng.drawn[..|old(rng.drawn)|] == old(rng.drawn)
      ensures Payload(lamps[..]) == rng.drawn[|old(rng.drawn)|..]
    {
      ghost var start := |rng.drawn|;
      for i := 0 to LAMPS
        invariant |rng.drawn| == start + 3 * i
        invariant rng.drawn[..start] == old(rng.drawn)
        invariant Payload(lamps[..i]) == rng.drawn[start..]
      {
        var c := RandColor(rng);
        lamps[i] := c;
        assert lamps[..i + 1][..i] == lamps[..i];
      }
      assert lamps[..LAMPS] == lamps[..];
    }

    /** `get_payload`: a fresh 30-byte buffer holding the R, G, B bytes of
        each lamp in lamp order. It changes no lamp. */
    method GetPayload() returns (p: seq<Byte>)
      requires Valid()
      ensures |p| == 3 * LAMPS
      ensures forall m :: 0 <= m < |p| ==> p[m] == lamps[m / 3].Channel(m % 3)
      ensures p == Payload(lamps[..])
    {
      var payload := new Byte[LAMPS * 3];
      for i := 0 to LAMPS
        invariant forall m :: 0 <= m < 3 * i ==> payload[m] == lamps[m / 3].Channel(m % 3)
      {
        payload[i * 3] := lamps[i].r;
        payload[i * 3 + 1] := lamps[i].g;
        payload[i * 3 + 2] := lamps[i].b;
      }
      p := payload[..];
      forall m | 0 <= m < |p| ensures p[m] == Payload(lamps[..])[m] {
        PayloadAt(lamps[..], m);
      }
    }
  }
}
