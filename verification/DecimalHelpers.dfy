/** Quantization of exact decimals, which rounds toward zero. */
module DecimalHelpers {

  /** Round toward zero to an integer. */
  function RoundDown(x: real): (n: int)
    ensures x >= 0.0 ==> 0 <= n && n as real <= x < n as real + 1.0
    ensures x <= 0.0 ==> n <= 0 && n as real - 1.0 < x <= n as real
  {
    if x >= 0.0 then x.Floor else -((-x).Floor)
  }

  /** A whole number of mills (0.001). */
  predicate IsPriceTick(x: real) {
    (x * 1000.0).Floor as real == x * 1000.0
  }

  /** A whole number of micro-units (0.000001). */
  predicate IsSizeTick(x: real) {
    (x * 1000000.0).Floor as real == x * 1000000.0
  }

  function QuantizePrice(value: real): (r: real)
    ensures IsPriceTick(r)
    ensures value >= 0.0 ==> 0.0 <= r <= value < r + 0.001
    ensures value <= 0.0 ==> r - 0.001 < value <= r <= 0.0
  {
    var units := RoundDown(value * 1000.0) as real;
    assert units / 1000.0 * 1000.0 == units;
    units / 1000.0
  }

  function QuantizeSize(value: real): (r: real)
    ensures IsSizeTick(r)
    ensures value >= 0.0 ==> 0.0 <= r <= value < r + 0.000001
    ensures value <= 0.0 ==> r - 0.000001 < value <= r <= 0.0
  {
    var units := RoundDown(value * 1000000.0) as real;
    assert units / 1000000.0 * 1000000.0 == units;
    units / 1000000.0
  }

  function UsdcFromRaw(raw: int): real {
    raw as real / 1000000.0
  }

  lemma RoundDownBound(x: real, n: int)
    ensures 0.0 <= x && n as real <= x ==> n <= RoundDown(x)
    ensures x <= 0.0 && x <= n as real ==> RoundDown(x) <= n
    ensures x == n as real ==> RoundDown(x) == n
  {
  }

  /** Quantizing keeps every tick on the near side of the value where it was. */
  lemma PriceTickBound(value: real, tick: real)
    requires IsPriceTick(tick)
    ensures 0.0 <= value && tick <= value ==> tick <= QuantizePrice(value)
    ensures value <= 0.0 && value <= tick ==> QuantizePrice(value) <= tick
    ensures value == tick ==> QuantizePrice(value) == tick
  {
    var n := (tick * 1000.0).Floor;
    RoundDownBound(value * 1000.0, n);
    var units := RoundDown(value * 1000.0) as real;
    assert tick == n as real / 1000.0 && QuantizePrice(value) == units / 1000.0;
  }

  lemma SizeTickBound(value: real, tick: real)
    requires IsSizeTick(tick)
    ensures 0.0 <= value && tick <= value ==> tick <= QuantizeSize(value)
    ensures value <= 0.0 && value <= tick ==> QuantizeSize(value) <= tick
    ensures value == tick ==> QuantizeSize(value) == tick
  {
    var n := (tick * 1000000.0).Floor;
    RoundDownBound(value * 1000000.0, n);
    var units := RoundDown(value * 1000000.0) as real;
    assert tick == n as real / 1000000.0 && QuantizeSize(value) == units / 1000000.0;
  }

  /** A raw balance counts micro-dollars from zero, a million to the dollar; it enters exactly: quantizing
      it changes nothing, sums are kept, and no two raw amounts are confused. */
  lemma UsdcFromRawIsExact(raw: int, other: int)
    ensures UsdcFromRaw(0) == 0.0 && UsdcFromRaw(1_000_000) == 1.0
    ensures UsdcFromRaw(raw + 1) == UsdcFromRaw(raw) + 0.000001
    ensures UsdcFromRaw(raw + other) == UsdcFromRaw(raw) + UsdcFromRaw(other)
    ensures QuantizeSize(UsdcFromRaw(raw)) == UsdcFromRaw(raw)
    ensures UsdcFromRaw(raw) < UsdcFromRaw(other) <==> raw < other
  {
    var x := UsdcFromRaw(raw);
    assert x * 1000000.0 == raw as real;
    assert IsSizeTick(x);
    SizeTickBound(x, x);
  }
}
