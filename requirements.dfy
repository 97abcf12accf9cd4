/** The advisory requirement figures of pump.py: pond drainage flow (pump.py:221-223), the flow and
    total dynamic head proposed from the application inputs (pump.py:235-240), and the floor and
    faucet counts estimated back from the manual figures (pump.py:262-264). */
module Requirements {

  /** Litres each faucet draws per minute and metres of head each floor adds. */
  const LPM_PER_FAUCET: real := 15.0
  const METRES_PER_FLOOR: real := 3.5

  const BOOSTER: string := "Booster"

  /** Pond volume in litres from its dimensions in metres. */
  function PondVolume(length: real, width: real, height: real): real {
    length * width * height * 1000.0
  }

  /** The drain time in minutes. */
  function DrainMinutes(hours: real): real {
    hours * 60.0
  }

  /** The flow that drains the pond in the given time; 0 when the time is not positive. */
  function PondFlow(length: real, width: real, height: real, hours: real): (lpm: real)
    ensures DrainMinutes(hours) > 0.0 ==> lpm * DrainMinutes(hours) == PondVolume(length, width, height)
    ensures DrainMinutes(hours) <= 0.0 ==> lpm == 0.0
  {
    var minutes := DrainMinutes(hours);
    if minutes > 0.0 then PondVolume(length, width, height) / minutes else 0.0
  }

  /** With non-negative dimensions the drainage flow is not negative. */
  lemma PondFlowNonNegative(length: real, width: real, height: real, hours: real)
    requires length >= 0.0 && width >= 0.0 && height >= 0.0
    ensures PondFlow(length, width, height, hours) >= 0.0
  {
    var v := PondVolume(length, width, height);
    assert length * width >= 0.0;
    assert length * width * height >= 0.0;
    assert v >= 0.0;
    var m := DrainMinutes(hours);
    if m > 0.0 {
      assert v / m >= 0.0;
    }
  }

  /** A 2 m by 1.5 m by 1 m pond holds 3000 L; draining it in 2 hours takes 25 L/min. */
  lemma PondExample()
    ensures PondVolume(2.0, 1.5, 1.0) == 3000.0
    ensures DrainMinutes(2.0) == 120.0
    ensures PondFlow(2.0, 1.5, 1.0, 2.0) == 25.0
  {
  }

  /** The advisory flow (L/min) and total dynamic head (m). For a booster the flow is the larger of
      the faucet demand and the drainage flow, and the head the larger of the floor head and the
      pond height; otherwise the flow is the drainage flow and the head the pump depth when it is
      positive, else the pond height. */
  function AutoRequirement(category: string, faucets: int, floors: int, pondLpm: real,
                           pondHeight: real, depth: real): (r: (real, real))
    ensures category == BOOSTER ==>
      && r.0 >= faucets as real * LPM_PER_FAUCET && r.0 >= pondLpm
      && (r.0 == faucets as real * LPM_PER_FAUCET || r.0 == pondLpm)
      && r.1 >= floors as real * METRES_PER_FLOOR && r.1 >= pondHeight
      && (r.1 == floors as real * METRES_PER_FLOOR || r.1 == pondHeight)
    ensures category != BOOSTER ==>
      && r.0 == pondLpm
      && r.1 == (if depth > 0.0 then depth else pondHeight)
  {
    if category == BOOSTER then
      (Max(faucets as real * 15.0, pondLpm), Max(floors as real * 3.5, pondHeight))
    else
      (pondLpm, if depth > 0.0 then depth else pondHeight)
  }

  function Max(a: real, b: real): real {
    if a >= b then a else b
  }

  /** Non-negative inputs give a non-negative advisory flow and head. */
  lemma AutoRequirementNonNegative(category: string, faucets: int, floors: int, pondLpm: real,
                                   pondHeight: real, depth: real)
    requires faucets >= 0 && floors >= 0 && pondLpm >= 0.0 && pondHeight >= 0.0 && depth >= 0.0
    ensures AutoRequirement(category, faucets, floors, pondLpm, pondHeight, depth).0 >= 0.0
    ensures AutoRequirement(category, faucets, floors, pondLpm, pondHeight, depth).1 >= 0.0
  {
  }

  /** Ten floors and five faucets with no pond ask for 75 L/min at 35 m. */
  lemma BoosterExample()
    ensures AutoRequirement(BOOSTER, 5, 10, PondFlow(0.0, 0.0, 0.0, 0.01), 0.0, 0.0) == (75.0, 35.0)
  {
  }

  /** Python's `round(x)`: the nearest integer, ties going to the even one. */
  function RoundHalfEven(x: real): (n: int)
    ensures -0.5 <= n as real - x <= 0.5
    ensures (n as real - x == 0.5 || x - n as real == 0.5) ==> n % 2 == 0
  {
    var f := x.Floor;
    var d := x - f as real;
    if d < 0.5 then f
    else if d > 0.5 then f + 1
    else if f % 2 == 0 then f else f + 1
  }

  /** `n` units of size `unit` lie exactly half a unit away from `x`: a tie for rounding. */
  predicate HalfAway(n: int, x: real, unit: real) {
    n as real * unit - x == 0.5 * unit || x - n as real * unit == 0.5 * unit
  }

  /** The number of floors a head stands for; 0 when the head is not positive. */
  function EstimatedFloors(head: real): (n: int)
    ensures head > 0.0 ==> n >= 0 && -0.5 * METRES_PER_FLOOR <= n as real * METRES_PER_FLOOR - head <= 0.5 * METRES_PER_FLOOR
    ensures head > 0.0 && HalfAway(n, head, METRES_PER_FLOOR) ==> n % 2 == 0
    ensures head <= 0.0 ==> n == 0
  {
    if head > 0.0 then RoundHalfEven(head / 3.5) else 0
  }

  /** The number of faucets a flow stands for; 0 when the flow is not positive. */
  function EstimatedFaucets(flow: real): (n: int)
    ensures flow > 0.0 ==> n >= 0 && -0.5 * LPM_PER_FAUCET <= n as real * LPM_PER_FAUCET - flow <= 0.5 * LPM_PER_FAUCET
    ensures flow > 0.0 && HalfAway(n, flow, LPM_PER_FAUCET) ==> n % 2 == 0
    ensures flow <= 0.0 ==> n == 0
  {
    if flow > 0.0 then RoundHalfEven(flow / 15.0) else 0
  }

  /** Estimating the floors of the head proposed for whole floors gives those floors back. */
  lemma EstimateInvertsFloorHead(floors: nat)
    ensures EstimatedFloors(floors as real * METRES_PER_FLOOR) == floors
  {
  }

  /** Estimating the faucets of the flow proposed for whole faucets gives those faucets back. */
  lemma EstimateInvertsFaucetFlow(faucets: nat)
    ensures EstimatedFaucets(faucets as real * LPM_PER_FAUCET) == faucets
  {
  }

  /** Halfway between two counts, the even one is taken: 8.75 m is 2.5 floors and 37.5 L/min is
      2.5 faucets, and both round to 2. */
  lemma EstimateTieExample()
    ensures EstimatedFloors(8.75) == 2
    ensures EstimatedFaucets(37.5) == 2
  {
  }
}
