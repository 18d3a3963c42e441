/**
 * The simulated time-speed multiplier of `celestialSphere.Update`: the P key
 * climbs a ladder ... -4, -2, -1, 0, 1, 2, 4 ... toward `maxTimeSpeed`, the
 * O key climbs down toward `-maxTimeSpeed`.
 */
module TimeSpeed {
  import opened Arith

  /** One key press handled by the time-speed control. */
  datatype Key = P | O

  /** The new speed after a P press (celestialSphere.cs:461-469). */
  function SpeedUp(speed: int, maxSpeed: int): (r: int)
    ensures speed < maxSpeed ==> r > speed
    ensures speed >= maxSpeed ==> r == speed
  {
    if speed < maxSpeed then
      if speed < -1 then TruncDiv(speed, 2)
      else if speed > -2 && speed < 2 then speed + 1
      else speed * 2
    else speed
  }

  /** The new speed after an O press (celestialSphere.cs:470-478). */
  function SlowDown(speed: int, maxSpeed: int): (r: int)
    ensures speed > -maxSpeed ==> r < speed
    ensures speed <= -maxSpeed ==> r == speed
  {
    if speed > -maxSpeed then
      if speed > 1 then TruncDiv(speed, 2)
      else if speed > -2 && speed < 2 then speed - 1
      else speed * 2
    else speed
  }

  /** O is P seen in a mirror: slowing down x is speeding up -x, negated. */
  lemma SlowDownMirrorsSpeedUp(speed: int, maxSpeed: int)
    ensures SlowDown(speed, maxSpeed) == -SpeedUp(-speed, maxSpeed)
  {
    TruncDivNegate(speed, 2);
  }

  predicate IsPowerOfTwo(n: int)
    decreases if n < 0 then 0 else n
  {
    n == 1 || (n >= 2 && n % 2 == 0 && IsPowerOfTwo(n / 2))
  }

  /** The rungs of the ladder: zero and the signed powers of two up to the maximum. */
  predicate OnLadder(speed: int, maxSpeed: int)
  {
    speed == 0 || (IsPowerOfTwo(Abs(speed)) && Abs(speed) <= maxSpeed)
  }

  /** Between two powers of two there is room for a doubling. */
  lemma {:induction false} PowerOfTwoGap(a: int, b: int)
    requires IsPowerOfTwo(a) && IsPowerOfTwo(b) && a < b
    ensures 2 * a <= b
  {
    if a != 1 {
      PowerOfTwoGap(a / 2, b / 2);
    }
  }

  /** Halving an even negative speed, truncating or not, gives the same value. */
  lemma HalveEven(speed: int)
    requires speed < 0 && Abs(speed) % 2 == 0
    ensures TruncDiv(speed, 2) == -(Abs(speed) / 2)
  {
  }

  /** Both keys keep the speed on the ladder when the maximum is a power of two. */
  lemma LadderClosed(speed: int, maxSpeed: int)
    requires IsPowerOfTwo(maxSpeed) && OnLadder(speed, maxSpeed)
    ensures OnLadder(SpeedUp(speed, maxSpeed), maxSpeed)
    ensures OnLadder(SlowDown(speed, maxSpeed), maxSpeed)
  {
    LadderClosedUp(speed, maxSpeed);
    LadderClosedDown(speed, maxSpeed);
  }

  lemma LadderClosedDown(speed: int, maxSpeed: int)
    requires IsPowerOfTwo(maxSpeed) && OnLadder(speed, maxSpeed)
    ensures OnLadder(SlowDown(speed, maxSpeed), maxSpeed)
  {
    OnLadderNegate(speed, maxSpeed);
    LadderClosedUp(-speed, maxSpeed);
    var up := SpeedUp(-speed, maxSpeed);
    SlowDownMirrorsSpeedUp(speed, maxSpeed);
    OnLadderNegate(up, maxSpeed);
  }

  lemma OnLadderNegate(speed: int, maxSpeed: int)
    ensures OnLadder(-speed, maxSpeed) == OnLadder(speed, maxSpeed)
  {
    assert Abs(-speed) == Abs(speed);
  }

  lemma LadderClosedUp(speed: int, maxSpeed: int)
    requires IsPowerOfTwo(maxSpeed) && OnLadder(speed, maxSpeed)
    ensures OnLadder(SpeedUp(speed, maxSpeed), maxSpeed)
  {
    if speed < maxSpeed {
      if speed < -1 {
        HalveEven(speed);
      } else if speed >= 2 {
        PowerOfTwoGap(speed, maxSpeed);
        assert (2 * speed) / 2 == speed;
      } else if speed == 1 {
        PowerOfTwoGap(1, maxSpeed);
      }
    }
  }

  /** On the ladder, O undoes a P press that was not blocked by the maximum. */
  lemma SpeedUpThenSlowDown(speed: int, maxSpeed: int)
    requires IsPowerOfTwo(maxSpeed) && OnLadder(speed, maxSpeed) && speed < maxSpeed
    ensures SlowDown(SpeedUp(speed, maxSpeed), maxSpeed) == speed
  {
    if speed < -1 {
      HalveEven(speed);
      var half := SpeedUp(speed, maxSpeed);
      assert -maxSpeed < half <= -1;
      if half < -1 {
        assert SlowDown(half, maxSpeed) == half * 2;
      }
    } else if speed >= 2 {
      PowerOfTwoGap(speed, maxSpeed);
      assert SpeedUp(speed, maxSpeed) == 2 * speed > 1;
      assert TruncDiv(2 * speed, 2) == speed;
    }
  }

  /** On the ladder, P undoes an O press that was not blocked by the minimum. */
  lemma SlowDownThenSpeedUp(speed: int, maxSpeed: int)
    requires IsPowerOfTwo(maxSpeed) && OnLadder(speed, maxSpeed) && speed > -maxSpeed
    ensures SpeedUp(SlowDown(speed, maxSpeed), maxSpeed) == speed
  {
    OnLadderNegate(speed, maxSpeed);
    SpeedUpThenSlowDown(-speed, maxSpeed);
    SlowDownMirrorsSpeedUp(speed, maxSpeed);
    SlowDownMirrorsSpeedUp(SpeedUp(-speed, maxSpeed), maxSpeed);
  }

  /** The speed after a sequence of key presses. */
  function Run(speed: int, keys: seq<Key>, maxSpeed: int): int
    decreases |keys|
  {
    if keys == [] then speed
    else
      var next := if keys[0] == P then SpeedUp(speed, maxSpeed) else SlowDown(speed, maxSpeed);
      Run(next, keys[1..], maxSpeed)
  }

  /**
   * From the initial speed 1 and a power-of-two maximum, every speed any
   * sequence of presses reaches is a rung of the ladder, hence bounded.
   */
  lemma {:induction false} ReachableOnLadder(speed: int, keys: seq<Key>, maxSpeed: int)
    requires IsPowerOfTwo(maxSpeed) && OnLadder(speed, maxSpeed)
    ensures OnLadder(Run(speed, keys, maxSpeed), maxSpeed)
    ensures Abs(Run(speed, keys, maxSpeed)) <= maxSpeed
    decreases |keys|
  {
    if keys != [] {
      LadderClosed(speed, maxSpeed);
      var next := if keys[0] == P then SpeedUp(speed, maxSpeed) else SlowDown(speed, maxSpeed);
      ReachableOnLadder(next, keys[1..], maxSpeed);
    }
  }

  lemma DefaultMaximumIsPowerOfTwo()
    ensures IsPowerOfTwo(4096)
  {
    assert IsPowerOfTwo(1) && IsPowerOfTwo(2) && IsPowerOfTwo(4) && IsPowerOfTwo(8);
    assert IsPowerOfTwo(16) && IsPowerOfTwo(32) && IsPowerOfTwo(64) && IsPowerOfTwo(128);
    assert IsPowerOfTwo(256) && IsPowerOfTwo(512) && IsPowerOfTwo(1024) && IsPowerOfTwo(2048);
  }

  /** The time-speed state of the `celestialSphere` component. */
  class TimeControl {
    var timeSpeed: int
    var maxTimeSpeed: int

    /** The speed is a rung of the ladder of a power-of-two maximum. */
    ghost predicate Valid()
      reads this
    {
      IsPowerOfTwo(maxTimeSpeed) && OnLadder(timeSpeed, maxTimeSpeed)
    }

    /** The initial values of the fields (celestialSphere.cs:361-362). */
    constructor ()
      ensures timeSpeed == 1 && maxTimeSpeed == 4096
      ensures Valid()
    {
      timeSpeed := 1;
      maxTimeSpeed := 4096;
      DefaultMaximumIsPowerOfTwo();
    }

    /** The P branch of `Update`. */
    method PressP()
      modifies this`timeSpeed
      ensures timeSpeed == SpeedUp(old(timeSpeed), maxTimeSpeed)
      ensures old(Valid()) ==> Valid()
    {
      if old(Valid()) {
        LadderClosed(timeSpeed, maxTimeSpeed);
      }
      if timeSpeed < maxTimeSpeed {
        if timeSpeed < -1 {
          timeSpeed := TruncDiv(timeSpeed, 2);
        } else if timeSpeed > -2 && timeSpeed < 2 {
          timeSpeed := timeSpeed + 1;
        } else {
          timeSpeed := timeSpeed * 2;
        }
      }
    }

    /** The O branch of `Update`. */
    method PressO()
      modifies this`timeSpeed
      ensures timeSpeed == SlowDown(old(timeSpeed), maxTimeSpeed)
      ensures old(Valid()) ==> Valid()
    {
      if old(Valid()) {
        LadderClosed(timeSpeed, maxTimeSpeed);
      }
      if timeSpeed > -maxTimeSpeed {
        if timeSpeed > 1 {
          timeSpeed := TruncDiv(timeSpeed, 2);
        } else if timeSpeed > -2 && timeSpeed < 2 {
          timeSpeed := timeSpeed - 1;
        } else {
          timeSpeed := timeSpeed * 2;
        }
      }
    }

    /**
     * One frame of `Update`: the P and O tests are independent, so when both
     * keys go down together `SlowDown` applies to the result of `SpeedUp`.
     */
    method Update(keyP: bool, keyO: bool)
      modifies this`timeSpeed
      ensures var afterP := if keyP then SpeedUp(old(timeSpeed), maxTimeSpeed) else old(timeSpeed);
              timeSpeed == if keyO then SlowDown(afterP, maxTimeSpeed) else afterP
      ensures timeSpeed == Run(old(timeSpeed), (if keyP then [P] else []) + (if keyO then [O] else []), maxTimeSpeed)
      ensures old(Valid()) ==> Valid()
    {
      ghost var keys := (if keyP then [P] else []) + (if keyO then [O] else []);
      ghost var rest := if keyP then keys[1..] else keys;
      if keyP {
        PressP();
      }
      assert Run(old(timeSpeed), keys, maxTimeSpeed) == Run(timeSpeed, rest, maxTimeSpeed);
      if keyO {
        PressO();
      }
      assert Run(old(timeSpeed), keys, maxTimeSpeed) == timeSpeed;
    }
  }
}
