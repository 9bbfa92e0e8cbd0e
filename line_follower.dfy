/** The proportional line-following law: the right sensor's reflectance is compared
    with the midpoint of the calibrated black and white levels. */
module LineFollower {

  const ProportionalGain: real := 1.2
  const BlackLevel: int := 9
  const WhiteLevel: int := 85
  /** The midpoint of the two levels; the division is a true (real) division. */
  const BwThreshold: real := (BlackLevel + WhiteLevel) as real / 2.0

  /** The turn rate for one reflectance reading; going backwards flips the sign. */
  function TurnRate(reflection: int, backwards: bool): (t: real)
    ensures t == 0.0 <==> reflection == 47
    ensures !backwards ==> (t > 0.0 <==> reflection > 47)
    ensures backwards ==> (t > 0.0 <==> reflection < 47)
  {
    var deviation := reflection as real - BwThreshold;
    var k := if backwards then -1.0 else 1.0;
    ProportionalGain * deviation * k
  }

  /** The law in closed form: 1.2 times the deviation from 47, negated backwards. */
  lemma TurnRateLaw(reflection: int)
    ensures BwThreshold == 47.0
    ensures TurnRate(reflection, false) == 1.2 * (reflection - 47) as real
    ensures TurnRate(reflection, true) == -TurnRate(reflection, false)
  {
  }

  /** The law is monotone: a brighter reading never steers less to the right going forwards. */
  lemma TurnRateMonotone(r1: int, r2: int)
    requires r1 <= r2
    ensures TurnRate(r1, false) <= TurnRate(r2, false)
    ensures TurnRate(r1, true) >= TurnRate(r2, true)
  {
  }
}
