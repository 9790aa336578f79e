/**
 * The deterministic part of the simulator's random-variate generation and its
 * rate arithmetic.  A draw from Exponential(rate) is computed by inverse
 * transform as (1/rate) * -ln(1 - U); the random factor -ln(1 - U), a
 * standard exponential variate, is supplied here as `unit`.
 */
module Sampling {

  /** Default average packet length in bits (AVERAGE_LENGTH). */
  const AverageLength: real := 2000.0

  /** getExponential: a draw at `rate` from the standard variate `unit`; 0 for a non-positive rate. */
  function ExponentialDraw(rate: real, unit: real): (sample: real)
    ensures rate <= 0.0 ==> sample == 0.0
    ensures 0.0 < rate ==> sample * rate == unit
    ensures 0.0 <= unit ==> 0.0 <= sample
  {
    if rate <= 0.0 then 0.0 else (1.0 / rate) * unit
  }

  /**
   * getPacketLength: the average length is converted to the rate 1/averageLength
   * and a draw is taken at that rate; 0 for a non-positive average length.
   */
  function PacketLength(averageLength: real, unit: real): (length: real)
    ensures averageLength <= 0.0 ==> length == 0.0
    ensures 0.0 < averageLength ==> length == unit * averageLength
    ensures 0.0 <= unit ==> 0.0 <= length
  {
    if averageLength <= 0.0 then 0.0
    else
      var rate := 1.0 / averageLength;
      assert rate * averageLength == 1.0;
      (1.0 / rate) * unit
  }

  /** exponentialRateParameter: the arrival rate that yields utilisation `rho`. */
  function ExponentialRateParameter(rho: real, averageLength: real, transmissionRate: real): (rate: real)
    requires averageLength != 0.0
    ensures rate * averageLength == rho * transmissionRate
  {
    (rho * transmissionRate) / averageLength
  }

  /** Utilisation rho = rate * averageLength / transmissionRate (the offered load). */
  function Utilization(rate: real, averageLength: real, transmissionRate: real): real
    requires transmissionRate != 0.0
  {
    (rate * averageLength) / transmissionRate
  }

  /** Choosing the rate for a utilisation and measuring that rate's utilisation gives the utilisation back. */
  lemma UtilizationOfRateParameter(rho: real, averageLength: real, transmissionRate: real)
    requires averageLength != 0.0 && transmissionRate != 0.0
    ensures Utilization(ExponentialRateParameter(rho, averageLength, transmissionRate), averageLength, transmissionRate) == rho
  {
    var rate := ExponentialRateParameter(rho, averageLength, transmissionRate);
    assert rate * averageLength == rho * transmissionRate;
  }

  /** Conversely, the rate parameter of a rate's utilisation is that rate. */
  lemma RateParameterOfUtilization(rate: real, averageLength: real, transmissionRate: real)
    requires averageLength != 0.0 && transmissionRate != 0.0
    ensures ExponentialRateParameter(Utilization(rate, averageLength, transmissionRate), averageLength, transmissionRate) == rate
  {
    var rho := Utilization(rate, averageLength, transmissionRate);
    assert rho * transmissionRate == rate * averageLength;
  }
}
